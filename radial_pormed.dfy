/** The radial porous medium of pormed/_radial_pormed.py: a cylinder of radius and
    height given in feet and stored in metres, with a surface (the disc of the
    radius) and a volume computed on first read and cached from then on. */
module RadialPorousMedium {
  import opened Results
  import opened Units
  import opened RealArith

  /** Checks a `size` argument and completes it to (radius, height) in feet: a
      non-tuple is a TypeError, a tuple of 0 or more than 2 numbers a ValueError;
      otherwise the given numbers are kept and a missing height is 1 ft. */
  function ParseSize(value: SizeValue): (r: Result<(real, real), SizeError>)
    ensures r == Failure(TypeError) <==> value.NotATuple?
    ensures r == Failure(ValueError) <==> value.TupleOf? && (|value.items| == 0 || |value.items| > 2)
    ensures r.Success? ==>
              var d := [r.value.0, r.value.1];
              1 <= |value.items| <= 2 && value.items == d[..|value.items|] &&
              (|value.items| == 1 ==> r.value.1 == 1.0)
  {
    match value
    case NotATuple => Failure(TypeError)
    case TupleOf(items) =>
      if |items| == 0 || |items| > 2 then Failure(ValueError)
      else Success((items[0], if |items| == 2 then items[1] else 1.0))
  }

  /** The disc area π·r² of a radius, in the radius' unit squared: never
      negative, and positive for a nonzero radius. */
  function DiscArea(r: real): (a: real)
    ensures a >= 0.0
    ensures r != 0.0 ==> a > 0.0
  {
    PI * Square(r)
  }

  class RadPorMed {
    var radiusM: real           // _radius, metres
    var heightM: real           // _height, metres
    var sizeM: (real, real)     // _size, metres
    // The cached `_surface` (m²) and `_volume` (m³); None while the attribute
    // does not exist yet.
    var surface: Option<real>
    var volume: Option<real>

    /** The object before `__init__` has assigned its size: nothing cached. */
    constructor ()
      ensures surface == None && volume == None
    {
      surface := None;
      volume := None;
    }

    /** `RadPorMed(size)`: the constructor assigns the size through the setter and
        raises what the setter raises. */
    static method Create(size: SizeValue) returns (r: Result<RadPorMed, SizeError>)
      ensures r.Failure? <==> ParseSize(size).Failure?
      ensures r.Failure? ==> r.error == ParseSize(size).error
      ensures r.Success? ==> fresh(r.value) && r.value.Size() == ParseSize(size).value
      ensures r.Success? ==> r.value.sizeM == (r.value.radiusM, r.value.heightM)
      ensures r.Success? ==> r.value.surface == None && r.value.volume == None
    {
      var medium := new RadPorMed();
      var outcome := medium.SetSize(size);
      if outcome.Fail? {
        return Failure(outcome.error);
      }
      return Success(medium);
    }

    /** The `size` getter: (radius, height) in feet, read back from the stored
        metre values. */
    function Size(): (r: (real, real))
      reads this
      ensures (ToMetres(r.0), ToMetres(r.1)) == (radiusM, heightM)
    {
      (Radius(), Height())
    }

    /** The `size` setter.  A rejected argument raises before any field is
        assigned; an accepted one sets radius and height (a missing height to
        1 ft) and records the metre pair in `_size`.  The cached surface and
        volume are left as they were. */
    method SetSize(value: SizeValue) returns (res: Outcome<SizeError>)
      modifies this`radiusM, this`heightM, this`sizeM
      ensures res.Fail? <==> ParseSize(value).Failure?
      ensures res.Fail? ==> res.error == ParseSize(value).error
      ensures res.Fail? ==> unchanged(this`radiusM, this`heightM, this`sizeM)
      ensures res.Pass? ==> Size() == ParseSize(value).value
      ensures res.Pass? ==> sizeM == (radiusM, heightM)
      ensures unchanged(this`surface, this`volume)
    {
      if !value.TupleOf? {
        return Fail(TypeError);
      }
      if |value.items| == 0 || |value.items| > 2 {
        return Fail(ValueError);
      }
      SetRadius(value.items[0]);
      SetHeight(if |value.items| == 2 then value.items[1] else 1.0);
      sizeM := (radiusM, heightM);
      res := Pass;
    }

    /** The `radius` getter: the stored metres read back in feet. */
    function Radius(): (ft: real)
      reads this
      ensures ToMetres(ft) == radiusM
    {
      radiusM / FT_TO_METER
    }

    /** The `radius` setter: stores the radius in metres; reading it back gives
        the value set.  Only `_radius` changes (not `_size`). */
    method SetRadius(ft: real)
      modifies this`radiusM
      ensures radiusM == ToMetres(ft)
      ensures Radius() == ft
    {
      radiusM := ft * FT_TO_METER;
    }

    /** The `height` getter: the stored metres read back in feet. */
    function Height(): (ft: real)
      reads this
      ensures ToMetres(ft) == heightM
    {
      heightM / FT_TO_METER
    }

    /** The `height` setter: stores the height in metres; reading it back gives
        the value set. */
    method SetHeight(ft: real)
      modifies this`heightM
      ensures heightM == ToMetres(ft)
      ensures Height() == ft
    {
      heightM := ft * FT_TO_METER;
    }

    /** The `surface` setter (its argument is ignored): caches the disc area
        π·radius² of the current size, in m². */
    method SetSurface()
      modifies this`surface
      ensures surface.Some? && surface.value == DiscArea(radiusM)
    {
      surface := Some(PI * radiusM * radiusM);
    }

    /** The `surface` getter: computes the disc area on first read only, and
        returns the cached value in ft² ever after, whatever the size is now. */
    method Surface() returns (ft2: real)
      modifies this`surface
      ensures old(surface).Some? ==> surface == old(surface)
      ensures old(surface).None? ==> surface.Some? && surface.value == DiscArea(radiusM) &&
                                     ft2 == DiscArea(Radius())
      ensures surface.Some? && ft2 == SquareMetresToFeet(surface.value)
    {
      if surface.None? {
        SetSurface();
      }
      ft2 := surface.value / (FT_TO_METER * FT_TO_METER);
    }

    /** The `volume` setter (its argument is ignored): caches π·radius²·height of
        the current size, in m³. */
    method SetVolume()
      modifies this`volume
      ensures volume.Some? && volume.value == DiscArea(radiusM) * heightM
    {
      volume := Some(PI * radiusM * radiusM * heightM);
    }

    /** The `volume` getter: computes the volume on first read only, and returns
        the cached value in ft³ ever after.  Computed from the same size as a
        cached surface, it is that surface times the height. */
    method Volume() returns (ft3: real)
      modifies this`volume
      ensures old(volume).Some? ==> volume == old(volume)
      ensures old(volume).None? ==> volume.Some? && volume.value == DiscArea(radiusM) * heightM &&
                                    ft3 == DiscArea(Radius()) * Height()
      ensures old(volume).None? && surface.Some? && surface.value == DiscArea(radiusM) ==>
                volume.value == surface.value * heightM
      ensures volume.Some? && ft3 == CubicMetresToFeet(volume.value)
    {
      if volume.None? {
        SetVolume();
      }
      ft3 := volume.value / (FT_TO_METER * FT_TO_METER * FT_TO_METER);
    }
  }
}
