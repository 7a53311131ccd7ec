/** The linear porous medium of pormed/_linear_pormed.py: a box of length, width
    and height given in feet and stored in metres, with a cross-sectional area,
    a surface and a volume computed on first read and cached from then on. */
module LinearPorousMedium {
  import opened Results
  import opened Units

  /** Checks a `size` argument and completes it to (length, width, height) in feet:
      a non-tuple is a TypeError, a tuple of 0 or more than 3 numbers a ValueError;
      otherwise the given numbers are kept and the missing ones are 1 ft. */
  function ParseSize(value: SizeValue): (r: Result<(real, real, real), SizeError>)
    ensures r == Failure(TypeError) <==> value.NotATuple?
    ensures r == Failure(ValueError) <==> value.TupleOf? && (|value.items| == 0 || |value.items| > 3)
    ensures r.Success? ==>
              var d := [r.value.0, r.value.1, r.value.2];
              1 <= |value.items| <= 3 && value.items == d[..|value.items|] &&
              forall i :: |value.items| <= i < 3 ==> d[i] == 1.0
  {
    match value
    case NotATuple => Failure(TypeError)
    case TupleOf(items) =>
      if |items| == 0 || |items| > 3 then Failure(ValueError)
      else
        var width := if |items| > 1 then items[1] else 1.0;
        var height := if |items| > 2 then items[2] else 1.0;
        Success((items[0], width, height))
  }

  class LinPorMed {
    var lengthM: real                   // _length, metres
    var widthM: real                    // _width, metres
    var heightM: real                   // _height, metres
    var sizeM: (real, real, real)       // _size, metres
    // The cached `_area`, `_surface` and `_volume` (m², m², m³); None while the
    // attribute does not exist yet.
    var area: Option<real>
    var surface: Option<real>
    var volume: Option<real>

    /** The object before `__init__` has assigned its size: no geometry cached. */
    constructor ()
      ensures area == None && surface == None && volume == None
    {
      area := None;
      surface := None;
      volume := None;
    }

    /** `LinPorMed(size)`: the constructor assigns the size through the setter and
        raises what the setter raises. */
    static method Create(size: SizeValue) returns (r: Result<LinPorMed, SizeError>)
      ensures r.Failure? <==> ParseSize(size).Failure?
      ensures r.Failure? ==> r.error == ParseSize(size).error
      ensures r.Success? ==> fresh(r.value) && r.value.Size() == ParseSize(size).value
      ensures r.Success? ==> r.value.sizeM == (r.value.lengthM, r.value.widthM, r.value.heightM)
      ensures r.Success? ==> r.value.area == None && r.value.surface == None && r.value.volume == None
    {
      var medium := new LinPorMed();
      var outcome := medium.SetSize(size);
      if outcome.Fail? {
        return Failure(outcome.error);
      }
      return Success(medium);
    }

    /** The `size` getter: (length, width, height) in feet, read back from the
        stored metre values. */
    function Size(): (r: (real, real, real))
      reads this
      ensures (ToMetres(r.0), ToMetres(r.1), ToMetres(r.2)) == (lengthM, widthM, heightM)
    {
      (Length(), Width(), Height())
    }

    /** The `size` setter.  A rejected argument raises before any field is
        assigned; an accepted one sets length, width and height (missing ones to
        1 ft) and records the metre triple in `_size`.  The cached area, surface
        and volume are left as they were. */
    method SetSize(value: SizeValue) returns (res: Outcome<SizeError>)
      modifies this`lengthM, this`widthM, this`heightM, this`sizeM
      ensures res.Fail? <==> ParseSize(value).Failure?
      ensures res.Fail? ==> res.error == ParseSize(value).error
      ensures res.Fail? ==> unchanged(this`lengthM, this`widthM, this`heightM, this`sizeM)
      ensures res.Pass? ==> Size() == ParseSize(value).value
      ensures res.Pass? ==> sizeM == (lengthM, widthM, heightM)
      ensures unchanged(this`area, this`surface, this`volume)
    {
      if !value.TupleOf? {
        return Fail(TypeError);
      }
      if |value.items| == 0 || |value.items| > 3 {
        return Fail(ValueError);
      }
      SetLength(value.items[0]);
      SetWidth(if |value.items| > 1 then value.items[1] else 1.0);
      SetHeight(if |value.items| > 2 then value.items[2] else 1.0);
      sizeM := (lengthM, widthM, heightM);
      res := Pass;
    }

    /** The `length` getter: the stored metres read back in feet. */
    function Length(): (ft: real)
      reads this
      ensures ToMetres(ft) == lengthM
    {
      lengthM / FT_TO_METER
    }

    /** The `length` setter: stores the length in metres; reading it back gives
        the value set.  Only `_length` changes (not `_size`). */
    method SetLength(ft: real)
      modifies this`lengthM
      ensures lengthM == ToMetres(ft)
      ensures Length() == ft
    {
      lengthM := ft * FT_TO_METER;
    }

    /** The `width` getter: the stored metres read back in feet. */
    function Width(): (ft: real)
      reads this
      ensures ToMetres(ft) == widthM
    {
      widthM / FT_TO_METER
    }

    /** The `width` setter: stores the width in metres; reading it back gives the
        value set. */
    method SetWidth(ft: real)
      modifies this`widthM
      ensures widthM == ToMetres(ft)
      ensures Width() == ft
    {
      widthM := ft * FT_TO_METER;
    }

    /** The `height` getter: the stored metres read back in feet. */
    function Height(): (ft: real)
      reads this
      ensures ToMetres(ft) == heightM
    {
      heightM / FT_TO_METER
    }

    /** The `height` setter: stores the height in metres; reading it back gives
        the value set. */
    method SetHeight(ft: real)
      modifies this`heightM
      ensures heightM == ToMetres(ft)
      ensures Height() == ft
    {
      heightM := ft * FT_TO_METER;
    }

    /** The `area` setter (its argument is ignored): caches the cross-section
        height × width of the current size, in m². */
    method SetArea()
      modifies this`area
      ensures area.Some? && area.value == heightM * widthM
    {
      area := Some(heightM * widthM);
    }

    /** The `area` getter: computes the cross-section on first read only, and
        returns the cached value in ft² ever after, whatever the size is now. */
    method Area() returns (ft2: real)
      modifies this`area
      ensures old(area).Some? ==> area == old(area)
      ensures old(area).None? ==> area.Some? && area.value == heightM * widthM && ft2 == Width() * Height()
      ensures area.Some? && ft2 == SquareMetresToFeet(area.value)
    {
      if area.None? {
        SetArea();
      }
      ft2 := area.value / (FT_TO_METER * FT_TO_METER);
    }

    /** The `surface` setter (its argument is ignored): caches the surface
        length × width of the current size, in m². */
    method SetSurface()
      modifies this`surface
      ensures surface.Some? && surface.value == lengthM * widthM
    {
      surface := Some(lengthM * widthM);
    }

    /** The `surface` getter: computes the surface on first read only, and returns
        the cached value in ft² ever after. */
    method Surface() returns (ft2: real)
      modifies this`surface
      ensures old(surface).Some? ==> surface == old(surface)
      ensures old(surface).None? ==> surface.Some? && surface.value == lengthM * widthM && ft2 == Length() * Width()
      ensures surface.Some? && ft2 == SquareMetresToFeet(surface.value)
    {
      if surface.None? {
        SetSurface();
      }
      ft2 := surface.value / (FT_TO_METER * FT_TO_METER);
    }

    /** The `volume` setter (its argument is ignored): caches the volume
        length × height × width of the current size, in m³. */
    method SetVolume()
      modifies this`volume
      ensures volume.Some? && volume.value == lengthM * heightM * widthM
    {
      volume := Some(lengthM * heightM * widthM);
    }

    /** The `volume` getter: computes the volume on first read only, and returns
        the cached value in ft³ ever after. */
    method Volume() returns (ft3: real)
      modifies this`volume
      ensures old(volume).Some? ==> volume == old(volume)
      ensures old(volume).None? ==> volume.Some? && volume.value == lengthM * heightM * widthM &&
                                    ft3 == Length() * Width() * Height()
      ensures volume.Some? && ft3 == CubicMetresToFeet(volume.value)
    {
      if volume.None? {
        SetVolume();
      }
      ft3 := volume.value / (FT_TO_METER * FT_TO_METER * FT_TO_METER);
    }
  }
}
