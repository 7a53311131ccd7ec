/** Unit conversion and argument types shared by the porous-medium geometry classes
    (pormed/_linear_pormed.py and pormed/_radial_pormed.py). */
module Units {

  /** Metres per foot; `_FT_TO_METER` in both geometry classes. */
  const FT_TO_METER: real := 0.3048

  /** The shortest decimal that rounds to the double `numpy.pi`; no proof depends on
      its digits. */
  const PI: real := 3.141592653589793

  /** A length in feet as stored internally, in metres (the setters multiply by FT_TO_METER). */
  function ToMetres(ft: real): (m: real)
    ensures ToFeet(m) == ft
    ensures m > 0.0 <==> ft > 0.0
  {
    ft * FT_TO_METER
  }

  /** A stored length in metres, read back in feet (the getters divide by FT_TO_METER). */
  function ToFeet(m: real): (ft: real)
    ensures ft * FT_TO_METER == m
  {
    m / FT_TO_METER
  }

  /** An area in square metres, read back in square feet. */
  function SquareMetresToFeet(a: real): (ft2: real)
    ensures ft2 * (FT_TO_METER * FT_TO_METER) == a
  {
    a / (FT_TO_METER * FT_TO_METER)
  }

  /** A volume in cubic metres, read back in cubic feet (Python's `_FT_TO_METER**3`). */
  function CubicMetresToFeet(v: real): (ft3: real)
    ensures ft3 * (FT_TO_METER * FT_TO_METER * FT_TO_METER) == v
  {
    v / (FT_TO_METER * FT_TO_METER * FT_TO_METER)
  }

  /** An area cached as the product of two lengths stored in metres reads back, in
      square feet, as the product of the two lengths in feet. */
  lemma AreaReadBack(x: real, y: real)
    ensures SquareMetresToFeet(ToMetres(x) * ToMetres(y)) == x * y
  {
  }

  /** A volume cached as the product of three lengths stored in metres reads back,
      in cubic feet, as the product of the three lengths in feet. */
  lemma VolumeReadBack(x: real, y: real, z: real)
    ensures CubicMetresToFeet(ToMetres(x) * ToMetres(y) * ToMetres(z)) == x * y * z
  {
  }

  /** The dynamically typed argument of a `size` setter: a tuple of numbers, or anything else. */
  datatype SizeValue = TupleOf(items: seq<real>) | NotATuple

  /** The exceptions a `size` setter raises: TypeError for a non-tuple,
      ValueError for a tuple of the wrong length. */
  datatype SizeError = TypeError | ValueError
}
