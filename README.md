# Material-balance tank, pot aquifer and porous-medium geometry

This project models, in Dafny, the core of a small reservoir-engineering
package:

- **The material-balance tank** (`MaterialBalance.Tank`, build/lib/mbal/_tank.py).
  - The constructor stores nine static parameters: initial pressure, oil in place,
    gas-cap gas, initial volume factors, solubility, compressibilities and water
    saturation.
  - Calling the tank overwrites a nine-field dynamic snapshot in place and
    returns the same object.
  - From those fields the tank derives the gas-cap ratio `m`, the storage
    parameter `s`, the two-phase volume factor `Bt` and the voidage `A`.
  - It also derives the depletion, segregation, water and expansion drive
    indices and their sum `total`.
  - The history-match objective is `(total - 1)**2`.
- **The pot aquifer** (`Aquifer.WaterInfluxModel`, mbal/_aquifer.py). Its influx
  is `(cw + cf)·K·(Pi - P)`.
- **The linear porous medium** (`LinearPorousMedium.LinPorMed`,
  pormed/_linear_pormed.py).
  - It is a box whose length, width and height are given in feet and stored in
    metres.
  - A `size` setter validates and completes its argument.
  - The area, surface and volume are computed on first read and cached.
- **The radial porous medium** (`RadialPorousMedium.RadPorMed`,
  pormed/_radial_pormed.py). It follows the linear medium's pattern for a
  cylinder of radius and height: its size takes one or two numbers, and it
  caches a surface (the disc π·r²) and a volume but has no area.

Python floats are modelled as `real`. Every division the code performs carries
a precondition that its divisor is nonzero: `N·Boi`, `1 - Swi`, `Np`, `A` and
`Bgi`. The exceptions the `size` setters raise are modelled as `Result`/`Outcome`
values, and a rejected size leaves every field as it was. Objects whose
attributes the code assigns over time are classes with `modifies` frames. An
attribute that does not exist yet is modelled as follows:
- the tank's snapshot is guarded by the `hasState` flag;
- the geometry caches are `Option` fields that start as `None`.

Files:
- `results.dfy`: the `Option`/`Result`/`Outcome` wrappers.
- `units.dfy`: the feet/metre conversion, π and the size argument and error types.
- `arith.dfy`: the sign and cancellation facts about real products and quotients
  used by the proofs.
- `tank.dfy`, `aquifer.dfy`, `linear_pormed.dfy` and `radial_pormed.dfy`: one file
  per source file.

Where the source's documentation and its code differ, the model follows the code:
- The class documentation of the tank (build/lib/mbal/_tank.py:8) says that
  calling a tank creates a *new* state. The code assigns the snapshot to the
  object itself and returns `self`, and `Tank.Call` does the same.

Two behaviours of the geometry classes that the model keeps as written:
- The linear and radial `size` setters do not clear the cached area, surface or
  volume, and `SetSize` leaves the caches unchanged. A medium that is resized
  keeps returning, for each of area, surface and volume, the value computed
  from the size in force at its first read.
- The `length`/`width`/`height`/`radius` setters do not update `_size`. Only the
  `size` setter records the metre triple (the pair for the radial medium).

## Model

| member | source | states |
|---|---|---|
| MaterialBalance.Tank.constructor | build/lib/mbal/_tank.py:12-22 | the nine static parameters are stored exactly as given, with no validation, and no snapshot exists yet |
| MaterialBalance.Tank.Call | build/lib/mbal/_tank.py:34-50 | the nine dynamic fields equal the arguments, the nine static fields are unchanged, and the result is the same object |
| MaterialBalance.Tank.m | build/lib/mbal/_tank.py:24-27 | m·(N·Boi) = G·Bgi; no gas cap (G = 0) gives m = 0; m ≥ 0 for a positive oil-zone volume and a nonnegative gas-cap volume |
| MaterialBalance.Tank.s | build/lib/mbal/_tank.py:29-32 | s·(1 - Swi) equals the initial hydrocarbon pore volume N·Boi + G·Bgi times cw·Swi + cf, so N·Boi·(1+m) is that pore volume |
| MaterialBalance.StorageNonnegative | build/lib/mbal/_tank.py:29-32 | s ≥ 0 whenever N, Boi > 0, G, Bgi ≥ 0, cw, cf ≥ 0 and 0 ≤ Swi < 1 |
| MaterialBalance.EffectiveCompressibility | build/lib/mbal/_tank.py:29-32 | the factor (cw·Swi + cf)/(1 - Swi) of s satisfies ce·(1 - Swi) = cw·Swi + cf, and is ≥ 0 for cw, cf ≥ 0 and 0 ≤ Swi < 1 |
| MaterialBalance.CompressibilitySign | build/lib/mbal/_tank.py:29-32 | any ce with ce·(1 - Swi) = cw·Swi + cf is ≥ 0 for cw, cf ≥ 0 and 0 ≤ Swi < 1 |
| MaterialBalance.StorageIsPoreVolumeTimesCompressibility | build/lib/mbal/_tank.py:29-32 | s equals the initial hydrocarbon pore volume N·Boi + G·Bgi times the effective compressibility |
| MaterialBalance.Tank.Bt | build/lib/mbal/_tank.py:52-55 | Bt = Bo when Rs = Rsi (the `Bti = Boi` remark); Bt ≥ Bo when Rs ≤ Rsi and Bg ≥ 0 |
| MaterialBalance.Tank.A | build/lib/mbal/_tank.py:57-60 | for Np ≠ 0, A = Np·Bt + (Gp - Np·Rsi)·Bg = Np·Bo + (Gp - Np·Rs)·Bg |
| MaterialBalance.Tank.DDI | build/lib/mbal/_tank.py:62-65 | DDI·A = N·(Bt - Boi); a snapshot with Bo = Boi and Rs = Rsi has DDI = 0 |
| MaterialBalance.Tank.SDI | build/lib/mbal/_tank.py:67-70 | SDI·A = G·(Bg - Bgi), because N·m·Boi/Bgi = G; m = 0 ⇒ SDI = 0; Bg = Bgi ⇒ SDI = 0 |
| MaterialBalance.GasCapShare | build/lib/mbal/_tank.py:67-70 | the segregation numerator N·m·Boi·(Bg - Bgi)/Bgi is G·(Bg - Bgi) whenever m·(N·Boi) = G·Bgi; it is 0 for m = 0 or Bg = Bgi |
| MaterialBalance.Tank.WDI | build/lib/mbal/_tank.py:72-75 | WDI·A = We - Wp·Bw; We = Wp·Bw ⇒ WDI = 0 |
| MaterialBalance.Tank.EDI | build/lib/mbal/_tank.py:77-80 | EDI·A = s·(Pi - P); P = Pi ⇒ EDI = 0 |
| MaterialBalance.Tank.Expansion | build/lib/mbal/_tank.py:62-85 | the material-balance numerator (the drive indices' numerators summed) is 0 at the initial fluid state and pressure when the water influx is all produced |
| MaterialBalance.Tank.Total | build/lib/mbal/_tank.py:82-85 | total·A equals the material-balance numerator N(Bt-Boi) + G(Bg-Bgi) + We - Wp·Bw + s(Pi-P) |
| MaterialBalance.TotalIsOneIffBalanced | build/lib/mbal/_tank.py:62-85 | total = 1 exactly when that numerator equals A |
| MaterialBalance.Objective | build/lib/mbal/_tank.py:115 | (total-1)² is ≥ 0, is 0 when total = 1 and is > 0 otherwise |
| MaterialBalance.ObjectiveZeroIffBalanced | build/lib/mbal/_tank.py:102-115 | the objective of a tank's total is 0 exactly when the tank is in material balance |
| MaterialBalance.ExpansionLinearInN | build/lib/mbal/_tank.py:62-85 | the numerator is N times the oil-zone expansion plus G times the gas-cap expansion plus the net water influx |
| MaterialBalance.BalancingOilInPlace | build/lib/mbal/_tank.py:87-117 | history matching on N: total = 1 exactly when N = (A - G·Eg - (We - Wp·Bw))/Eo, for a nonzero oil-zone expansion Eo |
| Aquifer.WaterInfluxModel.constructor | mbal/_aquifer.py:3-7 | Pi, cw and cf are stored unchanged |
| Aquifer.WaterInfluxModel.PotModel | mbal/_aquifer.py:9-11 | the influx is 0 at the initial pressure and for an empty aquifer; as a function it changes no field |
| Aquifer.PotModelNonnegative | mbal/_aquifer.py:11 | the influx is ≥ 0 when P ≤ Pi, K ≥ 0 and cw + cf ≥ 0 |
| Aquifer.PotModelLinearInK | mbal/_aquifer.py:11 | potmodel(P, a·K) = a·potmodel(P, K) |
| Aquifer.PotModelNonIncreasing | mbal/_aquifer.py:11 | potmodel(P1) - potmodel(P2) = (cw+cf)·K·(P2-P1), so for (cw+cf)·K ≥ 0 the influx does not increase with P |
| Units.ToMetres | pormed/_linear_pormed.py:41-44 | storing ×0.3048 is undone by reading ÷0.3048, and keeps the sign |
| Units.ToFeet | pormed/_linear_pormed.py:36-39 | reading ÷0.3048 is undone by ×0.3048 |
| Units.SquareMetresToFeet | pormed/_linear_pormed.py:72 | the ÷0.3048² read-back of an area or surface in square feet (also pormed/_linear_pormed.py:85 and pormed/_radial_pormed.py:63); what it does to a cached product of metre lengths is stated by `AreaReadBack` |
| Units.AreaReadBack | pormed/_linear_pormed.py:72 | an area cached as the product of two lengths stored in metres (×0.3048 each) reads back through `SquareMetresToFeet` (÷0.3048²) as the product of the two lengths in feet; as the area and surface setters and getters do (also pormed/_linear_pormed.py:77, :85, :90) |
| Units.CubicMetresToFeet | pormed/_linear_pormed.py:98 | the ÷0.3048³ read-back of a volume in cubic feet (also pormed/_radial_pormed.py:76); what it does to a cached product of metre lengths is stated by `VolumeReadBack` |
| Units.VolumeReadBack | pormed/_linear_pormed.py:98 | a volume cached as the product of three lengths stored in metres reads back through `CubicMetresToFeet` (÷0.3048³) as the product of the three lengths in feet; as the linear volume setter and getter do (also pormed/_linear_pormed.py:103) |
| LinearPorousMedium.ParseSize | pormed/_linear_pormed.py:25-32 | TypeError exactly for a non-tuple; ValueError exactly for 0 or more than 3 items; otherwise the given items are kept in order and the missing ones are 1.0 |
| LinearPorousMedium.LinPorMed.constructor | pormed/_linear_pormed.py:6-15 | a fresh medium has no cached area, surface or volume |
| LinearPorousMedium.LinPorMed.Create | pormed/_linear_pormed.py:6-15 | construction fails with exactly the setter's error; on success the size reads back as the completed argument and `_size` holds the metre triple |
| LinearPorousMedium.LinPorMed.Size | pormed/_linear_pormed.py:17-20 | the getter's triple, converted to metres, is (_length, _width, _height) |
| LinearPorousMedium.LinPorMed.SetSize | pormed/_linear_pormed.py:22-34 | a rejected size raises the error ParseSize names and changes nothing; an accepted one makes `size` read back the completed argument and `_size` equal the metre triple; caches untouched |
| LinearPorousMedium.LinPorMed.Length | pormed/_linear_pormed.py:36-39 | the feet value converts back to the stored `_length` |
| LinearPorousMedium.LinPorMed.SetLength | pormed/_linear_pormed.py:41-44 | stores the length in metres; the getter then returns exactly the value set |
| LinearPorousMedium.LinPorMed.Width | pormed/_linear_pormed.py:46-49 | the feet value converts back to the stored `_width` |
| LinearPorousMedium.LinPorMed.SetWidth | pormed/_linear_pormed.py:51-54 | stores the width in metres; the getter then returns exactly the value set |
| LinearPorousMedium.LinPorMed.Height | pormed/_linear_pormed.py:56-59 | the feet value converts back to the stored `_height` |
| LinearPorousMedium.LinPorMed.SetHeight | pormed/_linear_pormed.py:61-64 | stores the height in metres; the getter then returns exactly the value set |
| LinearPorousMedium.LinPorMed.SetArea | pormed/_linear_pormed.py:74-77 | caches `_area` = _height·_width of the current size |
| LinearPorousMedium.LinPorMed.Area | pormed/_linear_pormed.py:66-72 | first read caches _height·_width and returns width·height in ft²; later reads return the cached value unchanged |
| LinearPorousMedium.LinPorMed.SetSurface | pormed/_linear_pormed.py:87-90 | caches `_surface` = _length·_width of the current size |
| LinearPorousMedium.LinPorMed.Surface | pormed/_linear_pormed.py:79-85 | first read caches _length·_width and returns length·width in ft²; later reads return the cached value unchanged |
| LinearPorousMedium.LinPorMed.SetVolume | pormed/_linear_pormed.py:100-103 | caches `_volume` = _length·_height·_width of the current size |
| LinearPorousMedium.LinPorMed.Volume | pormed/_linear_pormed.py:92-98 | first read caches the box volume and returns length·width·height in ft³; later reads return the cached value unchanged |
| RadialPorousMedium.ParseSize | pormed/_radial_pormed.py:27-33 | TypeError exactly for a non-tuple; ValueError exactly for 0 or more than 2 items; otherwise the items are kept and a missing height is 1.0 |
| RadialPorousMedium.DiscArea | pormed/_radial_pormed.py:68 | π·r² is ≥ 0, and > 0 for a nonzero radius |
| RadialPorousMedium.RadPorMed.constructor | pormed/_radial_pormed.py:8-17 | a fresh medium has no cached surface or volume |
| RadialPorousMedium.RadPorMed.Create | pormed/_radial_pormed.py:8-17 | construction fails with exactly the setter's error; on success the size reads back as the completed argument and `_size` holds the metre pair |
| RadialPorousMedium.RadPorMed.Size | pormed/_radial_pormed.py:19-22 | the getter's pair, converted to metres, is (_radius, _height) |
| RadialPorousMedium.RadPorMed.SetSize | pormed/_radial_pormed.py:24-35 | a rejected size raises the error ParseSize names and changes nothing; an accepted one makes `size` read back the completed argument and `_size` equal the metre pair; caches untouched |
| RadialPorousMedium.RadPorMed.Radius | pormed/_radial_pormed.py:37-40 | the feet value converts back to the stored `_radius` |
| RadialPorousMedium.RadPorMed.SetRadius | pormed/_radial_pormed.py:42-45 | stores the radius in metres; the getter then returns exactly the value set |
| RadialPorousMedium.RadPorMed.Height | pormed/_radial_pormed.py:47-50 | the feet value converts back to the stored `_height` |
| RadialPorousMedium.RadPorMed.SetHeight | pormed/_radial_pormed.py:52-55 | stores the height in metres; the getter then returns exactly the value set |
| RadialPorousMedium.RadPorMed.SetSurface | pormed/_radial_pormed.py:65-68 | caches `_surface` = π·_radius² of the current size |
| RadialPorousMedium.RadPorMed.Surface | pormed/_radial_pormed.py:57-63 | first read caches π·_radius² and returns π·radius² in ft²; later reads return the cached value unchanged |
| RadialPorousMedium.RadPorMed.SetVolume | pormed/_radial_pormed.py:78-81 | caches `_volume` = π·_radius²·_height of the current size |
| RadialPorousMedium.RadPorMed.Volume | pormed/_radial_pormed.py:70-76 | first read caches π·_radius²·_height and returns π·radius²·height in ft³; when the cached surface is that of the current size, the volume is the surface times the height; later reads return the cached value unchanged |

## Left out

- `Tank.minimize` (build/lib/mbal/_tank.py:87-117) is left out, except for its objective.
  - It hands the search to `scipy.optimize.minimize`, which is a foreign numerical optimiser.
  - It uses `self.initial()`, `self.current()`, `update_fluid_volumes()` and
    `Cruncher.total_drive_index`, none of which is defined in the modelled files.
  - The objective is therefore modelled on the tank's own `total`
    (`ObjectiveZeroIffBalanced`), and history matching on N is stated as a lemma
    (`BalancingOilInPlace`) rather than as a search.
- Python floats are modelled as exact reals, and rounding is not modelled.
- A division by zero is not modelled. With Python ints and floats it raises
  ZeroDivisionError, for example `Gp/Np` in `A` (build/lib/mbal/_tank.py:60) at
  a snapshot with Np = 0, or the division by `A` in the drive indices
  (build/lib/mbal/_tank.py:65-80) when A = 0. Only numpy scalars give an
  infinity or NaN instead. Every division in the model requires a nonzero
  divisor, which excludes both outcomes.
- MaterialBalance.Tank.Bt, `A`, `DDI`, `SDI`, `WDI`, `EDI`, `Expansion` and
  `Total` require `hasState`. In Python, reading them before the first call
  raises AttributeError, because the snapshot attributes do not exist yet;
  that error path is excluded by the precondition rather than modelled.
- LinearPorousMedium.LinPorMed.SetLength, `SetWidth`, `SetHeight`,
  RadialPorousMedium.RadPorMed.SetRadius, `SetHeight`, both `Size` getters and
  both `Create` methods promise that a value reads back exactly as it was set.
  That holds over the reals only: with doubles, ×0.3048 then ÷0.3048 need not
  give back the value (7 ft reads back as 6.999999999999999).
- `numpy.pi` is modelled as 3.141592653589793, the shortest decimal that rounds
  to the double `numpy.pi`, not its exact binary value. No proof depends on
  its digits.
- The size argument is modelled as a tuple of reals or as a non-tuple.
  - A tuple holding non-numbers, which in Python fails part-way through the
    setter, is not modelled.
  - Python's distinction between ints and floats is not modelled either.
- The `area`, `surface` and `volume` setters take an argument and ignore it. The
  model's `SetArea`, `SetSurface` and `SetVolume` take none.
- The `if __name__ == "__main__"` demonstration blocks are not modelled. The two
  geometry blocks print values; the aquifer's block prints nothing and calls an
  undefined name (`WaterInflux`).
- The commented-out Van Everdingen-Hurst influx in mbal/_aquifer.py is not code
  and is not modelled.
- The rest of the repository is not part of this model: the transient and
  steady solvers, the package `__init__` files and `setup.py`.
