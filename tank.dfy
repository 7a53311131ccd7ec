/** The material-balance tank (build/lib/mbal/_tank.py): a zero-dimensional reservoir
    whose static parameters are fixed at construction and whose dynamic snapshot
    (pressure, cumulative production and influx, fluid properties) is overwritten
    by each call.  From those fields it derives the gas-cap ratio m, the storage
    parameter s, the two-phase volume factor Bt, the voidage A and the four drive
    indices, whose sum is 1 for a tank in material balance.

    Python floats become `real`; every division the code performs carries a
    precondition that its divisor is nonzero. */
module MaterialBalance {
  import opened RealArith

  class Tank {
    // Static parameters, set once by the constructor.
    var Pi: real   // initial pressure, psi
    var N: real    // initial oil in place, STB
    var G: real    // initial gas-cap gas, scf
    var Boi: real  // initial oil formation volume factor, bbl/STB
    var Bgi: real  // initial gas formation volume factor, bbl/scf
    var Rsi: real  // initial gas solubility, scf/STB
    var cw: real   // water compressibility, 1/psi
    var cf: real   // formation (rock) compressibility, 1/psi
    var Swi: real  // initial water saturation

    // The dynamic snapshot.  In Python these attributes only exist after the
    // first call; `hasState` records whether that call has happened.
    var hasState: bool
    var P: real    // volumetric average reservoir pressure, psi
    var We: real   // cumulative water influx, bbl
    var Np: real   // cumulative oil produced, STB
    var Gp: real   // cumulative gas produced, scf
    var Wp: real   // cumulative water produced, bbl
    var Bo: real   // oil formation volume factor, bbl/STB
    var Bw: real   // water formation volume factor, bbl/STB
    var Bg: real   // gas formation volume factor, bbl/scf
    var Rs: real   // gas solubility, scf/STB

    /** `Tank(Pi, N, G, Boi, Bgi, Rsi, cw, cf, Swi)`: stores the static parameters
        as given (no validation) and has no snapshot yet. */
    constructor (Pi: real, N: real, G: real, Boi: real, Bgi: real, Rsi: real, cw: real, cf: real, Swi: real)
      ensures this.Pi == Pi && this.N == N && this.G == G
      ensures this.Boi == Boi && this.Bgi == Bgi && this.Rsi == Rsi
      ensures this.cw == cw && this.cf == cf && this.Swi == Swi
      ensures !hasState
    {
      this.Pi := Pi;
      this.N := N;
      this.G := G;
      this.Boi := Boi;
      this.Bgi := Bgi;
      this.Rsi := Rsi;
      this.cw := cw;
      this.cf := cf;
      this.Swi := Swi;
      hasState := false;
    }

    /** `tank(P, We, Np, Gp, Wp, Bo, Bw, Bg, Rs)`: overwrites the snapshot in place
        and returns the same object.  The frame allows only the nine dynamic fields
        to change, so the static parameters are those of before the call. */
    method Call(P: real, We: real, Np: real, Gp: real, Wp: real, Bo: real, Bw: real, Bg: real, Rs: real)
      returns (self: Tank)
      modifies this`hasState, this`P, this`We, this`Np, this`Gp, this`Wp, this`Bo, this`Bw, this`Bg, this`Rs
      ensures self == this && hasState
      ensures this.P == P && this.We == We
      ensures this.Np == Np && this.Gp == Gp && this.Wp == Wp
      ensures this.Bo == Bo && this.Bw == Bw && this.Bg == Bg && this.Rs == Rs
      ensures unchanged(this`Pi, this`N, this`G, this`Boi, this`Bgi, this`Rsi, this`cw, this`cf, this`Swi)
    {
      this.P := P;
      this.We := We;
      this.Np := Np;
      this.Gp := Gp;
      this.Wp := Wp;
      this.Bo := Bo;
      this.Bw := Bw;
      this.Bg := Bg;
      this.Rs := Rs;
      hasState := true;
      self := this;
    }

    /** Ratio of the initial gas-cap reservoir volume to the initial oil-zone
        reservoir volume: m times N·Boi is G·Bgi. */
    function m(): (r: real)
      reads this
      requires N * Boi != 0.0
      ensures r * (N * Boi) == G * Bgi
      ensures G == 0.0 ==> r == 0.0
      ensures N * Boi > 0.0 && G * Bgi >= 0.0 ==> r >= 0.0
    {
      (G * Bgi) / (N * Boi)
    }

    /** Storage parameter (bbl/psi): the initial hydrocarbon pore volume
        N·Boi + G·Bgi times the effective compressibility (cw·Swi + cf)/(1 - Swi);
        it is nonnegative for physically meaningful parameters. */
    function s(): (r: real)
      reads this
      requires N * Boi != 0.0 && Swi != 1.0
      ensures r * (1.0 - Swi) == (N * Boi + G * Bgi) * (cw * Swi + cf)
    {
      var mm := m();
      assert N * Boi * (1.0 + mm) == N * Boi + G * Bgi;
      N * Boi * (1.0 + mm) * (cw * Swi + cf) / (1.0 - Swi)
    }

    /** Total (two-phase) formation volume factor.  It equals Bo when no gas has
        come out of solution (Rs = Rsi), so at the initial snapshot Bt = Boi; below
        the bubble point (Rs <= Rsi) it is at least Bo. */
    function Bt(): (r: real)
      reads this
      requires hasState
      ensures Rs == Rsi ==> r == Bo
      ensures Rs <= Rsi && Bg >= 0.0 ==> r >= Bo
    {
      Bo + (Rsi - Rs) * Bg
    }

    /** Reservoir voidage of the production, written by the code as
        Np·(Bt + (Gp/Np - Rsi)·Bg): the produced oil at reservoir conditions plus
        the free gas produced, Np·Bo + (Gp - Np·Rs)·Bg. */
    function A(): (r: real)
      reads this
      requires hasState && Np != 0.0
      ensures r == Np * Bt() + (Gp - Np * Rsi) * Bg
      ensures r == Np * Bo + (Gp - Np * Rs) * Bg
    {
      assert Np * (Gp / Np) == Gp;
      Np * (Bt() + (Gp / Np - Rsi) * Bg)
    }

    /** Depletion-drive index: the oil-zone expansion N·(Bt - Boi) as a share of
        the voidage; it vanishes at the initial fluid state. */
    function DDI(): (r: real)
      reads this
      requires hasState && Np != 0.0 && A() != 0.0
      ensures r * A() == N * (Bt() - Boi)
      ensures Bo == Boi && Rs == Rsi ==> r == 0.0
    {
      N * (Bt() - Boi) / A()
    }

    /** Segregation (gas-cap) drive index: the gas-cap expansion G·(Bg - Bgi) as a
        share of the voidage; it vanishes without a gas cap (m = 0) and while the
        gas volume factor is unchanged. */
    function SDI(): (r: real)
      reads this
      requires hasState && N * Boi != 0.0 && Bgi != 0.0 && Np != 0.0 && A() != 0.0
      ensures r * A() == G * (Bg - Bgi)
      ensures m() == 0.0 ==> r == 0.0
      ensures Bg == Bgi ==> r == 0.0
    {
      var mm := m();
      var gasCap := N * mm * Boi;
      var d := Bg - Bgi;
      var share := gasCap * d / Bgi;
      var a := A();
      var q := share / a;
      GasCapShare(mm, N, Boi, G, Bgi, gasCap, d, share);
      Quotient(share, a, q);
      q
    }

    /** Water-drive index: the net water influx We - Wp·Bw as a share of the
        voidage; it vanishes when the influx equals the water produced. */
    function WDI(): (r: real)
      reads this
      requires hasState && Np != 0.0 && A() != 0.0
      ensures r * A() == We - Wp * Bw
      ensures We == Wp * Bw ==> r == 0.0
    {
      (We - Wp * Bw) / A()
    }

    /** Expansion (rock and connate water) drive index: s·(Pi - P) as a share of
        the voidage; it vanishes while the pressure is still the initial one. */
    function EDI(): (r: real)
      reads this
      requires hasState && N * Boi != 0.0 && Swi != 1.0 && Np != 0.0 && A() != 0.0
      ensures r * A() == s() * (Pi - P)
      ensures P == Pi ==> r == 0.0
    {
      s() * (Pi - P) / A()
    }

    /** Every divisor met by the drive indices and their sum is nonzero. */
    predicate IndicesDefined()
      reads this
    {
      hasState && N * Boi != 0.0 && Bgi != 0.0 && Swi != 1.0 && Np != 0.0 && A() != 0.0
    }

    /** The material-balance expansion terms: oil zone, gas cap, net water influx
        and rock/connate-water expansion.  At the initial fluid state and
        pressure, with the water influx all produced, nothing has expanded. */
    function Expansion(): (r: real)
      reads this
      requires hasState && N * Boi != 0.0 && Swi != 1.0
      ensures Bo == Boi && Rs == Rsi && Bg == Bgi && P == Pi && We == Wp * Bw ==> r == 0.0
    {
      N * (Bt() - Boi) + G * (Bg - Bgi) + (We - Wp * Bw) + s() * (Pi - P)
    }

    /** Sum of the four drive indices: the expansion terms over the voidage. */
    function Total(): (r: real)
      reads this
      requires IndicesDefined()
      ensures r * A() == Expansion()
    {
      DDI() + SDI() + WDI() + EDI()
    }
  }

  /** The history-match objective `(total - 1)**2`: never negative, and zero
      exactly when the drive indices close to 1, so a minimiser that reaches 0
      has found a balancing tank. */
  function Objective(total: real): (r: real)
    ensures r >= 0.0
    ensures total == 1.0 ==> r == 0.0
    ensures total != 1.0 ==> r > 0.0
  {
    Square(total - 1.0)
  }

  /** With physically meaningful parameters (positive oil in place and volume
      factor, nonnegative gas cap, nonnegative compressibilities and a connate
      water saturation in [0, 1)) the storage parameter is nonnegative. */
  lemma StorageNonnegative(t: Tank)
    requires t.N > 0.0 && t.Boi > 0.0 && t.G >= 0.0 && t.Bgi >= 0.0
    requires t.cw >= 0.0 && t.cf >= 0.0 && 0.0 <= t.Swi < 1.0
    ensures t.s() >= 0.0
  {
    MulPositive(t.N, t.Boi);
    MulNonnegative(t.G, t.Bgi);
    var pore := t.N * t.Boi + t.G * t.Bgi;
    MulNonnegative(t.cw, t.Swi);
    MulNonnegative(pore, t.cw * t.Swi + t.cf);
    QuotientSign(t.s(), pore * (t.cw * t.Swi + t.cf), 1.0 - t.Swi);
  }

  /** The gas-cap term N·m·Boi·d/Bgi of the segregation index is G·d, because
      m·(N·Boi) = G·Bgi; it vanishes without a gas cap (m = 0) or without a change
      d in the gas volume factor. */
  lemma GasCapShare(mm: real, N: real, Boi: real, G: real, Bgi: real, gasCap: real, d: real, share: real)
    requires Bgi != 0.0 && mm * (N * Boi) == G * Bgi
    requires gasCap == N * mm * Boi && share == gasCap * d / Bgi
    ensures share == G * d
    ensures mm == 0.0 ==> share == 0.0
    ensures d == 0.0 ==> share == 0.0
  {
    assert gasCap * d == (G * d) * Bgi;
    Quotient(gasCap * d, Bgi, share);
    CancelFactor(share, G * d, Bgi);
  }

  /** The drive indices sum to 1 exactly when the expansion terms account for the
      whole voidage. */
  lemma TotalIsOneIffBalanced(t: Tank)
    requires t.IndicesDefined()
    ensures t.Total() == 1.0 <==> t.Expansion() == t.A()
  {
  }

  /** The objective vanishes exactly when the tank is in material balance. */
  lemma ObjectiveZeroIffBalanced(t: Tank)
    requires t.IndicesDefined()
    ensures Objective(t.Total()) == 0.0 <==> t.Expansion() == t.A()
  {
    TotalIsOneIffBalanced(t);
  }

  /** Effective pore compressibility (cw·Swi + cf)/(1 - Swi) of the storage
      parameter: never negative for nonnegative compressibilities and a connate
      water saturation in [0, 1). */
  function EffectiveCompressibility(t: Tank): (ce: real)
    reads t
    requires t.Swi != 1.0
    ensures ce * (1.0 - t.Swi) == t.cw * t.Swi + t.cf
    ensures t.cw >= 0.0 && t.cf >= 0.0 && 0.0 <= t.Swi < 1.0 ==> ce >= 0.0
  {
    var ce := (t.cw * t.Swi + t.cf) / (1.0 - t.Swi);
    Quotient(t.cw * t.Swi + t.cf, 1.0 - t.Swi, ce);
    CompressibilitySign(t.cw, t.Swi, t.cf, ce);
    ce
  }

  /** A compressibility ce with ce·(1 - Swi) = cw·Swi + cf is nonnegative for
      nonnegative cw and cf and a saturation Swi in [0, 1). */
  lemma CompressibilitySign(cw: real, Swi: real, cf: real, ce: real)
    requires ce * (1.0 - Swi) == cw * Swi + cf
    ensures cw >= 0.0 && cf >= 0.0 && 0.0 <= Swi < 1.0 ==> ce >= 0.0
  {
    if cw >= 0.0 && cf >= 0.0 && 0.0 <= Swi < 1.0 {
      MulNonnegative(cw, Swi);
      QuotientSign(ce, cw * Swi + cf, 1.0 - Swi);
    }
  }

  /** The storage parameter is the initial hydrocarbon pore volume N·Boi + G·Bgi
      times the effective compressibility. */
  lemma StorageIsPoreVolumeTimesCompressibility(t: Tank)
    requires t.N * t.Boi != 0.0 && t.Swi != 1.0
    ensures t.s() == (t.N * t.Boi + t.G * t.Bgi) * EffectiveCompressibility(t)
  {
    StorageIsPoreTimesCompressibility(t.s(), t.N * t.Boi + t.G * t.Bgi, EffectiveCompressibility(t),
                                      1.0 - t.Swi, t.cw * t.Swi + t.cf);
  }

  /** Expansion of one STB of oil zone down to the snapshot pressure (fluid and pore). */
  function OilZoneExpansion(t: Tank): real
    reads t
    requires t.hasState && t.Swi != 1.0
  {
    (t.Bt() - t.Boi) + t.Boi * EffectiveCompressibility(t) * (t.Pi - t.P)
  }

  /** Expansion of one scf of gas cap down to the snapshot pressure (gas and pore). */
  function GasCapExpansion(t: Tank): real
    reads t
    requires t.hasState && t.Swi != 1.0
  {
    (t.Bg - t.Bgi) + t.Bgi * EffectiveCompressibility(t) * (t.Pi - t.P)
  }

  /** The expansion terms are linear in the oil in place N. */
  lemma ExpansionLinearInN(t: Tank)
    requires t.hasState && t.N * t.Boi != 0.0 && t.Swi != 1.0
    ensures t.Expansion() == t.N * OilZoneExpansion(t) + t.G * GasCapExpansion(t) + (t.We - t.Wp * t.Bw)
  {
    StorageIsPoreVolumeTimesCompressibility(t);
    SplitStorage(t.s(), t.N, t.Boi, t.G, t.Bgi, EffectiveCompressibility(t), t.Pi - t.P);
  }

  /** s·(1 - Swi) = pore·c and ce·(1 - Swi) = c give s = pore·ce. */
  lemma StorageIsPoreTimesCompressibility(s: real, pore: real, ce: real, d: real, c: real)
    requires d != 0.0 && s * d == pore * c && ce * d == c
    ensures s == pore * ce
  {
    assert s * d == (pore * ce) * d;
    CancelFactor(s, pore * ce, d);
  }

  /** Storage times the pressure drop splits into an oil-zone and a gas-cap share. */
  lemma SplitStorage(s: real, N: real, Boi: real, G: real, Bgi: real, ce: real, dp: real)
    requires s == (N * Boi + G * Bgi) * ce
    ensures s * dp == N * (Boi * ce * dp) + G * (Bgi * ce * dp)
  {
  }

  /** History matching on N (the oil in place estimated by `minimize(tank, 0, N=...)`):
      a snapshot closes to a total of 1 exactly when N is the value that balances
      the voidage against the gas-cap and water terms, provided the oil zone
      expands at all. */
  lemma BalancingOilInPlace(t: Tank)
    requires t.IndicesDefined()
    requires OilZoneExpansion(t) != 0.0
    ensures t.Total() == 1.0 <==>
            t.N == (t.A() - t.G * GasCapExpansion(t) - (t.We - t.Wp * t.Bw)) / OilZoneExpansion(t)
  {
    TotalIsOneIffBalanced(t);
    ExpansionLinearInN(t);
  }
}
