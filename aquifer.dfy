/** The pot aquifer of mbal/_aquifer.py: a water-influx model holding the initial
    pressure and the water and rock compressibilities, whose influx grows linearly
    with the pressure drop and with the aquifer's water volume K. */
module Aquifer {

  class WaterInfluxModel {
    const Pi: real  // initial pressure, psi
    const cw: real  // water compressibility, 1/psi
    const cf: real  // rock (formation) compressibility, 1/psi

    /** Stores the three parameters as given. */
    constructor (Pi: real, cw: real, cf: real)
      ensures this.Pi == Pi && this.cw == cw && this.cf == cf
    {
      this.Pi := Pi;
      this.cw := cw;
      this.cf := cf;
    }

    /** Pot-aquifer influx (cw + cf)·K·(Pi - P) at pressure P for an aquifer of
        water volume K: none while the pressure is still the initial one, and
        in balance with the total compressibility times the volume and the drop. */
    function PotModel(P: real, K: real): (We: real)
      ensures P == Pi ==> We == 0.0
      ensures K == 0.0 ==> We == 0.0
    {
      (cw + cf) * K * (Pi - P)
    }
  }

  /** With a nonnegative total compressibility and aquifer volume, a pressure at
      or below the initial one yields a nonnegative influx. */
  lemma PotModelNonnegative(aq: WaterInfluxModel, P: real, K: real)
    requires P <= aq.Pi && K >= 0.0 && aq.cw + aq.cf >= 0.0
    ensures aq.PotModel(P, K) >= 0.0
  {
  }

  /** The influx scales linearly with the aquifer volume K. */
  lemma PotModelLinearInK(aq: WaterInfluxModel, P: real, a: real, K: real)
    ensures aq.PotModel(P, a * K) == a * aq.PotModel(P, K)
  {
  }

  /** When (cw + cf)·K is nonnegative a lower pressure never yields less influx;
      the gap between two pressures is (cw + cf)·K times their difference. */
  lemma PotModelNonIncreasing(aq: WaterInfluxModel, P1: real, P2: real, K: real)
    requires P1 <= P2 && (aq.cw + aq.cf) * K >= 0.0
    ensures aq.PotModel(P1, K) - aq.PotModel(P2, K) == (aq.cw + aq.cf) * K * (P2 - P1)
    ensures aq.PotModel(P2, K) <= aq.PotModel(P1, K)
  {
  }
}
