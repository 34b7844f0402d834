/**
 * The utility's progressive (bracketed) electricity tariff.
 *
 * A table is an ordered list of brackets, each an upper bound in kWh and a
 * marginal rate per kWh; the last bracket has no upper bound. The fee for a
 * consumption charges each kWh at the rate of the bracket it falls in.
 */
module Tariff {
  import opened Rounding

  datatype Limit = UpTo(kwh: real) | Unbounded

  datatype Tier = Tier(limit: Limit, rate: real)

  /** Summer months (June to September). */
  const TierSummer: seq<Tier> := [
    Tier(UpTo(120.0), 1.63),
    Tier(UpTo(330.0), 2.38),
    Tier(UpTo(500.0), 3.52),
    Tier(UpTo(700.0), 4.80),
    Tier(UpTo(1000.0), 5.66),
    Tier(Unbounded, 6.41)
  ]

  /** The other months. */
  const TierNonSummer: seq<Tier> := [
    Tier(UpTo(120.0), 1.63),
    Tier(UpTo(330.0), 2.10),
    Tier(UpTo(500.0), 2.89),
    Tier(UpTo(700.0), 3.94),
    Tier(UpTo(1000.0), 4.60),
    Tier(Unbounded, 5.03)
  ]

  function Tiers(isSummer: bool): seq<Tier> {
    if isSummer then TierSummer else TierNonSummer
  }

  /**
   * A usable table: every bracket but the last is bounded, the bounds are
   * positive and strictly increasing, the last bracket is unbounded and no
   * rate is negative.
   */
  predicate WellFormed(tiers: seq<Tier>) {
    && |tiers| >= 1
    && (forall j :: 0 <= j < |tiers| - 1 ==> tiers[j].limit.UpTo?)
    && tiers[|tiers| - 1].limit.Unbounded?
    && (forall j :: 0 <= j < |tiers| - 1 ==> Lower(tiers, j) < tiers[j].limit.kwh)
    && (forall j :: 0 <= j < |tiers| ==> tiers[j].rate >= 0.0)
  }

  /** Where bracket `j` starts: 0 for the first, the previous bound otherwise. */
  function Lower(tiers: seq<Tier>, j: nat): real
    requires j < |tiers|
  {
    if j == 0 || !tiers[j - 1].limit.UpTo? then 0.0 else tiers[j - 1].limit.kwh
  }

  function Max(a: real, b: real): real { if a >= b then a else b }

  function Min(a: real, b: real): real { if a <= b then a else b }

  /** The kWh of a consumption of `kwh` that fall inside bracket `j`. */
  function Billed(tiers: seq<Tier>, kwh: real, j: nat): (b: real)
    requires j < |tiers|
    ensures b >= 0.0
  {
    match tiers[j].limit
    case UpTo(upper) => Max(0.0, Min(kwh, upper) - Lower(tiers, j))
    case Unbounded => Max(0.0, kwh - Lower(tiers, j))
  }

  /** The kWh billed in the first `i` brackets. */
  function BilledUpTo(tiers: seq<Tier>, kwh: real, i: nat): real
    requires i <= |tiers|
  {
    if i == 0 then 0.0 else BilledUpTo(tiers, kwh, i - 1) + Billed(tiers, kwh, i - 1)
  }

  /** The fee of the first `i` brackets, before rounding. */
  function FeeUpTo(tiers: seq<Tier>, kwh: real, i: nat): real
    requires i <= |tiers|
  {
    if i == 0 then 0.0 else FeeUpTo(tiers, kwh, i - 1) + Cost(tiers, kwh, i - 1)
  }

  /** What bracket `j` charges for a consumption of `kwh`. */
  function Cost(tiers: seq<Tier>, kwh: real, j: nat): real
    requires j < |tiers|
  {
    Billed(tiers, kwh, j) * tiers[j].rate
  }

  /** The fee of all brackets, before rounding. */
  function TierFee(tiers: seq<Tier>, kwh: real): real {
    FeeUpTo(tiers, kwh, |tiers|)
  }

  /**
   * `calculate_progressive_fee`: walk the brackets in order, bill
   * `min(remaining, width)` in each, stop when nothing remains, and round the
   * total to hundredths.
   */
  method ProgressiveFee(kwh: real, isSummer: bool) returns (fee: real)
    ensures fee == Round2(TierFee(Tiers(isSummer), kwh))
  {
    var tiers := Tiers(isSummer);
    TablesWellFormed();
    var total := 0.0;
    var remaining := kwh;
    var prevLimit := 0.0;
    var i := 0;
    while i < |tiers|
      invariant 0 <= i <= |tiers|
      invariant i < |tiers| ==> prevLimit == Lower(tiers, i)
      invariant total == FeeUpTo(tiers, kwh, i)
      invariant i < |tiers| ==> remaining == kwh - BilledUpTo(tiers, kwh, i)
    {
      BilledBelow(tiers, kwh, i);
      if remaining <= 0.0 {
        TailBillsNothing(tiers, kwh, i, |tiers|);
        break;
      }
      var tierKwh := match tiers[i].limit
        case UpTo(upper) => Min(remaining, upper - prevLimit)
        case Unbounded => remaining;
      StepBillsBracket(tiers, kwh, i, remaining, tierKwh);
      assert FeeUpTo(tiers, kwh, i + 1) == total + tierKwh * tiers[i].rate;
      assert BilledUpTo(tiers, kwh, i + 1) == BilledUpTo(tiers, kwh, i) + tierKwh;
      total := total + tierKwh * tiers[i].rate;
      remaining := remaining - tierKwh;
      prevLimit := match tiers[i].limit
        case UpTo(upper) => upper
        case Unbounded => prevLimit;
      i := i + 1;
    }
    fee := Round2(total);
  }

  /**
   * While something remains, the amount the loop bills in bracket `i` is
   * exactly the part of the consumption inside that bracket.
   */
  lemma StepBillsBracket(tiers: seq<Tier>, kwh: real, i: nat, remaining: real, tierKwh: real)
    requires WellFormed(tiers) && i < |tiers|
    requires remaining == kwh - Max(0.0, Min(kwh, Lower(tiers, i))) && remaining > 0.0
    requires tierKwh == match tiers[i].limit
      case UpTo(upper) => Min(remaining, upper - Lower(tiers, i))
      case Unbounded => remaining
    ensures tierKwh == Billed(tiers, kwh, i)
    ensures tierKwh * tiers[i].rate == Cost(tiers, kwh, i)
  {
    LowerIncreasing(tiers, 0, i);
    if i < |tiers| - 1 {
      assert Lower(tiers, i) < tiers[i].limit.kwh;
    }
  }

  /** Both tables are well formed. */
  lemma TablesWellFormed()
    ensures WellFormed(TierSummer) && WellFormed(TierNonSummer)
  {
  }

  /**
   * Before bracket `i` of a well-formed table, the billed kWh are the part of
   * the consumption below that bracket's lower bound.
   */
  lemma {:induction false} BilledBelow(tiers: seq<Tier>, kwh: real, i: nat)
    requires WellFormed(tiers) && i < |tiers|
    ensures BilledUpTo(tiers, kwh, i) == Max(0.0, Min(kwh, Lower(tiers, i)))
  {
    if i > 0 {
      BilledBelow(tiers, kwh, i - 1);
      LowerIncreasing(tiers, 0, i - 1);
      assert Lower(tiers, i - 1) < tiers[i - 1].limit.kwh == Lower(tiers, i);
    }
  }

  /** The lower bounds of a well-formed table never decrease. */
  lemma {:induction false} LowerIncreasing(tiers: seq<Tier>, i: nat, j: nat)
    requires WellFormed(tiers) && i <= j < |tiers|
    ensures 0.0 <= Lower(tiers, i) <= Lower(tiers, j)
  {
    if i < j {
      LowerIncreasing(tiers, i, j - 1);
    } else if i > 0 {
      LowerIncreasing(tiers, i - 1, i - 1);
    }
  }

  /**
   * Once the consumption lies at or below bracket `i`'s lower bound, no
   * bracket from `i` on bills anything.
   */
  lemma {:induction false} TailBillsNothing(tiers: seq<Tier>, kwh: real, i: nat, n: nat)
    requires WellFormed(tiers) && i < |tiers| && i <= n <= |tiers|
    requires kwh <= Max(0.0, Min(kwh, Lower(tiers, i)))
    ensures FeeUpTo(tiers, kwh, n) == FeeUpTo(tiers, kwh, i)
    ensures BilledUpTo(tiers, kwh, n) == BilledUpTo(tiers, kwh, i)
  {
    if n > i {
      TailBillsNothing(tiers, kwh, i, n - 1);
      BracketBillsNothing(tiers, kwh, i, n - 1);
    }
  }

  /** A bracket at or above bracket `i` bills nothing when the consumption lies at or below `i`'s lower bound. */
  lemma BracketBillsNothing(tiers: seq<Tier>, kwh: real, i: nat, j: nat)
    requires WellFormed(tiers) && i <= j < |tiers|
    requires kwh <= Max(0.0, Min(kwh, Lower(tiers, i)))
    ensures Billed(tiers, kwh, j) == 0.0 && Cost(tiers, kwh, j) == 0.0
  {
    LowerIncreasing(tiers, i, j);
    LowerIncreasing(tiers, 0, j);
    assert Billed(tiers, kwh, j) == 0.0;
  }

  /** The kWh billed across all brackets add up to the consumption. */
  lemma BilledSumsToConsumption(tiers: seq<Tier>, kwh: real)
    requires WellFormed(tiers)
    ensures BilledUpTo(tiers, kwh, |tiers|) == Max(0.0, kwh)
  {
    BilledBelow(tiers, kwh, |tiers| - 1);
    LowerIncreasing(tiers, 0, |tiers| - 1);
  }

  /** No consumption, or a negative one, costs nothing. */
  lemma {:induction false} NoConsumptionNoFee(tiers: seq<Tier>, kwh: real, i: nat)
    requires WellFormed(tiers) && kwh <= 0.0 && i <= |tiers|
    ensures FeeUpTo(tiers, kwh, i) == 0.0
  {
    if i > 0 {
      NoConsumptionNoFee(tiers, kwh, i - 1);
      LowerIncreasing(tiers, 0, i - 1);
    }
  }

  /** `calculate_progressive_fee` is 0 for any consumption at or below 0. */
  lemma FeeZeroWhenNoConsumption(kwh: real, isSummer: bool)
    requires kwh <= 0.0
    ensures Round2(TierFee(Tiers(isSummer), kwh)) == 0.0
  {
    TablesWellFormed();
    NoConsumptionNoFee(Tiers(isSummer), kwh, |Tiers(isSummer)|);
    Round2OnCents(0.0);
  }

  lemma MulMonotone(a: real, b: real, c: real)
    requires a <= b && c >= 0.0
    ensures a * c <= b * c && c * a <= c * b
  {
  }

  /** The kWh billed in one bracket never fall when consumption rises. */
  lemma BilledMonotone(tiers: seq<Tier>, k1: real, k2: real, j: nat)
    requires j < |tiers| && k1 <= k2
    ensures Billed(tiers, k1, j) <= Billed(tiers, k2, j)
  {
  }

  /** What one bracket charges never falls when consumption rises. */
  lemma CostMonotone(tiers: seq<Tier>, k1: real, k2: real, j: nat)
    requires WellFormed(tiers) && j < |tiers| && k1 <= k2
    ensures Cost(tiers, k1, j) <= Cost(tiers, k2, j)
  {
    BilledMonotone(tiers, k1, k2, j);
    MulMonotone(Billed(tiers, k1, j), Billed(tiers, k2, j), tiers[j].rate);
  }

  /** The unrounded fee never falls when consumption rises. */
  lemma {:induction false} FeeUpToMonotone(tiers: seq<Tier>, k1: real, k2: real, i: nat)
    requires WellFormed(tiers) && k1 <= k2 && i <= |tiers|
    ensures FeeUpTo(tiers, k1, i) <= FeeUpTo(tiers, k2, i)
  {
    if i > 0 {
      FeeUpToMonotone(tiers, k1, k2, i - 1);
      CostMonotone(tiers, k1, k2, i - 1);
    }
  }

  /** For a fixed season the fee is non-decreasing in the consumption. */
  lemma FeeMonotone(k1: real, k2: real, isSummer: bool)
    requires k1 <= k2
    ensures Round2(TierFee(Tiers(isSummer), k1)) <= Round2(TierFee(Tiers(isSummer), k2))
  {
    TablesWellFormed();
    FeeUpToMonotone(Tiers(isSummer), k1, k2, |Tiers(isSummer)|);
    Round2Monotone(TierFee(Tiers(isSummer), k1), TierFee(Tiers(isSummer), k2));
  }

  /** Up to 120 kWh everything is billed at the first bracket's 1.63 per kWh. */
  lemma FirstBracketFee(kwh: real, isSummer: bool)
    requires 0.0 <= kwh <= 120.0
    ensures Round2(TierFee(Tiers(isSummer), kwh)) == Round2(kwh * 1.63)
  {
    var tiers := Tiers(isSummer);
    TablesWellFormed();
    assert Lower(tiers, 1) == 120.0;
    assert FeeUpTo(tiers, kwh, 1) == kwh * 1.63;
    TailBillsNothing(tiers, kwh, 1, |tiers|);
  }

  /** Two tables with the same brackets, the first with no lower rates. */
  predicate DominatesRates(hi: seq<Tier>, lo: seq<Tier>) {
    && |hi| == |lo|
    && (forall j :: 0 <= j < |hi| ==> hi[j].limit == lo[j].limit && hi[j].rate >= lo[j].rate)
  }

  /** Same bracket at no lower rate charges no less. */
  lemma CostDominated(hi: seq<Tier>, lo: seq<Tier>, kwh: real, j: nat)
    requires DominatesRates(hi, lo) && j < |hi|
    ensures Cost(lo, kwh, j) <= Cost(hi, kwh, j)
  {
    assert Lower(hi, j) == Lower(lo, j);
    var b := Billed(lo, kwh, j);
    assert Billed(hi, kwh, j) == b;
    var r1, r2 := lo[j].rate, hi[j].rate;
    assert Cost(lo, kwh, j) == b * r1;
    assert Cost(hi, kwh, j) == b * r2;
    MulMonotone(r1, r2, b);
  }

  /** Same brackets at no lower rates give no lower fee. */
  lemma {:induction false} DominatedFee(hi: seq<Tier>, lo: seq<Tier>, kwh: real, i: nat)
    requires DominatesRates(hi, lo) && i <= |hi|
    ensures FeeUpTo(lo, kwh, i) <= FeeUpTo(hi, kwh, i)
  {
    if i > 0 {
      DominatedFee(hi, lo, kwh, i - 1);
      assert Lower(hi, i - 1) == Lower(lo, i - 1);
      CostDominated(hi, lo, kwh, i - 1);
    }
  }

  /** For the same consumption the summer fee is never below the other months' fee. */
  lemma SummerCostsAtLeastNonSummer(kwh: real)
    ensures Round2(TierFee(TierNonSummer, kwh)) <= Round2(TierFee(TierSummer, kwh))
  {
    assert DominatesRates(TierSummer, TierNonSummer);
    DominatedFee(TierSummer, TierNonSummer, kwh, |TierSummer|);
    Round2Monotone(TierFee(TierNonSummer, kwh), TierFee(TierSummer, kwh));
  }
}
