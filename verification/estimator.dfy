/**
 * The ROI estimator of the landing page: six business figures entered by the
 * visitor go through a fixed arithmetic pipeline (a tiered recovery rate, an
 * after-hours boost, a clamp whose upper bound depends on volume, and the
 * derived money, risk-adjusted and ROI figures, plus hours saved per
 * salesperson).  Numbers are exact reals; the browser uses IEEE-754 doubles.
 */
module Estimator {

  // ---------------------------------------------------------------------------
  // Business-tunable constants of the formula pipeline

  /** Weight of the after-hours share in the boost multiplier. */
  const AfterHoursWeight: real := 0.35
  /** Markup that turns recovered money into the risk-adjusted value. */
  const RiskMultiplier: real := 1.15
  /** Monthly service cost the ROI multiple is measured against. */
  const MonthlyCost: real := 6500.0
  /** Lower clamp bound on recovered deals. */
  const DealsFloor: real := 0.3
  /** The upper clamp bound on recovered deals is never below this. */
  const DealsCapMin: real := 1.2
  /** Otherwise the upper clamp bound grows by this much per car sold. */
  const DealsCapPerCar: real := 0.12
  /** Hours saved per salesperson: `HoursPerBlock` for every `LeadsPerBlock` leads ... */
  const LeadsPerBlock: real := 250.0
  const HoursPerBlock: real := 3.0
  /** ... clamped into [MinHours, MaxHours]. */
  const MinHours: real := 6.0
  const MaxHours: real := 14.0

  /**
   * Response-time tiers: (inclusive upper bound in minutes, recovery rate),
   * slowest last; responses slower than every bound get `SlowestRate`.
   */
  const Tiers: seq<(real, real)> := [(5.0, 0.01), (15.0, 0.02), (60.0, 0.035), (180.0, 0.06)]
  const SlowestRate: real := 0.08

  // ---------------------------------------------------------------------------
  // Inputs

  /** The content of one numeric input field: left empty, or holding a number. */
  datatype Field = Blank | Entered(value: real)

  /** `Number(field.value || 0)`: an empty field reads as 0. */
  function FieldValue(f: Field): (v: real)
    ensures f.Blank? ==> v == 0.0
    ensures f.Entered? ==> v == f.value
  {
    match f
    case Blank => 0.0
    case Entered(x) => x
  }

  /** The six input fields as the page holds them. */
  datatype RawInputs = RawInputs(
    leads: Field, cars: Field, gross: Field,
    salespeople: Field, afterHours: Field, responseTime: Field)

  /** The six figures the pipeline works on. */
  datatype Inputs = Inputs(
    leads: real, cars: real, gross: real,
    salespeople: real, afterHours: real, responseMins: real)

  function ReadInputs(raw: RawInputs): (inp: Inputs)
    ensures inp.leads == FieldValue(raw.leads) && inp.cars == FieldValue(raw.cars)
    ensures inp.gross == FieldValue(raw.gross) && inp.salespeople == FieldValue(raw.salespeople)
    ensures inp.afterHours == FieldValue(raw.afterHours) && inp.responseMins == FieldValue(raw.responseTime)
  {
    Inputs(FieldValue(raw.leads), FieldValue(raw.cars), FieldValue(raw.gross),
           FieldValue(raw.salespeople), FieldValue(raw.afterHours), FieldValue(raw.responseTime))
  }

  /** Replaces every empty field by an explicit 0. */
  function BlanksAsZero(raw: RawInputs): (z: RawInputs)
    ensures !z.leads.Blank? && !z.cars.Blank? && !z.gross.Blank?
    ensures !z.salespeople.Blank? && !z.afterHours.Blank? && !z.responseTime.Blank?
  {
    RawInputs(ZeroIfBlank(raw.leads), ZeroIfBlank(raw.cars), ZeroIfBlank(raw.gross),
              ZeroIfBlank(raw.salespeople), ZeroIfBlank(raw.afterHours), ZeroIfBlank(raw.responseTime))
  }

  function ZeroIfBlank(f: Field): Field
  {
    if f.Blank? then Entered(0.0) else f
  }

  // ---------------------------------------------------------------------------
  // Arithmetic helpers

  /** `Math.max` on two numbers. */
  function Max(a: real, b: real): (m: real)
    ensures a <= m && b <= m
    ensures m == a || m == b
  {
    if a >= b then a else b
  }

  /** `Math.min` on two numbers. */
  function Min(a: real, b: real): (m: real)
    ensures m <= a && m <= b
    ensures m == a || m == b
  {
    if a <= b then a else b
  }

  /**
   * `clamp(value, min, max) = Math.max(min, Math.min(max, value))`.
   * With `lo <= hi` it is the usual two-sided clamp; with `lo > hi` the lower
   * bound wins.
   */
  function Clamp(v: real, lo: real, hi: real): (r: real)
    ensures lo <= r
    ensures lo <= hi ==> r <= hi
    ensures lo <= v <= hi ==> r == v
    ensures v < lo ==> r == lo
    ensures lo <= hi < v ==> r == hi
    ensures hi < lo ==> r == lo
  {
    Max(lo, Min(hi, v))
  }

  /**
   * JavaScript's `Math.round`: the nearest integer, halves rounded up.
   */
  function Round(x: real): (n: int)
    ensures x - 0.5 < n as real <= x + 0.5
  {
    (x + 0.5).Floor
  }

  // ---------------------------------------------------------------------------
  // The formula pipeline

  /** The recovery rate selected by response time; tier bounds are inclusive. */
  function SpeedFactor(responseMins: real): (r: real)
    ensures 0.01 <= r <= 0.08
  {
    if responseMins <= 5.0 then 0.01
    else if responseMins <= 15.0 then 0.02
    else if responseMins <= 60.0 then 0.035
    else if responseMins <= 180.0 then 0.06
    else 0.08
  }

  /** Reference definition of the tiers: the rate of the first tier whose bound admits `mins`. */
  function TierRate(tiers: seq<(real, real)>, mins: real): real
  {
    if tiers == [] then SlowestRate
    else if mins <= tiers[0].0 then tiers[0].1
    else TierRate(tiers[1..], mins)
  }

  /** The after-hours boost multiplier `1 + share * 0.35`. */
  function AfterHoursBoost(share: real): (b: real)
    ensures share == 0.0 ==> b == 1.0
    ensures 0.0 <= share ==> 1.0 <= b
    ensures 0.0 <= share <= 1.0 ==> b <= 1.35
  {
    1.0 + share * AfterHoursWeight
  }

  /** The upper clamp bound on recovered deals, computed per call. */
  function DealsCap(cars: real): (cap: real)
    ensures cap >= DealsCapMin
    ensures cap >= cars * DealsCapPerCar
    ensures cap == DealsCapMin || cap == cars * DealsCapPerCar
  {
    Max(DealsCapMin, cars * DealsCapPerCar)
  }

  /** Recovered deals before clamping: cars times rate times boost. */
  function UnclampedDeals(inp: Inputs): (d: real)
    ensures inp.cars == 0.0 ==> d == 0.0
    ensures 0.0 <= inp.cars && 0.0 <= inp.afterHours ==> 0.0 <= d
  {
    inp.cars * SpeedFactor(inp.responseMins) * AfterHoursBoost(inp.afterHours)
  }

  /** Extra deals per month, kept between the floor and the per-call cap. */
  function RecoveredDeals(inp: Inputs): (d: real)
    ensures DealsFloor <= d <= DealsCap(inp.cars)
    ensures DealsFloor <= UnclampedDeals(inp) <= DealsCap(inp.cars) ==> d == UnclampedDeals(inp)
    ensures UnclampedDeals(inp) < DealsFloor ==> d == DealsFloor
    ensures DealsCap(inp.cars) < UnclampedDeals(inp) ==> d == DealsCap(inp.cars)
    ensures inp.cars == 0.0 ==> d == DealsFloor
  {
    Clamp(UnclampedDeals(inp), DealsFloor, DealsCap(inp.cars))
  }

  /** Hours saved per salesperson, from lead volume, kept in [6, 14]. */
  function TimePerSalesperson(leads: real): (t: real)
    ensures MinHours <= t <= MaxHours
    ensures MinHours <= leads / LeadsPerBlock * HoursPerBlock <= MaxHours ==> t == leads / LeadsPerBlock * HoursPerBlock
    ensures leads <= 500.0 ==> t == MinHours
    ensures leads >= 3500.0 / 3.0 ==> t == MaxHours
  {
    Clamp(leads / LeadsPerBlock * HoursPerBlock, MinHours, MaxHours)
  }

  /** Hours saved per month by the whole sales team. */
  function TimeSaved(salespeople: real, leads: real): (h: real)
    ensures salespeople == 0.0 ==> h == 0.0
  {
    salespeople * TimePerSalesperson(leads)
  }

  /** What `calculateROI` computes before rendering. */
  datatype Estimate = Estimate(
    recoveredDeals: real, recoveredMoney: real, riskAdjusted: real,
    timeSaved: real, roi: real)

  /** The whole pipeline of `calculateROI`. */
  function Calculate(inp: Inputs): (e: Estimate)
    ensures DealsFloor <= e.recoveredDeals <= DealsCap(inp.cars)
    ensures e.recoveredMoney == e.recoveredDeals * inp.gross
    ensures e.riskAdjusted == RiskMultiplier * e.recoveredMoney
    ensures e.roi * MonthlyCost == e.recoveredMoney
    ensures inp.gross == 0.0 ==> e.recoveredMoney == 0.0 && e.riskAdjusted == 0.0 && e.roi == 0.0
    ensures e.timeSaved == TimeSaved(inp.salespeople, inp.leads)
  {
    var money := RecoveredDeals(inp) * inp.gross;
    Estimate(RecoveredDeals(inp), money, money * RiskMultiplier, TimeSaved(inp.salespeople, inp.leads), money / MonthlyCost)
  }

  /** For `a >= 0` and `lo <= b <= hi`, the product `a * b` lies between `a * lo` and `a * hi`. */
  lemma ProductBetween(a: real, b: real, lo: real, hi: real)
    requires a >= 0.0 && lo <= b <= hi
    ensures lo * a <= a * b
    ensures a * b <= hi * a
  {
    assert a * (b - lo) >= 0.0;
    assert a * (hi - b) >= 0.0;
  }

  /** A product `h == a * b` with `a >= 0` and `lo <= b <= hi` lies between `lo * a` and `hi * a`. */
  lemma ProductWithin(a: real, b: real, h: real, lo: real, hi: real)
    requires a >= 0.0 && lo <= b <= hi && h == a * b
    ensures lo * a <= h <= hi * a
  {
    ProductBetween(a, b, lo, hi);
  }

  /** Scaling by `a >= 0` keeps the order: `a * b1 <= a * b2` when `b1 <= b2`. */
  lemma ScaleMonotone(a: real, b1: real, b2: real, h1: real, h2: real)
    requires a >= 0.0 && b1 <= b2 && h1 == a * b1 && h2 == a * b2
    ensures h1 <= h2
  {
    ProductBetween(a, b1, b1, b2);
  }

  /** `ProductBetween` in the two orders the pipeline multiplies in. */
  lemma ScaledBetween(a: real, b: real, lo: real, hi: real)
    requires a >= 0.0 && lo <= b <= hi
    ensures lo * a <= a * b <= hi * a
    ensures lo * a <= b * a <= hi * a
  {
    ProductBetween(a, b, lo, hi);
    assert a * b == b * a;
  }

  // ---------------------------------------------------------------------------
  // What the page shows

  /** The summary paragraph: the reset prompt, or the sentence built from the figures. */
  datatype Summary = Prompt(text: string) | Report(dealsTenths: int, money: int, hours: int, roiTenths: int)

  /**
   * The five result fields and the summary as the page shows them: currency
   * amounts in whole rand, deals and ROI in tenths, hours in whole hours.
   */
  datatype View = View(money: int, dealsTenths: int, hours: int, risk: int, roiTenths: int, summary: Summary)

  /** Rounds every figure the way the result fields and the summary show it. */
  function Render(e: Estimate): (v: View)
    ensures e.recoveredMoney - 0.5 < v.money as real <= e.recoveredMoney + 0.5
    ensures e.recoveredDeals * 10.0 - 0.5 < v.dealsTenths as real <= e.recoveredDeals * 10.0 + 0.5
    ensures e.timeSaved - 0.5 < v.hours as real <= e.timeSaved + 0.5
    ensures e.riskAdjusted - 0.5 < v.risk as real <= e.riskAdjusted + 0.5
    ensures e.roi * 10.0 - 0.5 < v.roiTenths as real <= e.roi * 10.0 + 0.5
    ensures v.summary == Report(v.dealsTenths, v.money, v.hours, v.roiTenths)
  {
    var money, deals, hours := Round(e.recoveredMoney), Round(e.recoveredDeals * 10.0), Round(e.timeSaved);
    var roi := Round(e.roi * 10.0);
    View(money, deals, hours, Round(e.riskAdjusted), roi, Report(deals, money, hours, roi))
  }

  // ---------------------------------------------------------------------------
  // Properties of the pipeline

  /** `SpeedFactor` agrees with the tier table for every response time. */
  lemma {:induction false} SpeedFactorIsTierLookup(mins: real)
    ensures SpeedFactor(mins) == TierRate(Tiers, mins)
  {
    var t0 := Tiers;
    var t1 := [(15.0, 0.02), (60.0, 0.035), (180.0, 0.06)];
    var t2 := [(60.0, 0.035), (180.0, 0.06)];
    var t3 := [(180.0, 0.06)];
    assert t0[1..] == t1 && t1[1..] == t2 && t2[1..] == t3 && t3[1..] == [];
    assert TierRate(t0, mins) == if mins <= 5.0 then 0.01 else TierRate(t1, mins);
    assert TierRate(t1, mins) == if mins <= 15.0 then 0.02 else TierRate(t2, mins);
    assert TierRate(t2, mins) == if mins <= 60.0 then 0.035 else TierRate(t3, mins);
    assert TierRate(t3, mins) == if mins <= 180.0 then 0.06 else TierRate([], mins);
  }

  /** Each tier's range, with the boundary values 5, 15, 60 and 180 in the lower tier. */
  lemma SpeedFactorTiers(mins: real)
    ensures mins <= 5.0 ==> SpeedFactor(mins) == 0.01
    ensures 5.0 < mins <= 15.0 ==> SpeedFactor(mins) == 0.02
    ensures 15.0 < mins <= 60.0 ==> SpeedFactor(mins) == 0.035
    ensures 60.0 < mins <= 180.0 ==> SpeedFactor(mins) == 0.06
    ensures 180.0 < mins ==> SpeedFactor(mins) == 0.08
    ensures SpeedFactor(5.0) == 0.01 && SpeedFactor(15.0) == 0.02
    ensures SpeedFactor(60.0) == 0.035 && SpeedFactor(180.0) == 0.06
  {
  }

  /** A slower response never selects a smaller rate. */
  lemma SpeedFactorMonotone(a: real, b: real)
    requires a <= b
    ensures SpeedFactor(a) <= SpeedFactor(b)
  {
  }

  /** Hours saved lie between 6 and 14 hours per salesperson; none without a team. */
  lemma TimeSavedBounds(salespeople: real, leads: real)
    requires salespeople >= 0.0
    ensures MinHours * salespeople <= TimeSaved(salespeople, leads) <= MaxHours * salespeople
    ensures salespeople == 0.0 ==> TimeSaved(salespeople, leads) == 0.0
  {
    ProductWithin(salespeople, TimePerSalesperson(leads), TimeSaved(salespeople, leads), MinHours, MaxHours);
  }

  /** Recovered money lies between the deals floor and the deals cap times gross profit. */
  lemma RecoveredMoneyBounds(inp: Inputs)
    requires inp.gross >= 0.0
    ensures DealsFloor * inp.gross <= Calculate(inp).recoveredMoney <= DealsCap(inp.cars) * inp.gross
  {
    ScaledBetween(inp.gross, RecoveredDeals(inp), DealsFloor, DealsCap(inp.cars));
    assert Calculate(inp).recoveredMoney == RecoveredDeals(inp) * inp.gross;
  }

  /** Hours saved never decrease as the sales team grows. */
  lemma TimeSavedMonotone(s1: real, s2: real, leads: real)
    requires s1 <= s2
    ensures TimeSaved(s1, leads) <= TimeSaved(s2, leads)
  {
    var t := TimePerSalesperson(leads);
    assert TimeSaved(s1, leads) == t * s1 && TimeSaved(s2, leads) == t * s2;
    ScaleMonotone(t, s1, s2, TimeSaved(s1, leads), TimeSaved(s2, leads));
  }

  /** Hours saved never decrease as lead volume grows. */
  lemma TimeSavedMonotoneInLeads(salespeople: real, l1: real, l2: real)
    requires salespeople >= 0.0 && l1 <= l2
    ensures TimeSaved(salespeople, l1) <= TimeSaved(salespeople, l2)
  {
    var t1, t2 := TimePerSalesperson(l1), TimePerSalesperson(l2);
    assert l1 / LeadsPerBlock * HoursPerBlock <= l2 / LeadsPerBlock * HoursPerBlock;
    assert t1 <= t2;
    ScaleMonotone(salespeople, t1, t2, TimeSaved(salespeople, l1), TimeSaved(salespeople, l2));
  }

  /** With all-zero figures the deals floor is reported and every other figure is 0. */
  lemma AllZeroInputs()
    ensures Calculate(Inputs(0.0, 0.0, 0.0, 0.0, 0.0, 0.0)) == Estimate(DealsFloor, 0.0, 0.0, 0.0, 0.0)
  {
  }

  /** An empty field is read exactly as a field holding 0. */
  lemma BlankActsAsZero(raw: RawInputs)
    ensures ReadInputs(BlanksAsZero(raw)) == ReadInputs(raw)
    ensures Calculate(ReadInputs(BlanksAsZero(raw))) == Calculate(ReadInputs(raw))
  {
  }
}
