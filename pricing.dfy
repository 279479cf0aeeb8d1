/** Rate resolver and charge calculator of the shipment-creation handler:
    volumetric weight, effective weight, the choice between the flat rate row
    and a weight tier, the audience column (partner or retail) and the charged
    total, the larger of the weight-based and the volume-based cost. */
module Pricing {
  import opened Wrappers

  /** Divisor turning cubic centimetres into a volume weight in kilograms. */
  const VolumetricDivisor: real := 5000.0

  /** The role stored with a user; only `Mitra` changes the rates charged. */
  datatype Role = Customer | Mitra | Admin

  /** One row of rates: the retail pair and the partner ("mitra") pair. */
  datatype Rates = Rates(perKg: real, perVolume: real, perKgMitra: real, perVolumeMitra: real)

  /** A weight tier; `maxWeight == None` is the open-ended top tier (a NULL column). */
  datatype Tier = Tier(minWeight: real, maxWeight: Option<real>, rates: Rates)

  /** A catalog row for one (country, category). */
  datatype Price = Price(country: string, category: string, rates: Rates, isIdentity: bool, tiered: bool)

  /** The parcel as the caller supplied it, in kilograms and centimetres. */
  datatype Dimensions = Dimensions(weight: real, length: real, width: real, height: real)

  /** What the pricing step hands to the settlement: the unit rates applied,
      the volume weight and the total charged. */
  datatype Charge = Charge(perKg: real, perVolume: real, volume: real, total: real)

  function VolumetricWeight(d: Dimensions): (v: real)
    ensures v * VolumetricDivisor == d.length * d.width * d.height
  {
    (d.length * d.width * d.height) / VolumetricDivisor
  }

  /** `total` is the larger of the two costs: at least each, and equal to one. */
  predicate IsHigherOf(total: real, a: real, b: real) {
    total >= a && total >= b && (total == a || total == b)
  }

  /** Weight used to pick a tier: the larger of actual and volume weight. */
  function EffectiveWeight(d: Dimensions): (w: real)
    ensures IsHigherOf(w, d.weight, VolumetricWeight(d))
  {
    var v := VolumetricWeight(d);
    if d.weight >= v then d.weight else v
  }

  /** The charged total for stored unit rates: never a sum or an average. */
  function ChargeFor(weight: real, volume: real, perKg: real, perVolume: real): (total: real)
    ensures IsHigherOf(total, weight * perKg, volume * perVolume)
  {
    var byWeight := weight * perKg;
    var byVolume := volume * perVolume;
    if byWeight >= byVolume then byWeight else byVolume
  }

  /** The audience column of a rate row: partner rates for `Mitra`, retail otherwise. */
  function RatesFor(row: Rates, role: Role): (real, real) {
    if role == Mitra then (row.perKgMitra, row.perVolumeMitra) else (row.perKg, row.perVolume)
  }

  /** The tier query's WHERE clause: both ends of the range are inclusive. */
  predicate Matches(t: Tier, w: real) {
    t.minWeight <= w && (t.maxWeight.None? || t.maxWeight.value >= w)
  }

  /** `t` matches and no matching tier of `ts` has a larger minimum weight. */
  predicate IsBestTier(t: Tier, ts: seq<Tier>, w: real) {
    Matches(t, w) && forall u :: u in ts && Matches(u, w) ==> u.minWeight <= t.minWeight
  }

  /** The tier query: among matching tiers the one with the largest
      `minWeight` (ORDER BY min_weight DESC LIMIT 1); of equal minima the
      earliest in the list. `None` is "No pricing tier found". */
  function SelectTier(ts: seq<Tier>, w: real): (r: Option<Tier>)
    ensures r.None? <==> forall t :: t in ts ==> !Matches(t, w)
    ensures r.Some? ==> r.value in ts && IsBestTier(r.value, ts, w)
  {
    if ts == [] then None
    else
      var rest := SelectTier(ts[1..], w);
      if Matches(ts[0], w) && (rest.None? || rest.value.minWeight <= ts[0].minWeight) then Some(ts[0])
      else rest
  }

  /** The rate row that applies: the flat row, or the selected tier's row. */
  function RateRow(p: Price, ts: seq<Tier>, w: real): (r: Option<Rates>)
    ensures !p.tiered ==> r == Some(p.rates)
    ensures p.tiered ==> (r.None? <==> forall t :: t in ts ==> !Matches(t, w))
    ensures p.tiered && r.Some? ==> exists t :: t in ts && IsBestTier(t, ts, w) && t.rates == r.value
  {
    if !p.tiered then Some(p.rates)
    else
      match SelectTier(ts, w)
      case None => None
      case Some(t) => Some(t.rates)
  }

  /** `calculatePrice`: the unit rates and total charged for a parcel, or
      `None` when the price is tiered and no tier covers the effective weight. */
  function Quote(p: Price, ts: seq<Tier>, role: Role, d: Dimensions): (r: Option<Charge>)
    ensures !p.tiered ==> r.Some?
    ensures p.tiered ==> (r.None? <==> forall t :: t in ts ==> !Matches(t, EffectiveWeight(d)))
    ensures r.Some? ==> r.value.volume * VolumetricDivisor == d.length * d.width * d.height
    ensures r.Some? ==> IsHigherOf(r.value.total, d.weight * r.value.perKg, r.value.volume * r.value.perVolume)
    ensures r.Some? && role == Mitra ==>
      var row := RateRow(p, ts, EffectiveWeight(d)).value;
      r.value.perKg == row.perKgMitra && r.value.perVolume == row.perVolumeMitra
    ensures r.Some? && role != Mitra ==>
      var row := RateRow(p, ts, EffectiveWeight(d)).value;
      r.value.perKg == row.perKg && r.value.perVolume == row.perVolume
  {
    var volume := VolumetricWeight(d);
    match RateRow(p, ts, EffectiveWeight(d))
    case None => None
    case Some(row) =>
      var (perKg, perVolume) := RatesFor(row, role);
      Some(Charge(perKg, perVolume, volume, ChargeFor(d.weight, volume, perKg, perVolume)))
  }

  /** Tiers laid end to end from weight 0 up to an open-ended top tier. */
  predicate Contiguous(ts: seq<Tier>) {
    && |ts| > 0
    && ts[0].minWeight <= 0.0
    && (forall i :: 0 <= i < |ts| - 1 ==> ts[i].maxWeight == Some(ts[i + 1].minWeight))
    && ts[|ts| - 1].maxWeight.None?
  }

  /** Tier minima strictly increase along the list. */
  predicate Increasing(ts: seq<Tier>) {
    forall i, j :: 0 <= i < j < |ts| ==> ts[i].minWeight < ts[j].minWeight
  }

  /** Some tier from index `k` on matches any weight at or above `ts[k]`'s minimum. */
  lemma {:induction false} CoveredFrom(ts: seq<Tier>, k: nat, w: real)
    requires Contiguous(ts) && k < |ts| && ts[k].minWeight <= w
    ensures exists j :: k <= j < |ts| && Matches(ts[j], w)
    decreases |ts| - k
  {
    if Matches(ts[k], w) {
    } else {
      assert k < |ts| - 1;
      CoveredFrom(ts, k + 1, w);
    }
  }

  /** Tier coverage: tiers that cover [0, infinity) never answer "No pricing
      tier found" for a non-negative effective weight. */
  lemma ContiguousTiersCover(ts: seq<Tier>, w: real)
    requires Contiguous(ts) && w >= 0.0
    ensures SelectTier(ts, w).Some?
  {
    CoveredFrom(ts, 0, w);
    var j :| 0 <= j < |ts| && Matches(ts[j], w);
    assert ts[j] in ts;
  }

  /** Although both ends of the query's range are inclusive, for contiguous
      increasing tiers the "largest minimum wins" rule picks the tier whose
      half-open range [min, max) holds the weight, so a weight on a boundary
      is priced by the upper tier. */
  lemma HalfOpenTierChosen(ts: seq<Tier>, i: nat, w: real)
    requires Contiguous(ts) && Increasing(ts) && i < |ts|
    requires ts[i].minWeight <= w && (ts[i].maxWeight.None? || w < ts[i].maxWeight.value)
    ensures SelectTier(ts, w) == Some(ts[i])
  {
    assert ts[i] in ts;
    var r := SelectTier(ts, w).value;
    var k :| 0 <= k < |ts| && ts[k] == r;
    forall j | i < j < |ts|
      ensures !Matches(ts[j], w)
    {
      assert ts[i + 1].minWeight <= ts[j].minWeight;
    }
    assert k == i;
  }
}
