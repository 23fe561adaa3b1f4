/** Nearest-point telemetry lookups and workload figures (app/decide/scheduler.py). */
module Telemetry {
  import opened Prelude

  datatype Point<+V> = Point(timestamp: Time, value: V)

  datatype CarbonReading = CarbonReading(gramsPerKwh: real, isFallback: bool)

  type CarbonCurve = seq<Point<CarbonReading>>
  type TariffCurve = seq<Point<real>>

  const TRUST_WINDOW: int := 7200 * SECOND

  function Distance(a: Time, b: Time): (d: int)
    ensures d >= 0 && (d == a - b || d == b - a)
  {
    if a <= b then b - a else a - b
  }

  /** The nearest point; of equally near ones, the first. */
  function NearestIndex<V>(curve: seq<Point<V>>, t: Time): (best: nat)
    requires curve != []
    ensures best < |curve|
    ensures forall j :: 0 <= j < |curve| ==> Distance(curve[best].timestamp, t) <= Distance(curve[j].timestamp, t)
    ensures forall j :: 0 <= j < best ==> Distance(curve[best].timestamp, t) < Distance(curve[j].timestamp, t)
  {
    var last := |curve| - 1;
    if last == 0 then 0
    else
      var best := NearestIndex(curve[..last], t);
      if Distance(curve[last].timestamp, t) < Distance(curve[best].timestamp, t) then last else best
  }

  function InterpolateCarbon(t: Time, curve: CarbonCurve): (Option<real>, bool) {
    if curve == [] then (None, false)
    else
      var best := curve[NearestIndex(curve, t)];
      if Distance(best.timestamp, t) > TRUST_WINDOW && !best.value.isFallback then (None, false)
      else (Some(best.value.gramsPerKwh), best.value.isFallback)
  }

  function InterpolateTariff(t: Time, curve: TariffCurve, template: Time -> Option<real>): Option<real> {
    if curve != [] && Distance(curve[NearestIndex(curve, t)].timestamp, t) <= TRUST_WINDOW
    then Some(curve[NearestIndex(curve, t)].value)
    else template(t)
  }

  /** The i-th point is the nearest one, and the first of those equally near. */
  ghost predicate IsNearest<V>(curve: seq<Point<V>>, t: Time, i: nat) {
    && i < |curve|
    && (forall j :: 0 <= j < |curve| ==> Distance(curve[i].timestamp, t) <= Distance(curve[j].timestamp, t))
    && (forall j :: 0 <= j < i ==> Distance(curve[i].timestamp, t) < Distance(curve[j].timestamp, t))
  }

  /**
   * The answer is a figure exactly when the first nearest point lies within two hours or is a fallback, and then it
   * is that point's own figure with its own flag.
   */
  lemma CarbonReadingExact(t: Time, curve: CarbonCurve, i: nat)
    requires IsNearest(curve, t, i)
    ensures var trusted := Distance(curve[i].timestamp, t) <= 2 * HOUR || curve[i].value.isFallback;
            InterpolateCarbon(t, curve)
            == if trusted then (Some(curve[i].value.gramsPerKwh), curve[i].value.isFallback) else (None, false)
  {
    assert NearestIndex(curve, t) == i;
  }

  /** A tariff is the first nearest point's within two hours, and the template's otherwise. */
  lemma TariffReadingExact(t: Time, curve: TariffCurve, template: Time -> Option<real>, i: nat)
    requires IsNearest(curve, t, i)
    ensures InterpolateTariff(t, curve, template)
         == if Distance(curve[i].timestamp, t) <= 2 * HOUR then Some(curve[i].value) else template(t)
  {
    assert NearestIndex(curve, t) == i;
  }

  /** Every curve but the empty one has such a point; without any, nothing but the template answers. */
  lemma SomePointIsNearest(t: Time, carbon: CarbonCurve, tariff: TariffCurve, template: Time -> Option<real>)
    ensures if carbon == [] then InterpolateCarbon(t, carbon) == (None, false) else exists i :: IsNearest(carbon, t, i)
    ensures if tariff == [] then InterpolateTariff(t, tariff, template) == template(t)
            else exists i :: IsNearest(tariff, t, i)
  {
    if carbon != [] {
      assert IsNearest(carbon, t, NearestIndex(carbon, t));
    }
    if tariff != [] {
      assert IsNearest(tariff, t, NearestIndex(tariff, t));
    }
  }

  /** A live reading is trusted exactly when some point of the curve lies within two hours of it. */
  lemma LiveCarbonTrustedIff(t: Time, curve: CarbonCurve)
    requires forall p :: p in curve ==> !p.value.isFallback
    ensures InterpolateCarbon(t, curve).0.Some? <==> exists p :: p in curve && Distance(p.timestamp, t) <= TRUST_WINDOW
    ensures !InterpolateCarbon(t, curve).1
  {
  }

  /** The tariff curve is used exactly when some point of it lies within two hours; otherwise the template answers. */
  lemma CurveTariffUsedIff(t: Time, curve: TariffCurve, template: Time -> Option<real>)
    ensures (exists p :: p in curve && Distance(p.timestamp, t) <= TRUST_WINDOW) ==>
              InterpolateTariff(t, curve, template) == Some(curve[NearestIndex(curve, t)].value)
    ensures (forall p :: p in curve ==> Distance(p.timestamp, t) > TRUST_WINDOW) ==>
              InterpolateTariff(t, curve, template) == template(t)
  {
    if curve != [] {
      assert curve[NearestIndex(curve, t)] in curve;
    }
  }

  function EnergyKwh(powerKw: real, runtimeMinutes: nat): real {
    powerKw * (runtimeMinutes as real / 60.0)
  }

  function WorkloadEnergy(stated: Option<real>, powerKw: real, runtimeMinutes: nat): real {
    if stated.Some? && stated.value > 0.0 then stated.value else EnergyKwh(powerKw, runtimeMinutes)
  }

  function CarbonKg(energyKwh: real, gramsPerKwh: real): real {
    energyKwh * gramsPerKwh / 1000.0
  }

  function CostUsd(energyKwh: real, pricePerKwh: real): real {
    energyKwh * pricePerKwh
  }

  /**
   * A kilowatt for an hour is a kilowatt-hour; a thousand grams to it are a kilogram. Splitting a run, or its power,
   * splits energy, emissions and cost.
   */
  lemma FiguresAddUp(powerA: real, powerB: real, minutesA: nat, minutesB: nat)
    ensures EnergyKwh(1.0, 60) == 1.0
    ensures EnergyKwh(powerA, minutesA + minutesB) == EnergyKwh(powerA, minutesA) + EnergyKwh(powerA, minutesB)
    ensures EnergyKwh(powerA + powerB, minutesA) == EnergyKwh(powerA, minutesA) + EnergyKwh(powerB, minutesA)
  {
  }

  lemma EmissionsAddUp(energyA: real, energyB: real, gramsA: real, gramsB: real)
    ensures CarbonKg(1.0, 1000.0) == 1.0
    ensures CarbonKg(energyA + energyB, gramsA) == CarbonKg(energyA, gramsA) + CarbonKg(energyB, gramsA)
    ensures CarbonKg(energyA, gramsA + gramsB) == CarbonKg(energyA, gramsA) + CarbonKg(energyA, gramsB)
  {
  }

  lemma CostsAddUp(energyA: real, energyB: real, priceA: real, priceB: real)
    ensures CostUsd(1.0, priceA) == priceA && CostUsd(energyA, 1.0) == energyA
    ensures CostUsd(energyA + energyB, priceA) == CostUsd(energyA, priceA) + CostUsd(energyB, priceA)
    ensures CostUsd(energyA, priceA + priceB) == CostUsd(energyA, priceA) + CostUsd(energyA, priceB)
  {
  }

  /** A stated energy counts when it is positive; otherwise power and runtime decide. */
  lemma StatedEnergyWins(stated: Option<real>, powerKw: real, runtimeMinutes: nat)
    ensures stated.Some? && stated.value > 0.0 ==> WorkloadEnergy(stated, powerKw, runtimeMinutes) == stated.value
    ensures stated.None? || stated.value <= 0.0 ==>
              WorkloadEnergy(stated, powerKw, runtimeMinutes) == EnergyKwh(powerKw, runtimeMinutes)
  {
  }
}
