/**
 * The coordinator's zone bookkeeping: heating demands per zone (percent),
 * the rough power estimate (1 kW per zone at 100 %) and fair-share scaling
 * of all demands when their total exceeds the boiler's maximum power.
 *
 * Python dictionaries keep insertion order, so a demand table is an
 * association list with distinct keys.
 */
module Coordinator {
  import opened Base

  type Demands = seq<(string, real)>

  predicate DistinctKeys(d: Demands)
  {
    forall i, j :: 0 <= i < j < |d| ==> d[i].0 != d[j].0
  }

  function KeysOf(d: Demands): set<string>
  {
    set i | 0 <= i < |d| :: d[i].0
  }

  lemma KeysOfCons(x: (string, real), d: Demands)
    ensures KeysOf([x] + d) == {x.0} + KeysOf(d)
  {
    var xd := [x] + d;
    forall k | k in KeysOf(xd) ensures k in {x.0} + KeysOf(d) {
      var i :| 0 <= i < |xd| && xd[i].0 == k;
      if i > 0 {
        assert xd[i] == d[i - 1];
      }
    }
    assert xd[0].0 == x.0;
    forall k | k in KeysOf(d) ensures k in KeysOf(xd) {
      var i :| 0 <= i < |d| && d[i].0 == k;
      assert xd[i + 1] == d[i];
    }
  }

  /** `demands.values()` in insertion order. */
  function Values(d: Demands): (r: seq<real>)
    ensures |r| == |d| && forall i :: 0 <= i < |d| ==> r[i] == d[i].1
  {
    seq(|d|, i requires 0 <= i < |d| => d[i].1)
  }

  /** `demands.get(key, default)`. */
  function Get(d: Demands, key: string, default: real): (r: real)
    ensures key !in KeysOf(d) ==> r == default
    ensures DistinctKeys(d) ==> forall i :: 0 <= i < |d| && d[i].0 == key ==> r == d[i].1
  {
    if |d| == 0 then default
    else if d[0].0 == key then d[0].1
    else
      assert forall i :: 1 <= i < |d| ==> d[1..][i - 1] == d[i];
      assert key !in KeysOf(d) ==> key !in KeysOf(d[1..]);
      Get(d[1..], key, default)
  }

  /** `demands[key] = value`: an existing key keeps its place, a new one goes last. */
  function Put(d: Demands, key: string, value: real): (r: Demands)
    ensures KeysOf(r) == KeysOf(d) + {key}
    ensures forall i :: 0 <= i < |r| ==> r[i] == (key, value) || (i < |d| && r[i] == d[i])
    ensures key in KeysOf(d) ==> |r| == |d|
    ensures key !in KeysOf(d) ==> |r| == |d| + 1
  {
    if |d| == 0 then
      assert KeysOf([(key, value)]) == {key} by { KeysOfCons((key, value), []); }
      [(key, value)]
    else
      assert d == [d[0]] + d[1..];
      KeysOfCons(d[0], d[1..]);
      if d[0].0 == key then
        KeysOfCons((key, value), d[1..]);
        [(key, value)] + d[1..]
      else
        var rest := Put(d[1..], key, value);
        KeysOfCons(d[0], rest);
        [d[0]] + rest
  }

  /** After `demands[key] = value` the key reads back the value and every other key reads as before. */
  lemma {:induction false} PutGet(d: Demands, key: string, value: real)
    ensures forall x :: Get(Put(d, key, value), key, x) == value
    ensures forall k, x :: k != key ==> Get(Put(d, key, value), k, x) == Get(d, k, x)
    decreases |d|
  {
    if |d| > 0 && d[0].0 != key {
      PutGet(d[1..], key, value);
      assert Put(d, key, value)[1..] == Put(d[1..], key, value);
    }
  }

  /** Assignment keeps the keys distinct. */
  lemma {:induction false} PutDistinct(d: Demands, key: string, value: real)
    requires DistinctKeys(d)
    ensures DistinctKeys(Put(d, key, value))
    decreases |d|
  {
    if |d| > 0 && d[0].0 != key {
      PutDistinct(d[1..], key, value);
      var r := Put(d, key, value);
      assert r[1..] == Put(d[1..], key, value);
      forall j | 0 < j < |r| ensures r[0].0 != r[j].0 {
        assert r[j] == Put(d[1..], key, value)[j - 1];
        if r[j].0 != key {
          assert r[j] == d[1..][j - 1];
        }
      }
    }
  }

  /** Every demand multiplied by `factor`, keys and order unchanged. */
  function Scale(d: Demands, factor: real): (r: Demands)
    ensures |r| == |d| && forall i :: 0 <= i < |d| ==> r[i].0 == d[i].0 && r[i].1 == d[i].1 * factor
  {
    seq(|d|, i requires 0 <= i < |d| => (d[i].0, d[i].1 * factor))
  }

  /** `_estimate_power_usage`: sum of the demands / 100 · 1 kW. */
  function EstimatePowerUsage(d: Demands): real
  {
    Sum(Values(d)) / 100.0 * 1.0
  }

  /** Python truthiness of `max_boiler_power`: absent and 0 both mean no limit. */
  predicate Limited(maxPower: Option<real>)
  {
    maxPower.Some? && maxPower.value != 0.0
  }

  /**
   * `_apply_fair_share`. A configured limit is never negative (the
   * configuration form's number selector starts at 0), so an exceeded limit
   * means a positive total.
   */
  function ApplyFairShare(maxPower: Option<real>, d: Demands): (r: Demands)
    requires maxPower.Some? ==> maxPower.value >= 0.0
    ensures |r| == |d| && forall i :: 0 <= i < |d| ==> r[i].0 == d[i].0
  {
    if !Limited(maxPower) then d
    else
      var total := EstimatePowerUsage(d);
      if total <= maxPower.value then d
      else Scale(d, maxPower.value / total)
  }

  /** Without a limit, or within it, the demands come back unchanged. */
  lemma {:induction false} FairShareWithinBudget(maxPower: Option<real>, d: Demands)
    requires maxPower.Some? ==> maxPower.value >= 0.0
    requires !Limited(maxPower) || EstimatePowerUsage(d) <= maxPower.value
    ensures ApplyFairShare(maxPower, d) == d
  {
  }

  /**
   * Over budget, every demand is scaled by limit/total and the new total is
   * exactly the limit; in every case the result's total respects a positive
   * limit.
   */
  lemma {:induction false} FairShareMeetsLimit(maxPower: Option<real>, d: Demands)
    requires maxPower.Some? ==> maxPower.value >= 0.0
    ensures Limited(maxPower) ==> EstimatePowerUsage(ApplyFairShare(maxPower, d)) <= maxPower.value
    ensures Limited(maxPower) && EstimatePowerUsage(d) > maxPower.value ==>
      var r := ApplyFairShare(maxPower, d);
      r == Scale(d, maxPower.value / EstimatePowerUsage(d)) && EstimatePowerUsage(r) == maxPower.value
  {
    if Limited(maxPower) && EstimatePowerUsage(d) > maxPower.value {
      var total := EstimatePowerUsage(d);
      var f := maxPower.value / total;
      var r := ApplyFairShare(maxPower, d);
      assert r == Scale(d, f);
      SumScale(Values(d), Values(r), f);
      calc {
        EstimatePowerUsage(r);
        Sum(Values(d)) * f / 100.0;
        total * f;
        maxPower.value;
      }
    }
  }

  /** Scaling by one factor preserves the ratio between any two zones' demands. */
  lemma {:induction false} ScalePreservesRatios(d: Demands, f: real)
    ensures var r := Scale(d, f);
      forall i, j :: 0 <= i < |d| && 0 <= j < |d| ==> r[i].1 * d[j].1 == r[j].1 * d[i].1
  {
    var r := Scale(d, f);
    forall i, j | 0 <= i < |d| && 0 <= j < |d|
      ensures r[i].1 * d[j].1 == r[j].1 * d[i].1
    {
      var a, b := d[i].1, d[j].1;
      assert r[i].1 == a * f && r[j].1 == b * f;
      assert a * f * b == b * f * a;
    }
  }

  /** One configured thermostat: only its optional `room_name` matters here. */
  datatype ThermostatConfig = ThermostatConfig(roomName: Option<string>)

  /** The zone id of the `idx`-th thermostat: its room name, else `zone_{idx}`. */
  function ZoneKey(t: ThermostatConfig, idx: nat): string
  {
    if t.roomName.Some? then t.roomName.value else "zone_" + NatToString(idx)
  }

  class ZoneCoordinator {
    const maxBoilerPower: Option<real>
    const thermostats: seq<ThermostatConfig>
    var zoneDemands: Demands
    var totalPowerUsage: real

    ghost predicate Valid()
      reads this
    {
      DistinctKeys(zoneDemands) && (maxBoilerPower.Some? ==> maxBoilerPower.value >= 0.0)
    }

    constructor (maxBoilerPower: Option<real>, thermostats: seq<ThermostatConfig>)
      requires maxBoilerPower.Some? ==> maxBoilerPower.value >= 0.0
      ensures Valid()
      ensures this.maxBoilerPower == maxBoilerPower && this.thermostats == thermostats
      ensures zoneDemands == [] && totalPowerUsage == 0.0
    {
      this.maxBoilerPower := maxBoilerPower;
      this.thermostats := thermostats;
      zoneDemands := [];
      totalPowerUsage := 0.0;
    }

    /**
     * `_collect_heating_demands`: one 0.0 entry per thermostat, keyed by its
     * zone id (a repeated id keeps one entry).
     */
    method CollectHeatingDemands() returns (demands: Demands)
      ensures DistinctKeys(demands) && |demands| <= |thermostats|
      ensures KeysOf(demands) == set idx | 0 <= idx < |thermostats| :: ZoneKey(thermostats[idx], idx)
      ensures forall i :: 0 <= i < |demands| ==> demands[i].1 == 0.0
    {
      demands := [];
      for idx := 0 to |thermostats|
        invariant DistinctKeys(demands) && |demands| <= idx
        invariant KeysOf(demands) == set i | 0 <= i < idx :: ZoneKey(thermostats[i], i)
        invariant forall i :: 0 <= i < |demands| ==> demands[i].1 == 0.0
      {
        var roomName := ZoneKey(thermostats[idx], idx);
        PutDistinct(demands, roomName, 0.0);
        demands := Put(demands, roomName, 0.0);
        assert (set i | 0 <= i < idx + 1 :: ZoneKey(thermostats[i], i)) ==
               (set i | 0 <= i < idx :: ZoneKey(thermostats[i], i)) + {ZoneKey(thermostats[idx], idx)};
      }
    }

    /**
     * The demand part of `_async_update_data`: collect, fair-share when a
     * limit is configured, then store the power estimate.
     */
    method UpdateDemands() returns (demands: Demands)
      requires Valid()
      modifies this
      ensures Valid() && zoneDemands == old(zoneDemands)
      ensures |demands| <= |thermostats|
      ensures KeysOf(demands) == set idx | 0 <= idx < |thermostats| :: ZoneKey(thermostats[idx], idx)
      ensures totalPowerUsage == EstimatePowerUsage(demands)
      ensures Limited(maxBoilerPower) ==> totalPowerUsage <= maxBoilerPower.value
    {
      demands := CollectHeatingDemands();
      if maxBoilerPower.Some? {
        FairShareMeetsLimit(maxBoilerPower, demands);
        var collected := demands;
        demands := ApplyFairShare(maxBoilerPower, demands);
        assert KeysOf(demands) == KeysOf(collected) by {
          assert forall i :: 0 <= i < |demands| ==> demands[i].0 == collected[i].0;
        }
      }
      totalPowerUsage := EstimatePowerUsage(demands);
    }

    /** `register_zone_demand`: only that zone's entry is set. */
    method RegisterZoneDemand(zone: string, demand: real)
      requires Valid()
      modifies this
      ensures Valid()
      ensures zoneDemands == Put(old(zoneDemands), zone, demand)
      ensures Get(zoneDemands, zone, 0.0) == demand
      ensures forall k, x :: k != zone ==> Get(zoneDemands, k, x) == Get(old(zoneDemands), k, x)
      ensures totalPowerUsage == old(totalPowerUsage)
    {
      PutDistinct(zoneDemands, zone, demand);
      PutGet(zoneDemands, zone, demand);
      zoneDemands := Put(zoneDemands, zone, demand);
    }

    /** `get_adjusted_demand`: the stored or fair-shared demand, 0.0 for an unknown zone. */
    function GetAdjustedDemand(zone: string): (r: real)
      requires Valid()
      reads this
      ensures zone !in KeysOf(zoneDemands) ==> r == 0.0
    {
      if !Limited(maxBoilerPower) then Get(zoneDemands, zone, 0.0)
      else
        var adjusted := ApplyFairShare(maxBoilerPower, zoneDemands);
        assert KeysOf(adjusted) == KeysOf(zoneDemands);
        Get(adjusted, zone, 0.0)
    }

    /**
     * A registered zone's adjusted demand is its own demand, scaled by
     * limit/total only when the registered total exceeds a limit.
     */
    lemma {:induction false} AdjustedDemandOfRegistered(zone: string, i: nat)
      requires Valid() && i < |zoneDemands| && zoneDemands[i].0 == zone
      ensures var total := EstimatePowerUsage(zoneDemands);
        Limited(maxBoilerPower) && total > maxBoilerPower.value ==>
          GetAdjustedDemand(zone) == zoneDemands[i].1 * (maxBoilerPower.value / total)
      ensures var total := EstimatePowerUsage(zoneDemands);
        !(Limited(maxBoilerPower) && total > maxBoilerPower.value) ==>
          GetAdjustedDemand(zone) == zoneDemands[i].1
    {
      var total := EstimatePowerUsage(zoneDemands);
      if Limited(maxBoilerPower) && total > maxBoilerPower.value {
        var adjusted := ApplyFairShare(maxBoilerPower, zoneDemands);
        assert DistinctKeys(adjusted) by {
          assert forall j :: 0 <= j < |adjusted| ==> adjusted[j].0 == zoneDemands[j].0;
        }
        FairShareMeetsLimit(maxBoilerPower, zoneDemands);
        assert adjusted == Scale(zoneDemands, maxBoilerPower.value / total);
        assert adjusted[i].0 == zone && adjusted[i].1 == zoneDemands[i].1 * (maxBoilerPower.value / total);
      }
    }
  }
}
