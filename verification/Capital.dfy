/** Profit harvesting before a mint: shared/strategy/capital.ts. */
module Capital {
  import opened Basics

  datatype Harvest = Harvest(triggered: bool, deploy0: int, deploy1: int, profit0: int, profit1: int)

  /** The share of `amount` that the capital cap lets back into the position. */
  function Capped(amount: int, cap: int, active: int): int
    requires active > 0
  {
    Trunc(amount * cap, active)
  }

  /**
   * The split is exact on both sides and never negative; a triggered harvest keeps both
   * sides of the position alive.
   */
  function PlanHarvest(amount0: int, amount1: int, active: int, cap: int, excessUsd: int, threshold: int): (r: Result<Harvest>)
    ensures r.Ok? <==> amount0 >= 0 && amount1 >= 0 && active >= 0 && cap >= 0 && excessUsd >= 0 && threshold >= 0
    ensures r.Ok? ==>
      var h := r.value;
      && h.deploy0 + h.profit0 == amount0 && h.deploy1 + h.profit1 == amount1
      && 0 <= h.deploy0 <= amount0 && 0 <= h.deploy1 <= amount1
      && (!h.triggered ==> h.profit0 == 0 && h.profit1 == 0)
      && (h.triggered ==> 0 < h.deploy0 && 0 < h.deploy1 && 0 < cap < active && excessUsd >= threshold)
  {
    if amount0 < 0 || amount1 < 0 || active < 0 || cap < 0 || excessUsd < 0 || threshold < 0 then Err("E_CAPITAL_AMOUNT")
    else
      var excess := if active > cap then active - cap else 0;
      if !(active > 0 && cap > 0 && excess > 0 && excessUsd >= threshold) then
        Ok(Harvest(false, amount0, amount1, 0, 0))
      else
        CappedBounds(amount0, cap, active);
        CappedBounds(amount1, cap, active);
        var deploy0, deploy1 := Capped(amount0, cap, active), Capped(amount1, cap, active);
        if deploy0 == 0 || deploy1 == 0 then Ok(Harvest(false, amount0, amount1, 0, 0))
        else Ok(Harvest(true, deploy0, deploy1, amount0 - deploy0, amount1 - deploy1))
  }

  /**
   * A harvest happens exactly when the position is worth more than its cap by the threshold and
   * both capped shares are at least one unit; it then deploys the floor of the capped proportion.
   */
  lemma HarvestIsProportional(amount0: int, amount1: int, active: int, cap: int, excessUsd: int, threshold: int)
    requires PlanHarvest(amount0, amount1, active, cap, excessUsd, threshold).Ok?
    ensures var h := PlanHarvest(amount0, amount1, active, cap, excessUsd, threshold).value;
      && (h.triggered <==> 0 < cap < active && excessUsd >= threshold && active <= amount0 * cap && active <= amount1 * cap)
      && (h.triggered ==> h.deploy0 * active <= amount0 * cap < (h.deploy0 + 1) * active)
      && (h.triggered ==> h.deploy1 * active <= amount1 * cap < (h.deploy1 + 1) * active)
  {
    if 0 < cap < active {
      CappedBounds(amount0, cap, active);
      CappedBounds(amount1, cap, active);
    }
  }

  lemma CappedBounds(amount: int, cap: int, active: int)
    requires 0 <= amount && 0 < cap < active
    ensures 0 <= Capped(amount, cap, active) <= amount
    ensures Capped(amount, cap, active) == 0 <==> amount * cap < active
    ensures Capped(amount, cap, active) * active <= amount * cap < (Capped(amount, cap, active) + 1) * active
  {
    MulMonotone(amount, 0, cap);
    ShareBounds(amount, cap, active);
    FloorBounds(amount * cap, active);
    FloorGreatest(amount * cap, active, 1);
  }
}
