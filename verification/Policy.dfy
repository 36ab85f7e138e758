/** The scaling policy: which replica count a pool should have. */
module Policy {

  datatype PoolConfig = PoolConfig(minReplicas: nat, maxReplicas: int, upStep: int, downStep: int,
                                   cooldown: real, drainTimeout: real)

  datatype PoolState = PoolState(current: nat, pending: int, scalePending: int, running: int, busy: int)

  datatype Action = ScaleUp | ScaleDown | Keep

  datatype Decision = Decision(target: int, action: Action)

  function Max(a: int, b: int): int {
    if a >= b then a else b
  }

  function Min(a: int, b: int): int {
    if a <= b then a else b
  }

  function Distance(a: int, b: int): int {
    if a <= b then b - a else a - b
  }

  function Clamp(value: int, low: int, high: int): int {
    Max(low, Min(value, high))
  }

  function ToDecision(current: int, target: int): Decision {
    Decision(target, if target > current then ScaleUp else if target < current then ScaleDown else Keep)
  }

  function Evaluate(cfg: PoolConfig, s: PoolState): Decision {
    if s.scalePending > 0 then
      ToDecision(s.current, Clamp(s.current + cfg.upStep, cfg.minReplicas, cfg.maxReplicas))
    else if s.pending > 0 then
      Decision(s.current, Keep)
    else
      var candidate := Clamp(s.current - cfg.downStep, Max(cfg.minReplicas, s.busy), cfg.maxReplicas);
      if candidate < s.current && s.running > 0 then Decision(s.current, Keep)
      else ToDecision(s.current, candidate)
  }

  /** The clamped value is the point of the range nearest to the value - if there is a range: with
      the bounds crossed it is the lower one, which is above the upper one. */
  lemma ClampNearest(value: int, low: int, high: int)
    ensures low <= Clamp(value, low, high)
    ensures Clamp(value, low, high) <= high <==> low <= high
    ensures low <= high ==> forall x :: low <= x <= high ==>
              Distance(value, Clamp(value, low, high)) <= Distance(value, x)
    ensures low > high ==> Clamp(value, low, high) == low
  {
  }

  /** Growing needs jobs blocked on resources or a pool below its floor; a step stays within the
      limits; and busy nodes are only taken away while jobs are blocked on resources. */
  lemma DecisionsAreBounded(cfg: PoolConfig, s: PoolState)
    ensures var d := Evaluate(cfg, s);
      && (d.action == ScaleUp <==> d.target > s.current) && (d.action == ScaleDown <==> d.target < s.current)
      && (d.action == ScaleUp && cfg.downStep >= 0 ==> s.scalePending > 0 || s.current < Max(cfg.minReplicas, s.busy))
      && (d.action == ScaleUp ==> d.target <= Max(Max(cfg.minReplicas, cfg.maxReplicas), s.busy))
      && (d.action == ScaleDown ==> d.target >= cfg.minReplicas && (s.scalePending <= 0 ==> d.target >= s.busy))
      && (d.action == ScaleDown && s.current <= cfg.maxReplicas && cfg.upStep >= 0 ==>
            s.current - d.target <= cfg.downStep)
  {
  }

  /** The policy's own guard does not cover every case: with jobs running it still asks for fewer replicas
      exactly when jobs wait for resources in a pool that may shrink and is over its maximum - or whose step up
      is a step down. */
  lemma ShrinksWhileRunning(cfg: PoolConfig, s: PoolState)
    requires s.running > 0
    ensures Evaluate(cfg, s).action == ScaleDown <==>
            s.scalePending > 0 && cfg.minReplicas < s.current && (cfg.maxReplicas < s.current || cfg.upStep < 0)
  {
  }
}
