/** The drain and reboot protocol as a guarded transition relation: which effect the
    controller may have in which persisted state, and what a run is. */
module Protocol {
  import opened NodeTypes
  import opened Plugins
  import opened World

  /** One effect, and the persisted state just before it. */
  datatype Step = Step(pre: World, ev: Event)

  /** A run: its effects in order, and the state it has reached. */
  datatype Run = Run(steps: seq<Step>, now: World)
  {
    /** The persisted state after the first `k` effects. */
    function At(k: int): World
      requires 0 <= k <= |steps|
    {
      if k < |steps| then steps[k].pre else now
    }

    function Ev(k: int): Event
      requires 0 <= k < |steps|
    {
      steps[k].ev
    }

    /** The effect `j` places before position `k`, if there is one. */
    function Before(k: int, j: nat): Option<Event>
      requires 0 <= k <= |steps|
    {
      if 1 <= j <= k then Some(steps[k - j].ev) else None
    }
  }

  function Extend(r: Run, e: Event): Run {
    Run(r.steps + [Step(r.now, e)], Apply(r.now, e))
  }

  /** A live record together with its kube node. */
  predicate Managed(w: World, n: string) {
    Present(w, n) && !w.recs[n].deleting
  }

  /** The states in which `drain` works on a node that passed the checks, or that has no state. */
  predicate MayEvict(r: Record) {
    r.spec.Drains() && !r.drained && (r.cs.Unset? || r.cs.NeedsUndrain())
  }

  /** A reboot-required verdict that is at most two minutes old. */
  predicate RecentVerdict(w: World, r: Record) {
    !Due(r.lastChecked, w.clock, 2 * MINUTE)
  }

  predicate MayUncordonOnRequest(r: Record, k: Kube) {
    r.spec.WantActive? && !r.cs.Committed() && !k.manager.Foreign?
  }

  predicate ReadyToReboot(r: Record, k: Kube) {
    r.spec.WantReboot? && r.cs.Drained? && r.drained && k.unsched && r.bootId == k.bootId
  }

  /** Whether the current state of `n` may become `s`; `p1` and `p2` are the last two effects. */
  predicate AllowedState(cfg: Config, w: World, p1: Option<Event>, p2: Option<Event>, n: string, s: CurrentState)
    requires Managed(w, n)
  {
    var r, k := w.recs[n], w.kubes[n];
    match s
    case OK =>
      || (r.cs.Undraining? && !r.drained && !k.unsched &&
          (|| (p1.Some? && p1.value.PostDrains(n))
           || (p1 == Some(ClearDrained(n)) && p2.Some? && p2.value.PostDrains(n))))
      || (MayUncordonOnRequest(r, k) && !k.unsched)
    case Cordoned => r.spec.WantCordoned? && !r.cs.Undraining? && k.unsched
    case Queued => r.spec.Drains() && (r.cs.OK? || r.cs.Cordoned?)
    case Next => r.spec.Drains() && r.cs.Queued? && NobodyWorks(w)
    case Draining =>
      && r.cs.Next? && r.spec.Drains() && !r.drained
      && (r.spec.WantReboot? ==> r.required == Some(true))
      && p2.Some? && p2.value.Healthy? && p2.value.node == n
      && p1.Some? && p1.value.DrainOk? && p1.value.node == n
    case Undraining => r.spec.WantActive? && r.cs.NeedsUndrain()
    case Rebooting => ReadyToReboot(r, k) && (cfg.containerNode || p1 == Some(RebootPod(n)))
    case Drained => false
    case Unset => false
  }

  /** Whether the controller may have the effect `e` on a managed node. */
  predicate AllowedOnNode(cfg: Config, w: World, p1: Option<Event>, p2: Option<Event>, e: Event)
    requires !e.Tick? && Managed(w, e.node)
  {
    var n := e.node;
    var r, k := w.recs[n], w.kubes[n];
    match e
    case SetState(_, s) => s != r.cs && AllowedState(cfg, w, p1, p2, n, s)
    case MarkDrained(_) => MayEvict(r) && k.unsched && p1 == Some(Evict(n))
    case ClearDrained(_) => r.drained && !k.unsched
    case SetActive(_) =>
      && r.spec.WantReboot?
      && (|| ((r.cs.Next? || r.cs.Drained?) && r.required != Some(true) && RecentVerdict(w, r))
          || (r.cs.Rebooting? && p1.Some? && p1.value.Rebooted? && p1.value.node == n))
    case Cordon(_) => !k.unsched && (r.spec.WantCordoned? || MayEvict(r))
    case Uncordon(_) =>
      k.unsched && ((r.cs.Undraining? && p1 == Some(NodesReady(n))) || MayUncordonOnRequest(r, k))
    case SaveBoot(_) => r.spec.WantReboot? && r.cs.Drained? && r.drained
    case Checked(_, _, t, periodic) =>
      && w.clock <= t
      && if periodic then !r.cs.Work() && Due(r.lastChecked, t, EffectiveInterval(cfg))
         else r.spec.WantReboot? && (r.cs.Next? || r.cs.Drained?) && Due(r.lastChecked, t, 2 * MINUTE)
    case Rebooted(_, t) =>
      && w.clock <= t && r.spec.WantReboot? && r.cs.Rebooting? && r.drained && k.unsched
      && (cfg.containerNode || (k.bootId != r.bootId && SomeReadyConditionHolds(k.conditions)))
    case NodesReady(_) => r.cs.Undraining? && NodesHealthy(w)
    case Healthy(_, q, _) =>
      && r.cs.Next? && NodesHealthy(w) && q.Keys == cfg.plugins && AllConsent(q)
      && (r.spec.WantReboot? ==> r.required == Some(true) && RecentVerdict(w, r))
    case DrainOk(_, q, _) =>
      r.cs.Next? && q.Keys == cfg.plugins && AllConsent(q) && p1.Some? && p1.value.Healthy? && p1.value.node == n
    case PreDrain(_, q) => MayEvict(r) && k.unsched && w.host != n && q.Keys == cfg.plugins
    case Evict(_) =>
      && MayEvict(r) && k.unsched && w.host != n
      && p1.Some? && p1.value.PreDrains(n) && HooksSucceed(p1.value.hooks)
    case PostDrain(_, q) => r.cs.Undraining? && !k.unsched && q.Keys == cfg.plugins && HooksSucceed(q)
    case RebootPod(_) => !cfg.containerNode && ReadyToReboot(r, k)
    case _ => false
  }

  /** The transition relation: controller effects under their guards, and any outside effect. */
  predicate Allowed(cfg: Config, w: World, p1: Option<Event>, p2: Option<Event>, e: Event) {
    if e.Outside() then true
    else if e.CreateRecord? then e.node in w.kubes && e.node !in w.recs
    else if e.Finalize? then e.node in w.recs && w.recs[e.node].deleting
    else Managed(w, e.node) && AllowedOnNode(cfg, w, p1, p2, e)
  }

  predicate AllowedNext(cfg: Config, r: Run, e: Event) {
    Allowed(cfg, r.now, r.Before(|r.steps|, 1), r.Before(|r.steps|, 2), e)
  }

  predicate StepOk(cfg: Config, r: Run, k: int)
    requires 0 <= k < |r.steps|
  {
    && Allowed(cfg, r.At(k), r.Before(k, 1), r.Before(k, 2), r.Ev(k))
    && r.At(k + 1) == Apply(r.At(k), r.Ev(k))
  }

  /** Every effect of the run is allowed where it happens. */
  ghost predicate Valid(cfg: Config, r: Run) {
    forall k :: 0 <= k < |r.steps| ==> StepOk(cfg, r, k)
  }

  lemma ExtendValid(cfg: Config, r: Run, e: Event)
    requires Valid(cfg, r) && AllowedNext(cfg, r, e)
    ensures Valid(cfg, Extend(r, e))
  {
    var r' := Extend(r, e);
    forall k | 0 <= k < |r'.steps| ensures StepOk(cfg, r', k) {
      if k < |r.steps| {
        assert StepOk(cfg, r, k);
        assert r'.At(k) == r.At(k) && r'.At(k + 1) == r.At(k + 1) && r'.Ev(k) == r.Ev(k);
        assert r'.Before(k, 1) == r.Before(k, 1) && r'.Before(k, 2) == r.Before(k, 2);
      } else {
        assert r'.Before(k, 1) == r.Before(k, 1) && r'.Before(k, 2) == r.Before(k, 2);
      }
    }
  }

  /** The edges of the current-state graph between named states. */
  predicate Edge(a: CurrentState, b: CurrentState) {
    match a
    case Unset => false
    case OK => b.Cordoned? || b.Queued?
    case Cordoned => b.OK? || b.Queued?
    case Queued => b.OK? || b.Cordoned? || b.Next?
    case Next => b.OK? || b.Cordoned? || b.Draining?
    case Draining => b.Drained? || b.Undraining? || b.Cordoned?
    case Drained => b.Rebooting? || b.Undraining? || b.Cordoned?
    case Rebooting => b.Drained? || b.Undraining? || b.Cordoned?
    case Undraining => b.OK?
  }

  /** Every change of a named current state is an edge of the graph, and only an effect on
      that node makes one. */
  lemma StateChangesFollowEdges(cfg: Config, r: Run, k: int, n: string)
    requires Valid(cfg, r) && 0 <= k < |r.steps|
    requires n in r.At(k).recs && n in r.At(k + 1).recs
    requires r.At(k).recs[n].cs != r.At(k + 1).recs[n].cs
    ensures !r.Ev(k).Outside() && r.Ev(k).On(n)
    ensures !r.At(k).recs[n].cs.Unset? ==> Edge(r.At(k).recs[n].cs, r.At(k + 1).recs[n].cs)
    ensures !r.At(k + 1).recs[n].cs.Unset?
  {
    assert StepOk(cfg, r, k);
  }
}
