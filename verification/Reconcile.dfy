/** One reconcile as a function of the persisted state, the answers of the outside calls and
    the point where something fails. `Controller` is the imperative form of the same steps.

    Every failed call and every failed write makes the source return at once, so all failures
    and crashes of one reconcile are told apart by the number of effects that precede them:
    `fuel` is that number. */
module Reconcile {
  import opened NodeTypes
  import opened Plugins
  import opened World
  import opened Protocol

  /** What the calls of one reconcile answer, and how long they take. */
  datatype Answers = Answers(
    health: map<string, Reply>,
    drainOk: map<string, Reply>,
    preDrain: map<string, HookReply>,
    postDrain: map<string, HookReply>,
    verdict: bool,                     // the reboot-required test of the host
    waits: (nat, nat),                 // time before a due test and while a check runs
    took: (nat, nat))                  // time until the health and the drain-ok check have answered

  /** A reconcile in progress: the run so far, the effects left before a failure, and whether
      the source has returned. */
  datatype Sim = Sim(run: Run, fuel: nat, stopped: bool)

  /** `s'` extends the run of `s` by effects of the controller, each for one unit of fuel. */
  predicate Continues(s: Sim, s': Sim) {
    && s.run.steps <= s'.run.steps && s'.run.At(|s.run.steps|) == s.run.now
    && |s'.run.steps| + s'.fuel == |s.run.steps| + s.fuel
    && forall k :: |s.run.steps| <= k < |s'.run.steps| ==> !s'.run.steps[k].ev.Outside()
  }

  function Do(s: Sim, e: Event): (s': Sim)
    requires !e.Outside()
    ensures Continues(s, s')
  {
    if s.stopped then s
    else if s.fuel == 0 then s.(stopped := true)
    else Sim(Extend(s.run, e), s.fuel - 1, false)
  }

  function Stop(s: Sim): (s': Sim)
    ensures Continues(s, s')
  {
    s.(stopped := true)
  }

  predicate Live(s: Sim, n: string) {
    !s.stopped && Managed(s.run.now, n)
  }

  /** Reset `Drained` and write OK. */
  function CloseUndrain(s: Sim, n: string): (s': Sim)
    ensures Continues(s, s')
  {
    if !Live(s, n) then s else
    Do(if s.run.now.recs[n].drained then Do(s, ClearDrained(n)) else s, SetState(n, OK))
  }

  /** The end of an undrain, once the node is schedulable. */
  function CompleteUndrain(cfg: Config, s: Sim, n: string, a: Answers): (s': Sim)
    ensures Continues(s, s')
  {
    if !Live(s, n) then s else
    var hooks := AskedHooks(cfg.plugins, a.postDrain);
    if !HooksSucceed(hooks) then Stop(s) else
    CloseUndrain(Do(s, PostDrain(n, hooks)), n)
  }

  function Undrain(cfg: Config, s: Sim, n: string, a: Answers): (s': Sim)
    ensures Continues(s, s')
  {
    if !Live(s, n) then s else
    var w := s.run.now;
    var r, k := w.recs[n], w.kubes[n];
    if r.cs.Undraining? then
      if k.unsched && !NodesHealthy(w) then Stop(s) else
      var s1 := if k.unsched then Do(Do(s, NodesReady(n)), Uncordon(n)) else s;
      CompleteUndrain(cfg, s1, n, a)
    else if r.cs.NeedsUndrain() && r.spec.WantActive? then
      Stop(Do(s, SetState(n, Undraining)))
    else s
  }

  function SyncDrained(s: Sim, n: string): (s': Sim)
    ensures Continues(s, s')
  {
    if Live(s, n) && !s.run.now.kubes[n].unsched && s.run.now.recs[n].drained then Do(s, ClearDrained(n)) else s
  }

  function CheckRebootRequired(cfg: Config, s: Sim, n: string, a: Answers): (s': Sim)
    ensures Continues(s, s')
  {
    if !Live(s, n) then s else
    var w := s.run.now;
    if !w.recs[n].cs.Work() && Due(w.recs[n].lastChecked, w.clock + a.waits.0, EffectiveInterval(cfg)) then
      Do(s, Checked(n, a.verdict, w.clock + a.waits.0 + a.waits.1, true))
    else s
  }

  /** The switch over the requested state. */
  function Request(s: Sim, n: string): (s': Sim)
    ensures Continues(s, s')
  {
    if !Live(s, n) then s else
    var r, k := s.run.now.recs[n], s.run.now.kubes[n];
    match r.spec
    case WantActive =>
      if k.manager.Foreign? then Stop(s) else
      var s1 := if k.unsched then Do(s, Uncordon(n)) else s;
      if r.cs.OK? then s1 else Do(s1, SetState(n, OK))
    case WantCordoned =>
      var s1 := if k.unsched then s else Do(s, Cordon(n));
      if r.cs.Cordoned? then s1 else Do(s1, SetState(n, Cordoned))
    case _ =>
      if !r.cs.Work() && !r.cs.Queued? then Stop(Do(s, SetState(n, Queued))) else s
  }

  /** The states in which a reboot-required verdict decides what happens. */
  predicate Decides(r: Record) {
    r.spec.WantReboot? && (r.cs.Next? || r.cs.Drained?)
  }

  /** Renew a verdict that is older than two minutes. */
  function RenewVerdict(s: Sim, n: string, a: Answers): (s': Sim)
    ensures Continues(s, s')
  {
    if !Live(s, n) then s else
    var w := s.run.now;
    if Decides(w.recs[n]) && Due(w.recs[n].lastChecked, w.clock + a.waits.0, 2 * MINUTE) then
      Do(s, Checked(n, a.verdict, w.clock + a.waits.0 + a.waits.1, false))
    else s
  }

  /** Give up when no reboot is required. */
  function Decide(s: Sim, n: string): (s': Sim)
    ensures Continues(s, s')
  {
    if !Live(s, n) then s else
    var r := s.run.now.recs[n];
    if Decides(r) && r.required != Some(true) then Stop(Do(s, SetActive(n))) else s
  }

  function Verdict(s: Sim, n: string, a: Answers): (s': Sim)
    ensures Continues(s, s')
  {
    Decide(RenewVerdict(s, n, a), n)
  }

  /** The drain-ok check, and the write of Draining. */
  function AskDrainOk(cfg: Config, s: Sim, n: string, a: Answers): (s': Sim)
    ensures Continues(s, s')
  {
    if !Live(s, n) then s else
    var replies := Asked(cfg.plugins, a.drainOk);
    if !AllConsent(replies) then Stop(s) else
    Do(Do(s, DrainOk(n, replies, a.took.1)), SetState(n, Draining))
  }

  /** The checks that precede a drain. */
  function DrainChecks(cfg: Config, s: Sim, n: string, a: Answers): (s': Sim)
    ensures Continues(s, s')
  {
    if !Live(s, n) then s else
    if !s.run.now.recs[n].cs.Next? then s else
    var replies := Asked(cfg.plugins, a.health);
    if !NodesHealthy(s.run.now) || !AllConsent(replies) then Stop(s) else
    AskDrainOk(cfg, Do(s, Healthy(n, replies, a.took.0)), n, a)
  }

  /** PreDrain hooks, eviction, and the write of Drained. */
  function EvictNow(cfg: Config, s: Sim, n: string, a: Answers): (s': Sim)
    ensures Continues(s, s')
  {
    var hooks := AskedHooks(cfg.plugins, a.preDrain);
    var s1 := Do(s, PreDrain(n, hooks));
    if !HooksSucceed(hooks) then Stop(s1) else
    Do(Do(s1, Evict(n)), MarkDrained(n))
  }

  /** Cordon the node and evict, unless the controller runs on it. */
  function EvictPods(cfg: Config, s: Sim, n: string, a: Answers): (s': Sim)
    ensures Continues(s, s')
  {
    if !Live(s, n) then s else
    var s1 := if s.run.now.kubes[n].unsched then s else Do(s, Cordon(n));
    if s.run.now.host == n then Stop(s1) else EvictNow(cfg, s1, n, a)
  }

  function Drain(cfg: Config, s: Sim, n: string, a: Answers): (s': Sim)
    ensures Continues(s, s')
  {
    if !Live(s, n) then s else
    if !s.run.now.recs[n].spec.Drains() || s.run.now.recs[n].drained then s else
    EvictPods(cfg, DrainChecks(cfg, s, n, a), n, a)
  }

  predicate IsRebooted(cfg: Config, r: Record, k: Kube) {
    cfg.containerNode || (k.bootId != r.bootId && SomeReadyConditionHolds(k.conditions))
  }

  /** Save the boot ID, create the reboot pod unless the nodes are containers, write Rebooting. */
  function StartReboot(cfg: Config, s: Sim, n: string): (s': Sim)
    ensures Continues(s, s')
  {
    if !Live(s, n) then s else
    var r, k := s.run.now.recs[n], s.run.now.kubes[n];
    var s1 := if k.bootId != r.bootId then Do(s, SaveBoot(n)) else s;
    if !k.unsched then Stop(s1) else
    var s2 := if cfg.containerNode then s1 else Do(s1, RebootPod(n));
    Stop(Do(s2, SetState(n, Rebooting)))
  }

  /** Hand the node back to Active once it has rebooted. */
  function FinishReboot(cfg: Config, s: Sim, n: string, a: Answers): (s': Sim)
    ensures Continues(s, s')
  {
    if !Live(s, n) then s else
    if !IsRebooted(cfg, s.run.now.recs[n], s.run.now.kubes[n]) then Stop(s) else
    Stop(Do(Do(s, Rebooted(n, s.run.now.clock + a.waits.1)), SetActive(n)))
  }

  function Reboot(cfg: Config, s: Sim, n: string, a: Answers): (s': Sim)
    ensures Continues(s, s')
  {
    if !Live(s, n) then s else
    var r := s.run.now.recs[n];
    if !r.spec.WantReboot? then s
    else if r.cs.Drained? && r.drained then StartReboot(cfg, s, n)
    else if r.cs.Rebooting? then FinishReboot(cfg, s, n, a)
    else s
  }

  function IsNextNode(s: Sim, n: string): (s': Sim)
    ensures Continues(s, s')
  {
    if Live(s, n) && NobodyWorks(s.run.now) then Do(s, SetState(n, Next)) else s
  }

  /** The part of the reconcile after the switch. */
  function Progress(cfg: Config, s: Sim, n: string, a: Answers): (s': Sim)
    ensures Continues(s, s')
  {
    if !Live(s, n) then s else
    if s.run.now.recs[n].cs.Work() then Reboot(cfg, Drain(cfg, Verdict(s, n, a), n, a), n, a)
    else if s.run.now.recs[n].cs.Queued? then IsNextNode(s, n)
    else s
  }

  /** The part of the reconcile after the undrain. */
  function Rest(cfg: Config, s: Sim, n: string, a: Answers): (s': Sim)
    ensures Continues(s, s')
  {
    Progress(cfg, Request(CheckRebootRequired(cfg, SyncDrained(s, n), n, a), n), n, a)
  }

  function Reconcile(cfg: Config, s: Sim, n: string, a: Answers): (s': Sim)
    ensures Continues(s, s')
  {
    var w := s.run.now;
    if n !in w.kubes then Stop(s)
    else if n !in w.recs then Do(s, CreateRecord(n))
    else if w.recs[n].deleting then Do(s, Finalize(n))
    else
      Rest(cfg, Undrain(cfg, s, n, a), n, a)
  }

  /** Nothing happens after the source has returned. */
  lemma StoppedStays(cfg: Config, s: Sim, n: string, a: Answers)
    requires s.stopped
    ensures Rest(cfg, s, n, a) == s && Request(s, n) == s && Progress(cfg, s, n, a) == s
    ensures Drain(cfg, s, n, a) == s && Reboot(cfg, s, n, a) == s
  {
  }

  // ---- every effect of a reconcile is allowed by the protocol ----

  /** The states that `Undrain` passes on. */
  predicate Settled(s: Sim, n: string) {
    Live(s, n) ==>
      var r := s.run.now.recs[n];
      !r.cs.Undraining? && !(r.cs.NeedsUndrain() && r.spec.WantActive?)
  }

  lemma DoValid(cfg: Config, s: Sim, e: Event)
    requires Valid(cfg, s.run) && !e.Outside() && (!s.stopped ==> AllowedNext(cfg, s.run, e))
    ensures Valid(cfg, Do(s, e).run)
    ensures !Do(s, e).stopped ==>
      && Do(s, e).run.now == Apply(s.run.now, e)
      && Do(s, e).run.Before(|Do(s, e).run.steps|, 1) == Some(e)
      && Do(s, e).run.Before(|Do(s, e).run.steps|, 2) == s.run.Before(|s.run.steps|, 1)
  {
    if !s.stopped && s.fuel > 0 {
      ExtendValid(cfg, s.run, e);
    }
  }

  lemma CompleteUndrainIsAllowed(cfg: Config, s: Sim, n: string, a: Answers)
    requires Valid(cfg, s.run)
    requires Live(s, n) ==> s.run.now.recs[n].cs.Undraining? && !s.run.now.kubes[n].unsched
    ensures Valid(cfg, CompleteUndrain(cfg, s, n, a).run) && Settled(CompleteUndrain(cfg, s, n, a), n)
  {
    var hooks := AskedHooks(cfg.plugins, a.postDrain);
    if Live(s, n) && HooksSucceed(hooks) {
      DoValid(cfg, s, PostDrain(n, hooks));
      CloseUndrainIsAllowed(cfg, Do(s, PostDrain(n, hooks)), n);
    }
  }

  lemma CloseUndrainIsAllowed(cfg: Config, s: Sim, n: string)
    requires Valid(cfg, s.run)
    requires Live(s, n) ==>
      && s.run.now.recs[n].cs.Undraining? && !s.run.now.kubes[n].unsched
      && var p := s.run.Before(|s.run.steps|, 1); p.Some? && p.value.PostDrains(n)
    ensures Valid(cfg, CloseUndrain(s, n).run) && Settled(CloseUndrain(s, n), n)
  {
    if Live(s, n) {
      if s.run.now.recs[n].drained {
        DoValid(cfg, s, ClearDrained(n));
        DoValid(cfg, Do(s, ClearDrained(n)), SetState(n, OK));
      } else {
        DoValid(cfg, s, SetState(n, OK));
      }
    }
  }

  lemma UndrainIsAllowed(cfg: Config, s: Sim, n: string, a: Answers)
    requires Valid(cfg, s.run)
    ensures Valid(cfg, Undrain(cfg, s, n, a).run) && Settled(Undrain(cfg, s, n, a), n)
  {
    if Live(s, n) {
      var r, k := s.run.now.recs[n], s.run.now.kubes[n];
      if r.cs.Undraining? {
        if !k.unsched {
          CompleteUndrainIsAllowed(cfg, s, n, a);
        } else if NodesHealthy(s.run.now) {
          DoValid(cfg, s, NodesReady(n));
          DoValid(cfg, Do(s, NodesReady(n)), Uncordon(n));
          CompleteUndrainIsAllowed(cfg, Do(Do(s, NodesReady(n)), Uncordon(n)), n, a);
        }
      } else if r.cs.NeedsUndrain() && r.spec.WantActive? {
        DoValid(cfg, s, SetState(n, Undraining));
      }
    }
  }

  /** The states that `SyncDrained` passes on: `Drained` is set on cordoned nodes only. */
  predicate Synced(s: Sim, n: string) {
    Live(s, n) && s.run.now.recs[n].drained ==> s.run.now.kubes[n].unsched
  }

  /** The states that `Request` passes on: only a node asked to drain has work left or waits. */
  predicate Answered(s: Sim, n: string) {
    Live(s, n) ==>
      var r := s.run.now.recs[n];
      if r.spec.Drains() then !r.cs.Undraining? && Synced(s, n) else r.cs.OK? || r.cs.Cordoned?
  }

  lemma ChecksAreAllowed(cfg: Config, s: Sim, n: string, a: Answers)
    requires Valid(cfg, s.run) && Settled(s, n)
    ensures Valid(cfg, CheckRebootRequired(cfg, SyncDrained(s, n), n, a).run)
    ensures Settled(CheckRebootRequired(cfg, SyncDrained(s, n), n, a), n)
    ensures Synced(CheckRebootRequired(cfg, SyncDrained(s, n), n, a), n)
  {
    var s1 := SyncDrained(s, n);
    if s1 != s {
      DoValid(cfg, s, ClearDrained(n));
    }
    if CheckRebootRequired(cfg, s1, n, a) != s1 {
      DoValid(cfg, s1, Checked(n, a.verdict, s1.run.now.clock + a.waits.0 + a.waits.1, true));
    }
  }

  lemma RequestIsAllowed(cfg: Config, s: Sim, n: string)
    requires Valid(cfg, s.run) && Settled(s, n) && Synced(s, n)
    ensures Valid(cfg, Request(s, n).run)
    ensures Answered(Request(s, n), n)
  {
    if Live(s, n) {
      var r := s.run.now.recs[n];
      match r.spec
      case WantActive => ActiveIsAllowed(cfg, s, n);
      case WantCordoned => CordonedIsAllowed(cfg, s, n);
      case _ =>
        if !r.cs.Work() && !r.cs.Queued? {
          DoValid(cfg, s, SetState(n, Queued));
        }
    }
  }

  lemma ActiveIsAllowed(cfg: Config, s: Sim, n: string)
    requires Valid(cfg, s.run) && Settled(s, n) && Live(s, n) && s.run.now.recs[n].spec.WantActive?
    ensures Valid(cfg, Request(s, n).run) && Answered(Request(s, n), n)
  {
    var r, k := s.run.now.recs[n], s.run.now.kubes[n];
    if !k.manager.Foreign? {
      var s1 := s;
      if k.unsched {
        DoValid(cfg, s, Uncordon(n));
        s1 := Do(s, Uncordon(n));
      }
      if !r.cs.OK? {
        DoValid(cfg, s1, SetState(n, OK));
      }
    }
  }

  lemma CordonedIsAllowed(cfg: Config, s: Sim, n: string)
    requires Valid(cfg, s.run) && Settled(s, n) && Live(s, n) && s.run.now.recs[n].spec.WantCordoned?
    ensures Valid(cfg, Request(s, n).run) && Answered(Request(s, n), n)
  {
    var r, k := s.run.now.recs[n], s.run.now.kubes[n];
    var s1 := s;
    if !k.unsched {
      DoValid(cfg, s, Cordon(n));
      s1 := Do(s, Cordon(n));
    }
    if !r.cs.Cordoned? {
      DoValid(cfg, s1, SetState(n, Cordoned));
    }
  }

  /** A reboot that is required, as far as the status says, where the protocol asks for it. */
  predicate VerdictKept(s: Sim, n: string) {
    Live(s, n) ==>
      var r := s.run.now.recs[n];
      r.spec.WantReboot? && r.cs.Next? ==> r.required == Some(true) && RecentVerdict(s.run.now, r)
  }

  lemma VerdictIsAllowed(cfg: Config, s: Sim, n: string, a: Answers)
    requires Valid(cfg, s.run) && Settled(s, n)
    ensures Valid(cfg, Verdict(s, n, a).run)
    ensures Settled(Verdict(s, n, a), n) && VerdictKept(Verdict(s, n, a), n)
    ensures Synced(s, n) ==> Synced(Verdict(s, n, a), n)
  {
    RenewVerdictIsAllowed(cfg, s, n, a);
    var s1 := RenewVerdict(s, n, a);
    if Live(s1, n) && Decides(s1.run.now.recs[n]) && s1.run.now.recs[n].required != Some(true) {
      DoValid(cfg, s1, SetActive(n));
    }
  }

  lemma RenewVerdictIsAllowed(cfg: Config, s: Sim, n: string, a: Answers)
    requires Valid(cfg, s.run) && Settled(s, n)
    ensures var s' := RenewVerdict(s, n, a);
      && Valid(cfg, s'.run) && Settled(s', n) && (Synced(s, n) ==> Synced(s', n))
      && (Live(s', n) && Decides(s'.run.now.recs[n]) ==> RecentVerdict(s'.run.now, s'.run.now.recs[n]))
  {
    var w := s.run.now;
    if Live(s, n) && Decides(w.recs[n]) && Due(w.recs[n].lastChecked, w.clock + a.waits.0, 2 * MINUTE) {
      DoValid(cfg, s, Checked(n, a.verdict, w.clock + a.waits.0 + a.waits.1, false));
    }
  }

  /** A node that `EvictPods` may work on. */
  predicate Evictable(s: Sim, n: string) {
    Live(s, n) ==> MayEvict(s.run.now.recs[n])
  }

  lemma DrainChecksAreAllowed(cfg: Config, s: Sim, n: string, a: Answers)
    requires Valid(cfg, s.run) && Live(s, n) && Settled(s, n) && VerdictKept(s, n)
    requires s.run.now.recs[n].spec.Drains() && !s.run.now.recs[n].drained && s.run.now.recs[n].cs.Work()
    ensures Valid(cfg, DrainChecks(cfg, s, n, a).run) && Evictable(DrainChecks(cfg, s, n, a), n)
  {
    var replies := Asked(cfg.plugins, a.health);
    if s.run.now.recs[n].cs.Next? && NodesHealthy(s.run.now) && AllConsent(replies) {
      DoValid(cfg, s, Healthy(n, replies, a.took.0));
      AskDrainOkIsAllowed(cfg, Do(s, Healthy(n, replies, a.took.0)), n, a);
    }
  }

  lemma AskDrainOkIsAllowed(cfg: Config, s: Sim, n: string, a: Answers)
    requires Valid(cfg, s.run) && (!s.stopped ==> Live(s, n))
    requires !s.stopped ==>
      var r, p := s.run.now.recs[n], s.run.Before(|s.run.steps|, 1);
      && r.cs.Next? && r.spec.Drains() && !r.drained && (r.spec.WantReboot? ==> r.required == Some(true))
      && p.Some? && p.value.Healthy? && p.value.node == n
    ensures Valid(cfg, AskDrainOk(cfg, s, n, a).run) && Evictable(AskDrainOk(cfg, s, n, a), n)
  {
    var replies := Asked(cfg.plugins, a.drainOk);
    if !s.stopped && AllConsent(replies) {
      DoValid(cfg, s, DrainOk(n, replies, a.took.1));
      DoValid(cfg, Do(s, DrainOk(n, replies, a.took.1)), SetState(n, Draining));
    }
  }

  lemma EvictPodsIsAllowed(cfg: Config, s: Sim, n: string, a: Answers)
    requires Valid(cfg, s.run) && Evictable(s, n)
    ensures Valid(cfg, EvictPods(cfg, s, n, a).run)
    ensures Live(EvictPods(cfg, s, n, a), n) ==> EvictPods(cfg, s, n, a).run.now.recs[n].cs.Drained?
  {
    if Live(s, n) {
      var s1 := s;
      if !s.run.now.kubes[n].unsched {
        DoValid(cfg, s, Cordon(n));
        s1 := Do(s, Cordon(n));
      }
      if s.run.now.host != n {
        EvictNowIsAllowed(cfg, s1, n, a);
      }
    }
  }

  lemma EvictNowIsAllowed(cfg: Config, s: Sim, n: string, a: Answers)
    requires Valid(cfg, s.run) && Evictable(s, n)
    requires !s.stopped ==> Live(s, n) && s.run.now.kubes[n].unsched && s.run.now.host != n
    ensures Valid(cfg, EvictNow(cfg, s, n, a).run)
    ensures Live(EvictNow(cfg, s, n, a), n) ==> EvictNow(cfg, s, n, a).run.now.recs[n].cs.Drained?
  {
    var hooks := AskedHooks(cfg.plugins, a.preDrain);
    DoValid(cfg, s, PreDrain(n, hooks));
    if HooksSucceed(hooks) {
      DoValid(cfg, Do(s, PreDrain(n, hooks)), Evict(n));
      DoValid(cfg, Do(Do(s, PreDrain(n, hooks)), Evict(n)), MarkDrained(n));
    }
  }

  lemma StartRebootIsAllowed(cfg: Config, s: Sim, n: string)
    requires Valid(cfg, s.run) && Live(s, n)
    requires s.run.now.recs[n].spec.WantReboot? && s.run.now.recs[n].cs.Drained? && s.run.now.recs[n].drained
    ensures Valid(cfg, StartReboot(cfg, s, n).run)
  {
    var r, k := s.run.now.recs[n], s.run.now.kubes[n];
    var s1 := s;
    if k.bootId != r.bootId {
      DoValid(cfg, s, SaveBoot(n));
      s1 := Do(s, SaveBoot(n));
    }
    if k.unsched {
      var s2 := s1;
      if !cfg.containerNode {
        DoValid(cfg, s1, RebootPod(n));
        s2 := Do(s1, RebootPod(n));
      }
      DoValid(cfg, s2, SetState(n, Rebooting));
    }
  }

  lemma FinishRebootIsAllowed(cfg: Config, s: Sim, n: string, a: Answers)
    requires Valid(cfg, s.run) && Live(s, n)
    requires s.run.now.recs[n].spec.WantReboot? && s.run.now.recs[n].cs.Rebooting?
    requires s.run.now.recs[n].drained && s.run.now.kubes[n].unsched
    ensures Valid(cfg, FinishReboot(cfg, s, n, a).run)
  {
    if IsRebooted(cfg, s.run.now.recs[n], s.run.now.kubes[n]) {
      ClearingIsAllowed(cfg, s, n, s.run.now.clock + a.waits.1);
      HandBackIsAllowed(cfg, Do(s, Rebooted(n, s.run.now.clock + a.waits.1)), n);
    }
  }

  /** Right after the boot ID of `n` was cleared, its state as before. */
  predicate JustCleared(s: Sim, n: string) {
    && Live(s, n) && s.run.now.recs[n].spec.WantReboot? && s.run.now.recs[n].cs.Rebooting?
    && var p := s.run.Before(|s.run.steps|, 1); p.Some? && p.value.Rebooted? && p.value.node == n
  }

  lemma ClearingIsAllowed(cfg: Config, s: Sim, n: string, t: int)
    requires Valid(cfg, s.run) && Live(s, n) && s.run.now.clock <= t
    requires s.run.now.recs[n].spec.WantReboot? && s.run.now.recs[n].cs.Rebooting?
    requires s.run.now.recs[n].drained && s.run.now.kubes[n].unsched
    requires IsRebooted(cfg, s.run.now.recs[n], s.run.now.kubes[n])
    ensures var s' := Do(s, Rebooted(n, t)); Valid(cfg, s'.run) && (!s'.stopped ==> JustCleared(s', n))
  {
    DoValid(cfg, s, Rebooted(n, t));
  }

  lemma HandBackIsAllowed(cfg: Config, s: Sim, n: string)
    requires Valid(cfg, s.run) && (!s.stopped ==> JustCleared(s, n))
    ensures Valid(cfg, Do(s, SetActive(n)).run)
  {
    DoValid(cfg, s, SetActive(n));
  }

  lemma RebootIsAllowed(cfg: Config, s: Sim, n: string, a: Answers)
    requires Valid(cfg, s.run)
    requires Live(s, n) && s.run.now.recs[n].spec.WantReboot? && s.run.now.recs[n].cs.Rebooting? ==>
      s.run.now.recs[n].drained && s.run.now.kubes[n].unsched
    ensures Valid(cfg, Reboot(cfg, s, n, a).run)
  {
    if Live(s, n) && s.run.now.recs[n].spec.WantReboot? {
      var r := s.run.now.recs[n];
      if r.cs.Drained? && r.drained {
        StartRebootIsAllowed(cfg, s, n);
      } else if r.cs.Rebooting? {
        FinishRebootIsAllowed(cfg, s, n, a);
      }
    }
  }

  lemma ProgressIsAllowed(cfg: Config, s: Sim, n: string, a: Answers)
    requires Valid(cfg, s.run) && Answered(s, n)
    ensures Valid(cfg, Progress(cfg, s, n, a).run)
  {
    if Live(s, n) && s.run.now.recs[n].cs.Work() {
      VerdictIsAllowed(cfg, s, n, a);
      var s1 := Verdict(s, n, a);
      if Live(s1, n) && s1.run.now.recs[n].spec.Drains() && !s1.run.now.recs[n].drained {
        DrainChecksAreAllowed(cfg, s1, n, a);
        EvictPodsIsAllowed(cfg, DrainChecks(cfg, s1, n, a), n, a);
      }
      RebootIsAllowed(cfg, Drain(cfg, s1, n, a), n, a);
    } else if Live(s, n) && s.run.now.recs[n].cs.Queued? && NobodyWorks(s.run.now) {
      DoValid(cfg, s, SetState(n, Next));
    }
  }

  /** Refinement: whatever the state, the answers and the point of failure, every effect that a
      reconcile adds to a valid run is allowed by the protocol. */
  lemma ReconcileIsAllowed(cfg: Config, s: Sim, n: string, a: Answers)
    requires Valid(cfg, s.run) && !s.stopped
    ensures Valid(cfg, Reconcile(cfg, s, n, a).run)
  {
    var w := s.run.now;
    if n in w.kubes && n !in w.recs {
      DoValid(cfg, s, CreateRecord(n));
    } else if Present(w, n) && w.recs[n].deleting {
      DoValid(cfg, s, Finalize(n));
    } else if Present(w, n) {
      UndrainIsAllowed(cfg, s, n, a);
      var s1 := Undrain(cfg, s, n, a);
      ChecksAreAllowed(cfg, s1, n, a);
      var s2 := CheckRebootRequired(cfg, SyncDrained(s1, n), n, a);
      RequestIsAllowed(cfg, s2, n);
      ProgressIsAllowed(cfg, Request(s2, n), n, a);
    }
  }

  // ---- behaviours ----

  /** What can happen next: a reconcile of some node that fails after `fuel` effects, or
      something outside the controller. */
  datatype Action = Reconciles(node: string, answers: Answers, fuel: nat) | Happens(ev: Event)

  function Act(cfg: Config, r: Run, act: Action): Run {
    match act
    case Reconciles(n, a, fuel) => Reconcile(cfg, Sim(r, fuel, false), n, a).run
    case Happens(e) => if e.Outside() then Extend(r, e) else r
  }

  /** The run that a sequence of actions makes of a run. */
  function Acts(cfg: Config, r: Run, acts: seq<Action>): Run {
    if acts == [] then r
    else Act(cfg, Acts(cfg, r, acts[..|acts| - 1]), acts[|acts| - 1])
  }

  lemma {:induction false} ActsOneMore(cfg: Config, r: Run, acts: seq<Action>, act: Action)
    ensures Acts(cfg, r, acts + [act]) == Act(cfg, Acts(cfg, r, acts), act)
  {
    assert (acts + [act])[..|acts|] == acts;
  }

  /** The run that a sequence of actions produces from a state. */
  function Behaviour(cfg: Config, w: World, acts: seq<Action>): Run {
    Acts(cfg, Run([], w), acts)
  }

  lemma {:induction false} ActsKeepValid(cfg: Config, r: Run, acts: seq<Action>)
    requires Valid(cfg, r)
    ensures Valid(cfg, Acts(cfg, r, acts))
    ensures Acts(cfg, r, acts).At(0) == r.At(0)
  {
    if acts != [] {
      ActsKeepValid(cfg, r, acts[..|acts| - 1]);
      var r' := Acts(cfg, r, acts[..|acts| - 1]);
      match acts[|acts| - 1]
      case Reconciles(n, a, fuel) => ReconcileIsAllowed(cfg, Sim(r', fuel, false), n, a);
      case Happens(e) =>
        if e.Outside() {
          ExtendValid(cfg, r', e);
        }
    }
  }

  /** Every behaviour of the controller, with any failures, any crashes and anything happening
      outside between reconciles, is a valid run of the protocol. */
  lemma {:induction false} BehavioursAreValid(cfg: Config, w: World, acts: seq<Action>)
    ensures Valid(cfg, Behaviour(cfg, w, acts))
    ensures Behaviour(cfg, w, acts).At(0) == w
  {
    ActsKeepValid(cfg, Run([], w), acts);
  }
}
