/** The stages of a node in a rolling reboot: no effect of the controller moves a node back, and
    every stage ends in one smooth reconcile. */
module Stages {
  import opened NodeTypes
  import opened Plugins
  import opened World
  import opened Protocol
  import opened Safety
  import opened Reconcile
  import opened Convergence

  /** How far a node is from being Active, OK, schedulable and undrained. 14 marks a node outside a
      rolling reboot: one that asks for Cordoned or Drained, one that is asked to reboot before it
      has a current state, and one that is asked to reboot with `Drained` and its cordon left over
      from an earlier drain, which `Boundaries` shows to get stuck. */
  function Rank(r: Record, k: Kube): nat {
    var held := r.drained && k.unsched;
    if r.spec.WantActive? then
      match r.cs
      case OK => if held then 2 else if r.drained || k.unsched then 1 else 0
      case Cordoned => 3
      case Queued => 3
      case Unset => 4
      case Next => 4
      case Undraining => 5
      case _ => 6
    else if r.spec.WantReboot? then
      match r.cs
      case Rebooting => if held then 7 else 9
      case Drained => if held then 8 else 9
      case Draining => if held then 14 else 9
      case Next => if held then 14 else 10
      case Queued => if held then 14 else 11
      case OK => if held then 14 else 12
      case Cordoned => if held then 14 else 12
      case Undraining => 13
      case Unset => 14
    else 14
  }

  function RankOf(w: World, n: string): nat {
    if Present(w, n) then Rank(w.recs[n], w.kubes[n]) else 14
  }

  predicate InStage(w: World, n: string) {
    Managed(w, n) && RankOf(w, n) < 14 && !w.kubes[n].manager.Foreign?
  }

  /** A rolling reboot in progress, at any point of it. */
  ghost predicate Rolling(w: World) {
    && w.recs.Keys == w.kubes.Keys && OneWorks(w)
    && forall n :: n in w.recs ==> InStage(w, n)
  }

  /** What may happen outside: time passes, machines boot and report, the controller moves. */
  predicate Tolerated(e: Event) {
    e.Tick? || e.Boot? || e.Report? || e.ControllerMoves?
  }

  /** A reboot has been issued and is not complete. */
  predicate Awaiting(cfg: Config, w: World, n: string) {
    Present(w, n) && RankOf(w, n) == 7 && !IsRebooted(cfg, w.recs[n], w.kubes[n])
  }

  /** `n` waits for its boot, for the controller to leave it, or for every node to be ready. */
  predicate Blocked(cfg: Config, w: World, n: string) {
    || Awaiting(cfg, w, n)
    || (RankOf(w, n) == 9 && w.host == n)
    || (RankOf(w, n) == 10 && !NodesHealthy(w))
    || ((RankOf(w, n) == 5 || RankOf(w, n) == 13) && w.kubes[n].unsched && !NodesHealthy(w))
  }

  // ---- no effect of the controller moves a node back ----

  lemma StateWriteKeepsStage(cfg: Config, w: World, p1: Option<Event>, p2: Option<Event>, n: string, s: CurrentState)
    requires InStage(w, n) && s != w.recs[n].cs && AllowedState(cfg, w, p1, p2, n, s)
    ensures var w' := Apply(w, SetState(n, s));
      && InStage(w', n) && RankOf(w', n) <= RankOf(w, n)
      && (Working(w', n) ==> Working(w, n) || NobodyWorks(w))
  {
  }

  /** Whatever effect the protocol allows on a node in a stage, the node stays in a stage and
      its rank does not rise; it starts to work only when nobody works. */
  lemma EffectKeepsStage(cfg: Config, w: World, p1: Option<Event>, p2: Option<Event>, e: Event)
    requires !e.Outside() && InStage(w, e.node) && Allowed(cfg, w, p1, p2, e)
    ensures var w' := Apply(w, e);
      && InStage(w', e.node) && RankOf(w', e.node) <= RankOf(w, e.node)
      && (Working(w', e.node) ==> Working(w, e.node) || NobodyWorks(w))
  {
    if e.SetState? {
      StateWriteKeepsStage(cfg, w, p1, p2, e.node, e.state);
    }
  }

  /** An effect on one node changes nothing of any other. */
  lemma EffectIsLocal(w: World, e: Event)
    requires !e.Outside() && Present(w, e.node) && !e.CreateRecord? && !e.Finalize?
    ensures var w' := Apply(w, e);
      && w'.recs.Keys == w.recs.Keys && w'.kubes.Keys == w.kubes.Keys
      && w'.recs == w.recs[e.node := w'.recs[e.node]] && w'.kubes == w.kubes[e.node := w'.kubes[e.node]]
  {
  }

  /** No node is further from the end in `w'` than in `w`. */
  predicate RanksFall(w: World, w': World) {
    w'.recs.Keys == w.recs.Keys && forall m :: m in w.recs ==> RankOf(w', m) <= RankOf(w, m)
  }

  lemma LocalChangeRollsOn(w: World, w': World, n: string)
    requires Rolling(w) && n in w.recs && InStage(w', n) && RankOf(w', n) <= RankOf(w, n)
    requires w'.recs == w.recs[n := w'.recs[n]] && w'.kubes == w.kubes[n := w'.kubes[n]]
    requires Working(w', n) ==> Working(w, n) || NobodyWorks(w)
    ensures Rolling(w') && RanksFall(w, w')
  {
    forall m | m in w'.recs && m != n ensures InStage(w', m) && RankOf(w', m) == RankOf(w, m) {
      assert InStage(w, m);
    }
    forall a, b | Working(w', a) && Working(w', b) ensures a == b {
      assert a != n ==> Working(w, a);
      assert b != n ==> Working(w, b);
    }
  }

  lemma EffectRollsOn(cfg: Config, w: World, p1: Option<Event>, p2: Option<Event>, e: Event)
    requires Rolling(w) && !e.Outside() && Allowed(cfg, w, p1, p2, e)
    ensures Rolling(Apply(w, e)) && RanksFall(w, Apply(w, e))
  {
    assert e.node in w.recs && InStage(w, e.node);
    EffectKeepsStage(cfg, w, p1, p2, e);
    EffectIsLocal(w, e);
    LocalChangeRollsOn(w, Apply(w, e), e.node);
  }

  /** However far the controller gets, and wherever it fails, no node moves back. */
  lemma {:induction false} ControllerRollsOn(cfg: Config, r: Run, i: int, j: int)
    requires Valid(cfg, r) && 0 <= i <= j <= |r.steps| && Rolling(r.At(i))
    requires forall k :: i <= k < j ==> !r.steps[k].ev.Outside()
    ensures Rolling(r.At(j)) && RanksFall(r.At(i), r.At(j))
  {
    if i < j {
      ControllerRollsOn(cfg, r, i, j - 1);
      assert StepOk(cfg, r, j - 1);
      EffectRollsOn(cfg, r.At(j - 1), r.Before(j - 1, 1), r.Before(j - 1, 2), r.Ev(j - 1));
    }
  }

  lemma OutsideKeepsStage(w: World, e: Event, m: string)
    requires Tolerated(e) && InStage(w, m)
    ensures InStage(Apply(w, e), m) && RankOf(Apply(w, e), m) == RankOf(w, m)
  {
  }

  lemma OutsideKeepsRecords(w: World, e: Event)
    requires Tolerated(e)
    ensures Apply(w, e).recs == w.recs && Apply(w, e).kubes.Keys == w.kubes.Keys
  {
  }

  lemma OutsideRollsOn(w: World, e: Event)
    requires Rolling(w) && Tolerated(e)
    ensures Rolling(Apply(w, e)) && RanksFall(w, Apply(w, e))
  {
    var w' := Apply(w, e);
    OutsideKeepsRecords(w, e);
    forall m | m in w.recs ensures InStage(w', m) && RankOf(w', m) == RankOf(w, m) {
      OutsideKeepsStage(w, e, m);
    }
    assert forall m :: Working(w', m) <==> Working(w, m);
  }

  // ---- what a smooth reconcile does in each stage ----

  /** `w'` differs from `w` in `n` alone, which is in stage `k` there. */
  predicate Reaches(w: World, w': World, n: string, k: nat) {
    OnlyChanges(w, w', n) && InStage(w', n) && RankOf(w', n) == k
  }

  /** A write to the record of `n`, which brings it to stage `k`. */
  lemma WriteReaches(w: World, n: string, r: Record, k: nat)
    requires InStage(w, n) && !r.deleting && Rank(r, w.kubes[n]) == k < 14
    ensures Reaches(w, Put(w, n, r), n, k)
  {
  }

  lemma ReachesLater(w: World, w1: World, w2: World, n: string, k: nat)
    requires OnlyChanges(w, w1, n) && Reaches(w1, w2, n, k)
    ensures Reaches(w, w2, n, k)
  {
  }

  /** The checks before the switch leave a node asked to reboot in its stage, and `Drained`
      set only where the node is cordoned. */
  lemma ChecksKeepStage(cfg: Config, s: Sim, n: string, a: Answers)
    requires Fresh(s) && InStage(s.run.now, n) && s.run.now.recs[n].spec.WantReboot?
    ensures var s' := CheckRebootRequired(cfg, SyncDrained(s, n), n, a); var w, w' := s.run.now, s'.run.now;
      && !s'.stopped && s'.fuel >= s.fuel - (if w.recs[n].cs.Work() then 1 else 2)
      && OnlyChanges(w, w', n) && w'.kubes == w.kubes && InStage(w', n) && RankOf(w', n) == RankOf(w, n)
      && w'.recs[n].spec == w.recs[n].spec && w'.recs[n].cs == w.recs[n].cs && w'.recs[n].bootId == w.recs[n].bootId
      && (w'.recs[n].drained <==> w.recs[n].drained && w.kubes[n].unsched)
  {
    ChecksChangeLittle(cfg, s, n, a);
  }

  lemma QueueRequest(cfg: Config, s: Sim, n: string, a: Answers)
    requires !s.stopped && s.fuel >= 1 && InStage(s.run.now, n) && RankOf(s.run.now, n) == 12
    ensures Reaches(s.run.now, Progress(cfg, Request(s, n), n, a).run.now, n, 11)
  {
    StoppedStays(cfg, Request(s, n), n, a);
  }

  lemma TurnRequest(cfg: Config, s: Sim, n: string, a: Answers)
    requires !s.stopped && s.fuel >= 1 && InStage(s.run.now, n) && RankOf(s.run.now, n) == 11
    ensures Reaches(s.run.now, Progress(cfg, Request(s, n), n, a).run.now, n, if NobodyWorks(s.run.now) then 10 else 11)
  {
    TakesTurn(cfg, s, n, a);
    if NobodyWorks(s.run.now) {
      WriteReaches(s.run.now, n, s.run.now.recs[n].(cs := Next), 10);
    }
  }

  lemma TakesTurn(cfg: Config, s: Sim, n: string, a: Answers)
    requires !s.stopped && s.fuel >= 1 && Managed(s.run.now, n)
    requires s.run.now.recs[n].spec.Drains() && s.run.now.recs[n].cs.Queued?
    ensures Progress(cfg, Request(s, n), n, a).run.now ==
            if NobodyWorks(s.run.now) then Put(s.run.now, n, s.run.now.recs[n].(cs := Next)) else s.run.now
  {
    assert Request(s, n) == s;
  }

  /** Stages 12 and 11, before the turn. */
  lemma QueueStep(cfg: Config, s: Sim, n: string, a: Answers) returns (k: nat)
    requires Fresh(s) && InStage(s.run.now, n) && 11 <= RankOf(s.run.now, n) <= 12
    ensures Reaches(s.run.now, Reconcile.Reconcile(cfg, s, n, a).run.now, n, k)
    ensures k == if RankOf(s.run.now, n) == 12 then 11 else if NobodyWorks(s.run.now) then 10 else 11
  {
    var w := s.run.now;
    assert Undrain(cfg, s, n, a) == s;
    ChecksKeepStage(cfg, s, n, a);
    var s1 := CheckRebootRequired(cfg, SyncDrained(s, n), n, a);
    SameStatesSameWork(w, s1.run.now, n);
    k := QueueOrTurn(cfg, s1, n, a);
    ReachesLater(w, s1.run.now, Progress(cfg, Request(s1, n), n, a).run.now, n, k);
  }

  lemma QueueOrTurn(cfg: Config, s: Sim, n: string, a: Answers) returns (k: nat)
    requires !s.stopped && s.fuel >= 1 && InStage(s.run.now, n) && 11 <= RankOf(s.run.now, n) <= 12
    ensures Reaches(s.run.now, Progress(cfg, Request(s, n), n, a).run.now, n, k)
    ensures k == if RankOf(s.run.now, n) == 12 then 11 else if NobodyWorks(s.run.now) then 10 else 11
  {
    if RankOf(s.run.now, n) == 12 {
      QueueRequest(cfg, s, n, a);
      k := 11;
    } else {
      TurnRequest(cfg, s, n, a);
      k := if NobodyWorks(s.run.now) then 10 else 11;
    }
  }

  lemma SameStatesSameWork(w: World, w': World, n: string)
    requires OnlyChanges(w, w', n) && w'.recs[n].cs == w.recs[n].cs
    ensures NobodyWorks(w') <==> NobodyWorks(w)
  {
    assert forall m :: m in w.recs <==> m in w'.recs;
    assert forall m :: m in w.recs ==> w'.recs[m].cs == w.recs[m].cs;
  }

  /** At Next and at Drained the verdict counts. It is against a reboot if it is older than two
      minutes, or missing, and the host now answers no, or if it is recent and not positive. */
  predicate NotRequired(w: World, n: string, a: Answers)
    requires n in w.recs
  {
    var r := w.recs[n];
    && (r.cs.Next? || r.cs.Drained?)
    && if r.lastChecked.None? || r.lastChecked.value < w.clock + a.waits.0 - 2 * MINUTE
       then !a.verdict else r.required != Some(true)
  }

  /** In a turn the verdict decides: it hands the node back, or lets it go on unchanged. */
  lemma VerdictInTurn(s: Sim, n: string, a: Answers)
    requires !s.stopped && s.fuel >= 2 && InStage(s.run.now, n) && 7 <= RankOf(s.run.now, n) <= 10
    ensures var s' := Verdict(s, n, a); var w, w' := s.run.now, s'.run.now;
      && OnlyChanges(w, w', n) && w'.kubes == w.kubes && InStage(w', n)
      && (s'.stopped <==> NotRequired(w, n, a))
      && (if s'.stopped then RankOf(w', n) == (if w.recs[n].cs.Next? then 4 else 6)
          else RankOf(w', n) == RankOf(w, n) && s'.fuel >= s.fuel - 1 &&
               w'.recs[n].drained == w.recs[n].drained && w'.recs[n].cs == w.recs[n].cs)
  {
    RenewInTurn(s, n, a);
    RenewDecides(s, n, a);
  }

  lemma RenewDecides(s: Sim, n: string, a: Answers)
    requires Live(s, n) && s.fuel >= 1 && s.run.now.recs[n].spec.WantReboot?
    ensures var recs := RenewVerdict(s, n, a).run.now.recs;
      n in recs && (Decides(recs[n]) && recs[n].required != Some(true) <==> NotRequired(s.run.now, n, a))
  {
  }

  lemma RenewInTurn(s: Sim, n: string, a: Answers)
    requires !s.stopped && s.fuel >= 1 && InStage(s.run.now, n) && 7 <= RankOf(s.run.now, n) <= 10
    ensures var s' := RenewVerdict(s, n, a); var w, w' := s.run.now, s'.run.now;
      && OnlyChanges(w, w', n) && w'.kubes == w.kubes && InStage(w', n) && RankOf(w', n) == RankOf(w, n)
      && !s'.stopped && s'.fuel >= s.fuel - 1
      && w'.recs[n].drained == w.recs[n].drained && w'.recs[n].cs == w.recs[n].cs && w'.recs[n].spec == w.recs[n].spec
  {
  }

  lemma DrainChecksAtNext(cfg: Config, s: Sim, n: string, a: Answers)
    requires !s.stopped && s.fuel >= 3 && Favourable(cfg, a) && NodesHealthy(s.run.now)
    requires Managed(s.run.now, n) && s.run.now.recs[n].cs.Next?
    ensures var s' := DrainChecks(cfg, s, n, a);
      && !s'.stopped && s'.fuel == s.fuel - 3
      && s'.run.now == Put(s.run.now, n, s.run.now.recs[n].(cs := Draining)).(clock := s'.run.now.clock)
  {
    var s1 := Do(s, Healthy(n, Asked(cfg.plugins, a.health), a.took.0));
    assert !s1.stopped && s1.run.now == s.run.now.(clock := s1.run.now.clock) && s1.fuel == s.fuel - 1;
    DrainOkPasses(cfg, s1, n, a);
  }

  lemma DrainOkPasses(cfg: Config, s: Sim, n: string, a: Answers)
    requires !s.stopped && s.fuel >= 2 && Favourable(cfg, a) && Managed(s.run.now, n)
    ensures var s' := AskDrainOk(cfg, s, n, a);
      && !s'.stopped && s'.fuel == s.fuel - 2
      && s'.run.now == Put(s.run.now, n, s.run.now.recs[n].(cs := Draining)).(clock := s'.run.now.clock)
  {
    var s1 := Do(s, DrainOk(n, Asked(cfg.plugins, a.drainOk), a.took.1));
    assert !s1.stopped && s1.run.now == s.run.now.(clock := s1.run.now.clock) && s1.fuel == s.fuel - 1;
  }

  lemma EvictAtDraining(cfg: Config, s: Sim, n: string, a: Answers)
    requires !s.stopped && s.fuel >= 4 && HooksSucceed(AskedHooks(cfg.plugins, a.preDrain))
    requires Managed(s.run.now, n) && s.run.now.host != n
    ensures var s' := EvictPods(cfg, s, n, a); var w, w' := s.run.now, s'.run.now;
      && !s'.stopped && s'.fuel >= s.fuel - 4
      && OnlyChanges(w, w', n) && w'.kubes[n].unsched
      && (w'.kubes[n].manager == w.kubes[n].manager || w'.kubes[n].manager.Ours?)
      && w'.recs[n] == w.recs[n].(cs := Drained, drained := true)
  {
    var s1 := if s.run.now.kubes[n].unsched then s else Do(s, Cordon(n));
    assert !s1.stopped && s1.run.now.recs == s.run.now.recs && s1.fuel >= s.fuel - 1;
    EvictNowEnds(cfg, s1, n, a);
  }

  lemma EvictNowEnds(cfg: Config, s: Sim, n: string, a: Answers)
    requires !s.stopped && s.fuel >= 3 && HooksSucceed(AskedHooks(cfg.plugins, a.preDrain)) && n in s.run.now.recs
    ensures var s' := EvictNow(cfg, s, n, a);
      && !s'.stopped && s'.fuel == s.fuel - 3
      && s'.run.now == Put(s.run.now, n, s.run.now.recs[n].(cs := Drained, drained := true))
  {
    var s1 := Do(s, PreDrain(n, AskedHooks(cfg.plugins, a.preDrain)));
    assert !s1.stopped && s1.run.now == s.run.now && s1.fuel == s.fuel - 1;
  }

  /** A drain that the controller's host does not stand in the way of. */
  lemma DrainInTurn(cfg: Config, s: Sim, n: string, a: Answers)
    requires !s.stopped && s.fuel >= 7 && Favourable(cfg, a) && Managed(s.run.now, n) && s.run.now.host != n
    requires s.run.now.recs[n].spec.Drains() && !s.run.now.recs[n].drained
    requires s.run.now.recs[n].cs.Next? ==> NodesHealthy(s.run.now)
    ensures var s' := Drain(cfg, s, n, a); var w, w' := s.run.now, s'.run.now;
      && !s'.stopped && s'.fuel >= s.fuel - 7
      && OnlyChanges(w, w', n) && w'.kubes[n].unsched
      && (w'.kubes[n].manager == w.kubes[n].manager || w'.kubes[n].manager.Ours?)
      && w'.recs[n] == w.recs[n].(cs := Drained, drained := true)
  {
    ChecksThenEvict(cfg, s, n, a);
    ChecksPass(cfg, s, n, a);
    var s1 := DrainChecks(cfg, s, n, a);
    EvictAtDraining(cfg, s1, n, a);
    ChangesAddUp(s.run.now, s1.run.now, EvictPods(cfg, s1, n, a).run.now, n);
  }

  lemma ChecksThenEvict(cfg: Config, s: Sim, n: string, a: Answers)
    requires Live(s, n) && s.run.now.recs[n].spec.Drains() && !s.run.now.recs[n].drained
    ensures Drain(cfg, s, n, a) == EvictPods(cfg, DrainChecks(cfg, s, n, a), n, a)
  {
  }

  /** The checks at Next pass, and elsewhere there are none. */
  lemma ChecksPass(cfg: Config, s: Sim, n: string, a: Answers)
    requires !s.stopped && s.fuel >= 3 && Favourable(cfg, a) && Managed(s.run.now, n)
    requires s.run.now.recs[n].cs.Next? ==> NodesHealthy(s.run.now)
    ensures var s' := DrainChecks(cfg, s, n, a); var w, w' := s.run.now, s'.run.now;
      && !s'.stopped && s'.fuel >= s.fuel - 3 && OnlyChanges(w, w', n) && w'.kubes == w.kubes
      && w'.recs[n] == w.recs[n].(cs := if w.recs[n].cs.Next? then Draining else w.recs[n].cs)
  {
    if s.run.now.recs[n].cs.Next? {
      DrainChecksAtNext(cfg, s, n, a);
    }
  }

  /** The controller on the node itself: the drain stops at the cordon. */
  lemma DrainOfHost(cfg: Config, s: Sim, n: string, a: Answers)
    requires !s.stopped && s.fuel >= 4 && Favourable(cfg, a) && NodesHealthy(s.run.now) && s.run.now.host == n
    requires InStage(s.run.now, n) && RankOf(s.run.now, n) == 10 && !s.run.now.recs[n].drained
    ensures Reaches(s.run.now, Reboot(cfg, Drain(cfg, s, n, a), n, a).run.now, n, 9)
  {
    ChecksReachDraining(cfg, s, n, a);
    var s1 := DrainChecks(cfg, s, n, a);
    var s2 := EvictPods(cfg, s1, n, a);
    HostStops(cfg, s.run.now, s1, s2, n, a);
    ChecksThenEvict(cfg, s, n, a);
    StoppedStays(cfg, s2, n, a);
  }

  lemma ChecksReachDraining(cfg: Config, s: Sim, n: string, a: Answers)
    requires !s.stopped && s.fuel >= 4 && Favourable(cfg, a) && NodesHealthy(s.run.now)
    requires InStage(s.run.now, n) && RankOf(s.run.now, n) == 10 && !s.run.now.recs[n].drained
    ensures var s' := DrainChecks(cfg, s, n, a);
      && !s'.stopped && s'.fuel >= 1 && Reaches(s.run.now, s'.run.now, n, 9)
      && s'.run.now.host == s.run.now.host && !s'.run.now.recs[n].drained
  {
    DrainChecksAtNext(cfg, s, n, a);
    WriteReaches(s.run.now, n, s.run.now.recs[n].(cs := Draining), 9);
  }

  lemma CordonsAndStops(cfg: Config, s: Sim, n: string, a: Answers)
    requires Live(s, n) && s.fuel >= 1 && s.run.now.host == n
    ensures var s' := EvictPods(cfg, s, n, a); var w, w' := s.run.now, s'.run.now;
      && s'.stopped && w'.recs == w.recs && w'.host == n
      && n in w'.kubes && w'.kubes == w.kubes[n := w'.kubes[n]] && w'.kubes[n].unsched
      && w'.kubes[n].conditions == w.kubes[n].conditions && w'.kubes[n].bootId == w.kubes[n].bootId
  {
  }

  lemma HostStops(cfg: Config, w: World, s: Sim, s': Sim, n: string, a: Answers)
    requires !s.stopped && s.fuel >= 1 && Reaches(w, s.run.now, n, 9) && s.run.now.host == n
    requires !s.run.now.recs[n].drained && s' == EvictPods(cfg, s, n, a)
    ensures s'.stopped && Reaches(w, s'.run.now, n, 9)
  {
    assert s'.stopped && Reaches(s.run.now, s'.run.now, n, 9);
    ReachesLater(w, s.run.now, s'.run.now, n, 9);
  }

  lemma NothingToDrain(cfg: Config, s: Sim, n: string, a: Answers)
    requires Managed(s.run.now, n) && s.run.now.recs[n].drained
    ensures Drain(cfg, s, n, a) == s
  {
  }

  lemma IssuesReboot(cfg: Config, s: Sim, n: string, a: Answers)
    requires !s.stopped && s.fuel >= 3 && Managed(s.run.now, n) && s.run.now.kubes[n].unsched
    requires s.run.now.recs[n].spec.WantReboot? && s.run.now.recs[n].cs.Drained? && s.run.now.recs[n].drained
    ensures Reboot(cfg, s, n, a).run.now ==
            Put(s.run.now, n, s.run.now.recs[n].(cs := CurrentState.Rebooting, bootId := s.run.now.kubes[n].bootId))
  {
    var r, k := s.run.now.recs[n], s.run.now.kubes[n];
    var s1 := if k.bootId != r.bootId then Do(s, SaveBoot(n)) else s;
    assert !s1.stopped && s1.fuel >= 2 && s1.run.now == Put(s.run.now, n, r.(bootId := k.bootId));
    WritesRebooting(cfg, s1, n);
  }

  lemma WritesRebooting(cfg: Config, s: Sim, n: string)
    requires !s.stopped && s.fuel >= 2 && n in s.run.now.recs
    ensures var s1 := if cfg.containerNode then s else Do(s, RebootPod(n));
      Do(s1, SetState(n, CurrentState.Rebooting)).run.now ==
        Put(s.run.now, n, s.run.now.recs[n].(cs := CurrentState.Rebooting))
  {
    var s1 := if cfg.containerNode then s else Do(s, RebootPod(n));
    assert !s1.stopped && s1.fuel >= 1 && s1.run.now == s.run.now;
  }

  lemma RebootAtDrained(cfg: Config, s: Sim, n: string, a: Answers)
    requires !s.stopped && s.fuel >= 3 && InStage(s.run.now, n) && RankOf(s.run.now, n) == 8
    ensures Reaches(s.run.now, Reboot(cfg, s, n, a).run.now, n, 7)
  {
    IssuesReboot(cfg, s, n, a);
    var r, k := s.run.now.recs[n], s.run.now.kubes[n];
    WriteReaches(s.run.now, n, r.(cs := CurrentState.Rebooting, bootId := k.bootId), 7);
  }

  lemma DrainedStage(w: World, n: string)
    requires Managed(w, n) && !w.kubes[n].manager.Foreign? && w.kubes[n].unsched
    requires w.recs[n].spec.WantReboot? && w.recs[n].cs.Drained? && w.recs[n].drained
    ensures InStage(w, n) && RankOf(w, n) == 8
  {
  }

  lemma DrainAndReboot(cfg: Config, s: Sim, n: string, a: Answers)
    requires !s.stopped && s.fuel >= 10 && Favourable(cfg, a) && s.run.now.host != n
    requires InStage(s.run.now, n) && 9 <= RankOf(s.run.now, n) <= 10 && !s.run.now.recs[n].drained
    requires RankOf(s.run.now, n) == 10 ==> NodesHealthy(s.run.now)
    ensures Reaches(s.run.now, Reboot(cfg, Drain(cfg, s, n, a), n, a).run.now, n, 7)
  {
    DrainInTurn(cfg, s, n, a);
    var s1 := Drain(cfg, s, n, a);
    DrainedStage(s1.run.now, n);
    RebootAtDrained(cfg, s1, n, a);
    ReachesLater(s.run.now, s1.run.now, Reboot(cfg, s1, n, a).run.now, n, 7);
  }

  /** A reconcile in a turn under a drain or reboot request: a stale `Drained` is reset, then the
      verdict, the drain, the reboot. */
  lemma TurnGoesOn(cfg: Config, s: Sim, n: string, a: Answers)
    requires !s.stopped && Managed(s.run.now, n) && s.run.now.recs[n].spec.Drains()
    requires s.run.now.recs[n].cs.Work() && !s.run.now.recs[n].cs.Undraining?
    ensures var s1 := SyncDrained(s, n);
      && CheckRebootRequired(cfg, s1, n, a) == s1
      && Reconcile.Reconcile(cfg, s, n, a) == Reboot(cfg, Drain(cfg, Verdict(s1, n, a), n, a), n, a)
  {
    assert Undrain(cfg, s, n, a) == s;
    var s1 := SyncDrained(s, n);
    assert CheckRebootRequired(cfg, s1, n, a) == s1 && Request(s1, n) == s1;
  }

  /** What is left of a turn after the verdict. */
  lemma AfterVerdict(cfg: Config, s: Sim, n: string, a: Answers) returns (k: nat)
    requires !s.stopped && s.fuel >= 10 && Favourable(cfg, a) && InStage(s.run.now, n)
    requires 8 <= RankOf(s.run.now, n) <= 10 && !Blocked(cfg, s.run.now, n)
    requires s.run.now.recs[n].drained ==> s.run.now.kubes[n].unsched
    ensures Reaches(s.run.now, Reboot(cfg, Drain(cfg, s, n, a), n, a).run.now, n, k)
    ensures k == if s.run.now.recs[n].cs.Next? && s.run.now.host == n then 9 else 7
  {
    k := 7;
    if RankOf(s.run.now, n) == 8 {
      NothingToDrain(cfg, s, n, a);
      RebootAtDrained(cfg, s, n, a);
    } else if s.run.now.host == n {
      DrainOfHost(cfg, s, n, a);
      k := 9;
    } else {
      DrainAndReboot(cfg, s, n, a);
    }
  }

  /** Where a turn is after one smooth reconcile. */
  function TurnEnds(w: World, n: string, a: Answers): nat
    requires n in w.recs
  {
    if NotRequired(w, n, a) then if w.recs[n].cs.Next? then 4 else 6
    else if w.recs[n].cs.Next? && w.host == n then 9 else 7
  }

  lemma FromVerdict(cfg: Config, s: Sim, n: string, a: Answers) returns (k: nat)
    requires !s.stopped && s.fuel >= 11 && Favourable(cfg, a) && InStage(s.run.now, n)
    requires 8 <= RankOf(s.run.now, n) <= 10 && !Blocked(cfg, s.run.now, n)
    requires s.run.now.recs[n].drained ==> s.run.now.kubes[n].unsched
    ensures Reaches(s.run.now, Reboot(cfg, Drain(cfg, Verdict(s, n, a), n, a), n, a).run.now, n, k)
    ensures k == TurnEnds(s.run.now, n, a)
  {
    VerdictInTurn(s, n, a);
    var s1 := Verdict(s, n, a);
    if s1.stopped {
      StoppedStays(cfg, s1, n, a);
      k := if s.run.now.recs[n].cs.Next? then 4 else 6;
    } else {
      k := GoesOn(cfg, s.run.now, s1, n, a);
    }
  }

  lemma GoesOn(cfg: Config, w: World, s: Sim, n: string, a: Answers) returns (k: nat)
    requires !s.stopped && s.fuel >= 10 && Favourable(cfg, a) && InStage(w, n) && !Blocked(cfg, w, n)
    requires OnlyChanges(w, s.run.now, n) && s.run.now.kubes == w.kubes && InStage(s.run.now, n)
    requires 8 <= RankOf(s.run.now, n) == RankOf(w, n) <= 10
    requires s.run.now.recs[n].drained ==> s.run.now.kubes[n].unsched
    ensures Reaches(w, Reboot(cfg, Drain(cfg, s, n, a), n, a).run.now, n, k)
    ensures k == if s.run.now.recs[n].cs.Next? && w.host == n then 9 else 7
  {
    StillUnblocked(cfg, w, s.run.now, n);
    k := AfterVerdict(cfg, s, n, a);
    ReachesLater(w, s.run.now, Reboot(cfg, Drain(cfg, s, n, a), n, a).run.now, n, k);
  }

  /** Stages 10 to 8: in one reconcile the node is handed back exactly when its verdict counts and
      is against a reboot; otherwise it is drained and its reboot issued, and only the host of the
      controller stops at Draining. */
  lemma TurnStep(cfg: Config, s: Sim, n: string, a: Answers) returns (k: nat)
    requires Fresh(s) && Favourable(cfg, a) && InStage(s.run.now, n)
    requires 8 <= RankOf(s.run.now, n) <= 10 && !Blocked(cfg, s.run.now, n)
    ensures Reaches(s.run.now, Reconcile.Reconcile(cfg, s, n, a).run.now, n, k)
    ensures k == TurnEnds(s.run.now, n, a)
  {
    TurnGoesOn(cfg, s, n, a);
    ChecksKeepStage(cfg, s, n, a);
    SyncKeepsVerdict(s, n);
    var s1 := SyncDrained(s, n);
    StillUnblocked(cfg, s.run.now, s1.run.now, n);
    k := FromVerdict(cfg, s1, n, a);
    ReachesLater(s.run.now, s1.run.now, Reboot(cfg, Drain(cfg, Verdict(s1, n, a), n, a), n, a).run.now, n, k);
  }

  lemma SyncKeepsVerdict(s: Sim, n: string)
    requires Fresh(s) && Managed(s.run.now, n)
    ensures var s' := SyncDrained(s, n);
      && Live(s', n) && s'.run.now.clock == s.run.now.clock
      && s'.run.now.recs[n] == s.run.now.recs[n].(drained := s.run.now.recs[n].drained && s.run.now.kubes[n].unsched)
  {
  }

  /** A verdict against a reboot hands the node back, whatever else is answered and wherever the
      controller runs. */
  lemma GivesUp(cfg: Config, s: Sim, n: string, a: Answers) returns (k: nat)
    requires Fresh(s) && InStage(s.run.now, n) && 8 <= RankOf(s.run.now, n) <= 10 && NotRequired(s.run.now, n, a)
    ensures Reaches(s.run.now, Reconcile.Reconcile(cfg, s, n, a).run.now, n, k) && (k == 4 || k == 6)
  {
    TurnGoesOn(cfg, s, n, a);
    ChecksKeepStage(cfg, s, n, a);
    SyncKeepsVerdict(s, n);
    k := VerdictEnds(cfg, s.run.now, SyncDrained(s, n), n, a);
  }

  lemma VerdictEnds(cfg: Config, w: World, s: Sim, n: string, a: Answers) returns (k: nat)
    requires OnlyChanges(w, s.run.now, n) && !s.stopped && s.fuel >= 2 && InStage(s.run.now, n)
    requires 8 <= RankOf(s.run.now, n) <= 10 && NotRequired(s.run.now, n, a)
    ensures Reaches(w, Reboot(cfg, Drain(cfg, Verdict(s, n, a), n, a), n, a).run.now, n, k) && (k == 4 || k == 6)
  {
    VerdictInTurn(s, n, a);
    var s1 := Verdict(s, n, a);
    StoppedStays(cfg, s1, n, a);
    ChangesAddUp(w, s.run.now, s1.run.now, n);
    k := RankOf(s1.run.now, n);
  }

  lemma StillUnblocked(cfg: Config, w: World, w': World, n: string)
    requires OnlyChanges(w, w', n) && w'.kubes == w.kubes && RankOf(w', n) == RankOf(w, n)
    requires 8 <= RankOf(w, n) <= 10 && !Blocked(cfg, w, n)
    ensures !Blocked(cfg, w', n)
  {
  }

  /** A Rebooting node that is drained and cordoned has only its reboot to finish. */
  lemma RebootingOnlyFinishes(cfg: Config, s: Sim, n: string, a: Answers)
    requires !s.stopped && Managed(s.run.now, n) && s.run.now.kubes[n].unsched
    requires s.run.now.recs[n].spec.WantReboot? && s.run.now.recs[n].cs.Rebooting? && s.run.now.recs[n].drained
    ensures Reconcile.Reconcile(cfg, s, n, a) == Reboot(cfg, s, n, a)
  {
    assert Undrain(cfg, s, n, a) == s && SyncDrained(s, n) == s && CheckRebootRequired(cfg, s, n, a) == s;
    assert Request(s, n) == s && Verdict(s, n, a) == s && Drain(cfg, s, n, a) == s;
  }

  lemma FinishAtRebooting(cfg: Config, s: Sim, n: string, a: Answers)
    requires !s.stopped && s.fuel >= 2 && InStage(s.run.now, n) && RankOf(s.run.now, n) == 7
    ensures Reaches(s.run.now, Reboot(cfg, s, n, a).run.now, n, if Awaiting(cfg, s.run.now, n) then 7 else 6)
    ensures Awaiting(cfg, s.run.now, n) ==> Reboot(cfg, s, n, a).run.now == s.run.now
  {
  }

  /** Stage 7: wait for the boot, then hand the node back. */
  lemma RebootingStep(cfg: Config, s: Sim, n: string, a: Answers) returns (k: nat)
    requires Fresh(s) && InStage(s.run.now, n) && RankOf(s.run.now, n) == 7
    ensures Reaches(s.run.now, Reconcile.Reconcile(cfg, s, n, a).run.now, n, k)
    ensures k == if Awaiting(cfg, s.run.now, n) then 7 else 6
    ensures Awaiting(cfg, s.run.now, n) ==> Reconcile.Reconcile(cfg, s, n, a).run.now == s.run.now
  {
    RebootingOnlyFinishes(cfg, s, n, a);
    FinishAtRebooting(cfg, s, n, a);
    k := if Awaiting(cfg, s.run.now, n) then 7 else 6;
  }

  lemma UndrainBegins(cfg: Config, s: Sim, n: string, a: Answers)
    requires Fresh(s) && InStage(s.run.now, n) && RankOf(s.run.now, n) == 6
    ensures Reaches(s.run.now, Reconcile.Reconcile(cfg, s, n, a).run.now, n, 5)
  {
    BeginsUndrain(cfg, s, n, a);
    WriteReaches(s.run.now, n, s.run.now.recs[n].(cs := Undraining), 5);
  }

  /** An Active OK node that is schedulable is in stage 0 or 1. */
  lemma SettledStage(w: World, w': World, n: string)
    requires OnlyChanges(w, w', n) && ActiveNode(w', n) && w'.recs[n].cs.OK? && !w'.kubes[n].unsched
    ensures Reaches(w, w', n, if w'.recs[n].drained then 1 else 0)
  {
  }

  lemma UndrainEnds(cfg: Config, s: Sim, n: string, a: Answers)
    requires Fresh(s) && Favourable(cfg, a) && InStage(s.run.now, n) && RankOf(s.run.now, n) == 5
    requires !Blocked(cfg, s.run.now, n)
    ensures Reaches(s.run.now, Reconcile.Reconcile(cfg, s, n, a).run.now, n, 0)
  {
    UndrainSettles(cfg, s, n, a);
    SettledStage(s.run.now, Reconcile.Reconcile(cfg, s, n, a).run.now, n);
  }

  lemma Settles(cfg: Config, s: Sim, n: string, a: Answers) returns (k: nat)
    requires Fresh(s) && InStage(s.run.now, n) && RankOf(s.run.now, n) <= 4
    ensures Reaches(s.run.now, Reconcile.Reconcile(cfg, s, n, a).run.now, n, k)
    ensures k == if s.run.now.recs[n].drained && s.run.now.kubes[n].unsched then 1 else 0
  {
    ActiveSettles(cfg, s, n, a);
    SettledStage(s.run.now, Reconcile.Reconcile(cfg, s, n, a).run.now, n);
    k := if s.run.now.recs[n].drained && s.run.now.kubes[n].unsched then 1 else 0;
  }

  /** Stages 6 to 0, under Active. */
  lemma ActiveStages(cfg: Config, s: Sim, n: string, a: Answers) returns (k: nat)
    requires Fresh(s) && Favourable(cfg, a) && InStage(s.run.now, n) && RankOf(s.run.now, n) <= 6
    requires !Blocked(cfg, s.run.now, n)
    ensures Reaches(s.run.now, Reconcile.Reconcile(cfg, s, n, a).run.now, n, k)
    ensures var w := s.run.now;
      k == if RankOf(w, n) == 6 then 5
           else if RankOf(w, n) != 5 && w.recs[n].drained && w.kubes[n].unsched then 1 else 0
  {
    var w := s.run.now;
    if RankOf(w, n) == 6 {
      UndrainBegins(cfg, s, n, a);
      k := 5;
    } else if RankOf(w, n) == 5 {
      UndrainEnds(cfg, s, n, a);
      k := 0;
    } else {
      k := Settles(cfg, s, n, a);
    }
  }

  /** Stage 13: the undrain of a node that is already asked to reboot again. */
  lemma UndrainingStep(cfg: Config, s: Sim, n: string, a: Answers)
    requires Fresh(s) && Favourable(cfg, a) && InStage(s.run.now, n) && RankOf(s.run.now, n) == 13
    requires !Blocked(cfg, s.run.now, n)
    ensures Reaches(s.run.now, Reconcile.Reconcile(cfg, s, n, a).run.now, n, 11)
  {
    UndrainCompletes(cfg, s, n, a);
    QueuesAfterUndrain(cfg, s.run.now, Undrain(cfg, s, n, a), n, a);
    RestComesLast(cfg, s, n, a);
  }

  lemma QueuesAfterUndrain(cfg: Config, w: World, s: Sim, n: string, a: Answers)
    requires OnlyChanges(w, s.run.now, n) && !s.stopped && s.fuel >= 3 && Managed(s.run.now, n) && Idle(s.run.now, n)
    requires s.run.now.recs[n].spec.WantReboot? && !s.run.now.kubes[n].manager.Foreign?
    ensures Reaches(w, Rest(cfg, s, n, a).run.now, n, 11)
  {
    ChecksChangeLittle(cfg, s, n, a);
    var s1 := CheckRebootRequired(cfg, SyncDrained(s, n), n, a);
    ChangesAddUp(w, s.run.now, s1.run.now, n);
    QueueRequest(cfg, s1, n, a);
    ReachesLater(w, s1.run.now, Progress(cfg, Request(s1, n), n, a).run.now, n, 11);
  }

  /** The reconcile of `n` brings it to a lower stage. */
  predicate CanAdvance(cfg: Config, w: World, n: string) {
    && InStage(w, n) && RankOf(w, n) > 0 && !Blocked(cfg, w, n)
    && (RankOf(w, n) == 11 ==> NobodyWorks(w))
  }

  /** The stage that a smooth reconcile brings `n` to when it is not blocked. */
  predicate Advance(w: World, n: string, a: Answers, k: nat)
    requires n in w.recs && n in w.kubes
  {
    var rank := RankOf(w, n);
    if rank == 13 || rank == 12 then k == 11
    else if rank == 11 then k == if NobodyWorks(w) then 10 else 11
    else if rank >= 8 then k == TurnEnds(w, n, a)
    else if rank == 7 then k == 6
    else if rank == 6 then k == 5
    else k == if rank != 5 && w.recs[n].drained && w.kubes[n].unsched then 1 else 0
  }

  lemma AdvanceLowers(cfg: Config, w: World, n: string, a: Answers, k: nat)
    requires CanAdvance(cfg, w, n) && Advance(w, n, a, k)
    ensures k < RankOf(w, n)
  {
  }

  /** Every stage ends in one smooth reconcile, unless it is blocked or it is not its turn. */
  lemma StageEnds(cfg: Config, s: Sim, n: string, a: Answers) returns (k: nat)
    requires Fresh(s) && Favourable(cfg, a) && InStage(s.run.now, n) && !Blocked(cfg, s.run.now, n)
    ensures Reaches(s.run.now, Reconcile.Reconcile(cfg, s, n, a).run.now, n, k) && Advance(s.run.now, n, a, k)
  {
    var rank := RankOf(s.run.now, n);
    if rank == 13 {
      UndrainingStep(cfg, s, n, a);
      k := 11;
    } else if rank >= 11 {
      k := QueueStep(cfg, s, n, a);
    } else if rank >= 8 {
      k := TurnStep(cfg, s, n, a);
    } else if rank == 7 {
      k := RebootingStep(cfg, s, n, a);
    } else {
      k := ActiveStages(cfg, s, n, a);
    }
  }
}
