/** Progress when nothing fails: a node asked for Active is idle after two reconciles. */
module Convergence {
  import opened NodeTypes
  import opened Plugins
  import opened World
  import opened Protocol
  import opened Reconcile

  /** Enough for all the effects of one reconcile. */
  const EFFECTS: nat := 12

  /** Every call to a plugin answers favourably. */
  predicate Favourable(cfg: Config, a: Answers) {
    && AllConsent(Asked(cfg.plugins, a.health)) && AllConsent(Asked(cfg.plugins, a.drainOk))
    && HooksSucceed(AskedHooks(cfg.plugins, a.preDrain)) && HooksSucceed(AskedHooks(cfg.plugins, a.postDrain))
  }

  /** A reconcile in which nothing fails. */
  predicate Smooth(cfg: Config, act: Action) {
    act.Reconciles? && Favourable(cfg, act.answers) && act.fuel >= EFFECTS
  }

  predicate Fresh(s: Sim) {
    !s.stopped && s.fuel >= EFFECTS
  }

  /** OK, undrained and schedulable. */
  predicate Idle(w: World, n: string) {
    Present(w, n) && w.recs[n].cs.OK? && !w.recs[n].drained && !w.kubes[n].unsched
  }

  /** `n` is asked for Active, and nobody else holds it cordoned. */
  predicate ActiveNode(w: World, n: string) {
    Managed(w, n) && w.recs[n].spec.WantActive? && !w.kubes[n].manager.Foreign?
  }

  /** An upper bound on the reconciles that `n` still needs. */
  function ActiveRank(w: World, n: string): nat
    requires Present(w, n)
  {
    var r, k := w.recs[n], w.kubes[n];
    if Idle(w, n) then 0
    else if r.cs.NeedsUndrain() then 2
    else if !r.cs.Undraining? && r.drained && k.unsched then 2
    else 1
  }

  /** `w'` differs from `w` in node `n` alone; the readiness of all nodes is as before. */
  predicate OnlyChanges(w: World, w': World, n: string) {
    && Present(w, n) && Present(w', n) && w'.host == w.host
    && w'.recs == w.recs[n := w'.recs[n]] && w'.kubes == w.kubes[n := w'.kubes[n]]
    && w'.kubes[n].conditions == w.kubes[n].conditions && w'.kubes[n].bootId == w.kubes[n].bootId
  }

  /** Before the switch only the `Drained` flag of a schedulable node and the verdict change. */
  lemma ChecksChangeLittle(cfg: Config, s: Sim, n: string, a: Answers)
    requires !s.stopped && s.fuel >= 2 && Managed(s.run.now, n)
    ensures var s' := CheckRebootRequired(cfg, SyncDrained(s, n), n, a); var w, w' := s.run.now, s'.run.now;
      && !s'.stopped && s'.fuel >= s.fuel - (if w.recs[n].cs.Work() then 1 else 2)
      && OnlyChanges(w, w', n) && w'.kubes == w.kubes
      && w'.recs[n] == w.recs[n].(drained := w.recs[n].drained && w.kubes[n].unsched,
                                  required := w'.recs[n].required, lastChecked := w'.recs[n].lastChecked)
  {
  }

  lemma ActiveRequest(s: Sim, n: string)
    requires !s.stopped && s.fuel >= 2 && ActiveNode(s.run.now, n)
    ensures var s' := Request(s, n); var w, w' := s.run.now, s'.run.now;
      && !s'.stopped && OnlyChanges(w, w', n) && ActiveNode(w', n)
      && w'.recs[n] == w.recs[n].(cs := OK) && !w'.kubes[n].unsched
  {
  }

  /** The request for Active on a node that needs no undrain. */
  lemma ActiveRest(cfg: Config, s: Sim, n: string, a: Answers)
    requires !s.stopped && s.fuel >= 4 && ActiveNode(s.run.now, n)
    requires !s.run.now.recs[n].cs.Committed()
    ensures var w, w' := s.run.now, Rest(cfg, s, n, a).run.now;
      && OnlyChanges(w, w', n) && ActiveNode(w', n)
      && w'.recs[n].cs.OK? && !w'.kubes[n].unsched
      && w'.recs[n].drained == (w.recs[n].drained && w.kubes[n].unsched)
  {
    ChecksChangeLittle(cfg, s, n, a);
    var s1 := CheckRebootRequired(cfg, SyncDrained(s, n), n, a);
    ActiveRequest(s1, n);
    assert Progress(cfg, Request(s1, n), n, a) == Request(s1, n);
  }

  /** The reconcile of such a node is nothing but that. */
  lemma ActiveSettles(cfg: Config, s: Sim, n: string, a: Answers)
    requires !s.stopped && s.fuel >= 4 && ActiveNode(s.run.now, n)
    requires !s.run.now.recs[n].cs.Committed()
    ensures var w, w' := s.run.now, Reconcile.Reconcile(cfg, s, n, a).run.now;
      && OnlyChanges(w, w', n) && ActiveNode(w', n)
      && w'.recs[n].cs.OK? && !w'.kubes[n].unsched
      && w'.recs[n].drained == (w.recs[n].drained && w.kubes[n].unsched)
  {
    assert Undrain(cfg, s, n, a) == s;
    ActiveRest(cfg, s, n, a);
  }

  lemma ChangesAddUp(w: World, w1: World, w2: World, n: string)
    requires OnlyChanges(w, w1, n) && OnlyChanges(w1, w2, n)
    ensures OnlyChanges(w, w2, n)
  {
  }

  lemma RestAfterUndrain(cfg: Config, w: World, s: Sim, n: string, a: Answers)
    requires OnlyChanges(w, s.run.now, n) && !s.stopped && s.fuel >= 4 && ActiveNode(s.run.now, n) && Idle(s.run.now, n)
    ensures var w' := Rest(cfg, s, n, a).run.now;
      && OnlyChanges(w, w', n) && ActiveNode(w', n) && Idle(w', n)
  {
    ActiveRest(cfg, s, n, a);
    ChangesAddUp(w, s.run.now, Rest(cfg, s, n, a).run.now, n);
  }

  lemma RestComesLast(cfg: Config, s: Sim, n: string, a: Answers)
    requires Managed(s.run.now, n)
    ensures Reconcile.Reconcile(cfg, s, n, a) == Rest(cfg, Undrain(cfg, s, n, a), n, a)
  {
  }

  lemma UndrainCompletes(cfg: Config, s: Sim, n: string, a: Answers)
    requires Fresh(s) && HooksSucceed(AskedHooks(cfg.plugins, a.postDrain)) && Managed(s.run.now, n)
    requires s.run.now.recs[n].cs.Undraining? && (s.run.now.kubes[n].unsched ==> NodesHealthy(s.run.now))
    ensures var s' := Undrain(cfg, s, n, a); var w, w' := s.run.now, s'.run.now;
      && !s'.stopped && s'.fuel >= s.fuel - 5
      && OnlyChanges(w, w', n) && Idle(w', n)
      && w'.recs[n] == w.recs[n].(cs := OK, drained := false)
      && (w'.kubes[n].manager == w.kubes[n].manager || w'.kubes[n].manager.Nobody?)
  {
    var s1 := if s.run.now.kubes[n].unsched then Do(Do(s, NodesReady(n)), Uncordon(n)) else s;
    assert !s1.stopped && s1.fuel >= s.fuel - 2 && s1.run.now.recs == s.run.now.recs;
    CompleteUndrainEnds(cfg, s1, n, a);
  }

  lemma CompleteUndrainEnds(cfg: Config, s: Sim, n: string, a: Answers)
    requires !s.stopped && s.fuel >= 3 && HooksSucceed(AskedHooks(cfg.plugins, a.postDrain)) && Managed(s.run.now, n)
    ensures var s' := CompleteUndrain(cfg, s, n, a); var w, w' := s.run.now, s'.run.now;
      && !s'.stopped && s'.fuel >= s.fuel - 3 && w'.kubes == w.kubes && w'.host == w.host
      && n in w'.recs && w'.recs == w.recs[n := w'.recs[n]]
      && w'.recs[n] == w.recs[n].(cs := OK, drained := false)
  {
    var s1 := Do(s, PostDrain(n, AskedHooks(cfg.plugins, a.postDrain)));
    assert !s1.stopped && s1.run.now == s.run.now && s1.fuel == s.fuel - 1;
  }

  /** An undrain under Active that nothing stands in the way of ends in the idle state. */
  lemma UndrainSettles(cfg: Config, s: Sim, n: string, a: Answers)
    requires Fresh(s) && Favourable(cfg, a) && ActiveNode(s.run.now, n)
    requires s.run.now.recs[n].cs.Undraining? && (s.run.now.kubes[n].unsched ==> NodesHealthy(s.run.now))
    ensures var w, w' := s.run.now, Reconcile.Reconcile(cfg, s, n, a).run.now;
      && OnlyChanges(w, w', n) && ActiveNode(w', n) && Idle(w', n)
  {
    UndrainCompletes(cfg, s, n, a);
    RestAfterUndrain(cfg, s.run.now, Undrain(cfg, s, n, a), n, a);
    RestComesLast(cfg, s, n, a);
  }

  lemma BeginsUndrain(cfg: Config, s: Sim, n: string, a: Answers)
    requires !s.stopped && s.fuel >= 1 && Managed(s.run.now, n)
    requires s.run.now.recs[n].spec.WantActive? && s.run.now.recs[n].cs.NeedsUndrain()
    ensures Reconcile.Reconcile(cfg, s, n, a).run.now == Put(s.run.now, n, s.run.now.recs[n].(cs := Undraining))
  {
    StoppedStays(cfg, Undrain(cfg, s, n, a), n, a);
  }

  /** One smooth reconcile under Active lowers the rank of its node, and touches no other. */
  lemma ActiveStep(cfg: Config, s: Sim, n: string, a: Answers)
    requires Fresh(s) && Favourable(cfg, a) && ActiveNode(s.run.now, n) && NodesHealthy(s.run.now)
    ensures var w, w' := s.run.now, Reconcile.Reconcile(cfg, s, n, a).run.now;
      && OnlyChanges(w, w', n) && ActiveNode(w', n)
      && ActiveRank(w', n) <= (if ActiveRank(w, n) == 0 then 0 else ActiveRank(w, n) - 1)
  {
    var w := s.run.now;
    if w.recs[n].cs.NeedsUndrain() {
      BeginsUndrain(cfg, s, n, a);
    } else if w.recs[n].cs.Undraining? {
      UndrainSettles(cfg, s, n, a);
    } else {
      ActiveSettles(cfg, s, n, a);
    }
  }

  // ---- when another owner holds the field `unschedulable` ----

  /** Another owner keeps `n` from becoming idle: the node is not in a committed state, which the
      controller leaves by itself, and is not OK and schedulable already. */
  predicate HeldByOthers(w: World, n: string)
    requires Present(w, n)
  {
    w.kubes[n].manager.Foreign? && !w.recs[n].cs.Committed() && (!w.recs[n].cs.OK? || w.kubes[n].unsched)
  }

  lemma ForeignRest(cfg: Config, s: Sim, n: string, a: Answers)
    requires !s.stopped && s.fuel >= 2 && Managed(s.run.now, n)
    requires s.run.now.recs[n].spec.WantActive? && s.run.now.kubes[n].manager.Foreign?
    ensures var w, w' := s.run.now, Rest(cfg, s, n, a).run.now;
      && OnlyChanges(w, w', n) && w'.kubes == w.kubes
      && w'.recs[n].spec == w.recs[n].spec && w'.recs[n].cs == w.recs[n].cs && w'.recs[n].deleting == w.recs[n].deleting
      && w'.recs[n].drained == (w.recs[n].drained && w.kubes[n].unsched)
  {
    ChecksChangeLittle(cfg, s, n, a);
    StoppedStays(cfg, Request(CheckRebootRequired(cfg, SyncDrained(s, n), n, a), n), n, a);
  }

  lemma ForeignSettles(cfg: Config, s: Sim, n: string, a: Answers)
    requires !s.stopped && s.fuel >= 2 && Managed(s.run.now, n) && !s.run.now.recs[n].cs.Committed()
    requires s.run.now.recs[n].spec.WantActive? && s.run.now.kubes[n].manager.Foreign?
    ensures var w, w' := s.run.now, Reconcile.Reconcile(cfg, s, n, a).run.now;
      && OnlyChanges(w, w', n) && w'.kubes == w.kubes
      && w'.recs[n].spec == w.recs[n].spec && w'.recs[n].cs == w.recs[n].cs && w'.recs[n].deleting == w.recs[n].deleting
      && w'.recs[n].drained == (w.recs[n].drained && w.kubes[n].unsched)
  {
    assert Undrain(cfg, s, n, a) == s;
    ForeignRest(cfg, s, n, a);
  }

  lemma ForeignRestAfterUndrain(cfg: Config, w: World, s: Sim, n: string, a: Answers)
    requires OnlyChanges(w, s.run.now, n) && !s.stopped && s.fuel >= 2 && Managed(s.run.now, n) && Idle(s.run.now, n)
    requires s.run.now.recs[n].spec.WantActive? && s.run.now.kubes[n].manager.Foreign?
    ensures var w' := Rest(cfg, s, n, a).run.now;
      OnlyChanges(w, w', n) && Managed(w', n) && w'.recs[n].spec.WantActive? && Idle(w', n)
  {
    ForeignRest(cfg, s, n, a);
    ChangesAddUp(w, s.run.now, Rest(cfg, s, n, a).run.now, n);
  }

  /** An undrain under Active ends in the idle state, whoever owned the cordon. */
  lemma UndrainSettlesAnyway(cfg: Config, s: Sim, n: string, a: Answers)
    requires Fresh(s) && Favourable(cfg, a) && Managed(s.run.now, n) && s.run.now.recs[n].spec.WantActive?
    requires s.run.now.recs[n].cs.Undraining? && (s.run.now.kubes[n].unsched ==> NodesHealthy(s.run.now))
    ensures var w, w' := s.run.now, Reconcile.Reconcile(cfg, s, n, a).run.now;
      OnlyChanges(w, w', n) && Managed(w', n) && w'.recs[n].spec.WantActive? && Idle(w', n)
  {
    UndrainCompletes(cfg, s, n, a);
    var s1 := Undrain(cfg, s, n, a);
    if s1.run.now.kubes[n].manager.Foreign? {
      ForeignRestAfterUndrain(cfg, s.run.now, s1, n, a);
    } else {
      RestAfterUndrain(cfg, s.run.now, s1, n, a);
    }
    RestComesLast(cfg, s, n, a);
  }

  /** A node asked for Active, whoever owns the field, gets closer to idle unless it is held. */
  lemma OwnedStep(cfg: Config, s: Sim, n: string, a: Answers)
    requires Fresh(s) && Favourable(cfg, a) && Managed(s.run.now, n) && NodesHealthy(s.run.now)
    requires s.run.now.recs[n].spec.WantActive?
    ensures var w, w' := s.run.now, Reconcile.Reconcile(cfg, s, n, a).run.now;
      && OnlyChanges(w, w', n) && Managed(w', n) && w'.recs[n].spec.WantActive?
      && (HeldByOthers(w', n) <==> HeldByOthers(w, n))
      && (!HeldByOthers(w, n) ==> ActiveRank(w', n) <= if ActiveRank(w, n) == 0 then 0 else ActiveRank(w, n) - 1)
  {
    var w := s.run.now;
    if !w.kubes[n].manager.Foreign? {
      ActiveStep(cfg, s, n, a);
    } else if w.recs[n].cs.NeedsUndrain() {
      BeginsUndrain(cfg, s, n, a);
    } else if w.recs[n].cs.Undraining? {
      UndrainSettlesAnyway(cfg, s, n, a);
    } else {
      ForeignSettles(cfg, s, n, a);
    }
  }

  lemma StillHealthy(w: World, w': World, n: string)
    requires NodesHealthy(w) && OnlyChanges(w, w', n)
    ensures NodesHealthy(w')
  {
    forall m | m in w'.kubes ensures NoReadyConditionFails(w'.kubes[m].conditions) {
      assert w'.kubes[m].conditions == w.kubes[m].conditions;
    }
  }

  /** Convergence is exact: two smooth reconciles of a node asked for Active make it idle if and
      only if no other owner holds it. */
  lemma IdleIffNotHeld(cfg: Config, r: Run, n: string, a: Answers, a': Answers) returns (r1: Run, r2: Run)
    requires Favourable(cfg, a) && Favourable(cfg, a') && Managed(r.now, n) && NodesHealthy(r.now)
    requires r.now.recs[n].spec.WantActive?
    ensures r1 == Act(cfg, r, Reconciles(n, a, EFFECTS)) && r2 == Act(cfg, r1, Reconciles(n, a', EFFECTS))
    ensures Idle(r2.now, n) <==> !HeldByOthers(r.now, n)
  {
    r1 := Reconcile.Reconcile(cfg, Sim(r, EFFECTS, false), n, a).run;
    OwnedStep(cfg, Sim(r, EFFECTS, false), n, a);
    StillHealthy(r.now, r1.now, n);
    r2 := Reconcile.Reconcile(cfg, Sim(r1, EFFECTS, false), n, a').run;
    OwnedStep(cfg, Sim(r1, EFFECTS, false), n, a');
  }

  // ---- any number of nodes ----

  /** A healthy cluster of any size in which every node is asked for Active. */
  predicate AllActive(w: World) {
    && w.recs.Keys == w.kubes.Keys && NodesHealthy(w)
    && forall n :: n in w.recs ==> ActiveNode(w, n)
  }

  function Count(acts: seq<Action>, n: string): nat {
    if acts == [] then 0
    else
      var last := acts[|acts| - 1];
      Count(acts[..|acts| - 1], n) + if last.Reconciles? && last.node == n then 1 else 0
  }

  /** Every node is idle, or nearer to it by as many steps as `acts` has reconciles of it. */
  predicate Calmer(w: World, w': World, acts: seq<Action>) {
    && w'.recs.Keys == w.recs.Keys
    && forall n :: n in w.recs ==>
         && Present(w, n) && Present(w', n)
         && (ActiveRank(w', n) == 0 || ActiveRank(w', n) + Count(acts, n) <= ActiveRank(w, n))
  }

  lemma {:induction false} CalmerAddsUp(w: World, w1: World, w2: World, acts: seq<Action>)
    requires acts != [] && Calmer(w, w1, acts[..|acts| - 1]) && Calmer(w1, w2, [acts[|acts| - 1]])
    ensures Calmer(w, w2, acts)
  {
    assert forall n :: Count(acts, n) == Count(acts[..|acts| - 1], n) + Count([acts[|acts| - 1]], n);
  }

  /** One smooth reconcile keeps the cluster as it should be, raises no rank, and lowers
      that of its node. */
  lemma {:induction false} ActiveAct(cfg: Config, r: Run, act: Action)
    requires AllActive(r.now) && Smooth(cfg, act)
    ensures AllActive(Act(cfg, r, act).now) && Calmer(r.now, Act(cfg, r, act).now, [act])
  {
    assert forall n :: Count([act], n) == if n == act.node then 1 else 0;
    if act.node in r.now.kubes {
      var s := Sim(r, act.fuel, false);
      ActiveStep(cfg, s, act.node, act.answers);
      OthersStayActive(r.now, Reconcile.Reconcile(cfg, s, act.node, act.answers).run.now, act.node);
    }
  }

  lemma OthersStayActive(w: World, w': World, n: string)
    requires AllActive(w) && OnlyChanges(w, w', n) && ActiveNode(w', n)
    ensures AllActive(w') && w'.recs.Keys == w.recs.Keys
    ensures forall m :: m in w.recs && m != n ==> ActiveRank(w', m) == ActiveRank(w, m)
  {
    forall m | m in w'.recs && m != n ensures ActiveNode(w', m) {
      assert ActiveNode(w, m);
    }
    forall m | m in w'.kubes ensures NoReadyConditionFails(w'.kubes[m].conditions) {
      assert w'.kubes[m].conditions == w.kubes[m].conditions;
    }
  }

  /** Along any order of smooth reconciles every node gets closer to idle with each of its own. */
  lemma {:induction false} ActiveRanksFall(cfg: Config, r: Run, acts: seq<Action>)
    requires AllActive(r.now) && forall i :: 0 <= i < |acts| ==> Smooth(cfg, acts[i])
    ensures AllActive(Acts(cfg, r, acts).now) && Calmer(r.now, Acts(cfg, r, acts).now, acts)
  {
    if acts != [] {
      var r1 := Acts(cfg, r, acts[..|acts| - 1]);
      ActiveRanksFall(cfg, r, acts[..|acts| - 1]);
      ActiveAct(cfg, r1, acts[|acts| - 1]);
      CalmerAddsUp(r.now, r1.now, Acts(cfg, r, acts).now, acts);
    }
  }

  /** Convergence: once every node asked for Active has been reconciled twice, in any order, the
      whole cluster is idle; and it stays so under further reconciles. */
  lemma {:induction false} ConvergesToActive(cfg: Config, r: Run, acts: seq<Action>)
    requires AllActive(r.now) && forall i :: 0 <= i < |acts| ==> Smooth(cfg, acts[i])
    requires forall n :: n in r.now.recs ==> Count(acts, n) >= 2 || Idle(r.now, n)
    ensures forall n :: n in r.now.recs ==> Idle(Acts(cfg, r, acts).now, n)
  {
    ActiveRanksFall(cfg, r, acts);
  }

  // ---- adoption ----

  /** The current state that a new record gets; another owner of the field keeps it empty. */
  function FirstState(k: Kube): CurrentState {
    if k.unsched then Cordoned else if k.manager.Foreign? then Unset else OK
  }

  /** A new record asks for what its node already is: reconciling it leaves the node as
      schedulable as it was, and gives it its first current state unless another owner holds it. */
  lemma NewRecordReconciles(cfg: Config, s: Sim, n: string, a: Answers)
    requires Fresh(s) && n in s.run.now.kubes
    requires var w := s.run.now;
      w.recs == w.recs[n := NewRecord(if w.kubes[n].unsched then WantCordoned else WantActive)]
    ensures var w, w' := s.run.now, Reconcile.Reconcile(cfg, s, n, a).run.now;
      && n in w'.recs && w'.kubes == w.kubes
      && w'.recs[n] == w.recs[n].(cs := FirstState(w.kubes[n]))
  {
    assert n in s.run.now.recs;
    assert Undrain(cfg, s, n, a) == s && SyncDrained(s, n) == s && CheckRebootRequired(cfg, s, n, a) == s;
    var s1 := Request(s, n);
    assert Progress(cfg, s1, n, a) == s1;
  }

  /** Adopting a node: two reconciles create its record and never touch its cordon. */
  lemma AdoptionKeepsCordon(cfg: Config, r: Run, n: string, a: Answers) returns (r1: Run, r2: Run)
    requires n in r.now.kubes && n !in r.now.recs
    ensures r1 == Act(cfg, r, Reconciles(n, a, EFFECTS)) && r2 == Act(cfg, r1, Reconciles(n, a, EFFECTS))
    ensures r2.now.kubes == r.now.kubes && n in r2.now.recs
    ensures r2.now.recs[n].cs == FirstState(r.now.kubes[n])
    ensures !r2.now.recs[n].spec.Drains()
  {
    r1 := Extend(r, CreateRecord(n));
    var s := Sim(r1, EFFECTS, false);
    assert r1.now.recs == r1.now.recs[n := r1.now.recs[n]];
    NewRecordReconciles(cfg, s, n, a);
    r2 := Reconcile.Reconcile(cfg, s, n, a).run;
  }
}
