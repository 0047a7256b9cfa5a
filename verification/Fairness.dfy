/** Fair rounds exist, and a rolling reboot can be finished, exactly when the controller is not
    trapped. */
module Fairness {
  import opened NodeTypes
  import opened Plugins
  import opened World
  import opened Protocol
  import opened Safety
  import opened Reconcile
  import opened Convergence
  import opened Stages
  import opened RollingReboot
  import opened Trap

  // ---- reboots that are issued ----

  /** After the first `from` effects Rebooting was written for `n`, right after the reboot pod was
      created unless the nodes are containers. */
  ghost predicate RebootIssued(cfg: Config, r: Run, n: string, from: nat) {
    exists k :: from < k < |r.steps| && RebootIssuedAt(cfg, r, n, k)
  }

  predicate RebootIssuedAt(cfg: Config, r: Run, n: string, k: int)
    requires 0 < k < |r.steps|
  {
    r.Ev(k) == SetState(n, CurrentState.Rebooting) && (cfg.containerNode || r.Ev(k - 1) == RebootPod(n))
  }

  /** `n` waits for its reboot, in the queue or in its turn. */
  predicate Waits(w: World, n: string) {
    8 <= RankOf(w, n) <= 13
  }

  /** From `r` to `r'` nobody is let off: who waited still waits, or has had the reboot issued. */
  ghost predicate Pursues(cfg: Config, r: Run, r': Run) {
    && r.steps <= r'.steps && r'.now.recs.Keys == r.now.recs.Keys
    && forall n :: n in r.now.recs && Waits(r.now, n) ==> Waits(r'.now, n) || RebootIssued(cfg, r', n, |r.steps|)
  }

  lemma StillIssued(cfg: Config, r1: Run, r2: Run, n: string, from: nat, from': nat)
    requires r1.steps <= r2.steps && from' <= from && RebootIssued(cfg, r1, n, from)
    ensures RebootIssued(cfg, r2, n, from')
  {
    var k :| from < k < |r1.steps| && RebootIssuedAt(cfg, r1, n, k);
    assert RebootIssuedAt(cfg, r2, n, k);
  }

  lemma PursuesOn(cfg: Config, r: Run, r1: Run, r2: Run)
    requires Pursues(cfg, r, r1) && Pursues(cfg, r1, r2)
    ensures Pursues(cfg, r, r2)
  {
    forall n | n in r.now.recs && Waits(r.now, n) ensures Waits(r2.now, n) || RebootIssued(cfg, r2, n, |r.steps|) {
      if Waits(r1.now, n) {
        if !Waits(r2.now, n) {
          StillIssued(cfg, r2, r2, n, |r1.steps|, |r.steps|);
        }
      } else {
        StillIssued(cfg, r1, r2, n, |r.steps|, |r.steps|);
      }
    }
  }

  /** Who waits keeps its rank: nobody is let off. */
  lemma SameWaitPursues(cfg: Config, r: Run, r': Run)
    requires r.steps <= r'.steps && r'.now.recs.Keys == r.now.recs.Keys
    requires forall n :: n in r.now.recs && Waits(r.now, n) ==> RankOf(r'.now, n) == RankOf(r.now, n)
    ensures Pursues(cfg, r, r')
  {
  }

  lemma {:induction false} StepsGrow(cfg: Config, r: Run, acts: seq<Action>)
    ensures r.steps <= Acts(cfg, r, acts).steps
  {
    if acts != [] {
      var init, last := acts[..|acts| - 1], acts[|acts| - 1];
      assert acts == init + [last];
      StepsGrow(cfg, r, init);
      ActsOneMore(cfg, r, init, last);
      OneStepGrows(cfg, Acts(cfg, r, init), last);
    }
  }

  lemma OneStepGrows(cfg: Config, r: Run, act: Action)
    ensures r.steps <= Act(cfg, r, act).steps
  {
  }

  /** Stage 7 is entered by the write of Rebooting alone. */
  lemma EntersRebooting(cfg: Config, r: Run, n: string, k: int)
    requires Valid(cfg, r) && 0 <= k < |r.steps| && !r.steps[k].ev.Outside() && Rolling(r.At(k)) && n in r.At(k).recs
    requires Waits(r.At(k), n) && RankOf(r.At(k + 1), n) == 7
    ensures r.Ev(k) == SetState(n, CurrentState.Rebooting)
    ensures cfg.containerNode || (k > 0 && r.Ev(k - 1) == RebootPod(n))
  {
    assert InStage(r.At(k), n);
    assert StepOk(cfg, r, k);
  }

  lemma {:induction false} ReachesRebooting(cfg: Config, r: Run, n: string, i: int, j: int) returns (k: int)
    requires Valid(cfg, r) && 0 < i <= j <= |r.steps| && Rolling(r.At(i)) && n in r.At(i).recs
    requires forall x :: i <= x < j ==> !r.steps[x].ev.Outside()
    requires Waits(r.At(i), n) && RankOf(r.At(j), n) == 7
    ensures i <= k < j && RebootIssuedAt(cfg, r, n, k)
  {
    OneBack(cfg, r, n, i, j);
    if RankOf(r.At(j - 1), n) == 7 {
      k := ReachesRebooting(cfg, r, n, i, j - 1);
    } else {
      k := j - 1;
      EntersRebooting(cfg, r, n, k);
    }
  }

  lemma OneBack(cfg: Config, r: Run, n: string, i: int, j: int)
    requires Valid(cfg, r) && 0 <= i < j <= |r.steps| && Rolling(r.At(i)) && n in r.At(i).recs
    requires forall x :: i <= x < j ==> !r.steps[x].ev.Outside()
    requires Waits(r.At(i), n) && RankOf(r.At(j), n) == 7
    ensures Rolling(r.At(j - 1)) && n in r.At(j - 1).recs
    ensures RankOf(r.At(j - 1), n) == 7 || Waits(r.At(j - 1), n)
  {
    ControllerRollsOn(cfg, r, i, j - 1);
    ControllerRollsOn(cfg, r, j - 1, j);
  }

  // ---- serving a node ----

  const READY: seq<Condition> := [Condition(true, Up)]

  /** Calls in which no plugin objects, and a reboot-required check that finds `v`. */
  function Unopposed(cfg: Config, v: bool): Answers {
    var replies := map id | id in cfg.plugins :: Reply(No, No);
    var hooks := map id | id in cfg.plugins :: HookReply(No, None);
    Answers(replies, replies, hooks, hooks, v, (0, 0), (0, 0))
  }

  function Visit(cfg: Config, n: string, v: bool): Action {
    Reconciles(n, Unopposed(cfg, v), EFFECTS)
  }

  lemma VisitIsSmooth(cfg: Config, n: string, v: bool)
    ensures Smooth(cfg, Visit(cfg, n, v)) && RollingAction(Visit(cfg, n, v))
  {
  }

  /** Every node of `names` reports that it is ready. */
  function Reports(names: seq<string>): (acts: seq<Action>)
    ensures |acts| == |names|
  {
    seq(|names|, i requires 0 <= i < |names| => Happens(Report(names[i], READY)))
  }

  /** `w'` differs from `w` in what its nodes report only. */
  predicate OnlyReports(w: World, w': World) {
    && w'.recs == w.recs && w'.host == w.host && w'.clock == w.clock && w'.kubes.Keys == w.kubes.Keys
    && forall m :: m in w.kubes ==> w'.kubes[m] == w.kubes[m].(conditions := w'.kubes[m].conditions)
  }

  lemma {:induction false} ReportsMakeReady(cfg: Config, r: Run, names: seq<string>)
    ensures var w' := Acts(cfg, r, Reports(names)).now;
      OnlyReports(r.now, w') && forall m :: m in names && m in w'.kubes ==> w'.kubes[m].conditions == READY
  {
    if names != [] {
      var before, last := names[..|names| - 1], names[|names| - 1];
      ReportsMakeReady(cfg, r, before);
      assert Reports(names) == Reports(before) + [Happens(Report(last, READY))];
      ActsOneMore(cfg, r, Reports(before), Happens(Report(last, READY)));
      OneMoreReport(r.now, Acts(cfg, r, Reports(before)).now, before, last);
      assert names == before + [last];
    }
  }

  lemma OneMoreReport(w: World, w1: World, before: seq<string>, n: string)
    requires OnlyReports(w, w1) && forall m :: m in before && m in w1.kubes ==> w1.kubes[m].conditions == READY
    ensures var w' := Apply(w1, Report(n, READY));
      OnlyReports(w, w') && forall m :: m in before + [n] && m in w'.kubes ==> w'.kubes[m].conditions == READY
  {
  }

  /** The time until a verdict of `n` is due again. */
  function Pause(w: World, n: string): nat {
    if n in w.recs && w.recs[n].lastChecked.Some? && w.recs[n].lastChecked.value + 2 * MINUTE + 1 > w.clock
    then w.recs[n].lastChecked.value + 2 * MINUTE + 1 - w.clock else 0
  }

  function NewBoot(w: World, n: string): string {
    if n in w.recs then w.recs[n].bootId + "'" else ""
  }

  /** Time passes, `n` boots, and every node reports that it is ready. */
  function Unblocking(w: World, n: string, names: seq<string>): seq<Action> {
    [Happens(Tick(Pause(w, n)))] + [Happens(Boot(n, NewBoot(w, n)))] + Reports(names)
  }

  /** `w'` is `w` with `n` unblocked, and with every node as it was as far as stages go. */
  predicate Unblocked(cfg: Config, w: World, w': World, n: string) {
    && w'.recs == w.recs && w'.host == w.host && w'.kubes.Keys == w.kubes.Keys && !Blocked(cfg, w', n)
    && (forall m :: m in w.kubes ==>
          w'.kubes[m].unsched == w.kubes[m].unsched && w'.kubes[m].manager == w.kubes[m].manager)
    && n in w.recs && Due(w.recs[n].lastChecked, w'.clock, 2 * MINUTE)
  }

  lemma UnblockedWorld(cfg: Config, w: World, w1: World, w2: World, n: string)
    requires Present(w, n) && !(RankOf(w, n) == 9 && w.host == n)
    requires w1 == Apply(Apply(w, Tick(Pause(w, n))), Boot(n, NewBoot(w, n))) && OnlyReports(w1, w2)
    requires forall m :: m in w2.kubes ==> w2.kubes[m].conditions == READY
    ensures Unblocked(cfg, w, w2, n)
  {
    assert w2.kubes[n].bootId != w2.recs[n].bootId;
    assert RankOf(w2, n) == RankOf(w, n);
    assert NodesHealthy(w2);
    assert READY[0] in w2.kubes[n].conditions;
  }

  lemma {:induction false} TickedAndBooted(cfg: Config, r: Run, n: string, dt: nat, id: string)
    ensures Acts(cfg, r, [Happens(Tick(dt))] + [Happens(Boot(n, id))]) == Extend(Extend(r, Tick(dt)), Boot(n, id))
  {
    assert [] + [Happens(Tick(dt))] == [Happens(Tick(dt))];
    ActsOneMore(cfg, r, [], Happens(Tick(dt)));
    ActsOneMore(cfg, r, [Happens(Tick(dt))], Happens(Boot(n, id)));
  }

  lemma {:induction false} UnblockingUnblocks(cfg: Config, r: Run, n: string, names: seq<string>)
    requires Present(r.now, n) && !(RankOf(r.now, n) == 9 && r.now.host == n)
    requires forall m :: m in r.now.kubes ==> m in names
    ensures Unblocked(cfg, r.now, Acts(cfg, r, Unblocking(r.now, n, names)).now, n)
  {
    UnblockingRun(cfg, r, n, names);
    var r1 := Extend(Extend(r, Tick(Pause(r.now, n))), Boot(n, NewBoot(r.now, n)));
    var w2 := ReportsUnblock(cfg, r.now, r1, n, names);
  }

  lemma {:induction false} ReportsUnblock(cfg: Config, w: World, r: Run, n: string, names: seq<string>)
    returns (w2: World)
    requires Present(w, n) && !(RankOf(w, n) == 9 && w.host == n) && forall m :: m in w.kubes ==> m in names
    requires r.now == Apply(Apply(w, Tick(Pause(w, n))), Boot(n, NewBoot(w, n)))
    ensures w2 == Acts(cfg, r, Reports(names)).now && Unblocked(cfg, w, w2, n)
  {
    w2 := AllReport(cfg, r, names);
    UnblockedWorld(cfg, w, r.now, w2, n);
  }

  lemma {:induction false} AllReport(cfg: Config, r: Run, names: seq<string>) returns (w2: World)
    requires forall m :: m in r.now.kubes ==> m in names
    ensures w2 == Acts(cfg, r, Reports(names)).now
    ensures OnlyReports(r.now, w2) && forall m :: m in w2.kubes ==> w2.kubes[m].conditions == READY
  {
    w2 := Acts(cfg, r, Reports(names)).now;
    ReportsMakeReady(cfg, r, names);
  }

  lemma {:induction false} UnblockingRun(cfg: Config, r: Run, n: string, names: seq<string>)
    ensures var r1 := Extend(Extend(r, Tick(Pause(r.now, n))), Boot(n, NewBoot(r.now, n)));
      Acts(cfg, r, Unblocking(r.now, n, names)) == Acts(cfg, r1, Reports(names))
  {
    var dt, id := Pause(r.now, n), NewBoot(r.now, n);
    TickedAndBooted(cfg, r, n, dt, id);
    ActsConcat(cfg, r, [Happens(Tick(dt))] + [Happens(Boot(n, id))], Reports(names));
  }

  /** Without a reboot-required verdict nobody gets into a drain that was not in one. */
  ghost predicate NoNewDrain(w: World, w': World) {
    forall m :: m in w'.recs && RankOf(w', m) == 9 ==> m in w.recs && RankOf(w, m) == 9
  }

  lemma {:induction false} StillUnblockedRanks(cfg: Config, w: World, w': World, n: string)
    requires Rolling(w) && Unblocked(cfg, w, w', n)
    ensures Rolling(w') && NoNewDrain(w, w') && forall m :: m in w.recs ==> RankOf(w', m) == RankOf(w, m)
  {
    forall m | m in w.recs ensures InStage(w', m) && RankOf(w', m) == RankOf(w, m) {
      assert InStage(w, m);
    }
    assert forall m :: Working(w', m) <==> Working(w, m);
  }

  /** A visit of an unblocked node. */
  lemma VisitReaches(cfg: Config, r: Run, n: string, v: bool) returns (k: nat)
    requires InStage(r.now, n) && !Blocked(cfg, r.now, n) && Due(r.now.recs[n].lastChecked, r.now.clock, 2 * MINUTE)
    ensures Reaches(r.now, Act(cfg, r, Visit(cfg, n, v)).now, n, k)
    ensures !v ==> k != 9
    ensures v && Waits(r.now, n) ==> 7 <= k <= 13
  {
    VisitIsSmooth(cfg, n, v);
    var s := Sim(r, EFFECTS, false);
    if !v && RankOf(r.now, n) == 10 {
      k := GivesUp(cfg, s, n, Unopposed(cfg, v));
    } else {
      k := StageEnds(cfg, s, n, Unopposed(cfg, v));
    }
  }

  /** A visit that finds a reboot required lets nobody off. */
  lemma VisitPursues(cfg: Config, r: Run, n: string, k: nat)
    requires Valid(cfg, r) && Rolling(r.now) && n in r.now.recs && |r.steps| > 0
    requires Reaches(r.now, Act(cfg, r, Visit(cfg, n, true)).now, n, k) && (Waits(r.now, n) ==> 7 <= k <= 13)
    ensures var r' := Act(cfg, r, Visit(cfg, n, true));
      && r.steps <= r'.steps && r'.now.recs.Keys == r.now.recs.Keys
      && (forall m :: m in r.now.recs && m != n ==> RankOf(r'.now, m) == RankOf(r.now, m))
      && (Waits(r.now, n) && !Waits(r'.now, n) ==> RebootIssued(cfg, r', n, |r.steps| - 1))
  {
    OneStepGrows(cfg, r, Visit(cfg, n, true));
    OthersKeepRank(r.now, Act(cfg, r, Visit(cfg, n, true)).now, n, k);
    if Waits(r.now, n) && k == 7 {
      VisitIssues(cfg, r, n);
    }
  }

  lemma OthersKeepRank(w: World, w': World, n: string, k: nat)
    requires Reaches(w, w', n, k)
    ensures w'.recs.Keys == w.recs.Keys && RankOf(w', n) == k
    ensures forall m :: m in w.recs && m != n ==> RankOf(w', m) == RankOf(w, m)
  {
  }

  lemma VisitIssues(cfg: Config, r: Run, n: string)
    requires Valid(cfg, r) && Rolling(r.now) && n in r.now.recs && |r.steps| > 0
    requires Waits(r.now, n) && RankOf(Act(cfg, r, Visit(cfg, n, true)).now, n) == 7
    ensures RebootIssued(cfg, Act(cfg, r, Visit(cfg, n, true)), n, |r.steps| - 1)
  {
    var s := Sim(r, EFFECTS, false);
    ReconcileIsAllowed(cfg, s, n, Unopposed(cfg, true));
    var r' := Reconcile.Reconcile(cfg, s, n, Unopposed(cfg, true)).run;
    var x := ReachesRebooting(cfg, r', n, |r.steps|, |r'.steps|);
    assert |r.steps| - 1 < x < |r'.steps|;
  }

  lemma ServicePursues(cfg: Config, r: Run, r1: Run, r2: Run, n: string)
    requires r.steps < r1.steps <= r2.steps
    requires r1.now.recs.Keys == r.now.recs.Keys && r2.now.recs.Keys == r.now.recs.Keys
    requires forall m :: m in r.now.recs ==> RankOf(r1.now, m) == RankOf(r.now, m)
    requires forall m :: m in r.now.recs && m != n ==> RankOf(r2.now, m) == RankOf(r1.now, m)
    requires Waits(r1.now, n) && !Waits(r2.now, n) ==> RebootIssued(cfg, r2, n, |r1.steps| - 1)
    ensures Pursues(cfg, r, r2)
  {
    forall m | m in r.now.recs && Waits(r.now, m) ensures Waits(r2.now, m) || RebootIssued(cfg, r2, m, |r.steps|) {
      if m == n && !Waits(r2.now, n) {
        StillIssued(cfg, r2, r2, n, |r1.steps| - 1, |r.steps|);
      }
    }
  }

  lemma ReachesNoDrain(w: World, w': World, n: string, k: nat)
    requires Reaches(w, w', n, k) && k != 9
    ensures NoNewDrain(w, w') && RankOf(w', n) != 9 && w'.host == w.host
  {
  }

  /** `n` is served by the last of `acts`. */
  function Service(cfg: Config, w: World, n: string, names: seq<string>, v: bool): seq<Action> {
    Unblocking(w, n, names) + [Visit(cfg, n, v)]
  }

  lemma {:induction false} ServiceIsFeasible(cfg: Config, r: Run, n: string, names: seq<string>, v: bool)
    ensures Feasible(cfg, r, Service(cfg, r.now, n, names, v)) && Finds(Service(cfg, r.now, n, names, v), v)
  {
    var acts := Service(cfg, r.now, n, names, v);
    assert forall i :: 0 <= i < |acts| ==> RollingAction(acts[i]) && MovesInside(Acts(cfg, r, acts[..i]).now, acts[i]);
    assert forall i :: InsideAt(cfg, r, acts, i);
  }

  lemma {:induction false} ServiceServes(cfg: Config, r: Run, n: string, names: seq<string>, v: bool) returns (i: nat)
    requires Valid(cfg, r) && Rolling(r.now) && n in r.now.recs && !(RankOf(r.now, n) == 9 && r.now.host == n)
    requires forall m :: m in r.now.kubes ==> m in names
    ensures var acts := Service(cfg, r.now, n, names, v); var w' := Acts(cfg, r, acts).now;
      && ReconciledAt(cfg, r, acts, n, i)
      && (if v then Pursues(cfg, r, Acts(cfg, r, acts))
          else NoNewDrain(r.now, w') && RankOf(w', n) != 9 && w'.host == r.now.host)
  {
    var unblock := Unblocking(r.now, n, names);
    var acts := Service(cfg, r.now, n, names, v);
    i := |unblock|;
    assert InStage(r.now, n);
    UnblockingUnblocks(cfg, r, n, names);
    var r1 := Acts(cfg, r, unblock);
    StillUnblockedRanks(cfg, r.now, r1.now, n);
    assert InStage(r1.now, n);
    VisitIsSmooth(cfg, n, v);
    assert acts[..i] == unblock && acts[i] == Visit(cfg, n, v);
    ActsOneMore(cfg, r, unblock, Visit(cfg, n, v));
    var k := VisitReaches(cfg, r1, n, v);
    if v {
      ActsKeepValid(cfg, r, unblock);
      UnblockingGrows(cfg, r, n, names);
      VisitPursues(cfg, r1, n, k);
      ServicePursues(cfg, r, r1, Act(cfg, r1, Visit(cfg, n, v)), n);
    } else {
      ReachesNoDrain(r1.now, Act(cfg, r1, Visit(cfg, n, v)).now, n, k);
    }
  }

  lemma {:induction false} UnblockingGrows(cfg: Config, r: Run, n: string, names: seq<string>)
    ensures r.steps < Acts(cfg, r, Unblocking(r.now, n, names)).steps
  {
    var r1 := Extend(Extend(r, Tick(Pause(r.now, n))), Boot(n, NewBoot(r.now, n)));
    UnblockingRun(cfg, r, n, names);
    StepsGrow(cfg, r1, Reports(names));
    assert r.steps < r1.steps;
  }

  // ---- getting the controller out of the way ----

  /** What a schedule needs whose reboot-required checks find `v`: if reboots go ahead, room for the
      controller at all times; if they do not, that it is not trapped now. */
  predicate Ready(w: World, v: bool) {
    if v then Roomy(w) else !Trapped(w)
  }

  /** A visit of an Active node outside its turn makes it schedulable. */
  lemma MakesRoom(cfg: Config, r: Run, m: string, v: bool)
    requires Rolling(r.now) && m in r.now.recs && r.now.recs[m].spec.WantActive? && !Working(r.now, m)
    ensures var w' := Act(cfg, r, Visit(cfg, m, v)).now;
      && CanHost(w', m) && w'.host == r.now.host && RankOf(w', m) != 9 && NoNewDrain(r.now, w')
      && SameWaits(r.now, w')
  {
    assert InStage(r.now, m);
    ActiveSettles(cfg, Sim(r, EFFECTS, false), m, Unopposed(cfg, v));
  }

  /** Who waits in `w` has the same rank in `w'`. */
  ghost predicate SameWaits(w: World, w': World) {
    && w'.recs.Keys == w.recs.Keys
    && forall n :: n in w.recs && Waits(w, n) ==> RankOf(w', n) == RankOf(w, n)
  }

  lemma {:induction false} MovesTo(cfg: Config, r: Run, m: string)
    requires CanHost(r.now, m)
    ensures Feasible(cfg, r, [Happens(ControllerMoves(m))])
    ensures Acts(cfg, r, [Happens(ControllerMoves(m))]).now == r.now.(host := m)
  {
    OneFeasible(cfg, r, Happens(ControllerMoves(m)));
  }

  lemma {:induction false} VisitThenMove(cfg: Config, r: Run, m: string, v: bool) returns (acts: seq<Action>)
    requires Rolling(r.now) && m in r.now.recs && r.now.recs[m].spec.WantActive? && !Working(r.now, m)
    ensures Feasible(cfg, r, acts) && Finds(acts, v)
    ensures var w' := Acts(cfg, r, acts).now;
      w'.host == m && RankOf(w', m) != 9 && NoNewDrain(r.now, w') && SameWaits(r.now, w')
  {
    VisitIsSmooth(cfg, m, v);
    OneFeasible(cfg, r, Visit(cfg, m, v));
    MakesRoom(cfg, r, m, v);
    var r1 := Act(cfg, r, Visit(cfg, m, v));
    MovesTo(cfg, r1, m);
    acts := [Visit(cfg, m, v)] + [Happens(ControllerMoves(m))];
    FeasibleConcat(cfg, r, [Visit(cfg, m, v)], [Happens(ControllerMoves(m))]);
    ActsConcat(cfg, r, [Visit(cfg, m, v)], [Happens(ControllerMoves(m))]);
    HostOnly(r.now, r1.now, m);
  }

  lemma HostOnly(w: World, w1: World, m: string)
    requires NoNewDrain(w, w1) && SameWaits(w, w1)
    ensures NoNewDrain(w, w1.(host := m)) && SameWaits(w, w1.(host := m)) && RankOf(w1.(host := m), m) == RankOf(w1, m)
  {
    assert forall x :: RankOf(w1.(host := m), x) == RankOf(w1, x);
  }

  lemma {:induction false} MoveAway(cfg: Config, r: Run, m: string, v: bool) returns (acts: seq<Action>)
    requires Rolling(r.now) && m in r.now.recs && Usable(r.now, m) && !Working(r.now, m)
    ensures Feasible(cfg, r, acts) && Finds(acts, v)
    ensures var w' := Acts(cfg, r, acts).now;
      w'.host == m && RankOf(w', m) != 9 && NoNewDrain(r.now, w') && SameWaits(r.now, w')
  {
    if r.now.kubes[m].unsched {
      acts := VisitThenMove(cfg, r, m, v);
    } else {
      assert InStage(r.now, m);
      MovesTo(cfg, r, m);
      HostOnly(r.now, r.now, m);
      acts := [Happens(ControllerMoves(m))];
    }
  }

  /** A node at Drained that hosts the controller is handed back by a negative verdict. */
  lemma {:induction false} HandBackHost(cfg: Config, r: Run, n: string) returns (acts: seq<Action>)
    requires Rolling(r.now) && n in r.now.recs && r.now.host == n
    requires RankOf(r.now, n) == 9 && r.now.recs[n].cs.Drained?
    ensures Feasible(cfg, r, acts) && Finds(acts, false)
    ensures var w' := Acts(cfg, r, acts).now; w'.host == n && RankOf(w', n) != 9 && NoNewDrain(r.now, w')
  {
    var tick, visit := Happens(Tick(Pause(r.now, n))), Visit(cfg, n, false);
    assert InStage(r.now, n);
    var r1 := Extend(r, Tick(Pause(r.now, n)));
    OneFeasible(cfg, r, tick);
    VisitIsSmooth(cfg, n, false);
    OneFeasible(cfg, r1, visit);
    acts := [tick] + [visit];
    FeasibleConcat(cfg, r, [tick], [visit]);
    ActsConcat(cfg, r, [tick], [visit]);
    PauseEnds(r.now, n);
    NegativeVisit(cfg, r1, n);
    TickNoDrain(r.now, r1.now, Act(cfg, r1, visit).now);
  }

  lemma PauseEnds(w: World, n: string)
    requires InStage(w, n)
    ensures var w' := Apply(w, Tick(Pause(w, n)));
      && w'.recs == w.recs && w'.kubes == w.kubes && w'.host == w.host
      && InStage(w', n) && RankOf(w', n) == RankOf(w, n)
      && Due(w'.recs[n].lastChecked, w'.clock, 2 * MINUTE)
  {
  }

  lemma NegativeVisit(cfg: Config, r: Run, n: string)
    requires InStage(r.now, n) && RankOf(r.now, n) == 9 && r.now.recs[n].cs.Drained?
    requires Due(r.now.recs[n].lastChecked, r.now.clock, 2 * MINUTE)
    ensures var w' := Act(cfg, r, Visit(cfg, n, false)).now;
      NoNewDrain(r.now, w') && RankOf(w', n) != 9 && w'.host == r.now.host
  {
    var k := GivesUp(cfg, Sim(r, EFFECTS, false), n, Unopposed(cfg, false));
    ReachesNoDrain(r.now, Act(cfg, r, Visit(cfg, n, false)).now, n, k);
  }

  lemma TickNoDrain(w: World, w1: World, w2: World)
    requires w1.recs == w.recs && w1.kubes == w.kubes && NoNewDrain(w1, w2)
    ensures NoNewDrain(w, w2)
  {
    assert forall m :: RankOf(w1, m) == RankOf(w, m);
  }

  /** If the controller is on a node being drained, it can be got out of the way. */
  lemma {:induction false} Frees(cfg: Config, r: Run, v: bool) returns (acts: seq<Action>)
    requires Rolling(r.now) && Ready(r.now, v)
    ensures Feasible(cfg, r, acts) && Finds(acts, v)
    ensures var w' := Acts(cfg, r, acts).now;
      RankOf(w', w'.host) != 9 && NoNewDrain(r.now, w') && (v ==> SameWaits(r.now, w'))
  {
    var w := r.now;
    acts := [];
    if RankOf(w, w.host) == 9 {
      assert InStage(w, w.host) && Working(w, w.host);
      if v {
        var m := RoomForAnother(w, w.host);
        acts := MoveAway(cfg, r, m, v);
      } else if m :| m in w.kubes && m != w.host && Usable(w, m) {
        acts := MoveAway(cfg, r, m, v);
      } else {
        acts := HandBackHost(cfg, r, w.host);
      }
    }
  }

  // ---- rounds ----

  lemma {:induction false} ServedLater(cfg: Config, r: Run, acts: seq<Action>, more: seq<Action>, n: string, i: nat)
    requires ReconciledAt(cfg, Acts(cfg, r, acts), more, n, i)
    ensures ReconciledAt(cfg, r, acts + more, n, |acts| + i)
  {
    LaterPrefix(cfg, r, acts, more, i);
  }

  lemma {:induction false} ServedEarlier(cfg: Config, r: Run, acts: seq<Action>, more: seq<Action>, n: string, i: nat)
    requires ReconciledAt(cfg, r, acts, n, i)
    ensures ReconciledAt(cfg, r, acts + more, n, i)
  {
    assert (acts + more)[..i] == acts[..i];
  }

  /** The controller is got out of the way, and `n` is served. */
  lemma {:induction false} ServeOne(cfg: Config, r: Run, n: string, names: seq<string>, v: bool)
    returns (acts: seq<Action>)
    requires Valid(cfg, r) && Rolling(r.now) && Ready(r.now, v)
    requires n in r.now.recs && forall m :: m in names <==> m in r.now.recs
    ensures Feasible(cfg, r, acts) && Finds(acts, v) && exists i :: ReconciledAt(cfg, r, acts, n, i)
    ensures Ready(Acts(cfg, r, acts).now, v) && (v ==> Pursues(cfg, r, Acts(cfg, r, acts)))
  {
    var free := Frees(cfg, r, v);
    WholeRound(cfg, r, free);
    ActsKeepValid(cfg, r, free);
    var service, j := ServeFreely(cfg, Acts(cfg, r, free), n, names, v);
    acts := free + service;
    ServeAfter(cfg, r, free, service, n, j, v);
    StaysReady(cfg, r, free, service, v);
    if v {
      FreeingPursues(cfg, r, free, service);
    }
  }

  lemma {:induction false} FreeingPursues(cfg: Config, r: Run, free: seq<Action>, service: seq<Action>)
    requires SameWaits(r.now, Acts(cfg, r, free).now)
    requires Pursues(cfg, Acts(cfg, r, free), Acts(cfg, Acts(cfg, r, free), service))
    ensures Pursues(cfg, r, Acts(cfg, r, free + service))
  {
    StepsGrow(cfg, r, free);
    SameWaitPursues(cfg, r, Acts(cfg, r, free));
    ActsConcat(cfg, r, free, service);
    PursuesOn(cfg, r, Acts(cfg, r, free), Acts(cfg, r, free + service));
  }

  lemma {:induction false} ServeAfter(cfg: Config, r: Run, free: seq<Action>, service: seq<Action>, n: string,
                                      j: nat, v: bool)
    requires Feasible(cfg, r, free) && Finds(free, v)
    requires Feasible(cfg, Acts(cfg, r, free), service) && Finds(service, v)
    requires ReconciledAt(cfg, Acts(cfg, r, free), service, n, j)
    ensures Feasible(cfg, r, free + service) && Finds(free + service, v)
    ensures ReconciledAt(cfg, r, free + service, n, |free| + j)
  {
    FeasibleConcat(cfg, r, free, service);
    ServedLater(cfg, r, free, service, n, j);
  }

  lemma {:induction false} StaysReady(cfg: Config, r: Run, free: seq<Action>, service: seq<Action>, v: bool)
    requires Valid(cfg, r) && Rolling(r.now) && Ready(r.now, v) && Feasible(cfg, r, free + service)
    requires !v ==> !Trapped(Acts(cfg, Acts(cfg, r, free), service).now)
    ensures Ready(Acts(cfg, r, free + service).now, v)
  {
    if v {
      RoomyForGood(cfg, r, free + service);
    } else {
      ActsConcat(cfg, r, free, service);
    }
  }

  /** The controller is out of the way, and `n` is served. */
  lemma {:induction false} ServeFreely(cfg: Config, r: Run, n: string, names: seq<string>, v: bool)
    returns (acts: seq<Action>, i: nat)
    requires Valid(cfg, r) && Rolling(r.now) && RankOf(r.now, r.now.host) != 9
    requires n in r.now.recs && forall m :: m in names <==> m in r.now.recs
    ensures Feasible(cfg, r, acts) && Finds(acts, v) && ReconciledAt(cfg, r, acts, n, i)
    ensures if v then Pursues(cfg, r, Acts(cfg, r, acts)) else !Trapped(Acts(cfg, r, acts).now)
  {
    acts := Service(cfg, r.now, n, names, v);
    ServiceIsFeasible(cfg, r, n, names, v);
    i := ServiceServes(cfg, r, n, names, v);
    if !v {
      StillFree(r.now, Acts(cfg, r, acts).now);
    }
  }

  lemma StillFree(w: World, w': World)
    requires RankOf(w, w.host) != 9 && NoNewDrain(w, w') && w'.host == w.host
    ensures !Trapped(w')
  {
  }

  /** `acts` serves every node of `done` from `r` on. */
  ghost predicate Serves(cfg: Config, r: Run, acts: seq<Action>, done: seq<string>, v: bool) {
    && Feasible(cfg, r, acts) && Finds(acts, v) && Ready(Acts(cfg, r, acts).now, v)
    && (v ==> Pursues(cfg, r, Acts(cfg, r, acts)))
    && forall n :: n in done ==> exists i :: ReconciledAt(cfg, r, acts, n, i)
  }

  lemma {:induction false} ServeOneMore(cfg: Config, r: Run, acts: seq<Action>, done: seq<string>, n: string,
                                        more: seq<Action>, i: nat, v: bool)
    requires Serves(cfg, r, acts, done, v) && ReconciledAt(cfg, Acts(cfg, r, acts), more, n, i)
    requires Feasible(cfg, Acts(cfg, r, acts), more) && Finds(more, v)
    requires Ready(Acts(cfg, Acts(cfg, r, acts), more).now, v)
    requires v ==> Pursues(cfg, Acts(cfg, r, acts), Acts(cfg, Acts(cfg, r, acts), more))
    ensures Serves(cfg, r, acts + more, done + [n], v)
  {
    var all := acts + more;
    FeasibleConcat(cfg, r, acts, more);
    ActsConcat(cfg, r, acts, more);
    if v {
      PursuesOn(cfg, r, Acts(cfg, r, acts), Acts(cfg, r, all));
    }
    forall m | m in done + [n] ensures exists j :: ReconciledAt(cfg, r, all, m, j) {
      if m in done {
        var j :| ReconciledAt(cfg, r, acts, m, j);
        ServedEarlier(cfg, r, acts, more, m, j);
      } else {
        ServedLater(cfg, r, acts, more, n, i);
      }
    }
  }

  lemma {:induction false} ServesSome(cfg: Config, r: Run, names: seq<string>, k: nat, v: bool)
    returns (acts: seq<Action>)
    requires Valid(cfg, r) && Rolling(r.now) && Ready(r.now, v)
    requires k <= |names| && forall m :: m in names <==> m in r.now.recs
    ensures Serves(cfg, r, acts, names[..k], v)
  {
    if k == 0 {
      acts := [];
      assert forall i :: InsideAt(cfg, r, acts, i);
    } else {
      var before := ServesSome(cfg, r, names, k - 1, v);
      WholeRound(cfg, r, before);
      ActsKeepValid(cfg, r, before);
      var r1 := Acts(cfg, r, before);
      assert names[k - 1] in r1.now.recs && names[..k] == names[..k - 1] + [names[k - 1]];
      var more := ServeOne(cfg, r1, names[k - 1], names, v);
      var i :| ReconciledAt(cfg, r1, more, names[k - 1], i);
      ServeOneMore(cfg, r, before, names[..k - 1], names[k - 1], more, i, v);
      acts := before + more;
    }
  }

  /** A controller that is not trapped has a fair round; and one whose checks all find a reboot
      required, if the cluster has room. */
  lemma {:induction false} FairRoundExists(cfg: Config, r: Run, names: seq<string>, v: bool) returns (acts: seq<Action>)
    requires Valid(cfg, r) && Rolling(r.now) && Ready(r.now, v) && forall m :: m in names <==> m in r.now.recs
    ensures FairRound(cfg, r, acts) && Finds(acts, v) && Ready(Acts(cfg, r, acts).now, v)
    ensures v ==> Pursues(cfg, r, Acts(cfg, r, acts))
  {
    acts := ServesSome(cfg, r, names, |names|, v);
    assert names[..|names|] == names;
  }

  /** A fair round exists if and only if the controller is not trapped. */
  lemma {:induction false} FairRoundIffNotTrapped(cfg: Config, r: Run, names: seq<string>)
    requires Valid(cfg, r) && Rolling(r.now) && forall m :: m in names <==> m in r.now.recs
    ensures (exists acts :: FairRound(cfg, r, acts)) <==> !Trapped(r.now)
  {
    if Trapped(r.now) {
      forall acts ensures !FairRound(cfg, r, acts) {
        TrappedIsUnfair(cfg, r, acts);
      }
    } else {
      var acts := FairRoundExists(cfg, r, names, false);
    }
  }

  // ---- finishing ----

  /** Each round is feasible where it starts. */
  ghost predicate FeasibleRounds(cfg: Config, r: Run, rounds: seq<seq<Action>>) {
    forall i :: 0 <= i < |rounds| ==> Feasible(cfg, Rounds(cfg, r, rounds[..i]), rounds[i])
  }

  predicate AllFind(rounds: seq<seq<Action>>, v: bool) {
    forall i :: 0 <= i < |rounds| ==> Finds(rounds[i], v)
  }

  ghost predicate AllDone(w: World) {
    forall n :: n in w.recs ==> Idle(w, n) && w.recs[n].spec.WantActive?
  }

  lemma {:induction false} FairRoundsExist(cfg: Config, r: Run, names: seq<string>, k: nat, v: bool)
    returns (rounds: seq<seq<Action>>)
    requires Valid(cfg, r) && Rolling(r.now) && Ready(r.now, v) && forall m :: m in names <==> m in r.now.recs
    ensures |rounds| == k && FairRounds(cfg, r, rounds) && FeasibleRounds(cfg, r, rounds)
    ensures AllFind(rounds, v) && Ready(Rounds(cfg, r, rounds).now, v)
    ensures v ==> Pursues(cfg, r, Rounds(cfg, r, rounds))
  {
    if k == 0 {
      rounds := [];
    } else {
      var before := FairRoundsExist(cfg, r, names, k - 1, v);
      RoundsLowerTotal(cfg, r, before, names);
      var last := FairRoundExists(cfg, Rounds(cfg, r, before), names, v);
      OneMoreRound(cfg, r, before, last, v);
      rounds := before + [last];
      if v {
        PursuesOn(cfg, r, Rounds(cfg, r, before), Rounds(cfg, r, rounds));
      }
    }
  }

  lemma {:induction false} OneMoreRound(cfg: Config, r: Run, before: seq<seq<Action>>, last: seq<Action>, v: bool)
    requires FairRounds(cfg, r, before) && FeasibleRounds(cfg, r, before) && AllFind(before, v)
    requires FairRound(cfg, Rounds(cfg, r, before), last) && Finds(last, v)
    ensures var rounds := before + [last];
      && FairRounds(cfg, r, rounds) && FeasibleRounds(cfg, r, rounds) && AllFind(rounds, v)
      && Rounds(cfg, r, rounds) == Acts(cfg, Rounds(cfg, r, before), last)
  {
    var rounds := before + [last];
    assert rounds[..|before|] == before;
    forall i | 0 <= i < |rounds|
      ensures Covers(cfg, Rounds(cfg, r, rounds[..i]), rounds[i])
      ensures Feasible(cfg, Rounds(cfg, r, rounds[..i]), rounds[i])
    {
      if i < |before| {
        assert rounds[..i] == before[..i] && rounds[i] == before[i];
      }
    }
  }

  /** From every point of a rolling reboot where the controller is not trapped, fair rounds bring
      every node back to Active, OK, schedulable and undrained; in a cluster with room also when
      every reboot-required check finds a reboot required, and then every node that waited for its
      reboot, in the queue or in its turn, has had it issued on the way. */
  lemma {:induction false} RollingRebootCanFinish(cfg: Config, r: Run, names: seq<string>, v: bool)
    returns (rounds: seq<seq<Action>>)
    requires Valid(cfg, r) && Rolling(r.now) && Ready(r.now, v) && forall m :: m in names <==> m in r.now.recs
    ensures FairRounds(cfg, r, rounds) && FeasibleRounds(cfg, r, rounds)
    ensures AllFind(rounds, v) && AllDone(Rounds(cfg, r, rounds).now)
    ensures v ==> forall n :: n in r.now.recs && Waits(r.now, n) ==>
      RebootIssued(cfg, Rounds(cfg, r, rounds), n, |r.steps|)
  {
    rounds := FairRoundsExist(cfg, r, names, 13 * |names|, v);
    RollingRebootTerminates(cfg, r, rounds, names);
    if v {
      DoneMeansIssued(cfg, r, Rounds(cfg, r, rounds));
    }
  }

  lemma DoneMeansIssued(cfg: Config, r: Run, r': Run)
    requires Pursues(cfg, r, r') && AllDone(r'.now)
    ensures forall n :: n in r.now.recs && Waits(r.now, n) ==> RebootIssued(cfg, r', n, |r.steps|)
  {
    assert forall n :: n in r'.now.recs ==> !Waits(r'.now, n);
  }

  lemma {:induction false} TrappedRounds(cfg: Config, r: Run, rounds: seq<seq<Action>>)
    requires Valid(cfg, r) && Rolling(r.now) && Trapped(r.now) && FeasibleRounds(cfg, r, rounds)
    ensures var r' := Rounds(cfg, r, rounds); Valid(cfg, r') && Rolling(r'.now) && Trapped(r'.now)
  {
    if rounds != [] {
      var before, last := rounds[..|rounds| - 1], rounds[|rounds| - 1];
      assert forall i :: 0 <= i < |before| ==> before[..i] == rounds[..i] && before[i] == rounds[i];
      TrappedRounds(cfg, r, before);
      var r1 := Rounds(cfg, r, before);
      TrappedForGood(cfg, r1, last);
      WholeRound(cfg, r1, last);
      ActsKeepValid(cfg, r1, last);
    }
  }

  lemma TrappedIsNotDone(w: World)
    requires Rolling(w) && Trapped(w)
    ensures !AllDone(w)
  {
    assert w.host in w.recs && RankOf(w, w.host) == 9;
  }

  /** A rolling reboot can be finished by a controller that stays in the cluster if and only if it
      is not trapped. */
  lemma {:induction false} FinishesIffNotTrapped(cfg: Config, r: Run, names: seq<string>)
    requires Valid(cfg, r) && Rolling(r.now) && forall m :: m in names <==> m in r.now.recs
    ensures (exists rounds :: FeasibleRounds(cfg, r, rounds) && AllDone(Rounds(cfg, r, rounds).now))
            <==> !Trapped(r.now)
  {
    if Trapped(r.now) {
      forall rounds | FeasibleRounds(cfg, r, rounds) ensures !AllDone(Rounds(cfg, r, rounds).now) {
        TrappedRounds(cfg, r, rounds);
        TrappedIsNotDone(Rounds(cfg, r, rounds).now);
      }
    } else {
      var rounds := RollingRebootCanFinish(cfg, r, names, false);
    }
  }
}
