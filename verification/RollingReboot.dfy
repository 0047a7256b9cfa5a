/** A rolling reboot of any number of nodes terminates, whatever fails on the way. */
module RollingReboot {
  import opened NodeTypes
  import opened World
  import opened Protocol
  import opened Safety
  import opened Reconcile
  import opened Convergence
  import opened Stages

  // ---- every action ----

  /** A reconcile of any node that fails anywhere, or a tolerated event. */
  predicate RollingAction(act: Action) {
    act.Happens? ==> Tolerated(act.ev)
  }

  /** No node moves back, and one that is smoothly reconciled moves on if it can. */
  predicate Moves(cfg: Config, w: World, w': World, act: Action) {
    && RanksFall(w, w')
    && (Smooth(cfg, act) && CanAdvance(cfg, w, act.node) ==> RankOf(w', act.node) < RankOf(w, act.node))
  }

  /** Every reconcile, wherever it fails, and every tolerated event keeps the rolling reboot
      going and moves no node back; a smooth one moves its node on if it can advance. */
  lemma RollingStep(cfg: Config, r: Run, act: Action)
    requires Valid(cfg, r) && Rolling(r.now) && RollingAction(act)
    ensures Valid(cfg, Act(cfg, r, act)) && Rolling(Act(cfg, r, act).now)
    ensures Moves(cfg, r.now, Act(cfg, r, act).now, act)
  {
    match act
    case Happens(e) =>
      ExtendValid(cfg, r, e);
      OutsideRollsOn(r.now, e);
    case Reconciles(n, a, fuel) =>
      var s := Sim(r, fuel, false);
      var s' := Reconcile.Reconcile(cfg, s, n, a);
      ReconcileIsAllowed(cfg, s, n, a);
      ControllerRollsOn(cfg, s'.run, |r.steps|, |s'.run.steps|);
      if Smooth(cfg, act) && CanAdvance(cfg, r.now, n) {
        var k := StageEnds(cfg, s, n, a);
        AdvanceLowers(cfg, r.now, n, a, k);
      }
  }

  // ---- rounds ----

  /** The summed rank of the nodes. */
  function Total(w: World, names: seq<string>): nat {
    if names == [] then 0 else Total(w, names[..|names| - 1]) + RankOf(w, names[|names| - 1])
  }

  lemma {:induction false} TotalFalls(w: World, w': World, names: seq<string>)
    requires forall n :: n in names ==> RankOf(w', n) <= RankOf(w, n)
    ensures Total(w', names) <= Total(w, names)
    ensures (exists n :: n in names && RankOf(w', n) < RankOf(w, n)) ==> Total(w', names) < Total(w, names)
  {
    if names != [] {
      assert names == names[..|names| - 1] + [names[|names| - 1]];
      TotalFalls(w, w', names[..|names| - 1]);
    }
  }

  lemma {:induction false} TotalZero(w: World, names: seq<string>)
    ensures Total(w, names) == 0 <==> forall n :: n in names ==> RankOf(w, n) == 0
  {
    if names != [] {
      assert names == names[..|names| - 1] + [names[|names| - 1]];
      TotalZero(w, names[..|names| - 1]);
    }
  }

  lemma OneMoreTime(bound: nat, k: nat)
    ensures bound * (k + 1) == bound * k + bound
  {
  }

  lemma {:induction false} TotalBound(w: World, names: seq<string>, bound: nat)
    requires forall n :: n in names ==> RankOf(w, n) <= bound
    ensures Total(w, names) <= bound * |names|
  {
    if names != [] {
      var init := names[..|names| - 1];
      assert names == init + [names[|names| - 1]];
      TotalBound(w, init, bound);
      OneMoreTime(bound, |init|);
    }
  }

  predicate Tolerable(acts: seq<Action>) {
    forall i :: 0 <= i < |acts| ==> RollingAction(acts[i])
  }

  /** In the course of `acts` every node is once smoothly reconciled while it is not blocked. */
  ghost predicate Covers(cfg: Config, r: Run, acts: seq<Action>) {
    forall n :: n in r.now.recs ==> exists i :: ReconciledAt(cfg, r, acts, n, i)
  }

  ghost predicate ReconciledAt(cfg: Config, r: Run, acts: seq<Action>, n: string, i: int) {
    0 <= i < |acts| && Smooth(cfg, acts[i]) && acts[i].node == n && !Blocked(cfg, Acts(cfg, r, acts[..i]).now, n)
  }

  lemma {:induction false} RollingActs(cfg: Config, r: Run, acts: seq<Action>, i: int)
    requires Valid(cfg, r) && Rolling(r.now) && Tolerable(acts) && 0 <= i <= |acts|
    ensures Valid(cfg, Acts(cfg, r, acts[..i])) && Rolling(Acts(cfg, r, acts[..i]).now)
  {
    if i == 0 {
      assert acts[..0] == [];
    } else {
      RollingActs(cfg, r, acts, i - 1);
      assert acts[..i][..i - 1] == acts[..i - 1];
      RollingStep(cfg, Acts(cfg, r, acts[..i - 1]), acts[i - 1]);
    }
  }

  /** From the `k`-th to the next state of a round, the `k`-th action moves nobody back. */
  predicate MovesAt(cfg: Config, ws: seq<World>, acts: seq<Action>, k: int)
    requires |ws| == |acts| + 1
  {
    0 <= k < |acts| ==> Moves(cfg, ws[k], ws[k + 1], acts[k])
  }

  /** The states met in the course of a round. */
  lemma {:induction false} RoundWorlds(cfg: Config, r: Run, acts: seq<Action>) returns (ws: seq<World>)
    requires Valid(cfg, r) && Rolling(r.now) && Tolerable(acts)
    ensures |ws| == |acts| + 1 && forall i :: 0 <= i <= |acts| ==> ws[i] == Acts(cfg, r, acts[..i]).now
    ensures forall i :: 0 <= i <= |acts| ==> Rolling(ws[i])
    ensures forall i :: MovesAt(cfg, ws, acts, i)
  {
    ws := seq(|acts| + 1, i requires 0 <= i <= |acts| => Acts(cfg, r, acts[..i]).now);
    forall i | 0 <= i <= |acts| ensures Rolling(ws[i]) {
      RollingActs(cfg, r, acts, i);
    }
    forall i ensures MovesAt(cfg, ws, acts, i) {
      if 0 <= i < |acts| {
        RollingActs(cfg, r, acts, i);
        assert acts[..i + 1][..i] == acts[..i];
        RollingStep(cfg, Acts(cfg, r, acts[..i]), acts[i]);
      }
    }
  }

  lemma {:induction false} RanksFallLater(cfg: Config, ws: seq<World>, acts: seq<Action>, i: int, j: int)
    requires |ws| == |acts| + 1 && 0 <= i <= j <= |acts|
    requires forall k :: MovesAt(cfg, ws, acts, k)
    ensures RanksFall(ws[i], ws[j])
  {
    if j > i {
      RanksFallLater(cfg, ws, acts, i, j - 1);
      assert MovesAt(cfg, ws, acts, j - 1);
    }
  }

  /** While anybody is left, some node can advance unless it is blocked itself. */
  lemma {:induction false} SomebodyIsNext(cfg: Config, w: World, names: seq<string>) returns (n: string)
    requires Rolling(w) && Total(w, names) > 0 && forall m :: m in names <==> m in w.recs
    ensures n in w.recs && RankOf(w, n) > 0
    ensures w.recs[n].cs.Work() || NobodyWorks(w)
    ensures CanAdvance(cfg, w, n) || Blocked(cfg, w, n)
  {
    if m :| m in w.recs && w.recs[m].cs.Work() {
      n := m;
      assert InStage(w, m);
    } else {
      TotalZero(w, names);
      n :| n in w.recs && RankOf(w, n) != 0;
      assert InStage(w, n);
    }
  }

  lemma WorksByRank(w: World, m: string)
    requires InStage(w, m)
    ensures w.recs[m].cs.Work() <==> 4 <= RankOf(w, m) <= 10 || RankOf(w, m) == 13
  {
  }

  /** Unchanged ranks leave the same nodes in their turns. */
  lemma SameRanksSameTurns(w: World, w': World)
    requires Rolling(w) && Rolling(w') && w'.recs.Keys == w.recs.Keys
    requires forall m :: m in w.recs ==> RankOf(w', m) == RankOf(w, m)
    ensures NobodyWorks(w') <==> NobodyWorks(w)
  {
    forall m | m in w.recs ensures w'.recs[m].cs.Work() <==> w.recs[m].cs.Work() {
      WorksByRank(w, m);
      WorksByRank(w', m);
    }
  }

  lemma StillAdvances(cfg: Config, w: World, w1: World, n: string)
    requires InStage(w, n) && InStage(w1, n) && RankOf(w1, n) == RankOf(w, n) > 0
    requires w.recs[n].cs.Work() || NobodyWorks(w1)
    requires !Blocked(cfg, w1, n)
    ensures CanAdvance(cfg, w1, n)
  {
  }

  /** If nobody has moved from `w` to `w1`, then `n` can advance there. */
  lemma MovedOrAdvances(cfg: Config, w: World, w1: World, n: string) returns (m: string)
    requires Rolling(w) && Rolling(w1) && RanksFall(w, w1)
    requires n in w.recs && RankOf(w, n) > 0 && (w.recs[n].cs.Work() || NobodyWorks(w))
    requires !Blocked(cfg, w1, n)
    ensures m in w.recs && (RankOf(w1, m) < RankOf(w, m) || (m == n && CanAdvance(cfg, w1, n)))
  {
    if x :| x in w.recs && RankOf(w1, x) != RankOf(w, x) {
      m := x;
    } else {
      SameRanksSameTurns(w, w1);
      StillAdvances(cfg, w, w1, n);
      m := n;
    }
  }

  lemma StrictlyFalls(cfg: Config, w: World, w1: World, w2: World, w3: World, act: Action, m: string)
    requires RanksFall(w, w1) && Moves(cfg, w1, w2, act) && RanksFall(w2, w3) && m in w.recs
    requires RankOf(w1, m) < RankOf(w, m) || (Smooth(cfg, act) && act.node == m && CanAdvance(cfg, w1, m))
    ensures RankOf(w3, m) < RankOf(w, m)
  {
    assert RankOf(w3, m) <= RankOf(w2, m) <= RankOf(w1, m) <= RankOf(w, m);
  }

  /** The states before and after the `i`-th action of a round, and at its end. */
  lemma {:induction false} RoundPieces(cfg: Config, r: Run, acts: seq<Action>, i: int)
    returns (w1: World, w2: World, w3: World)
    requires Valid(cfg, r) && Rolling(r.now) && Tolerable(acts) && 0 <= i < |acts|
    ensures w1 == Acts(cfg, r, acts[..i]).now && w3 == Acts(cfg, r, acts).now
    ensures Rolling(w1)
    ensures RanksFall(r.now, w1) && Moves(cfg, w1, w2, acts[i]) && RanksFall(w2, w3)
  {
    var ws := RoundWorlds(cfg, r, acts);
    assert acts[..0] == [] && acts[..|acts|] == acts;
    RanksFallLater(cfg, ws, acts, 0, i);
    RanksFallLater(cfg, ws, acts, i + 1, |acts|);
    assert MovesAt(cfg, ws, acts, i);
    w1, w2, w3 := ws[i], ws[i + 1], ws[|acts|];
  }

  lemma {:induction false} WholeRound(cfg: Config, r: Run, acts: seq<Action>)
    requires Valid(cfg, r) && Rolling(r.now) && Tolerable(acts)
    ensures Rolling(Acts(cfg, r, acts).now) && RanksFall(r.now, Acts(cfg, r, acts).now)
  {
    var ws := RoundWorlds(cfg, r, acts);
    assert acts[..0] == [] && acts[..|acts|] == acts;
    RanksFallLater(cfg, ws, acts, 0, |acts|);
  }

  /** A round that covers every node lowers the summed rank, unless it is zero already. */
  lemma {:induction false} RoundLowersTotal(cfg: Config, r: Run, acts: seq<Action>, names: seq<string>)
    requires Valid(cfg, r) && Rolling(r.now) && Tolerable(acts) && Covers(cfg, r, acts)
    requires forall m :: m in names <==> m in r.now.recs
    ensures var w, w' := r.now, Acts(cfg, r, acts).now;
      Rolling(w') && w'.recs.Keys == w.recs.Keys && (Total(w', names) < Total(w, names) || Total(w', names) == 0)
  {
    WholeRound(cfg, r, acts);
    if Total(r.now, names) > 0 {
      var n := SomebodyIsNext(cfg, r.now, names);
      var i :| ReconciledAt(cfg, r, acts, n, i);
      var w1, w2, w3 := RoundPieces(cfg, r, acts, i);
      var m := MovedOrAdvances(cfg, r.now, w1, n);
      StrictlyFalls(cfg, r.now, w1, w2, w3, acts[i], m);
    }
    TotalFalls(r.now, Acts(cfg, r, acts).now, names);
  }

  function Rounds(cfg: Config, r: Run, rounds: seq<seq<Action>>): Run {
    if rounds == [] then r
    else Acts(cfg, Rounds(cfg, r, rounds[..|rounds| - 1]), rounds[|rounds| - 1])
  }

  /** Each round is tolerable and covers every node, where it starts. */
  ghost predicate FairRounds(cfg: Config, r: Run, rounds: seq<seq<Action>>) {
    forall i :: 0 <= i < |rounds| ==>
      var r' := Rounds(cfg, r, rounds[..i]);
      Tolerable(rounds[i]) && Covers(cfg, r', rounds[i])
  }

  lemma {:induction false} RoundsLowerTotal(cfg: Config, r: Run, rounds: seq<seq<Action>>, names: seq<string>)
    requires Valid(cfg, r) && Rolling(r.now) && FairRounds(cfg, r, rounds)
    requires forall m :: m in names <==> m in r.now.recs
    ensures var w, w' := r.now, Rounds(cfg, r, rounds).now;
      && Valid(cfg, Rounds(cfg, r, rounds)) && Rolling(w') && w'.recs.Keys == w.recs.Keys
      && (Total(w', names) + |rounds| <= Total(w, names) || Total(w', names) == 0)
  {
    if rounds != [] {
      var before, last := rounds[..|rounds| - 1], rounds[|rounds| - 1];
      assert forall i :: 0 <= i < |before| ==> before[..i] == rounds[..i] && before[i] == rounds[i];
      RoundsLowerTotal(cfg, r, before, names);
      RoundLowersTotal(cfg, Rounds(cfg, r, before), last, names);
      ActsKeepValid(cfg, Rounds(cfg, r, before), last);
    }
  }

  lemma {:induction false} EndsIdle(w: World, names: seq<string>)
    requires Rolling(w) && Total(w, names) == 0 && forall m :: m in names <==> m in w.recs
    ensures forall n :: n in names ==> Idle(w, n) && w.recs[n].spec.WantActive?
  {
    TotalZero(w, names);
    forall n | n in names ensures Idle(w, n) && w.recs[n].spec.WantActive? {
      assert InStage(w, n) && RankOf(w, n) == 0;
    }
  }

  /** Fair rounds as many as the summed rank bring every node back to Active, OK, schedulable and
      undrained. */
  lemma {:induction false} RoundsFinish(cfg: Config, r: Run, rounds: seq<seq<Action>>, names: seq<string>)
    requires forall m :: m in names <==> m in r.now.recs
    requires Valid(cfg, r) && Rolling(r.now)
    requires FairRounds(cfg, r, rounds) && |rounds| >= Total(r.now, names)
    ensures var w := Rounds(cfg, r, rounds).now;
      && w.recs.Keys == r.now.recs.Keys
      && forall n :: n in names ==> Idle(w, n) && w.recs[n].spec.WantActive?
  {
    RoundsLowerTotal(cfg, r, rounds, names);
    EndsIdle(Rounds(cfg, r, rounds).now, names);
  }

  /** A rolling reboot of any number of nodes, caught at any point of it, ends: after at most
      thirteen rounds per node every node is back to Active, OK, schedulable and undrained. A round
      is any sequence of reconciles, failing anywhere, and of tolerated events, in which every node
      is once smoothly reconciled while it is not blocked. */
  lemma {:induction false} RollingRebootTerminates(cfg: Config, r: Run, rounds: seq<seq<Action>>, names: seq<string>)
    requires forall m :: m in names <==> m in r.now.recs
    requires Valid(cfg, r) && Rolling(r.now)
    requires FairRounds(cfg, r, rounds) && |rounds| >= 13 * |names|
    ensures var w := Rounds(cfg, r, rounds).now;
      && w.recs.Keys == r.now.recs.Keys
      && forall n :: n in names ==> Idle(w, n) && w.recs[n].spec.WantActive?
  {
    assert forall n :: n in names ==> InStage(r.now, n);
    TotalBound(r.now, names, 13);
    RoundsFinish(cfg, r, rounds, names);
  }

  /** Undrained OK nodes that are all asked to reboot if required. */
  predicate AllAskedToReboot(w: World) {
    && w.recs.Keys == w.kubes.Keys
    && forall n :: n in w.recs ==>
         && Managed(w, n) && !w.kubes[n].manager.Foreign?
         && w.recs[n].spec.WantReboot? && w.recs[n].cs.OK? && !w.recs[n].drained
  }

  lemma StartsRolling(w: World)
    requires AllAskedToReboot(w)
    ensures Rolling(w) && forall n :: n in w.recs ==> RankOf(w, n) == 12
  {
  }

  /** A cluster of undrained OK nodes that are all asked to reboot is done after twelve fair rounds
      per node, from any such state. */
  lemma {:induction false} AskedNodesFinish(cfg: Config, w: World, rounds: seq<seq<Action>>, names: seq<string>)
    requires AllAskedToReboot(w) && forall m :: m in names <==> m in w.recs
    requires FairRounds(cfg, Run([], w), rounds) && |rounds| >= 12 * |names|
    ensures var w' := Rounds(cfg, Run([], w), rounds).now;
      && w'.recs.Keys == w.recs.Keys
      && forall n :: n in names ==> Idle(w', n) && w'.recs[n].spec.WantActive?
  {
    StartsRolling(w);
    TotalBound(w, names, 12);
    RoundsFinish(cfg, Run([], w), rounds, names);
  }
}
