/** A controller that runs in the cluster it drains: when its own pod has nowhere to go, a rolling
    reboot is trapped for good, and when the cluster has room, it never is. */
module Trap {
  import opened NodeTypes
  import opened Plugins
  import opened World
  import opened Protocol
  import opened Safety
  import opened Reconcile
  import opened Convergence
  import opened Stages
  import opened RollingReboot

  // ---- schedules of a controller in the cluster ----

  /** Where the pod of the controller can be scheduled: on a present node that is not cordoned. */
  predicate CanHost(w: World, m: string) {
    m in w.kubes && !w.kubes[m].unsched
  }

  predicate MovesInside(w: World, act: Action) {
    act.Happens? && act.ev.ControllerMoves? ==> CanHost(w, act.ev.node)
  }

  ghost predicate InsideAt(cfg: Config, r: Run, acts: seq<Action>, i: int) {
    0 <= i < |acts| ==> MovesInside(Acts(cfg, r, acts[..i]).now, acts[i])
  }

  /** Tolerated actions in which the controller only moves to nodes that can host it. */
  ghost predicate Feasible(cfg: Config, r: Run, acts: seq<Action>) {
    Tolerable(acts) && forall i :: InsideAt(cfg, r, acts, i)
  }

  ghost predicate FairRound(cfg: Config, r: Run, acts: seq<Action>) {
    Feasible(cfg, r, acts) && Covers(cfg, r, acts)
  }

  /** Every reboot-required check of `acts` finds `v`. */
  predicate Finds(acts: seq<Action>, v: bool) {
    forall i :: 0 <= i < |acts| && acts[i].Reconciles? ==> acts[i].answers.verdict == v
  }

  lemma {:induction false} ActsConcat(cfg: Config, r: Run, acts: seq<Action>, more: seq<Action>)
    ensures Acts(cfg, r, acts + more) == Acts(cfg, Acts(cfg, r, acts), more)
  {
    if more == [] {
      assert acts + more == acts;
    } else {
      var init, last := more[..|more| - 1], more[|more| - 1];
      assert more == init + [last];
      assert acts + more == (acts + init) + [last];
      calc {
        Acts(cfg, r, (acts + init) + [last]);
        { ActsOneMore(cfg, r, acts + init, last); }
        Act(cfg, Acts(cfg, r, acts + init), last);
        { ActsConcat(cfg, r, acts, init); }
        Act(cfg, Acts(cfg, Acts(cfg, r, acts), init), last);
        { ActsOneMore(cfg, Acts(cfg, r, acts), init, last); }
        Acts(cfg, Acts(cfg, r, acts), init + [last]);
      }
    }
  }

  /** The state before the `i`-th of some later actions. */
  lemma {:induction false} LaterPrefix(cfg: Config, r: Run, acts: seq<Action>, more: seq<Action>, i: nat)
    requires i <= |more|
    ensures Acts(cfg, r, (acts + more)[..|acts| + i]) == Acts(cfg, Acts(cfg, r, acts), more[..i])
  {
    assert (acts + more)[..|acts| + i] == acts + more[..i];
    ActsConcat(cfg, r, acts, more[..i]);
  }

  lemma TolerableConcat(acts: seq<Action>, more: seq<Action>)
    requires Tolerable(acts) && Tolerable(more)
    ensures Tolerable(acts + more)
  {
  }

  lemma {:induction false} InsideEarlier(cfg: Config, r: Run, acts: seq<Action>, more: seq<Action>, i: nat)
    requires i < |acts| && InsideAt(cfg, r, acts, i)
    ensures InsideAt(cfg, r, acts + more, i)
  {
    assert (acts + more)[..i] == acts[..i];
  }

  lemma {:induction false} FeasibleConcat(cfg: Config, r: Run, acts: seq<Action>, more: seq<Action>)
    requires Feasible(cfg, r, acts) && Feasible(cfg, Acts(cfg, r, acts), more)
    ensures Feasible(cfg, r, acts + more)
  {
    TolerableConcat(acts, more);
    forall i ensures InsideAt(cfg, r, acts + more, i) {
      if 0 <= i < |acts| {
        InsideEarlier(cfg, r, acts, more, i);
      } else if |acts| <= i < |acts + more| {
        InsideLater(cfg, r, acts, more, i - |acts|);
      }
    }
  }

  lemma {:induction false} InsideLater(cfg: Config, r: Run, acts: seq<Action>, more: seq<Action>, i: nat)
    requires i < |more| && InsideAt(cfg, Acts(cfg, r, acts), more, i)
    ensures InsideAt(cfg, r, acts + more, |acts| + i)
  {
    LaterPrefix(cfg, r, acts, more, i);
    assert (acts + more)[|acts| + i] == more[i];
  }

  lemma {:induction false} FeasiblePrefix(cfg: Config, r: Run, acts: seq<Action>, i: nat)
    requires Feasible(cfg, r, acts) && i <= |acts|
    ensures Feasible(cfg, r, acts[..i])
  {
    forall j ensures InsideAt(cfg, r, acts[..i], j) {
      if 0 <= j < i {
        assert InsideAt(cfg, r, acts, j) && acts[..i][..j] == acts[..j];
      }
    }
  }

  /** The last of some feasible actions, and the state that it starts from. */
  lemma {:induction false} LastFeasible(cfg: Config, r: Run, acts: seq<Action>)
    requires Valid(cfg, r) && Rolling(r.now) && Feasible(cfg, r, acts) && acts != []
    ensures var init, last := acts[..|acts| - 1], acts[|acts| - 1]; var r' := Acts(cfg, r, init);
      && Feasible(cfg, r, init) && Valid(cfg, r') && Rolling(r'.now)
      && RollingAction(last) && MovesInside(r'.now, last) && Acts(cfg, r, acts) == Act(cfg, r', last)
  {
    var init, last := acts[..|acts| - 1], acts[|acts| - 1];
    FeasiblePrefix(cfg, r, acts, |acts| - 1);
    WholeRound(cfg, r, init);
    ActsKeepValid(cfg, r, init);
    assert InsideAt(cfg, r, acts, |acts| - 1) && acts == init + [last];
    ActsOneMore(cfg, r, init, last);
  }

  lemma {:induction false} OneFeasible(cfg: Config, r: Run, act: Action)
    requires RollingAction(act) && MovesInside(r.now, act)
    ensures Feasible(cfg, r, [act]) && Acts(cfg, r, [act]) == Act(cfg, r, act)
  {
    assert [] + [act] == [act] && [act][..0] == [];
    ActsOneMore(cfg, r, [], act);
  }

  // ---- the trap ----

  /** A node that can take the controller: it is schedulable, or a reconcile makes it so. */
  predicate Usable(w: World, m: string) {
    Present(w, m) && (!w.kubes[m].unsched || w.recs[m].spec.WantActive?)
  }

  /** The controller runs on the node that it has begun to drain, and every other node is cordoned
      and waits for its own reboot. A node at Drained is not meant: its verdict is looked at again. */
  predicate Trapped(w: World) {
    && Present(w, w.host) && RankOf(w, w.host) == 9 && !w.recs[w.host].cs.Drained?
    && forall m :: m in w.kubes && m != w.host ==> !Usable(w, m)
  }

  /** Nothing that the controller may do to its host gets it on. */
  lemma TrappedHost(cfg: Config, r: Run, k: int)
    requires Valid(cfg, r) && 0 <= k < |r.steps| && Rolling(r.At(k)) && Trapped(r.At(k))
    requires !r.Ev(k).Outside() && r.Ev(k).node == r.At(k).host
    ensures var w, w' := r.At(k), r.At(k + 1);
      Present(w', w.host) && RankOf(w', w.host) == 9 && w'.recs[w.host].cs == w.recs[w.host].cs
  {
    var n := r.At(k).host;
    assert InStage(r.At(k), n);
    NotJustEvicted(cfg, r, k, n);
    NotJustCleared(cfg, r, k, n);
    assert StepOk(cfg, r, k);
  }

  lemma NotJustEvicted(cfg: Config, r: Run, k: int, n: string)
    requires Valid(cfg, r) && 0 <= k <= |r.steps| && r.At(k).host == n
    ensures r.Before(k, 1) != Some(Evict(n))
  {
    if k > 0 {
      assert StepOk(cfg, r, k - 1);
    }
  }

  lemma NotJustCleared(cfg: Config, r: Run, k: int, n: string)
    requires Valid(cfg, r) && 0 <= k <= |r.steps| && InStage(r.At(k), n) && RankOf(r.At(k), n) == 9
    ensures r.Before(k, 1).Some? && r.Before(k, 1).value.Rebooted? ==> r.Before(k, 1).value.node != n
  {
    if k > 0 {
      assert StepOk(cfg, r, k - 1);
    }
  }

  /** Nothing that the controller may do to another node makes that one usable. */
  lemma TrappedOther(cfg: Config, r: Run, k: int)
    requires Valid(cfg, r) && 0 <= k < |r.steps| && Rolling(r.At(k)) && Trapped(r.At(k))
    requires !r.Ev(k).Outside() && r.Ev(k).node != r.At(k).host
    ensures !Usable(r.At(k + 1), r.Ev(k).node)
  {
    var w, m := r.At(k), r.Ev(k).node;
    assert StepOk(cfg, r, k);
    assert InStage(w, w.host) && Working(w, w.host);
    if m in w.recs {
      assert InStage(w, m) && !Working(w, m) && !Usable(w, m);
    }
  }

  lemma TrappedLocally(w: World, w': World, n: string)
    requires Rolling(w) && Trapped(w) && w'.host == w.host && n in w.recs && Present(w', n)
    requires w'.recs == w.recs[n := w'.recs[n]] && w'.kubes == w.kubes[n := w'.kubes[n]]
    requires n == w.host ==> RankOf(w', n) == 9 && w'.recs[n].cs == w.recs[n].cs
    requires n != w.host ==> !Usable(w', n)
    ensures Trapped(w')
  {
    forall m | m in w'.kubes && m != w'.host ensures !Usable(w', m) {
      assert m != n ==> !Usable(w, m);
    }
  }

  lemma ControllerStays(cfg: Config, r: Run, k: int)
    requires Valid(cfg, r) && 0 <= k < |r.steps| && Rolling(r.At(k)) && !r.Ev(k).Outside()
    ensures r.At(k + 1).host == r.At(k).host && r.Ev(k).node in r.At(k).recs
    ensures !r.Ev(k).CreateRecord? && !r.Ev(k).Finalize?
  {
    assert StepOk(cfg, r, k);
    assert r.Ev(k).node in r.At(k).recs ==> InStage(r.At(k), r.Ev(k).node);
  }

  lemma {:induction false} TrappedAlong(cfg: Config, r: Run, i: int, j: int)
    requires Valid(cfg, r) && 0 <= i <= j <= |r.steps| && Rolling(r.At(i)) && Trapped(r.At(i))
    requires forall k :: i <= k < j ==> !r.steps[k].ev.Outside()
    ensures Trapped(r.At(j)) && r.At(j).host == r.At(i).host
  {
    if i < j {
      var k := j - 1;
      TrappedAlong(cfg, r, i, k);
      ControllerRollsOn(cfg, r, i, k);
      ControllerStays(cfg, r, k);
      assert StepOk(cfg, r, k);
      EffectIsLocal(r.At(k), r.Ev(k));
      if r.Ev(k).node == r.At(k).host {
        TrappedHost(cfg, r, k);
      } else {
        TrappedOther(cfg, r, k);
      }
      TrappedLocally(r.At(k), r.At(j), r.Ev(k).node);
    }
  }

  lemma TrappedOutside(w: World, e: Event)
    requires Trapped(w) && Tolerated(e) && (e.ControllerMoves? ==> CanHost(w, e.node) && e.node in w.recs)
    ensures Trapped(Apply(w, e)) && Apply(w, e).host == w.host
  {
    var w' := Apply(w, e);
    assert e.ControllerMoves? ==> e.node == w.host;
    forall m | m in w'.kubes && m != w'.host ensures !Usable(w', m) {
      assert !Usable(w, m);
    }
  }

  /** A trapped rolling reboot stays trapped, whatever is reconciled, wherever it fails, and
      whatever tolerated event happens. */
  lemma {:induction false} TrappedForGood(cfg: Config, r: Run, acts: seq<Action>)
    requires Valid(cfg, r) && Rolling(r.now) && Trapped(r.now) && Feasible(cfg, r, acts)
    ensures Trapped(Acts(cfg, r, acts).now) && Acts(cfg, r, acts).now.host == r.now.host
  {
    if acts != [] {
      var init, last := acts[..|acts| - 1], acts[|acts| - 1];
      LastFeasible(cfg, r, acts);
      TrappedForGood(cfg, r, init);
      TrappedAct(cfg, Acts(cfg, r, init), last);
    }
  }

  lemma TrappedAct(cfg: Config, r: Run, act: Action)
    requires Valid(cfg, r) && Rolling(r.now) && Trapped(r.now) && RollingAction(act) && MovesInside(r.now, act)
    ensures Trapped(Act(cfg, r, act).now) && Act(cfg, r, act).now.host == r.now.host
  {
    match act
    case Happens(e) => TrappedOutside(r.now, e);
    case Reconciles(n, a, fuel) =>
      var s := Sim(r, fuel, false);
      ReconcileIsAllowed(cfg, s, n, a);
      var s' := Reconcile.Reconcile(cfg, s, n, a);
      TrappedAlong(cfg, s'.run, |r.steps|, |s'.run.steps|);
  }

  /** So no round of a trapped rolling reboot is fair, and its host is never done. */
  lemma {:induction false} TrappedIsUnfair(cfg: Config, r: Run, acts: seq<Action>)
    requires Valid(cfg, r) && Rolling(r.now) && Trapped(r.now)
    ensures !FairRound(cfg, r, acts)
  {
    if FairRound(cfg, r, acts) {
      var i :| ReconciledAt(cfg, r, acts, r.now.host, i);
      FeasiblePrefix(cfg, r, acts, i);
      TrappedForGood(cfg, r, acts[..i]);
    }
  }

  // ---- clusters with room ----

  /** There are at least two nodes, and every node outside a work turn can take the controller. */
  predicate Roomy(w: World) {
    && (exists a, b :: a in w.kubes && b in w.kubes && a != b)
    && forall m :: m in w.recs && !Working(w, m) ==> Usable(w, m)
  }

  lemma RoomForAnother(w: World, n: string) returns (m: string)
    requires Rolling(w) && Roomy(w) && Working(w, n)
    ensures m in w.recs && m != n && Usable(w, m)
  {
    var a, b :| a in w.kubes && b in w.kubes && a != b;
    m := if a != n then a else b;
    assert m in w.recs.Keys && !Working(w, m);
  }

  lemma RoomyIsNotTrapped(w: World)
    requires Rolling(w) && Roomy(w)
    ensures !Trapped(w)
  {
    if RankOf(w, w.host) == 9 {
      assert Working(w, w.host);
      var m := RoomForAnother(w, w.host);
    }
  }

  /** A node leaves its turn, and stays out of it, able to take the controller. */
  lemma EffectLeavesUsable(cfg: Config, w: World, p1: Option<Event>, p2: Option<Event>, e: Event)
    requires Rolling(w) && !e.Outside() && InStage(w, e.node) && Allowed(cfg, w, p1, p2, e)
    requires Working(w, e.node) || Usable(w, e.node)
    ensures Working(Apply(w, e), e.node) || Usable(Apply(w, e), e.node)
  {
  }

  lemma RoomyLocally(w: World, w': World, n: string)
    requires Roomy(w) && Present(w, n) && Present(w', n) && (Working(w', n) || Usable(w', n))
    requires w'.recs == w.recs[n := w'.recs[n]] && w'.kubes == w.kubes[n := w'.kubes[n]]
    ensures Roomy(w')
  {
    var a, b :| a in w.kubes && b in w.kubes && a != b;
    assert a in w'.kubes && b in w'.kubes;
    forall m | m in w'.recs && !Working(w', m) ensures Usable(w', m) {
      assert m != n ==> !Working(w, m) && Usable(w, m);
    }
  }

  lemma {:induction false} RoomyAlong(cfg: Config, r: Run, i: int, j: int)
    requires Valid(cfg, r) && 0 <= i <= j <= |r.steps| && Rolling(r.At(i)) && Roomy(r.At(i))
    requires forall k :: i <= k < j ==> !r.steps[k].ev.Outside()
    ensures Roomy(r.At(j))
  {
    if i < j {
      var k := j - 1;
      RoomyAlong(cfg, r, i, k);
      ControllerRollsOn(cfg, r, i, k);
      ControllerStays(cfg, r, k);
      assert StepOk(cfg, r, k) && InStage(r.At(k), r.Ev(k).node);
      EffectIsLocal(r.At(k), r.Ev(k));
      EffectLeavesUsable(cfg, r.At(k), r.Before(k, 1), r.Before(k, 2), r.Ev(k));
      RoomyLocally(r.At(k), r.At(j), r.Ev(k).node);
    }
  }

  lemma RoomyOutside(w: World, e: Event)
    requires Roomy(w) && Tolerated(e)
    ensures Roomy(Apply(w, e))
  {
    var w' := Apply(w, e);
    OutsideKeepsRecords(w, e);
    var a, b :| a in w.kubes && b in w.kubes && a != b;
    assert a in w'.kubes.Keys && b in w'.kubes.Keys;
    forall m | m in w'.recs && !Working(w', m) ensures Usable(w', m) {
      assert !Working(w, m) && Usable(w, m);
    }
  }

  lemma RoomyAct(cfg: Config, r: Run, act: Action)
    requires Valid(cfg, r) && Rolling(r.now) && Roomy(r.now) && RollingAction(act)
    ensures Roomy(Act(cfg, r, act).now)
  {
    match act
    case Happens(e) => RoomyOutside(r.now, e);
    case Reconciles(n, a, fuel) =>
      var s := Sim(r, fuel, false);
      ReconcileIsAllowed(cfg, s, n, a);
      var s' := Reconcile.Reconcile(cfg, s, n, a);
      RoomyAlong(cfg, s'.run, |r.steps|, |s'.run.steps|);
  }

  /** A cluster with room is never trapped: it keeps its room, whatever is reconciled, wherever it
      fails, and whatever tolerated event happens. */
  lemma {:induction false} RoomyForGood(cfg: Config, r: Run, acts: seq<Action>)
    requires Valid(cfg, r) && Rolling(r.now) && Roomy(r.now) && Feasible(cfg, r, acts)
    ensures Roomy(Acts(cfg, r, acts).now) && !Trapped(Acts(cfg, r, acts).now)
  {
    if acts != [] {
      LastFeasible(cfg, r, acts);
      RoomyForGood(cfg, r, acts[..|acts| - 1]);
      RoomyAct(cfg, Acts(cfg, r, acts[..|acts| - 1]), acts[|acts| - 1]);
    }
    WholeRound(cfg, r, acts);
    RoomyIsNotTrapped(Acts(cfg, r, acts).now);
  }
}
