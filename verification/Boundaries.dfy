/** Where the protocol's guarantees end, each with the exact way it happens; and the corollary
    that puts the guarantees together for the controller itself. */
module Boundaries {
  import opened NodeTypes
  import opened Plugins
  import opened World
  import opened Protocol
  import opened Safety
  import opened Reconcile
  import opened Convergence
  import Stages
  import RollingReboot
  import Trap

  /** Every behaviour of the controller that never asks a node without a current state to drain,
      with any failures, crashes and outside events: one node at a time, every eviction checked,
      every reboot on the one drained and cordoned node. */
  lemma {:induction false} ControllerIsSafe(cfg: Config, w: World, acts: seq<Action>)
    requires NobodyInTurn(w) && NeverDrainsUnset(Behaviour(cfg, w, acts))
    ensures var r := Behaviour(cfg, w, acts);
      && (forall k :: 0 <= k <= |r.steps| ==> OneWorks(r.At(k)))
      && (forall i :: 0 <= i < |r.steps| && r.Ev(i).Evict? ==>
            r.At(i).host != r.Ev(i).node && exists h :: 0 <= h < i && ChecksPassed(cfg, r, r.Ev(i).node, h, i))
      && (forall i :: 0 <= i < |r.steps| && r.Ev(i).RebootPod? ==>
            forall m :: Working(r.At(i), m) <==> m == r.Ev(i).node)
  {
    var r := Behaviour(cfg, w, acts);
    BehavioursAreValid(cfg, w, acts);
    forall k | 0 <= k <= |r.steps| ensures OneWorks(r.At(k)) {
      MutualExclusion(cfg, r, k);
    }
    forall i | 0 <= i < |r.steps| && r.Ev(i).Evict?
      ensures r.At(i).host != r.Ev(i).node && exists h :: 0 <= h < i && ChecksPassed(cfg, r, r.Ev(i).node, h, i)
    {
      var h := EvictionIsChecked(cfg, r, i);
    }
    forall i, m | 0 <= i < |r.steps| && r.Ev(i).RebootPod? ensures Working(r.At(i), m) <==> m == r.Ev(i).node {
      RebootIsSafe(cfg, r, i);
    }
  }

  // ---- the empty state ----

  /** A node asked to drain while its current state is empty is drained at once, without the
      checks, next to any node that is working already. */
  lemma UnsetBreaksExclusion(cfg: Config, s: Sim, n: string, m: string, a: Answers)
    requires Fresh(s) && Favourable(cfg, a) && Managed(s.run.now, n) && s.run.now.host != n
    requires s.run.now.recs[n].cs.Unset? && s.run.now.recs[n].spec.Drains() && !s.run.now.recs[n].drained
    requires m != n && Working(s.run.now, m)
    ensures !OneWorks(Reconcile.Reconcile(cfg, s, n, a).run.now)
  {
    assert Undrain(cfg, s, n, a) == s && SyncDrained(s, n) == s;
    assert CheckRebootRequired(cfg, s, n, a) == s && Request(s, n) == s;
    assert Verdict(s, n, a) == s && Drain(cfg, s, n, a) == EvictPods(cfg, s, n, a);
    Stages.EvictAtDraining(cfg, s, n, a);
    var s1 := EvictPods(cfg, s, n, a);
    RebootKeepsWorking(cfg, s1, n, m, a);
    var w' := Reconcile.Reconcile(cfg, s, n, a).run.now;
    assert w' == Reboot(cfg, s1, n, a).run.now;
  }

  lemma RebootKeepsWorking(cfg: Config, s: Sim, n: string, m: string, a: Answers)
    requires Working(s.run.now, n) && Working(s.run.now, m) && s.run.now.recs[n].cs.Drained?
    ensures Working(Reboot(cfg, s, n, a).run.now, n) && (m != n ==> Working(Reboot(cfg, s, n, a).run.now, m))
  {
    if Reboot(cfg, s, n, a) != s {
      StartKeepsWorking(cfg, s, n, m);
    }
  }

  lemma StartKeepsWorking(cfg: Config, s: Sim, n: string, m: string)
    requires Live(s, n) && Working(s.run.now, n) && Working(s.run.now, m)
    ensures Working(StartReboot(cfg, s, n).run.now, n) && Working(StartReboot(cfg, s, n).run.now, m)
  {
    var s1 := if s.run.now.kubes[n].bootId != s.run.now.recs[n].bootId then Do(s, SaveBoot(n)) else s;
    assert Working(s1.run.now, n) && Working(s1.run.now, m);
    var s2 := if cfg.containerNode then s1 else Do(s1, RebootPod(n));
    assert s2.run.now == s1.run.now;
    WriteKeepsWorking(s2, n, m);
  }

  lemma WriteKeepsWorking(s: Sim, n: string, m: string)
    requires Working(s.run.now, n) && Working(s.run.now, m)
    ensures var w := Do(s, SetState(n, Rebooting)).run.now; Working(w, n) && Working(w, m)
  {
  }

  // ---- the detour over Cordoned ----

  /** Next, with `Drained` left over from an earlier drain, and with no verdict against a reboot
      if that is what is asked for. */
  predicate Stuck(w: World, n: string) {
    && Managed(w, n) && w.kubes[n].unsched
    && w.recs[n].spec.Drains() && w.recs[n].cs.Next? && w.recs[n].drained
    && (w.recs[n].spec.WantReboot? ==> w.recs[n].required == Some(true))
  }

  /** Such a node stays where it is, and keeps every other node out of its turn, until someone
      outside acts on it or a check finds no reboot required: in every run, whatever else happens. */
  lemma {:induction false} StuckBlocksEverybody(cfg: Config, r: Run, n: string, i: int, j: int)
    requires Valid(cfg, r) && 0 <= i <= j <= |r.steps| && Stuck(r.At(i), n)
    requires forall k :: i <= k < j ==> !(r.Ev(k).Outside() && r.Ev(k).On(n)) && !NoRebootRequired(r.Ev(k), n)
    ensures Stuck(r.At(j), n)
    ensures forall k :: i <= k < j ==> !(r.Ev(k).SetState? && r.Ev(k).state.Next?) && r.Ev(k) != Evict(n)
  {
    if j > i {
      StuckBlocksEverybody(cfg, r, n, i, j - 1);
      StuckStep(cfg, r, n, j - 1);
    }
  }

  lemma StuckStep(cfg: Config, r: Run, n: string, k: int)
    requires Valid(cfg, r) && 0 <= k < |r.steps| && Stuck(r.At(k), n)
    requires !(r.Ev(k).Outside() && r.Ev(k).On(n)) && !NoRebootRequired(r.Ev(k), n)
    ensures Stuck(r.At(k + 1), n) && !(r.Ev(k).SetState? && r.Ev(k).state.Next?) && r.Ev(k) != Evict(n)
  {
    assert StepOk(cfg, r, k);
    assert !NobodyWorks(r.At(k));
  }

  predicate NoRebootRequired(e: Event, n: string) {
    e.Checked? && e.node == n && !e.verdict
  }

  /** With everything favourable, the reconcile of a drain or reboot request that has its turn
      does nothing at all if and only if the node is stuck and no new verdict is due. */
  lemma NextWaitsIffStuck(cfg: Config, s: Sim, n: string, a: Answers)
    requires Fresh(s) && Favourable(cfg, a) && Managed(s.run.now, n) && NodesHealthy(s.run.now)
    requires s.run.now.recs[n].spec.Drains() && s.run.now.recs[n].cs.Next?
    ensures var w := s.run.now;
      Reconcile.Reconcile(cfg, s, n, a).run == s.run <==>
        && Stuck(w, n)
        && (w.recs[n].spec.WantReboot? ==> !Due(w.recs[n].lastChecked, w.clock + a.waits.0, 2 * MINUTE))
  {
    var s1 := SyncDrained(s, n);
    Stages.TurnGoesOn(cfg, s, n, a);
    if s1 == s {
      VerdictActsIfItMust(s, n, a);
      var s2 := Verdict(s, n, a);
      if s2 == s && !s.run.now.recs[n].drained {
        Stages.DrainChecksAtNext(cfg, s, n, a);
        Stages.ChecksThenEvict(cfg, s, n, a);
      } else if s2 == s {
        Stages.NothingToDrain(cfg, s, n, a);
        assert Reboot(cfg, s, n, a) == s;
      }
    }
  }

  lemma VerdictActsIfItMust(s: Sim, n: string, a: Answers)
    requires Fresh(s) && Managed(s.run.now, n) && s.run.now.recs[n].cs.Next?
    ensures var r := s.run.now.recs[n]; var s' := Verdict(s, n, a);
      if r.spec.WantReboot? && (r.required != Some(true) || Due(r.lastChecked, s.run.now.clock + a.waits.0, 2 * MINUTE))
      then |s'.run.steps| > |s.run.steps| else s' == s
  {
  }

  /** A drained node that is asked for Cordoned leaves its turn with `Drained` still set. */
  lemma DetourBegins(cfg: Config, r: Run, n: string, a: Answers) returns (r1: Run, r2: Run)
    requires Managed(r.now, n) && r.now.kubes[n].unsched
    requires r.now.recs[n].spec.WantDrained? && r.now.recs[n].cs.Drained? && r.now.recs[n].drained
    ensures r1 == Act(cfg, r, Happens(UserSpec(n, WantCordoned)))
    ensures r2 == Act(cfg, r1, Reconciles(n, a, EFFECTS))
    ensures r2.now == Put(r.now, n, r.now.recs[n].(spec := WantCordoned, cs := Cordoned))
  {
    r1 := Extend(r, UserSpec(n, WantCordoned));
    var s := Sim(r1, EFFECTS, false);
    CordonsAtOnce(cfg, s, n, a);
    r2 := Reconcile.Reconcile(cfg, s, n, a).run;
  }

  /** Asked for Drained again it is stuck as soon as it has its turn. */
  lemma DetourEndsStuck(cfg: Config, r: Run, n: string, a: Answers) returns (r1: Run, r2: Run, r3: Run)
    requires Managed(r.now, n) && r.now.kubes[n].unsched
    requires r.now.recs[n].spec.WantCordoned? && r.now.recs[n].cs.Cordoned? && r.now.recs[n].drained
    requires NobodyWorks(r.now)
    ensures r1 == Act(cfg, r, Happens(UserSpec(n, WantDrained)))
    ensures r2 == Act(cfg, r1, Reconciles(n, a, EFFECTS)) && r3 == Act(cfg, r2, Reconciles(n, a, EFFECTS))
    ensures Stuck(r3.now, n)
  {
    r1 := Extend(r, UserSpec(n, WantDrained));
    var s1 := Sim(r1, EFFECTS, false);
    QueuesAtOnce(cfg, s1, n, a);
    r2 := Reconcile.Reconcile(cfg, s1, n, a).run;
    StillNobodyWorks(r.now, r1.now, n);
    StillNobodyWorks(r1.now, r2.now, n);
    r3 := TurnIsStuck(cfg, r2, n, a);
  }

  lemma StillNobodyWorks(w: World, w': World, n: string)
    requires NobodyWorks(w) && OnlyChanges(w, w', n) && !w'.recs[n].cs.Work()
    ensures NobodyWorks(w')
  {
    assert forall m :: m in w'.recs && m != n ==> m in w.recs && w'.recs[m] == w.recs[m];
  }

  lemma TurnIsStuck(cfg: Config, r: Run, n: string, a: Answers) returns (r': Run)
    requires Managed(r.now, n) && r.now.kubes[n].unsched && NobodyWorks(r.now)
    requires r.now.recs[n].spec.WantDrained? && r.now.recs[n].cs.Queued? && r.now.recs[n].drained
    ensures r' == Act(cfg, r, Reconciles(n, a, EFFECTS)) && Stuck(r'.now, n)
  {
    var s := Sim(r, EFFECTS, false);
    TakesItsTurn(cfg, s, n, a);
    r' := Reconcile.Reconcile(cfg, s, n, a).run;
  }

  lemma CordonsAtOnce(cfg: Config, s: Sim, n: string, a: Answers)
    requires Fresh(s) && Managed(s.run.now, n) && s.run.now.kubes[n].unsched
    requires s.run.now.recs[n].spec.WantCordoned? && s.run.now.recs[n].cs.Drained?
    ensures Reconcile.Reconcile(cfg, s, n, a).run.now == Put(s.run.now, n, s.run.now.recs[n].(cs := Cordoned))
  {
    assert Undrain(cfg, s, n, a) == s && SyncDrained(s, n) == s && CheckRebootRequired(cfg, s, n, a) == s;
    var s1 := Request(s, n);
    assert Progress(cfg, s1, n, a) == s1;
  }

  lemma QueuesAtOnce(cfg: Config, s: Sim, n: string, a: Answers)
    requires Fresh(s) && Managed(s.run.now, n) && s.run.now.kubes[n].unsched
    requires s.run.now.recs[n].spec.WantDrained? && s.run.now.recs[n].cs.Cordoned?
    ensures var w, w' := s.run.now, Reconcile.Reconcile(cfg, s, n, a).run.now;
      && OnlyChanges(w, w', n) && w'.kubes == w.kubes
      && w'.recs[n] == w.recs[n].(cs := Queued, required := w'.recs[n].required, lastChecked := w'.recs[n].lastChecked)
  {
    assert Undrain(cfg, s, n, a) == s;
    ChecksChangeLittle(cfg, s, n, a);
    var s1 := CheckRebootRequired(cfg, SyncDrained(s, n), n, a);
    StoppedStays(cfg, Request(s1, n), n, a);
  }

  lemma TakesItsTurn(cfg: Config, s: Sim, n: string, a: Answers)
    requires Fresh(s) && Managed(s.run.now, n) && s.run.now.kubes[n].unsched
    requires s.run.now.recs[n].spec.WantDrained? && s.run.now.recs[n].cs.Queued?
    requires NobodyWorks(s.run.now)
    ensures var w, w' := s.run.now, Reconcile.Reconcile(cfg, s, n, a).run.now;
      && OnlyChanges(w, w', n) && w'.kubes == w.kubes
      && w'.recs[n] == w.recs[n].(cs := Next, required := w'.recs[n].required, lastChecked := w'.recs[n].lastChecked)
  {
    assert Undrain(cfg, s, n, a) == s;
    ChecksChangeLittle(cfg, s, n, a);
    var s1 := CheckRebootRequired(cfg, SyncDrained(s, n), n, a);
    assert Request(s1, n) == s1;
    Stages.SameStatesSameWork(s.run.now, s1.run.now, n);
  }

  // ---- another owner of the field `unschedulable` ----

  /** Asked for Active at Next, or before the first state, while another owner holds the field. */
  predicate Withheld(w: World, n: string) {
    && Managed(w, n) && w.recs[n].spec.WantActive? && w.kubes[n].manager.Foreign?
    && (w.recs[n].cs.Next? || w.recs[n].cs.Unset?)
  }

  /** The reconcile of such a node does nothing, but for the reset of a stale `Drained`. */
  lemma WithheldIsLeftAlone(cfg: Config, s: Sim, n: string, a: Answers)
    requires Fresh(s) && Withheld(s.run.now, n)
    ensures Reconcile.Reconcile(cfg, s, n, a).run == SyncDrained(s, n).run
  {
    assert Undrain(cfg, s, n, a) == s;
    var s1 := SyncDrained(s, n);
    assert CheckRebootRequired(cfg, s1, n, a) == s1;
    StoppedStays(cfg, Request(s1, n), n, a);
  }

  /** It stays so, and keeps every other node out of its turn, until someone outside acts on it:
      in every run, whatever else happens. */
  lemma {:induction false} WithheldBlocksEverybody(cfg: Config, r: Run, n: string, i: int, j: int)
    requires Valid(cfg, r) && 0 <= i <= j <= |r.steps| && Withheld(r.At(i), n)
    requires forall k :: i <= k < j ==> !(r.Ev(k).Outside() && r.Ev(k).On(n))
    ensures Withheld(r.At(j), n)
    ensures forall k :: i <= k < j ==> !(r.Ev(k).SetState? && r.Ev(k).state.Next?)
  {
    if j > i {
      WithheldBlocksEverybody(cfg, r, n, i, j - 1);
      WithheldStep(cfg, r, n, j - 1);
    }
  }

  lemma WithheldStep(cfg: Config, r: Run, n: string, k: int)
    requires Valid(cfg, r) && 0 <= k < |r.steps| && Withheld(r.At(k), n)
    requires !(r.Ev(k).Outside() && r.Ev(k).On(n))
    ensures Withheld(r.At(k + 1), n) && !(r.Ev(k).SetState? && r.Ev(k).state.Next?)
  {
    assert StepOk(cfg, r, k);
    assert !NobodyWorks(r.At(k));
  }

  // ---- the age of a verdict ----

  /** The run of a drain that gets as far as Draining. */
  function DrainingBegun(cfg: Config, r: Run, n: string, a: Answers): Run {
    var r1 := Extend(r, Healthy(n, Asked(cfg.plugins, a.health), a.took.0));
    Extend(Extend(r1, DrainOk(n, Asked(cfg.plugins, a.drainOk), a.took.1)), SetState(n, Draining))
  }

  lemma DrainChecksRun(cfg: Config, s: Sim, n: string, a: Answers)
    requires Live(s, n) && s.fuel >= 3 && Favourable(cfg, a) && NodesHealthy(s.run.now) && s.run.now.recs[n].cs.Next?
    ensures DrainChecks(cfg, s, n, a) == Sim(DrainingBegun(cfg, s.run, n, a), s.fuel - 3, false)
  {
    var e := Healthy(n, Asked(cfg.plugins, a.health), a.took.0);
    var s1 := Do(s, e);
    assert s1 == Sim(Extend(s.run, e), s.fuel - 1, false) && Live(s1, n);
  }

  /** At Next, not drained, with a positive verdict on record that is not due again. */
  predicate AboutToDrain(w: World, n: string, a: Answers) {
    && Managed(w, n) && w.recs[n].spec.WantReboot? && w.recs[n].cs.Next? && !w.recs[n].drained
    && w.recs[n].required == Some(true) && !Due(w.recs[n].lastChecked, w.clock + a.waits.0, 2 * MINUTE)
  }

  lemma DrainBegins(cfg: Config, s: Sim, n: string, a: Answers)
    requires !s.stopped && s.fuel >= 3 && Favourable(cfg, a) && NodesHealthy(s.run.now) && AboutToDrain(s.run.now, n, a)
    ensures DrainingBegun(cfg, s.run, n, a).steps <= Reconcile.Reconcile(cfg, s, n, a).run.steps
  {
    Stages.TurnGoesOn(cfg, s, n, a);
    assert SyncDrained(s, n) == s && Verdict(s, n, a) == s;
    Stages.ChecksThenEvict(cfg, s, n, a);
    DrainChecksRun(cfg, s, n, a);
    var s1 := EvictPods(cfg, DrainChecks(cfg, s, n, a), n, a);
    assert DrainingBegun(cfg, s.run, n, a).steps <= s1.run.steps <= Reboot(cfg, s1, n, a).run.steps;
  }

  /** The state in which Draining is written. */
  lemma ClockAtDraining(cfg: Config, r: Run, n: string, a: Answers)
    requires n in r.now.recs
    ensures var r', v := DrainingBegun(cfg, r, n, a), |r.steps| + 2;
      && |r'.steps| == v + 1 && r'.Ev(v) == SetState(n, Draining)
      && r'.steps[v].pre == r.now.(clock := r.now.clock + a.took.0 + a.took.1)
  {
  }

  /** The two-minute limit is not kept where Draining is written: a reconcile that finds a recent
      positive verdict writes Draining however long its two checks take, and the verdict is recent
      then if and only if they leave it so. */
  lemma DrainsOnAnOldVerdict(cfg: Config, r: Run, n: string, a: Answers, fuel: nat) returns (r': Run)
    requires Favourable(cfg, a) && NodesHealthy(r.now) && AboutToDrain(r.now, n, a) && fuel >= 3
    ensures r' == Act(cfg, r, Reconciles(n, a, fuel)) && |r'.steps| >= |r.steps| + 3
    ensures var v := |r.steps| + 2;
      && r'.Ev(v) == SetState(n, Draining) && n in r'.At(v).recs
      && (RecentVerdict(r'.At(v), r'.At(v).recs[n]) <==>
            !Due(r.now.recs[n].lastChecked, r.now.clock + a.took.0 + a.took.1, 2 * MINUTE))
  {
    DrainBegins(cfg, Sim(r, fuel, false), n, a);
    ClockAtDraining(cfg, r, n, a);
    r' := Reconcile.Reconcile(cfg, Sim(r, fuel, false), n, a).run;
    assert r'.steps[|r.steps| + 2] == DrainingBegun(cfg, r, n, a).steps[|r.steps| + 2];
  }

  /** Such a reconcile exists for every verdict: the checks need only take long enough. */
  lemma OldVerdictHappens(cfg: Config, r: Run, n: string, a: Answers, fuel: nat) returns (a': Answers, r': Run)
    requires Favourable(cfg, a) && NodesHealthy(r.now) && AboutToDrain(r.now, n, a) && fuel >= 3
    ensures r' == Act(cfg, r, Reconciles(n, a', fuel)) && |r'.steps| >= |r.steps| + 3
    ensures var v := |r.steps| + 2;
      r'.Ev(v) == SetState(n, Draining) && n in r'.At(v).recs && !RecentVerdict(r'.At(v), r'.At(v).recs[n])
  {
    var age := r.now.clock - r.now.recs[n].lastChecked.value;
    a' := a.(took := (if age > 2 * MINUTE then 0 else 2 * MINUTE - age + 1, 0));
    r' := DrainsOnAnOldVerdict(cfg, r, n, a', fuel);
  }

  // ---- the controller on the only node left ----

  /** The reconcile at Next of the node that the controller runs on ends at Draining. */
  lemma HostEndsDraining(cfg: Config, s: Sim, n: string, a: Answers)
    requires !s.stopped && s.fuel >= 4 && Favourable(cfg, a) && NodesHealthy(s.run.now)
    requires AboutToDrain(s.run.now, n, a) && s.run.now.host == n
    ensures var w, w' := s.run.now, Reconcile.Reconcile(cfg, s, n, a).run.now;
      && w'.host == n && w'.recs == w.recs[n := w.recs[n].(cs := Draining)]
      && n in w'.kubes && w'.kubes == w.kubes[n := w'.kubes[n]] && w'.kubes[n].unsched
  {
    Stages.TurnGoesOn(cfg, s, n, a);
    assert SyncDrained(s, n) == s && Verdict(s, n, a) == s;
    Stages.ChecksThenEvict(cfg, s, n, a);
    Stages.DrainChecksAtNext(cfg, s, n, a);
    var s1 := DrainChecks(cfg, s, n, a);
    Stages.CordonsAndStops(cfg, s1, n, a);
    StoppedStays(cfg, EvictPods(cfg, s1, n, a), n, a);
  }

  /** If every other node is cordoned and waits for its own reboot, that is the trap. */
  lemma LastHostIsTrapped(cfg: Config, r: Run, n: string, a: Answers, fuel: nat)
    requires Favourable(cfg, a) && NodesHealthy(r.now) && fuel >= 4
    requires AboutToDrain(r.now, n, a) && r.now.host == n
    requires forall m :: m in r.now.kubes && m != n ==> !Trap.Usable(r.now, m)
    ensures Trap.Trapped(Act(cfg, r, Reconciles(n, a, fuel)).now) && Act(cfg, r, Reconciles(n, a, fuel)).now.host == n
  {
    HostEndsDraining(cfg, Sim(r, fuel, false), n, a);
    TrappedWorld(r.now, Act(cfg, r, Reconciles(n, a, fuel)).now, n);
  }

  lemma TrappedWorld(w: World, w': World, n: string)
    requires Present(w, n) && w.recs[n].spec.WantReboot? && !w.recs[n].drained && w'.host == n
    requires w'.recs == w.recs[n := w.recs[n].(cs := Draining)]
    requires n in w'.kubes && w'.kubes == w.kubes[n := w'.kubes[n]]
    requires forall m :: m in w.kubes && m != n ==> !Trap.Usable(w, m)
    ensures Trap.Trapped(w')
  {
    forall m | m in w'.kubes && m != n ensures !Trap.Usable(w', m) {
      assert !Trap.Usable(w, m);
    }
  }

  /** A cluster of one node that runs its own controller deadlocks as soon as a required reboot gets
      its turn: no reconcile, no boot, no report and no move of the controller ends it. */
  lemma {:induction false} OneNodeDeadlocks(cfg: Config, r: Run, n: string, a: Answers, fuel: nat, acts: seq<Action>)
    returns (r1: Run)
    requires Valid(cfg, r) && r.now.recs.Keys == r.now.kubes.Keys == {n} && !r.now.kubes[n].manager.Foreign?
    requires Favourable(cfg, a) && NodesHealthy(r.now) && fuel >= 4
    requires AboutToDrain(r.now, n, a) && r.now.host == n
    ensures r1 == Act(cfg, r, Reconciles(n, a, fuel)) && Trap.Trapped(r1.now)
    ensures Trap.Feasible(cfg, r1, acts) ==>
      Trap.Trapped(Acts(cfg, r1, acts).now) && Acts(cfg, r1, acts).now.host == r1.now.host == n
  {
    OneNodeRolls(r.now, n);
    r1 := StillRolling(cfg, r, Reconciles(n, a, fuel));
    LastHostIsTrapped(cfg, r, n, a, fuel);
    if Trap.Feasible(cfg, r1, acts) {
      Trap.TrappedForGood(cfg, r1, acts);
    }
  }

  lemma OneNodeRolls(w: World, n: string)
    requires w.recs.Keys == w.kubes.Keys == {n} && Managed(w, n) && !w.kubes[n].manager.Foreign?
    requires w.recs[n].spec.WantReboot? && w.recs[n].cs.Next? && !w.recs[n].drained
    ensures Stages.Rolling(w)
  {
  }

  lemma StillRolling(cfg: Config, r: Run, act: Action) returns (r1: Run)
    requires Valid(cfg, r) && Stages.Rolling(r.now) && RollingReboot.RollingAction(act)
    ensures r1 == Act(cfg, r, act) && Valid(cfg, r1) && Stages.Rolling(r1.now)
  {
    r1 := Act(cfg, r, act);
    RollingReboot.RollingStep(cfg, r, act);
  }

  // ---- failures around a reboot ----

  /** A drained node that is about to reboot, with its boot ID saved and a fresh verdict. */
  predicate AboutToReboot(w: World, n: string, a: Answers) {
    && Managed(w, n) && ReadyToReboot(w.recs[n], w.kubes[n]) && w.recs[n].required == Some(true)
    && !Due(w.recs[n].lastChecked, w.clock + a.waits.0, 2 * MINUTE)
  }

  /** A drained and cordoned node with its boot ID saved: the pod, and the write of Rebooting. */
  lemma PodThenRebooting(cfg: Config, s: Sim, n: string, a: Answers)
    requires !cfg.containerNode && Live(s, n) && ReadyToReboot(s.run.now.recs[n], s.run.now.kubes[n])
    ensures Reboot(cfg, s, n, a) == Stop(Do(Do(s, RebootPod(n)), SetState(n, Rebooting)))
  {
  }

  lemma RebootEffects(cfg: Config, s: Sim, n: string, a: Answers)
    requires !cfg.containerNode && !s.stopped && AboutToReboot(s.run.now, n, a)
    ensures Reconcile.Reconcile(cfg, s, n, a) == Stop(Do(Do(s, RebootPod(n)), SetState(n, Rebooting)))
  {
    assert Undrain(cfg, s, n, a) == s && SyncDrained(s, n) == s && CheckRebootRequired(cfg, s, n, a) == s;
    assert Request(s, n) == s && Verdict(s, n, a) == s && Drain(cfg, s, n, a) == s;
    PodThenRebooting(cfg, s, n, a);
  }

  /** A drained and cordoned node whose reboot is under way. */
  predicate IsRebooting(w: World, n: string) {
    && Managed(w, n) && w.kubes[n].unsched
    && w.recs[n].spec.WantReboot? && w.recs[n].cs.Rebooting? && w.recs[n].drained
  }

  lemma FinishEffects(cfg: Config, s: Sim, n: string, a: Answers)
    requires !s.stopped && IsRebooting(s.run.now, n)
    ensures Reconcile.Reconcile(cfg, s, n, a) ==
      if IsRebooted(cfg, s.run.now.recs[n], s.run.now.kubes[n])
      then Stop(Do(Do(s, Rebooted(n, s.run.now.clock + a.waits.1)), SetActive(n))) else Stop(s)
  {
    Stages.RebootingOnlyFinishes(cfg, s, n, a);
    RebootFinishes(cfg, s, n, a);
  }

  lemma RebootFinishes(cfg: Config, s: Sim, n: string, a: Answers)
    requires !s.stopped && IsRebooting(s.run.now, n)
    ensures Reboot(cfg, s, n, a) ==
      if IsRebooted(cfg, s.run.now.recs[n], s.run.now.kubes[n])
      then Stop(Do(Do(s, Rebooted(n, s.run.now.clock + a.waits.1)), SetActive(n))) else Stop(s)
  {
  }

  /** What is left of a node that has rebooted, when the boot ID has been cleared. */
  lemma ClearedWorld(r: Run, n: string, t: int)
    requires IsRebooting(r.now, n)
    ensures var w := Extend(r, Rebooted(n, t)).now;
      && IsRebooting(w, n) && w.kubes == r.now.kubes && w.clock == t
      && w.recs[n] == r.now.recs[n].(bootId := "", required := Some(false), lastChecked := Some(Stored(t)))
  {
  }

  /** The reconcile of a node that has rebooted, cut off after its first effect. */
  lemma CrashAfterClearing(cfg: Config, r: Run, n: string, a: Answers) returns (r1: Run)
    requires IsRebooting(r.now, n) && IsRebooted(cfg, r.now.recs[n], r.now.kubes[n])
    ensures r1 == Act(cfg, r, Reconciles(n, a, 1))
    ensures r1.steps == r.steps + [Step(r.now, Rebooted(n, r.now.clock + a.waits.1))]
    ensures IsRebooting(r1.now, n) && r1.now.kubes == r.now.kubes && r1.now.recs[n].bootId == ""
  {
    var t := r.now.clock + a.waits.1;
    r1 := Extend(r, Rebooted(n, t));
    ClearedWorld(r, n, t);
    FinishWithFuel(cfg, Sim(r, 1, false), n, a);
    Stages.RebootingOnlyFinishes(cfg, Sim(r, 1, false), n, a);
  }

  /** `r'` extends `r` by the two effects that finish a reboot, and `n` is asked for Active. */
  predicate IsHandedBack(r: Run, r': Run, n: string) {
    && |r'.steps| == |r.steps| + 2 && r.steps <= r'.steps
    && r'.Ev(|r.steps|).Rebooted? && r'.Ev(|r.steps| + 1) == SetActive(n)
    && n in r'.now.recs && r'.now.recs[n].spec.WantActive? && r'.now.recs[n].cs.Rebooting?
    && r'.now.recs[n].bootId == "" && r'.now.recs[n].required == Some(false)
  }

  /** The same reconcile when nothing cuts it off. */
  lemma HandsBack(cfg: Config, r: Run, n: string, a: Answers, fuel: nat) returns (r1: Run)
    requires IsRebooting(r.now, n) && IsRebooted(cfg, r.now.recs[n], r.now.kubes[n]) && fuel >= 2
    ensures r1 == Act(cfg, r, Reconciles(n, a, fuel)) && IsHandedBack(r, r1, n)
  {
    var s := Sim(r, fuel, false);
    r1 := Reboot(cfg, s, n, a).run;
    FinishWithFuel(cfg, s, n, a);
    HandedBack(r, n, r.now.clock + a.waits.1);
    Stages.RebootingOnlyFinishes(cfg, s, n, a);
  }

  lemma FinishWithFuel(cfg: Config, s: Sim, n: string, a: Answers)
    requires !s.stopped && IsRebooting(s.run.now, n) && IsRebooted(cfg, s.run.now.recs[n], s.run.now.kubes[n])
    ensures var r := Extend(s.run, Rebooted(n, s.run.now.clock + a.waits.1)); var r' := Reboot(cfg, s, n, a).run;
      && (s.fuel == 1 ==> r' == r)
      && (s.fuel >= 2 ==> r' == Extend(r, SetActive(n)))
  {
    RebootFinishes(cfg, s, n, a);
  }

  lemma HandedBack(r: Run, n: string, t: int)
    requires IsRebooting(r.now, n)
    ensures IsHandedBack(r, Extend(Extend(r, Rebooted(n, t)), SetActive(n)), n)
  {
    ClearedWorld(r, n, t);
  }

  /** A crash between the clearing of the boot ID and the hand-back is made good by a retry: the
      boot ID is cleared again and the node set Active, and there is no second reboot. */
  lemma RetryFinishesReboot(cfg: Config, r: Run, n: string, a: Answers, a': Answers, fuel: nat)
    returns (r1: Run, r2: Run)
    requires IsRebooting(r.now, n) && IsRebooted(cfg, r.now.recs[n], r.now.kubes[n])
    requires (cfg.containerNode || r.now.kubes[n].bootId != "") && fuel >= 2
    ensures r1 == Act(cfg, r, Reconciles(n, a, 1)) && r2 == Act(cfg, r1, Reconciles(n, a', fuel))
    ensures r1.steps == r.steps + [Step(r.now, Rebooted(n, r.now.clock + a.waits.1))] && IsHandedBack(r1, r2, n)
  {
    r1 := CrashAfterClearing(cfg, r, n, a);
    r2 := HandsBack(cfg, r1, n, a', fuel);
  }

  /** A retry that finds the node not Ready does nothing, at whatever point it might fail: the
      node waits, Rebooting, until a retry finds it Ready. */
  lemma RetryWaitsForReady(cfg: Config, r: Run, n: string, a: Answers, a': Answers, c: seq<Condition>, fuel: nat)
    returns (r1: Run, r2: Run)
    requires !cfg.containerNode && IsRebooting(r.now, n) && IsRebooted(cfg, r.now.recs[n], r.now.kubes[n])
    requires !SomeReadyConditionHolds(c)
    ensures r1 == Act(cfg, r, Reconciles(n, a, 1)) && r2 == Act(cfg, r1, Happens(Report(n, c)))
    ensures |r2.steps| == |r.steps| + 2 && Act(cfg, r2, Reconciles(n, a', fuel)) == r2
    ensures IsRebooting(r2.now, n)
  {
    r1 := CrashAfterClearing(cfg, r, n, a);
    ReportReaches(r1, n, c);
    r2 := Extend(r1, Report(n, c));
    NotReadyWaits(cfg, r2, n, a', fuel);
  }

  lemma ReportReaches(r: Run, n: string, c: seq<Condition>)
    requires IsRebooting(r.now, n)
    ensures var w := Extend(r, Report(n, c)).now; IsRebooting(w, n) && w.kubes[n].conditions == c
  {
  }

  lemma NotReadyWaits(cfg: Config, r: Run, n: string, a: Answers, fuel: nat)
    requires !cfg.containerNode && IsRebooting(r.now, n) && !SomeReadyConditionHolds(r.now.kubes[n].conditions)
    ensures Act(cfg, r, Reconciles(n, a, fuel)) == r
  {
    FinishEffects(cfg, Sim(r, fuel, false), n, a);
  }

  // ---- a second reboot in one turn ----

  lemma TurnExtends(r: Run, n: string, i: int, e: Event)
    requires 0 <= i <= |r.steps| && SameTurn(r, n, i, |r.steps|) && Working(Apply(r.now, e), n)
    ensures SameTurn(Extend(r, e), n, i, |r.steps| + 1)
  {
    var r' := Extend(r, e);
    forall k | i <= k <= |r.steps| + 1 ensures Working(r'.At(k), n) {
      if k <= |r.steps| {
        assert Working(r.At(k), n);
      }
    }
  }

  /** The reconcile that issues a reboot: the pod, and then the write of Rebooting. */
  lemma RebootIssued(cfg: Config, r: Run, n: string, a: Answers, i: int, fuel: nat) returns (r1: Run)
    requires !cfg.containerNode && AboutToReboot(r.now, n, a) && fuel >= 1
    requires 0 <= i <= |r.steps| && SameTurn(r, n, i, |r.steps|)
    ensures r1 == Act(cfg, r, Reconciles(n, a, fuel)) && r.steps <= r1.steps
    ensures |r1.steps| == |r.steps| + (if fuel == 1 then 1 else 2) && SameTurn(r1, n, i, |r1.steps|)
    ensures r1.Ev(|r.steps|) == RebootPod(n) && (fuel >= 2 ==> r1.Ev(|r.steps| + 1) == SetState(n, Rebooting))
    ensures r1.now == if fuel == 1 then r.now else Put(r.now, n, r.now.recs[n].(cs := CurrentState.Rebooting))
  {
    RebootEffects(cfg, Sim(r, fuel, false), n, a);
    TurnExtends(r, n, i, RebootPod(n));
    r1 := Extend(r, RebootPod(n));
    if fuel >= 2 {
      TurnExtends(r1, n, i, SetState(n, Rebooting));
      r1 := Extend(r1, SetState(n, Rebooting));
    }
  }

  lemma TurnStarts(r: Run, n: string)
    requires Working(r.now, n)
    ensures SameTurn(r, n, |r.steps|, |r.steps|)
  {
    assert r.At(|r.steps|) == r.now;
  }

  /** A failure between the reboot pod and the write of Rebooting leads to a second reboot pod in
      the same work turn. */
  lemma LostWriteRebootsAgain(cfg: Config, r: Run, n: string, a: Answers, fuel: nat) returns (r1: Run, r2: Run)
    requires !cfg.containerNode && AboutToReboot(r.now, n, a) && fuel >= 2
    ensures r1 == Act(cfg, r, Reconciles(n, a, 1)) && r2 == Act(cfg, r1, Reconciles(n, a, fuel))
    ensures var i, j := |r.steps|, |r.steps| + 1;
      && |r2.steps| == j + 2 && SameTurn(r2, n, i, |r2.steps|)
      && r2.Ev(i) == RebootPod(n) && r2.Ev(j) == RebootPod(n) && r2.Ev(j + 1) == SetState(n, Rebooting)
  {
    TurnStarts(r, n);
    r1 := RebootIssued(cfg, r, n, a, |r.steps|, 1);
    r2 := RebootIssued(cfg, r1, n, a, |r.steps|, fuel);
  }

  /** The run after a node was evicted and marked drained. */
  function Evicted(r: Run, n: string, hooks: map<string, HookReply>): Run {
    Extend(Extend(Extend(r, PreDrain(n, hooks)), Evict(n)), MarkDrained(n))
  }

  lemma EvictedTurn(r: Run, n: string, i: int, hooks: map<string, HookReply>)
    requires 0 <= i <= |r.steps| && SameTurn(r, n, i, |r.steps|)
    ensures SameTurn(Evicted(r, n, hooks), n, i, |r.steps| + 3)
    ensures n in r.now.recs && Evicted(r, n, hooks).now == Put(r.now, n, r.now.recs[n].(cs := Drained, drained := true))
  {
    assert Working(r.At(|r.steps|), n);
    TurnExtends(r, n, i, PreDrain(n, hooks));
    var r1 := Extend(r, PreDrain(n, hooks));
    TurnExtends(r1, n, i, Evict(n));
    TurnExtends(Extend(r1, Evict(n)), n, i, MarkDrained(n));
  }

  lemma EvictNowRun(cfg: Config, s: Sim, n: string, a: Answers)
    requires !s.stopped && s.fuel >= 3 && Favourable(cfg, a)
    ensures EvictNow(cfg, s, n, a) == Sim(Evicted(s.run, n, AskedHooks(cfg.plugins, a.preDrain)), s.fuel - 3, false)
  {
    var hooks := AskedHooks(cfg.plugins, a.preDrain);
    var s1 := Do(s, PreDrain(n, hooks));
    assert s1 == Sim(Extend(s.run, PreDrain(n, hooks)), s.fuel - 1, false);
  }

  /** A Rebooting node that someone else has uncordoned. */
  predicate UncordonedInReboot(w: World, n: string) {
    && Managed(w, n) && !w.kubes[n].unsched && w.host != n && w.recs[n].bootId == w.kubes[n].bootId
    && w.recs[n].spec.WantReboot? && w.recs[n].cs.Rebooting? && w.recs[n].drained
  }

  lemma DrainsAgain(cfg: Config, s: Sim, n: string, a: Answers)
    requires Fresh(s) && Favourable(cfg, a) && UncordonedInReboot(s.run.now, n)
    ensures var s1 := SyncDrained(s, n);
      && s1.run == Extend(s.run, ClearDrained(n))
      && Drain(cfg, Verdict(s1, n, a), n, a) ==
           Sim(Evicted(Extend(s1.run, Cordon(n)), n, AskedHooks(cfg.plugins, a.preDrain)), s.fuel - 5, false)
  {
    var s1 := SyncDrained(s, n);
    assert Verdict(s1, n, a) == s1 && DrainChecks(cfg, s1, n, a) == s1;
    Stages.ChecksThenEvict(cfg, s1, n, a);
    var s2 := Do(s1, Cordon(n));
    assert EvictPods(cfg, s1, n, a) == EvictNow(cfg, s2, n, a);
    EvictNowRun(cfg, s2, n, a);
  }

  /** The run after such a node is cordoned, drained and rebooted again. */
  function RebootedAgain(r: Run, n: string, hooks: map<string, HookReply>): Run {
    var drained := Evicted(Extend(Extend(r, ClearDrained(n)), Cordon(n)), n, hooks);
    Extend(Extend(drained, RebootPod(n)), SetState(n, Rebooting))
  }

  lemma RebootsAgain(cfg: Config, r: Run, n: string, a: Answers)
    requires !cfg.containerNode && Favourable(cfg, a) && UncordonedInReboot(r.now, n)
    ensures Act(cfg, r, Reconciles(n, a, EFFECTS)) == RebootedAgain(r, n, AskedHooks(cfg.plugins, a.preDrain))
  {
    var hooks := AskedHooks(cfg.plugins, a.preDrain);
    var s := Sim(r, EFFECTS, false);
    Stages.TurnGoesOn(cfg, s, n, a);
    DrainsAgain(cfg, s, n, a);
    EvictedIsReady(r, n, hooks);
    PodRun(cfg, Sim(Evicted(Extend(Extend(r, ClearDrained(n)), Cordon(n)), n, hooks), EFFECTS - 5, false), n, a);
  }

  lemma EvictedIsReady(r: Run, n: string, hooks: map<string, HookReply>)
    requires UncordonedInReboot(r.now, n)
    ensures var w := Evicted(Extend(Extend(r, ClearDrained(n)), Cordon(n)), n, hooks).now;
      Managed(w, n) && ReadyToReboot(w.recs[n], w.kubes[n])
  {
    var w1 := Extend(Extend(r, ClearDrained(n)), Cordon(n)).now;
    assert Managed(w1, n) && w1.kubes[n].unsched && w1.kubes[n].bootId == r.now.kubes[n].bootId;
    assert w1.recs[n] == r.now.recs[n].(drained := false);
  }

  lemma PodRun(cfg: Config, s: Sim, n: string, a: Answers)
    requires !cfg.containerNode && Live(s, n) && ReadyToReboot(s.run.now.recs[n], s.run.now.kubes[n]) && s.fuel >= 2
    ensures Reboot(cfg, s, n, a).run == Extend(Extend(s.run, RebootPod(n)), SetState(n, Rebooting))
  {
    PodThenRebooting(cfg, s, n, a);
  }

  lemma SecondPod(r: Run, n: string, i: int, hooks: map<string, HookReply>)
    requires 0 <= i <= |r.steps| && SameTurn(r, n, i, |r.steps|)
    ensures |RebootedAgain(r, n, hooks).steps| == |r.steps| + 7 && r.steps <= RebootedAgain(r, n, hooks).steps
    ensures RebootedAgain(r, n, hooks).Ev(|r.steps| + 5) == RebootPod(n)
    ensures SameTurn(RebootedAgain(r, n, hooks), n, i, |r.steps| + 5)
  {
    assert Working(r.At(|r.steps|), n);
    TurnExtends(r, n, i, ClearDrained(n));
    var r1 := Extend(r, ClearDrained(n));
    TurnExtends(r1, n, i, Cordon(n));
    var r2 := Extend(r1, Cordon(n));
    EvictedTurn(r2, n, i, hooks);
    var r3 := Evicted(r2, n, hooks);
    TurnExtends(r3, n, i, RebootPod(n));
    var r4 := Extend(r3, RebootPod(n));
    assert SameTurn(r4, n, i, |r4.steps|);
    TurnExtends(r4, n, i, SetState(n, Rebooting));
  }

  /** The other way to a second reboot in one turn: after the reboot was issued and Rebooting
      written, someone uncordons the node, and the next reconcile drains and reboots it again. */
  lemma OutsideUncordonRebootsAgain(cfg: Config, r: Run, n: string, a: Answers, a': Answers, m: Manager, fuel: nat)
    returns (r1: Run, r2: Run, r3: Run)
    requires !cfg.containerNode && AboutToReboot(r.now, n, a) && fuel >= 2
    requires r.now.host != n && Favourable(cfg, a')
    ensures r1 == Act(cfg, r, Reconciles(n, a, fuel)) && r2 == Act(cfg, r1, Happens(CordonBy(n, false, m)))
    ensures r3 == Act(cfg, r2, Reconciles(n, a', EFFECTS))
    ensures var i, j := |r.steps|, |r.steps| + 8;
      && |r3.steps| == j + 2 && SameTurn(r3, n, i, j)
      && r3.Ev(i) == RebootPod(n) && r3.Ev(i + 1) == SetState(n, Rebooting) && r3.Ev(j) == RebootPod(n)
  {
    TurnStarts(r, n);
    r1 := RebootIssued(cfg, r, n, a, |r.steps|, fuel);
    r2 := Uncordoned(r1, n, m, |r.steps|);
    RebootsAgain(cfg, r2, n, a');
    SecondPod(r2, n, |r.steps|, AskedHooks(cfg.plugins, a'.preDrain));
    r3 := RebootedAgain(r2, n, AskedHooks(cfg.plugins, a'.preDrain));
  }

  lemma Uncordoned(r: Run, n: string, m: Manager, i: int) returns (r1: Run)
    requires IsRebooting(r.now, n) && r.now.host != n && r.now.recs[n].bootId == r.now.kubes[n].bootId
    requires 0 <= i <= |r.steps| && SameTurn(r, n, i, |r.steps|)
    ensures r1 == Extend(r, CordonBy(n, false, m)) && UncordonedInReboot(r1.now, n)
    ensures SameTurn(r1, n, i, |r.steps| + 1)
  {
    r1 := Extend(r, CordonBy(n, false, m));
    TurnExtends(r, n, i, CordonBy(n, false, m));
  }
}
