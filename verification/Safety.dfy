/** What every run of the protocol keeps: after every single effect, whatever failed or
    crashed before it, and whatever happened outside. */
module Safety {
  import opened NodeTypes
  import opened Plugins
  import opened World
  import opened Protocol

  /** No record without a current state is asked to drain. */
  predicate NoUnsetDrain(w: World) {
    forall n :: n in w.recs && w.recs[n].cs.Unset? ==> !w.recs[n].spec.Drains()
  }

  /** In the whole run no node is asked to drain while its current state is still empty. */
  ghost predicate NeverDrainsUnset(r: Run) {
    forall k :: 0 <= k <= |r.steps| ==> NoUnsetDrain(r.At(k))
  }

  /** No node is in a work turn. */
  predicate NobodyInTurn(w: World) {
    forall n :: n in w.recs ==> !w.recs[n].cs.InTurn()
  }

  /** At most one node is in a work turn. */
  ghost predicate OneWorks(w: World) {
    forall a, b :: Working(w, a) && Working(w, b) ==> a == b
  }

  predicate Committed(w: World, n: string) {
    n in w.recs && w.recs[n].cs.Committed()
  }

  /** Only a user can ask a node without a current state to drain. */
  lemma OnlyUsersDrainUnset(cfg: Config, r: Run, k: int)
    requires Valid(cfg, r) && 0 <= k < |r.steps|
    requires NoUnsetDrain(r.At(k)) && !NoUnsetDrain(r.At(k + 1))
    ensures r.Ev(k).UserSpec? || r.Ev(k).UserCreate?
    ensures r.Ev(k).spec.Drains()
  {
    assert StepOk(cfg, r, k);
    var n :| n in r.At(k + 1).recs && r.At(k + 1).recs[n].cs.Unset? && r.At(k + 1).recs[n].spec.Drains();
    assert n in r.At(k).recs ==> r.At(k).recs[n].cs.Unset?;
  }

  predicate Rebooting(w: World, n: string) {
    n in w.recs && w.recs[n].cs.Rebooting?
  }

  // ---- mutual exclusion ----

  /** A node starts to work by taking its turn when nobody works, or by being drained without. */
  lemma StartsWorking(cfg: Config, r: Run, k: int, n: string)
    requires Valid(cfg, r) && 0 <= k < |r.steps| && !Working(r.At(k), n) && Working(r.At(k + 1), n)
    ensures
      || (r.Ev(k) == SetState(n, Next) && NobodyWorks(r.At(k)))
      || (r.Ev(k) == MarkDrained(n) && n in r.At(k).recs && r.At(k).recs[n].cs.Unset? && r.At(k).recs[n].spec.Drains())
  {
    assert StepOk(cfg, r, k);
  }

  /** Only one thing can put a second node to work: the drain of a node that was asked to drain
      while its current state was empty. */
  lemma OnlyUnsetBreaksExclusion(cfg: Config, r: Run, k: int) returns (m: string)
    requires Valid(cfg, r) && 0 <= k < |r.steps|
    requires OneWorks(r.At(k)) && !OneWorks(r.At(k + 1))
    ensures r.Ev(k).MarkDrained? && r.Ev(k).node in r.At(k).recs
    ensures r.At(k).recs[r.Ev(k).node].cs.Unset? && r.At(k).recs[r.Ev(k).node].spec.Drains()
    ensures m != r.Ev(k).node && Working(r.At(k), m)
  {
    var w, w' := r.At(k), r.At(k + 1);
    var a, b :| Working(w', a) && Working(w', b) && a != b;
    var n := if Working(w, a) then b else a;
    m := if n == a then b else a;
    StartsWorking(cfg, r, k, n);
    if !Working(w, m) {
      StartsWorking(cfg, r, k, m);
    }
  }

  lemma OneWorksStep(cfg: Config, r: Run, k: int)
    requires Valid(cfg, r) && 0 <= k < |r.steps|
    requires NoUnsetDrain(r.At(k)) && OneWorks(r.At(k))
    ensures OneWorks(r.At(k + 1))
  {
    if !OneWorks(r.At(k + 1)) {
      var m := OnlyUnsetBreaksExclusion(cfg, r, k);
    }
  }

  /** At most one node is in a work turn, after every effect of the run. */
  lemma {:induction false} MutualExclusion(cfg: Config, r: Run, k: int)
    requires Valid(cfg, r) && 0 <= k <= |r.steps|
    requires NeverDrainsUnset(r) && OneWorks(r.At(0))
    ensures OneWorks(r.At(k))
  {
    if k > 0 {
      MutualExclusion(cfg, r, k - 1);
      OneWorksStep(cfg, r, k - 1);
    }
  }

  // ---- eviction ----

  /** In the work turn that `n` is in at `i`, the health check passed at `h` and the
      drain-ok check at `h + 1`, each with the consent of every plugin. */
  ghost predicate ChecksPassed(cfg: Config, r: Run, n: string, h: int, i: int)
    requires 0 <= h < i <= |r.steps|
  {
    && h + 1 < i
    && r.Ev(h).Healthy? && r.Ev(h).node == n && NodesHealthy(r.At(h))
    && r.Ev(h).replies.Keys == cfg.plugins && AllConsent(r.Ev(h).replies)
    && r.Ev(h + 1).DrainOk? && r.Ev(h + 1).node == n
    && r.Ev(h + 1).replies.Keys == cfg.plugins && AllConsent(r.Ev(h + 1).replies)
    && forall k :: h <= k <= i ==> Working(r.At(k), n)
  }

  lemma CommitsByDraining(cfg: Config, r: Run, n: string, k: int)
    requires Valid(cfg, r) && 0 <= k < |r.steps| && NoUnsetDrain(r.At(k))
    requires !Committed(r.At(k), n) && Committed(r.At(k + 1), n)
    ensures r.Ev(k) == SetState(n, Draining) && k >= 2 && Working(r.At(k), n)
    ensures r.Ev(k - 2).Healthy? && r.Ev(k - 2).node == n && r.Ev(k - 1).DrainOk? && r.Ev(k - 1).node == n
  {
    assert StepOk(cfg, r, k);
  }

  /** The only way into the committed states leads through the two checks. */
  lemma CommitsAfterTheChecks(cfg: Config, r: Run, n: string, i: int)
    requires Valid(cfg, r) && 0 < i <= |r.steps| && NoUnsetDrain(r.At(i - 1))
    requires !Committed(r.At(i - 1), n) && Committed(r.At(i), n)
    ensures i >= 3 && r.Ev(i - 1) == SetState(n, Draining) && ChecksPassed(cfg, r, n, i - 3, i)
  {
    CommitsByDraining(cfg, r, n, i - 1);
    PassedDrainOk(cfg, r, n, i - 2);
    PassedHealthy(cfg, r, n, i - 3);
  }

  lemma PassedHealthy(cfg: Config, r: Run, n: string, h: int)
    requires Valid(cfg, r) && 0 <= h < |r.steps| && r.Ev(h).Healthy? && r.Ev(h).node == n
    ensures Working(r.At(h), n) && NodesHealthy(r.At(h))
    ensures r.Ev(h).replies.Keys == cfg.plugins && AllConsent(r.Ev(h).replies)
  {
    assert StepOk(cfg, r, h);
  }

  lemma PassedDrainOk(cfg: Config, r: Run, n: string, h: int)
    requires Valid(cfg, r) && 0 <= h < |r.steps| && r.Ev(h).DrainOk? && r.Ev(h).node == n
    ensures Working(r.At(h), n)
    ensures r.Ev(h).replies.Keys == cfg.plugins && AllConsent(r.Ev(h).replies)
  {
    assert StepOk(cfg, r, h);
  }

  lemma {:induction false} CommittedNodesPassedTheChecks(cfg: Config, r: Run, n: string, i: int) returns (h: int)
    requires Valid(cfg, r) && NeverDrainsUnset(r) && NobodyInTurn(r.At(0))
    requires 0 <= i <= |r.steps| && Committed(r.At(i), n)
    ensures 0 <= h < i && ChecksPassed(cfg, r, n, h, i)
  {
    if Committed(r.At(i - 1), n) {
      h := CommittedNodesPassedTheChecks(cfg, r, n, i - 1);
      assert Working(r.At(i), n);
    } else {
      CommitsAfterTheChecks(cfg, r, n, i);
      h := i - 3;
    }
  }

  lemma PreDrainAsksAll(cfg: Config, r: Run, k: int)
    requires Valid(cfg, r) && 0 <= k < |r.steps| && r.Ev(k).PreDrain?
    ensures r.Ev(k).hooks.Keys == cfg.plugins
  {
    assert StepOk(cfg, r, k);
  }

  /** Every node-drain call, also a repeated one, follows a passed health check and a passed
      drain-ok check of the same work turn, and comes right after a PreDrain in which the hook of
      every loaded plugin succeeded; the node is cordoned when it happens, and is not the one that
      the controller runs on. */
  lemma EvictionIsChecked(cfg: Config, r: Run, i: int) returns (h: int)
    requires Valid(cfg, r) && NeverDrainsUnset(r) && NobodyInTurn(r.At(0))
    requires 0 <= i < |r.steps| && r.Ev(i).Evict?
    ensures 0 <= h < i && ChecksPassed(cfg, r, r.Ev(i).node, h, i)
    ensures Present(r.At(i), r.Ev(i).node) && r.At(i).kubes[r.Ev(i).node].unsched
    ensures r.At(i).host != r.Ev(i).node
    ensures i > 0 && r.Ev(i - 1).PreDrains(r.Ev(i).node)
    ensures r.Ev(i - 1).hooks.Keys == cfg.plugins && HooksSucceed(r.Ev(i - 1).hooks)
  {
    assert StepOk(cfg, r, i);
    PreDrainAsksAll(cfg, r, i - 1);
    h := CommittedNodesPassedTheChecks(cfg, r, r.Ev(i).node, i);
  }

  // ---- hooks ----

  /** At `k` the PostDrain hook of every loaded plugin is run for `n`, and every one succeeds. */
  predicate PostDrained(cfg: Config, r: Run, n: string, k: int)
    requires 0 <= k < |r.steps|
  {
    r.Ev(k).PostDrains(n) && r.Ev(k).hooks.Keys == cfg.plugins && HooksSucceed(r.Ev(k).hooks)
  }

  lemma PostDrainSucceeded(cfg: Config, r: Run, n: string, k: int)
    requires Valid(cfg, r) && 0 <= k < |r.steps| && r.Ev(k).PostDrains(n)
    ensures PostDrained(cfg, r, n, k)
  {
    assert StepOk(cfg, r, k);
  }

  /** A committed node leaves by going, by Cordoned, or by OK right after a PostDrain. */
  lemma LeavesCommitted(cfg: Config, r: Run, n: string, k: int)
    requires Valid(cfg, r) && 0 <= k < |r.steps|
    requires Committed(r.At(k), n) && !Committed(r.At(k + 1), n)
    ensures
      || r.Ev(k).Removes(n) || r.Ev(k) == SetState(n, Cordoned)
      || (r.Ev(k) == SetState(n, OK) && k >= 1 &&
          (|| PostDrained(cfg, r, n, k - 1)
           || (k >= 2 && r.Ev(k - 1) == ClearDrained(n) && PostDrained(cfg, r, n, k - 2))))
  {
    assert StepOk(cfg, r, k);
    if k >= 1 && r.Ev(k - 1).PostDrains(n) {
      PostDrainSucceeded(cfg, r, n, k - 1);
    } else if k >= 2 && r.Ev(k - 2).PostDrains(n) {
      PostDrainSucceeded(cfg, r, n, k - 2);
    }
  }

  /** After PreDrain a node stays committed until PostDrain, unless its turn is cut short by a
      request for Cordoned or its record goes. */
  lemma {:induction false} CommittedUntilPostDrain(cfg: Config, r: Run, n: string, j: int, m: int)
    requires Valid(cfg, r) && NeverDrainsUnset(r)
    requires 0 <= j < m <= |r.steps| && r.Ev(j).PreDrains(n)
    requires forall k :: j < k < m ==>
      !r.Ev(k).Removes(n) && r.Ev(k) != SetState(n, Cordoned) && !r.Ev(k).PostDrains(n)
    ensures Committed(r.At(m), n)
  {
    if m == j + 1 {
      assert StepOk(cfg, r, j);
    } else {
      CommittedUntilPostDrain(cfg, r, n, j, m - 1);
      if !Committed(r.At(m), n) {
        LeavesCommitted(cfg, r, n, m - 1);
      }
    }
  }

  lemma OKIsNotCommitted(cfg: Config, r: Run, n: string, i: int)
    requires Valid(cfg, r) && 0 <= i < |r.steps| && r.Ev(i) == SetState(n, OK)
    ensures !Committed(r.At(i + 1), n)
  {
    assert StepOk(cfg, r, i);
  }

  /** Hook pairing: between a PreDrain of a node and its return to OK every plugin's PostDrain
      has succeeded, unless Cordoned was written or the record went in between. */
  lemma PreDrainIsPaired(cfg: Config, r: Run, n: string, j: int, i: int) returns (p: int)
    requires Valid(cfg, r) && NeverDrainsUnset(r)
    requires 0 <= j < i < |r.steps| && r.Ev(j).PreDrains(n) && r.Ev(i) == SetState(n, OK)
    requires forall k :: j < k < i ==> !r.Ev(k).Removes(n) && r.Ev(k) != SetState(n, Cordoned)
    ensures j < p < i && PostDrained(cfg, r, n, p)
  {
    if p' :| j < p' < i && r.Ev(p').PostDrains(n) {
      p := p';
      PostDrainSucceeded(cfg, r, n, p);
    } else {
      CommittedUntilPostDrain(cfg, r, n, j, i);
      OKIsNotCommitted(cfg, r, n, i);
      LeavesCommitted(cfg, r, n, i);
      p := if r.Ev(i - 1).PostDrains(n) then i - 1 else i - 2;
    }
  }

  // ---- reboots ----

  /** Whenever a reboot pod is created its node is the only one in a work turn, is persisted as
      drained, is cordoned, and has its present boot ID saved. */
  lemma RebootIsSafe(cfg: Config, r: Run, i: int)
    requires Valid(cfg, r) && NeverDrainsUnset(r) && OneWorks(r.At(0))
    requires 0 <= i < |r.steps| && r.Ev(i).RebootPod?
    ensures Present(r.At(i), r.Ev(i).node)
    ensures forall m :: Working(r.At(i), m) <==> m == r.Ev(i).node
    ensures r.At(i).recs[r.Ev(i).node].cs.Drained? && r.At(i).recs[r.Ev(i).node].drained
    ensures r.At(i).kubes[r.Ev(i).node].unsched
    ensures r.At(i).recs[r.Ev(i).node].bootId == r.At(i).kubes[r.Ev(i).node].bootId
  {
    assert StepOk(cfg, r, i);
    MutualExclusion(cfg, r, i);
    assert Working(r.At(i), r.Ev(i).node);
  }

  /** From `j` to `i` node `n` stays in one work turn, asked to reboot if required throughout. */
  ghost predicate RebootTurn(r: Run, n: string, j: int, i: int)
    requires 0 <= j <= i <= |r.steps|
  {
    forall k :: j <= k <= i ==> Working(r.At(k), n) && r.At(k).recs[n].spec.WantReboot?
  }

  /** Before Draining is written at `v`, the health check starts at `v - 2` on a positive verdict
      that is then at most two minutes old; the verdict still stands at `v`, however long the two
      checks took. */
  ghost predicate PositiveVerdictUsed(r: Run, n: string, v: int)
    requires 0 <= v < |r.steps|
  {
    && v >= 2 && r.Ev(v - 2).Healthy? && r.Ev(v - 2).node == n && r.Ev(v - 1).DrainOk?
    && n in r.At(v - 2).recs && r.At(v - 2).recs[n].cs.Next? && r.At(v - 2).recs[n].required == Some(true)
    && RecentVerdict(r.At(v - 2), r.At(v - 2).recs[n])
    && n in r.At(v).recs && r.At(v).recs[n] == r.At(v - 2).recs[n]
  }

  lemma DrainingUsesTheVerdict(cfg: Config, r: Run, n: string, v: int)
    requires Valid(cfg, r) && 0 <= v < |r.steps| && r.Ev(v) == SetState(n, Draining)
    requires n in r.At(v).recs && r.At(v).recs[n].spec.WantReboot?
    ensures PositiveVerdictUsed(r, n, v)
  {
    assert StepOk(cfg, r, v);
    assert StepOk(cfg, r, v - 1);
    assert StepOk(cfg, r, v - 2);
  }

  /** How old the verdict is when Draining is written: the two checks add their own time to the age
      it had when the first began, so two minutes are kept there if and only if they allow it. */
  lemma AgeAtDraining(cfg: Config, r: Run, n: string, v: int)
    requires Valid(cfg, r) && 0 <= v < |r.steps| && r.Ev(v) == SetState(n, Draining)
    requires n in r.At(v).recs && r.At(v).recs[n].spec.WantReboot?
    ensures PositiveVerdictUsed(r, n, v)
    ensures RecentVerdict(r.At(v), r.At(v).recs[n]) <==>
      !Due(r.At(v - 2).recs[n].lastChecked, r.At(v - 2).clock + r.Ev(v - 2).took + r.Ev(v - 1).took, 2 * MINUTE)
  {
    DrainingUsesTheVerdict(cfg, r, n, v);
    assert StepOk(cfg, r, v - 1);
    assert StepOk(cfg, r, v - 2);
  }

  lemma CommitsFromNext(cfg: Config, r: Run, n: string, k: int)
    requires Valid(cfg, r) && 0 <= k < |r.steps| && Working(r.At(k), n) && Working(r.At(k + 1), n)
    requires r.At(k + 1).recs[n].cs.Committed() && !r.At(k).recs[n].cs.Committed()
    ensures r.Ev(k) == SetState(n, Draining)
  {
    assert StepOk(cfg, r, k);
  }

  /** A turn under RebootIfRequired commits only on a positive verdict. */
  lemma {:induction false} CommitsOnPositiveVerdict(cfg: Config, r: Run, n: string, j: int, i: int) returns (v: int)
    requires Valid(cfg, r) && 0 <= j <= i <= |r.steps| && RebootTurn(r, n, j, i)
    requires Working(r.At(j), n) && r.At(j).recs[n].cs.Next?
    requires Working(r.At(i), n) && r.At(i).recs[n].cs.Committed()
    ensures j <= v < i && r.Ev(v) == SetState(n, Draining) && PositiveVerdictUsed(r, n, v)
  {
    assert i > j;
    assert RebootTurn(r, n, j, i - 1) && Working(r.At(i - 1), n);
    if r.At(i - 1).recs[n].cs.Committed() {
      v := CommitsOnPositiveVerdict(cfg, r, n, j, i - 1);
    } else {
      v := i - 1;
      CommitsFromNext(cfg, r, n, v);
      DrainingUsesTheVerdict(cfg, r, n, v);
    }
  }

  /** A reboot in a turn that was RebootIfRequired throughout follows a positive
      reboot-required verdict used in that turn. */
  lemma RebootFollowsPositiveVerdict(cfg: Config, r: Run, j: int, i: int) returns (v: int)
    requires Valid(cfg, r) && 0 <= j < i < |r.steps| && r.Ev(i).RebootPod?
    requires r.Ev(j) == SetState(r.Ev(i).node, Next) && RebootTurn(r, r.Ev(i).node, j + 1, i)
    ensures j + 2 < v < i && r.Ev(v) == SetState(r.Ev(i).node, Draining)
    ensures PositiveVerdictUsed(r, r.Ev(i).node, v)
  {
    NextIsWritten(cfg, r, r.Ev(i).node, j);
    PodOfDrained(cfg, r, i);
    v := CommitsOnPositiveVerdict(cfg, r, r.Ev(i).node, j + 1, i);
  }

  lemma NextIsWritten(cfg: Config, r: Run, n: string, j: int)
    requires Valid(cfg, r) && 0 <= j < |r.steps| && r.Ev(j) == SetState(n, Next)
    ensures n in r.At(j + 1).recs && r.At(j + 1).recs[n].cs.Next?
  {
    assert StepOk(cfg, r, j);
  }

  lemma PodOfDrained(cfg: Config, r: Run, i: int)
    requires Valid(cfg, r) && 0 <= i < |r.steps| && r.Ev(i).RebootPod?
    ensures r.Ev(i).node in r.At(i).recs && r.At(i).recs[r.Ev(i).node].cs.Drained?
  {
    assert StepOk(cfg, r, i);
  }

  predicate BootSaved(w: World, n: string) {
    n in w.recs && (n in w.kubes ==> w.recs[n].bootId == w.kubes[n].bootId)
  }

  /** At `i` node `n` has been Rebooting since the reboot pod created at `p`; unless its saved
      boot ID is still the current one, it booted at some point after that. */
  ghost predicate RebootingSince(r: Run, n: string, p: int, i: int)
    requires 0 <= i <= |r.steps|
  {
    && 0 <= p && p + 1 < i && r.Ev(p) == RebootPod(n) && r.Ev(p + 1) == SetState(n, CurrentState.Rebooting)
    && (forall k :: p + 2 <= k <= i ==> Rebooting(r.At(k), n))
    && (|| (exists b :: p + 1 < b < i && r.Ev(b).Boots(n))
        || BootSaved(r.At(i), n))
  }

  lemma RebootingStarts(cfg: Config, r: Run, n: string, i: int)
    requires Valid(cfg, r) && !cfg.containerNode && 0 < i <= |r.steps|
    requires !Rebooting(r.At(i - 1), n) && Rebooting(r.At(i), n)
    ensures RebootingSince(r, n, i - 2, i)
  {
    assert StepOk(cfg, r, i - 1);
    assert r.Ev(i - 1) == SetState(n, CurrentState.Rebooting);
  }

  lemma SavedBootStays(cfg: Config, r: Run, n: string, k: int)
    requires Valid(cfg, r) && !cfg.containerNode && 0 <= k < |r.steps|
    requires Rebooting(r.At(k), n) && Rebooting(r.At(k + 1), n) && BootSaved(r.At(k), n)
    ensures r.Ev(k).Boots(n) || BootSaved(r.At(k + 1), n)
  {
    assert StepOk(cfg, r, k);
  }

  lemma RebootingGoesOn(cfg: Config, r: Run, n: string, p: int, i: int)
    requires Valid(cfg, r) && !cfg.containerNode && 0 < i <= |r.steps|
    requires RebootingSince(r, n, p, i - 1) && Rebooting(r.At(i), n)
    ensures RebootingSince(r, n, p, i)
  {
    assert Rebooting(r.At(i - 1), n);
    if b :| p + 1 < b < i - 1 && r.Ev(b).Boots(n) {
      assert p + 1 < b < i;
    } else {
      SavedBootStays(cfg, r, n, i - 1);
    }
  }

  lemma {:induction false} RebootingHasAPod(cfg: Config, r: Run, n: string, i: int) returns (p: int)
    requires Valid(cfg, r) && !cfg.containerNode && NobodyInTurn(r.At(0))
    requires 0 <= i <= |r.steps| && Rebooting(r.At(i), n)
    ensures RebootingSince(r, n, p, i)
  {
    if Rebooting(r.At(i - 1), n) {
      p := RebootingHasAPod(cfg, r, n, i - 1);
      RebootingGoesOn(cfg, r, n, p, i);
    } else {
      RebootingStarts(cfg, r, n, i);
      p := i - 2;
    }
  }

  lemma HandBackFollowsRebooted(cfg: Config, r: Run, i: int, n: string)
    requires Valid(cfg, r) && !cfg.containerNode
    requires 0 <= i < |r.steps| && r.Ev(i) == SetActive(n) && Rebooting(r.At(i), n)
    ensures i > 0 && Rebooting(r.At(i - 1), n) && Present(r.At(i), n) && Present(r.At(i - 1), n)
    ensures r.At(i - 1).recs[n].bootId != r.At(i - 1).kubes[n].bootId
    ensures SomeReadyConditionHolds(r.At(i).kubes[n].conditions)
    ensures r.At(i).recs[n].bootId == "" && r.At(i).recs[n].required == Some(false)
    ensures r.At(i).recs[n].drained && r.At(i).kubes[n].unsched
  {
    assert StepOk(cfg, r, i);
    assert StepOk(cfg, r, i - 1);
  }

  /** Outside container mode a Rebooting node is handed back to Active only after it booted
      since its reboot pod was created, with its Ready condition true, still drained and cordoned,
      and with the saved boot ID and the reboot requirement cleared. */
  lemma HandBackFollowsABoot(cfg: Config, r: Run, i: int, n: string) returns (p: int, b: int)
    requires Valid(cfg, r) && !cfg.containerNode && NobodyInTurn(r.At(0))
    requires 0 <= i < |r.steps| && r.Ev(i) == SetActive(n) && Rebooting(r.At(i), n)
    ensures 0 <= p && p + 1 < b < i && r.Ev(p) == RebootPod(n) && r.Ev(b).Boots(n)
    ensures forall k :: p + 2 <= k <= i ==> Rebooting(r.At(k), n)
    ensures n in r.At(i).kubes && SomeReadyConditionHolds(r.At(i).kubes[n].conditions)
    ensures r.At(i).recs[n].bootId == "" && r.At(i).recs[n].required == Some(false)
    ensures r.At(i).recs[n].drained && r.At(i).kubes[n].unsched
  {
    HandBackFollowsRebooted(cfg, r, i, n);
    p := RebootingHasAPod(cfg, r, n, i - 1);
    b :| p + 1 < b < i - 1 && r.Ev(b).Boots(n);
  }

  /** The turn of `n` goes on: no effect from `i` to `j` ends it. */
  ghost predicate SameTurn(r: Run, n: string, i: int, j: int)
    requires 0 <= i <= j <= |r.steps|
  {
    forall k :: i <= k <= j ==> Working(r.At(k), n)
  }

  /** Once Rebooting is written, a node stays drained, cordoned and past Drained for the rest
      of its turn, as long as nobody else uncordons it. */
  lemma {:induction false} NoSecondDrain(cfg: Config, r: Run, n: string, i: int, m: int)
    requires Valid(cfg, r) && 0 <= i < m <= |r.steps| && SameTurn(r, n, i, m)
    requires r.Ev(i) == SetState(n, CurrentState.Rebooting)
    requires forall k :: i < k < m ==> !r.Ev(k).UncordonedOutside(n)
    ensures r.At(m).recs[n].cs.Rebooting? || r.At(m).recs[n].cs.Undraining?
    ensures r.At(m).recs[n].cs.Rebooting? ==>
      r.At(m).recs[n].drained && (n in r.At(m).kubes ==> r.At(m).kubes[n].unsched)
  {
    assert StepOk(cfg, r, m - 1);
    assert Working(r.At(m - 1), n) && Working(r.At(m), n);
    if m > i + 1 {
      NoSecondDrain(cfg, r, n, i, m - 1);
    }
  }

  /** Two reboot pods in one work turn need an outside uncordon between them, or a failure
      between the first pod and the write of Rebooting. */
  lemma OneRebootPodPerTurn(cfg: Config, r: Run, n: string, i: int, j: int)
    requires Valid(cfg, r) && 0 <= i < j < |r.steps| && SameTurn(r, n, i, j)
    requires r.Ev(i) == RebootPod(n) && r.Ev(j) == RebootPod(n)
    ensures r.Ev(i + 1) != SetState(n, CurrentState.Rebooting) || exists k :: i < k < j && r.Ev(k).UncordonedOutside(n)
  {
    assert StepOk(cfg, r, j);
    if r.Ev(i + 1) == SetState(n, CurrentState.Rebooting) && forall k :: i < k < j ==> !r.Ev(k).UncordonedOutside(n) {
      NoSecondDrain(cfg, r, n, i + 1, j);
    }
  }

  // ---- status ----

  predicate PastDrained(w: World, n: string) {
    n in w.recs && (w.recs[n].cs.Drained? || w.recs[n].cs.Rebooting?)
  }

  /** The flag `Drained` is set, and the kube node is unschedulable if it is there. */
  predicate DrainedAndCordoned(w: World, n: string) {
    n in w.recs && w.recs[n].drained && (n in w.kubes ==> w.kubes[n].unsched)
  }

  /** The write of Drained at `p` has put `n` where it is at `k`, with its status in agreement
      unless someone else has uncordoned the node since. */
  ghost predicate DrainedSince(r: Run, n: string, p: int, k: int)
    requires 0 <= k <= |r.steps|
  {
    && 0 <= p < k && r.Ev(p) == MarkDrained(n) && (forall m :: p < m <= k ==> PastDrained(r.At(m), n))
    && ((exists m :: p < m < k && r.Ev(m).UncordonedOutside(n)) || DrainedAndCordoned(r.At(k), n))
  }

  lemma DrainedStarts(cfg: Config, r: Run, n: string, k: int)
    requires Valid(cfg, r) && 0 < k <= |r.steps| && PastDrained(r.At(k), n)
    requires r.Ev(k - 1) == MarkDrained(n) || !PastDrained(r.At(k - 1), n)
    ensures DrainedSince(r, n, k - 1, k)
  {
    assert StepOk(cfg, r, k - 1);
  }

  lemma StatusKept(cfg: Config, r: Run, n: string, k: int)
    requires Valid(cfg, r) && 0 <= k < |r.steps| && PastDrained(r.At(k), n) && PastDrained(r.At(k + 1), n)
    requires DrainedAndCordoned(r.At(k), n)
    ensures r.Ev(k).UncordonedOutside(n) || DrainedAndCordoned(r.At(k + 1), n)
  {
    assert StepOk(cfg, r, k);
  }

  /** A Drained or Rebooting node stems from a write of Drained since which it stayed one of the
      two; it is drained and cordoned unless someone else has uncordoned it after that write. */
  lemma {:induction false} StatusConsistency(cfg: Config, r: Run, n: string, k: int) returns (p: int)
    requires Valid(cfg, r) && 0 <= k <= |r.steps| && NobodyInTurn(r.At(0)) && PastDrained(r.At(k), n)
    ensures DrainedSince(r, n, p, k)
  {
    if r.Ev(k - 1) == MarkDrained(n) || !PastDrained(r.At(k - 1), n) {
      DrainedStarts(cfg, r, n, k);
      p := k - 1;
    } else {
      p := StatusConsistency(cfg, r, n, k - 1);
      if DrainedAndCordoned(r.At(k - 1), n) {
        StatusKept(cfg, r, n, k - 1);
      } else {
        var m :| p < m < k - 1 && r.Ev(m).UncordonedOutside(n);
        assert p < m < k;
      }
    }
  }

  lemma DrainingStep(cfg: Config, r: Run, n: string, k: int)
    requires Valid(cfg, r) && 0 <= k < |r.steps|
    requires n in r.At(k).recs && r.At(k).recs[n].cs.Draining? ==> !r.At(k).recs[n].drained
    ensures n in r.At(k + 1).recs && r.At(k + 1).recs[n].cs.Draining? ==> !r.At(k + 1).recs[n].drained
  {
    assert StepOk(cfg, r, k);
  }

  /** A Draining node is never marked drained, in any run. */
  lemma {:induction false} DrainingIsNotDrained(cfg: Config, r: Run, n: string, k: int)
    requires Valid(cfg, r) && 0 <= k <= |r.steps| && NobodyInTurn(r.At(0))
    requires n in r.At(k).recs && r.At(k).recs[n].cs.Draining?
    ensures !r.At(k).recs[n].drained
  {
    if k > 0 {
      if n in r.At(k - 1).recs && r.At(k - 1).recs[n].cs.Draining? {
        DrainingIsNotDrained(cfg, r, n, k - 1);
      }
      DrainingStep(cfg, r, n, k - 1);
    }
  }

  // ---- cordons ----

  /** The controller makes a node schedulable only in Undraining right after an all-nodes check,
      or under Active outside the committed states with nobody else owning the cordon. */
  lemma UncordonDiscipline(cfg: Config, r: Run, k: int, n: string)
    requires Valid(cfg, r) && 0 <= k < |r.steps| && !r.Ev(k).Outside()
    requires n in r.At(k).kubes && n in r.At(k + 1).kubes
    requires r.At(k).kubes[n].unsched && !r.At(k + 1).kubes[n].unsched
    ensures n in r.At(k).recs
    ensures
      || (r.At(k).recs[n].cs.Undraining? && NodesHealthy(r.At(k)) && k > 0 && r.Ev(k - 1) == NodesReady(n))
      || (r.At(k).recs[n].spec.WantActive? && !r.At(k).recs[n].cs.Committed() && !r.At(k).kubes[n].manager.Foreign?)
  {
    assert StepOk(cfg, r, k);
    if k > 0 {
      assert StepOk(cfg, r, k - 1);
    }
  }

  predicate ForeignCordon(w: World, n: string) {
    n in w.kubes && w.kubes[n].unsched && w.kubes[n].manager.Foreign?
  }

  /** A foreign cordon on a node that does not reach Undraining is never removed by the
      controller, in any run. */
  lemma {:induction false} ForeignCordonIsKept(cfg: Config, r: Run, n: string, i: int, j: int)
    requires Valid(cfg, r) && 0 <= i <= j <= |r.steps|
    requires ForeignCordon(r.At(i), n)
    requires forall k :: i <= k < j ==> !r.Ev(k).CordonChangedOutside(n)
    requires forall k :: i <= k <= j && n in r.At(k).recs ==> !r.At(k).recs[n].cs.Undraining?
    ensures ForeignCordon(r.At(j), n)
  {
    if j > i {
      ForeignCordonIsKept(cfg, r, n, i, j - 1);
      assert StepOk(cfg, r, j - 1);
    }
  }

}
