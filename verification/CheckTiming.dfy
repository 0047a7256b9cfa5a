/** How close together the periodic reboot-required checks of a node can be. */
module CheckTiming {
  import opened NodeTypes
  import opened World
  import opened Protocol
  import opened Reconcile

  /** The `k`-th effect is a periodic check of `n`. */
  predicate Periodic(r: Run, n: string, k: int)
    requires 0 <= k < |r.steps|
  {
    r.Ev(k).Checked? && r.Ev(k).node == n && r.Ev(k).periodic
  }

  /** The periodic checks of `n` among the effects from `i` up to, not including, `j`. */
  function Count(r: Run, n: string, i: int, j: int): nat
    requires 0 <= i <= j <= |r.steps|
    decreases j - i
  {
    if i == j then 0 else Count(r, n, i, j - 1) + if Periodic(r, n, j - 1) then 1 else 0
  }

  lemma StoredIsMonotone(t: int, u: int)
    requires t <= u
    ensures Stored(t) <= Stored(u) && Stored(t) <= t < Stored(t) + SECOND
  {
  }

  /** No writer of the last-checked time sets it back. */
  lemma {:induction false} LastCheckedNeverFalls(cfg: Config, r: Run, n: string, i: int, m: int)
    requires Valid(cfg, r) && 0 <= i < m <= |r.steps|
    requires r.Ev(i).Checked? && r.Ev(i).node == n
    requires forall k :: i < k < m ==> !r.Ev(k).Removes(n)
    ensures r.Ev(i).at <= r.At(m).clock
    ensures n in r.At(m).recs && r.At(m).recs[n].lastChecked.Some?
    ensures Stored(r.Ev(i).at) <= r.At(m).recs[n].lastChecked.value
  {
    assert StepOk(cfg, r, m - 1);
    if m > i + 1 {
      LastCheckedNeverFalls(cfg, r, n, i, m - 1);
      if r.Ev(m - 1).Checked? || r.Ev(m - 1).Rebooted? {
        StoredIsMonotone(r.Ev(i).at, r.Ev(m - 1).at);
      }
    }
  }

  /** Between two checks of `n`, the later one periodic, more than the effective interval passes
      from the recorded time of the first. */
  lemma CheckGap(cfg: Config, r: Run, n: string, i: int, j: int)
    requires Valid(cfg, r) && 0 <= i < j < |r.steps| && Periodic(r, n, i) && Periodic(r, n, j)
    requires forall k :: i < k < j ==> !r.Ev(k).Removes(n)
    ensures Stored(r.Ev(i).at) + EffectiveInterval(cfg) < r.Ev(j).at
  {
    LastCheckedNeverFalls(cfg, r, n, i, j);
    assert StepOk(cfg, r, j);
  }

  lemma {:induction false} LastPeriodic(r: Run, n: string, i: int, j: int) returns (p: int)
    requires 0 <= i < j <= |r.steps| && Periodic(r, n, i)
    ensures i <= p < j && Periodic(r, n, p) && Count(r, n, i, j) == Count(r, n, i, p) + 1
  {
    if Periodic(r, n, j - 1) {
      p := j - 1;
    } else {
      p := LastPeriodic(r, n, i, j - 1);
    }
  }

  lemma AddOne(k: nat, a: int, b: int, gap: int)
    requires k * gap <= a && gap <= b
    ensures (k + 1) * gap <= a + b
  {
  }

  /** The whole seconds by which two recorded times must differ when a check is due after more than
      `interval`: all of it when it is a number of seconds itself. */
  function RecordedGap(interval: int): int {
    Stored(interval + 1)
  }

  lemma GapIsRecorded(t: int, u: int, interval: int)
    requires Stored(t) + interval < u
    ensures Stored(t) + RecordedGap(interval) <= Stored(u)
  {
  }

  /** The recorded times of k periodic checks of one node are at least k - 1 recorded gaps apart,
      whoever else writes the last-checked time in between. `Count` is k - 1. */
  lemma {:induction false} RecordedSpacing(cfg: Config, r: Run, n: string, i: int, j: int)
    requires Valid(cfg, r) && 0 <= i <= j < |r.steps| && Periodic(r, n, i) && Periodic(r, n, j)
    requires forall k :: i < k < j ==> !r.Ev(k).Removes(n)
    ensures Count(r, n, i, j) * RecordedGap(EffectiveInterval(cfg)) <= Stored(r.Ev(j).at) - Stored(r.Ev(i).at)
    decreases j
  {
    if i < j {
      var p := LastPeriodic(r, n, i, j);
      RecordedSpacing(cfg, r, n, i, p);
      CheckGap(cfg, r, n, p, j);
      GapIsRecorded(r.Ev(p).at, r.Ev(j).at, EffectiveInterval(cfg));
      AddOne(Count(r, n, i, p), Stored(r.Ev(p).at) - Stored(r.Ev(i).at),
             Stored(r.Ev(j).at) - Stored(r.Ev(p).at), RecordedGap(EffectiveInterval(cfg)));
    }
  }

  /** For every configured interval, k periodic checks of one node take at least k - 2 recorded
      gaps and one interval, less one second in all. */
  lemma {:induction false} PeriodicSpacing(cfg: Config, r: Run, n: string, i: int, j: int)
    requires Valid(cfg, r) && 0 <= i < j < |r.steps| && Periodic(r, n, i) && Periodic(r, n, j)
    requires forall k :: i < k < j ==> !r.Ev(k).Removes(n)
    ensures var interval := EffectiveInterval(cfg);
      (Count(r, n, i, j) - 1) * RecordedGap(interval) + interval - SECOND + 2 <= r.Ev(j).at - r.Ev(i).at
  {
    var p := LastPeriodic(r, n, i, j);
    RecordedSpacing(cfg, r, n, i, p);
    CheckGap(cfg, r, n, p, j);
    StoredIsMonotone(r.Ev(i).at, r.Ev(i).at);
  }

  /** With an interval of whole seconds that is k - 1 intervals less one second: the part of a
      second that recording loses does not add up. */
  lemma {:induction false} WholeSecondSpacing(cfg: Config, r: Run, n: string, i: int, j: int)
    requires Valid(cfg, r) && 0 <= i < j < |r.steps| && Periodic(r, n, i) && Periodic(r, n, j)
    requires forall k :: i < k < j ==> !r.Ev(k).Removes(n)
    requires cfg.checkInterval % SECOND == 0
    ensures Count(r, n, i, j) * EffectiveInterval(cfg) - SECOND + 2 <= r.Ev(j).at - r.Ev(i).at
    ensures Count(r, n, i, j) * EffectiveInterval(cfg) <= Stored(r.Ev(j).at) - Stored(r.Ev(i).at)
  {
    PeriodicSpacing(cfg, r, n, i, j);
    RecordedSpacing(cfg, r, n, i, j);
    WholeGap(cfg);
    OneLess(Count(r, n, i, j), EffectiveInterval(cfg));
  }

  lemma WholeGap(cfg: Config)
    requires cfg.checkInterval % SECOND == 0
    ensures RecordedGap(EffectiveInterval(cfg)) == EffectiveInterval(cfg)
  {
  }

  lemma OneLess(k: nat, gap: int)
    ensures (k - 1) * gap + gap == k * gap
  {
  }

  /** `m` gaps after `start`. */
  function After(start: int, gap: int, m: nat): int {
    if m == 0 then start else After(start, gap, m - 1) + gap
  }

  lemma {:induction false} AfterIsSum(start: int, gap: int, m: nat)
    ensures After(start, gap, m) == start + m * gap
  {
    if m > 0 {
      AfterIsSum(start, gap, m - 1);
      assert m * gap == (m - 1) * gap + gap;
    }
  }

  lemma {:induction false} AfterIsWhole(start: int, gap: int, m: nat)
    requires start % SECOND == 0 && gap % SECOND == 0
    ensures After(start, gap, m) % SECOND == 0
  {
    if m > 0 {
      AfterIsWhole(start, gap, m - 1);
    }
  }

  lemma StoredIsWhole(t: int)
    ensures Stored(t) % SECOND == 0 && Stored(t) <= t < Stored(t) + SECOND
  {
  }

  /** When the `m`-th check of the tightest series from `start` happens: the first at the end of a
      second, each later one just after its interval from the recorded time of the one before. */
  function TightTime(cfg: Config, start: int, m: nat): int {
    var interval := EffectiveInterval(cfg);
    if m == 0 then start + SECOND - 1 else After(start, RecordedGap(interval), m - 1) + interval + 1
  }

  /** `r` is the tightest series of `k` checks of `n`, and nothing else. */
  ghost predicate TightChecks(cfg: Config, r: Run, n: string, start: int, k: nat) {
    && k > 0 && |r.steps| == k && IdleNode(r.now, n)
    && (forall m :: 0 <= m < k ==> Periodic(r, n, m) && r.Ev(m).at == TightTime(cfg, start, m))
    && r.now.clock == TightTime(cfg, start, k - 1)
    && r.now.recs[n].lastChecked == Some(Stored(r.now.clock))
  }

  lemma WholePlus(whole: int, t: int)
    requires whole % SECOND == 0
    ensures Stored(whole + t) == whole + Stored(t)
  {
  }

  lemma TightTimeIsStored(cfg: Config, start: int, m: nat)
    requires start % SECOND == 0
    ensures Stored(TightTime(cfg, start, m)) == After(start, RecordedGap(EffectiveInterval(cfg)), m)
  {
    if m == 0 {
      EndOfSecond(start);
    } else {
      LaterIsStored(start, EffectiveInterval(cfg), m - 1);
    }
  }

  lemma EndOfSecond(start: int)
    requires start % SECOND == 0
    ensures Stored(start + SECOND - 1) == start
  {
  }

  lemma {:induction false} LaterIsStored(start: int, interval: int, m: nat)
    requires start % SECOND == 0
    ensures Stored(After(start, RecordedGap(interval), m) + interval + 1) == After(start, RecordedGap(interval), m + 1)
  {
    StoredIsWhole(interval + 1);
    StoredAfter(start, RecordedGap(interval), m, interval + 1);
  }

  lemma {:induction false} StoredAfter(start: int, gap: int, m: nat, t: int)
    requires start % SECOND == 0 && gap % SECOND == 0
    ensures Stored(After(start, gap, m) + t) == After(start, gap, m) + Stored(t)
  {
    AfterIsWhole(start, gap, m);
    WholePlus(After(start, gap, m), t);
  }

  lemma {:induction false} TightSpan(cfg: Config, start: int, k: nat)
    requires k >= 2
    ensures var interval := EffectiveInterval(cfg);
      TightTime(cfg, start, k - 1) - TightTime(cfg, start, 0) == (k - 2) * RecordedGap(interval) + interval - SECOND + 2
  {
    AfterIsSum(start, RecordedGap(EffectiveInterval(cfg)), k - 2);
  }

  lemma NextTightTime(cfg: Config, start: int, m: nat)
    requires start % SECOND == 0
    ensures TightTime(cfg, start, m) <= TightTime(cfg, start, m + 1)
    ensures Due(Some(Stored(TightTime(cfg, start, m))), TightTime(cfg, start, m + 1), EffectiveInterval(cfg))
  {
    TightTimeIsStored(cfg, start, m);
    StoredIsWhole(EffectiveInterval(cfg) + 1);
  }

  lemma ExtendTight(cfg: Config, r: Run, r': Run, n: string, start: int, k: nat)
    requires TightChecks(cfg, r, n, start, k) && IdleNode(r'.now, n)
    requires r' == Extend(r, Checked(n, false, TightTime(cfg, start, k), true))
    ensures TightChecks(cfg, r', n, start, k + 1)
  {
    forall m | 0 <= m < k + 1 ensures Periodic(r', n, m) && r'.Ev(m).at == TightTime(cfg, start, m) {
      if m < k {
        assert Periodic(r, n, m) && r'.Ev(m) == r.Ev(m);
      }
    }
  }

  /** Reconciling an idle node at the right moments makes the tightest series, of any length. */
  lemma {:induction false} TightSeries(cfg: Config, w: World, n: string, start: int, k: nat)
    returns (acts: seq<Action>)
    requires k > 0 && IdleNode(w, n) && w.recs[n].lastChecked.None?
    requires start % SECOND == 0 && start <= w.clock < start + SECOND
    ensures |acts| == k && TightChecks(cfg, Behaviour(cfg, w, acts), n, start, k)
  {
    if k == 1 {
      var a, r := CheckAfter(cfg, Run([], w), n, start + SECOND - 1 - w.clock);
      acts := [] + [Reconciles(n, a, 1)];
      ActsOneMore(cfg, Run([], w), [], Reconciles(n, a, 1));
    } else {
      var before := TightSeries(cfg, w, n, start, k - 1);
      var act := OneMoreTight(cfg, Behaviour(cfg, w, before), n, start, k - 1);
      acts := before + [act];
      ActsOneMore(cfg, Run([], w), before, act);
    }
  }

  lemma OneMoreTight(cfg: Config, r: Run, n: string, start: int, k: nat) returns (act: Action)
    requires start % SECOND == 0 && TightChecks(cfg, r, n, start, k)
    ensures TightChecks(cfg, Act(cfg, r, act), n, start, k + 1)
  {
    NextTightTime(cfg, start, k - 1);
    var a, r' := CheckAfter(cfg, r, n, TightTime(cfg, start, k) - r.now.clock);
    act := Reconciles(n, a, 1);
    ExtendTight(cfg, r, r', n, start, k);
  }

  lemma {:induction false} AllCounted(r: Run, n: string, j: int)
    requires 0 <= j <= |r.steps| && forall m :: 0 <= m < j ==> Periodic(r, n, m)
    ensures Count(r, n, 0, j) == j
  {
    if j > 0 {
      AllCounted(r, n, j - 1);
    }
  }

  /** The bound of `PeriodicSpacing` is exact for every interval and every number of checks: `k`
      reconciles of an idle node can make `k` periodic checks that close together. */
  lemma SpacingIsExact(cfg: Config, w: World, n: string, k: nat) returns (acts: seq<Action>, r: Run)
    requires k >= 2 && IdleNode(w, n) && w.recs[n].lastChecked.None?
    ensures r == Behaviour(cfg, w, acts) && |acts| == |r.steps| == k
    ensures Periodic(r, n, 0) && Periodic(r, n, k - 1) && Count(r, n, 0, k - 1) == k - 1
    ensures var interval := EffectiveInterval(cfg);
      r.Ev(k - 1).at - r.Ev(0).at == (k - 2) * RecordedGap(interval) + interval - SECOND + 2
  {
    StoredIsWhole(w.clock);
    acts := TightSeries(cfg, w, n, Stored(w.clock), k);
    r := Behaviour(cfg, w, acts);
    AllCounted(r, n, k - 1);
    TightSpan(cfg, Stored(w.clock), k);
  }

  /** The reconcile of an idle node whose check is due in `wait` checks it then. */
  lemma CheckAfter(cfg: Config, r: Run, n: string, wait: nat) returns (a: Answers, r': Run)
    requires IdleNode(r.now, n) && Due(r.now.recs[n].lastChecked, r.now.clock + wait, EffectiveInterval(cfg))
    ensures r' == Act(cfg, r, Reconciles(n, a, 1))
    ensures r' == Extend(r, Checked(n, false, r.now.clock + wait, true)) && IdleNode(r'.now, n)
    ensures r'.now.recs[n].lastChecked == Some(Stored(r.now.clock + wait)) && r'.now.clock == r.now.clock + wait
  {
    a := Answers(map[], map[], map[], map[], false, (wait, 0), (0, 0));
    ReconcileOnlyChecks(cfg, r, n, a);
    r' := Extend(r, Checked(n, false, r.now.clock + wait, true));
  }

  predicate IdleNode(w: World, n: string) {
    && Managed(w, n) && w.recs[n].spec.WantActive? && w.recs[n].cs.OK? && !w.recs[n].drained
    && !w.kubes[n].unsched && w.kubes[n].manager.Nobody?
  }

  /** The reconcile of an idle node does nothing but the periodic check that is due. */
  lemma ReconcileOnlyChecks(cfg: Config, r: Run, n: string, a: Answers)
    requires IdleNode(r.now, n)
    requires Due(r.now.recs[n].lastChecked, r.now.clock + a.waits.0, EffectiveInterval(cfg))
    ensures Act(cfg, r, Reconciles(n, a, 1)) ==
            Extend(r, Checked(n, a.verdict, r.now.clock + a.waits.0 + a.waits.1, true))
  {
    var s := Sim(r, 1, false);
    assert Undrain(cfg, s, n, a) == s && SyncDrained(s, n) == s;
    var s1 := CheckRebootRequired(cfg, s, n, a);
    assert Request(s1, n) == s1;
    assert Progress(cfg, s1, n, a) == s1;
  }
}
