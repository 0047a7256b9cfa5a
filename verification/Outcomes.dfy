/** What one reconcile in which no write fails makes of a node, request by request, with the answers
    of its calls left open: every outcome is stated on the states and the answers alone. */
module Outcomes {
  import opened NodeTypes
  import opened Plugins
  import opened World
  import opened Protocol
  import opened Reconcile
  import opened Convergence
  import Stages

  // ---- records that are missing or going ----

  /** A name without a kube node is left alone. */
  lemma NoKubeNode(cfg: Config, s: Sim, n: string, a: Answers)
    requires n !in s.run.now.kubes
    ensures Reconcile.Reconcile(cfg, s, n, a).run == s.run
  {
  }

  /** A kube node without a record gets one, which asks for what the node already is. */
  lemma RecordIsCreated(cfg: Config, s: Sim, n: string, a: Answers)
    requires Fresh(s) && n in s.run.now.kubes && n !in s.run.now.recs
    ensures var w, w' := s.run.now, Reconcile.Reconcile(cfg, s, n, a).run.now;
      && w'.kubes == w.kubes && n in w'.recs && w'.recs == w.recs[n := w'.recs[n]]
      && w'.recs[n].spec == (if w.kubes[n].unsched then WantCordoned else WantActive)
      && w'.recs[n].cs.Unset? && !w'.recs[n].drained && !w'.recs[n].deleting
      && w'.recs[n].required.None? && w'.recs[n].lastChecked.None?
  {
  }

  /** A record that is being deleted goes, whatever state it is in, and nothing else changes. */
  lemma RecordIsRemoved(cfg: Config, s: Sim, n: string, a: Answers)
    requires Fresh(s) && Present(s.run.now, n) && s.run.now.recs[n].deleting
    ensures var w, w' := s.run.now, Reconcile.Reconcile(cfg, s, n, a).run.now;
      w' == w.(recs := w.recs - {n})
  {
  }

  // ---- the periodic check ----

  lemma ChecksOutcome(cfg: Config, s: Sim, n: string, a: Answers)
    requires !s.stopped && s.fuel >= 2 && Managed(s.run.now, n) && !s.run.now.recs[n].cs.Work()
    ensures var s' := CheckRebootRequired(cfg, SyncDrained(s, n), n, a);
      && Live(s', n) && s'.fuel >= s.fuel - 2
      && VerdictOf(s.run.now.recs[n], cfg, s.run.now.clock, a, s'.run.now.recs[n])
      && s'.run.now.recs[n].cs == s.run.now.recs[n].cs
  {
  }

  /** `r'` has the verdict of a check if one was due at `now`, and else that of `r`. An interval of
      less than five minutes means a day, and times are kept in whole seconds. */
  predicate VerdictOf(r: Record, cfg: Config, now: int, a: Answers, r': Record) {
    var interval := if cfg.checkInterval < 5 * MINUTE then 24 * HOUR else cfg.checkInterval;
    var at := now + a.waits.0 + a.waits.1;
    if r.lastChecked.None? || r.lastChecked.value < now + a.waits.0 - interval
    then r'.required == Some(a.verdict) && r'.lastChecked == Some(at - at % SECOND)
    else r'.required == r.required && r'.lastChecked == r.lastChecked
  }

  lemma RequestKeepsVerdict(s: Sim, n: string)
    requires Live(s, n) && s.fuel >= 2 && !s.run.now.recs[n].cs.Work()
    ensures var r, w' := s.run.now.recs[n], Request(s, n).run.now;
      && n in w'.recs && w'.recs[n].required == r.required && w'.recs[n].lastChecked == r.lastChecked
      && !w'.recs[n].cs.Work()
  {
    var r, k := s.run.now.recs[n], s.run.now.kubes[n];
    var s1 := if r.spec.WantActive? && k.unsched then Do(s, Uncordon(n))
              else if r.spec.WantCordoned? && !k.unsched then Do(s, Cordon(n)) else s;
    assert Live(s1, n) && s1.fuel >= 1 && s1.run.now.recs == s.run.now.recs;
  }

  lemma ProgressKeepsVerdict(cfg: Config, s: Sim, n: string, a: Answers)
    requires n in s.run.now.recs && !s.run.now.recs[n].cs.Work()
    ensures var w' := Progress(cfg, s, n, a).run.now; var r := s.run.now.recs[n];
      n in w'.recs && w'.recs[n].required == r.required && w'.recs[n].lastChecked == r.lastChecked
  {
  }

  /** A node that does no work is checked exactly when its last check is missing or older than the
      configured interval, and the record then holds what the host answered, and when. */
  lemma PeriodicOutcome(cfg: Config, s: Sim, n: string, a: Answers)
    requires Fresh(s) && Managed(s.run.now, n) && !s.run.now.recs[n].cs.Work()
    ensures var w, w' := s.run.now, Reconcile.Reconcile(cfg, s, n, a).run.now;
      n in w'.recs && VerdictOf(w.recs[n], cfg, w.clock, a, w'.recs[n])
  {
    assert Undrain(cfg, s, n, a) == s;
    ChecksOutcome(cfg, s, n, a);
    var s1 := CheckRebootRequired(cfg, SyncDrained(s, n), n, a);
    RequestKeepsVerdict(s1, n);
    ProgressKeepsVerdict(cfg, Request(s1, n), n, a);
  }

  // ---- a request for Cordoned ----

  lemma CordonedRequest(s: Sim, n: string)
    requires Live(s, n) && s.fuel >= 2 && s.run.now.recs[n].spec.WantCordoned?
    ensures var s' := Request(s, n); var w, w' := s.run.now, s'.run.now;
      && Live(s', n) && OnlyChanges(w, w', n)
      && w'.recs[n] == w.recs[n].(cs := Cordoned) && w'.kubes[n].unsched
  {
  }

  lemma CordonedRest(cfg: Config, w: World, s: Sim, n: string, a: Answers)
    requires OnlyChanges(w, s.run.now, n) && Live(s, n) && s.fuel >= 4 && s.run.now.recs[n].spec.WantCordoned?
    ensures var w1, w' := s.run.now, Rest(cfg, s, n, a).run.now;
      && OnlyChanges(w, w', n) && Managed(w', n) && w'.recs[n].spec.WantCordoned?
      && w'.recs[n].cs.Cordoned? && w'.kubes[n].unsched
      && w'.recs[n].drained == (w1.recs[n].drained && w1.kubes[n].unsched)
  {
    ChecksChangeLittle(cfg, s, n, a);
    var s1 := CheckRebootRequired(cfg, SyncDrained(s, n), n, a);
    CordonedRequest(s1, n);
    var s2 := Request(s1, n);
    assert Progress(cfg, s2, n, a) == s2;
    ChangesAddUp(w, s.run.now, s1.run.now, n);
    ChangesAddUp(w, s1.run.now, s2.run.now, n);
  }

  /** From every state, one reconcile under Cordoned ends in Cordoned and unschedulable, and touches
      no other node; an undrain in progress is finished first. */
  lemma CordonedOutcome(cfg: Config, s: Sim, n: string, a: Answers)
    requires Fresh(s) && Managed(s.run.now, n) && s.run.now.recs[n].spec.WantCordoned?
    requires s.run.now.recs[n].cs.Undraining? ==>
      && HooksSucceed(AskedHooks(cfg.plugins, a.postDrain)) && (s.run.now.kubes[n].unsched ==> NodesHealthy(s.run.now))
    ensures var w, w' := s.run.now, Reconcile.Reconcile(cfg, s, n, a).run.now;
      && OnlyChanges(w, w', n) && Managed(w', n) && w'.recs[n].spec.WantCordoned?
      && w'.recs[n].cs.Cordoned? && w'.kubes[n].unsched
      && w'.recs[n].drained == (w.recs[n].drained && w.kubes[n].unsched && !w.recs[n].cs.Undraining?)
  {
    RestComesLast(cfg, s, n, a);
    if s.run.now.recs[n].cs.Undraining? {
      UndrainCompletes(cfg, s, n, a);
    } else {
      assert Undrain(cfg, s, n, a) == s;
    }
    CordonedRest(cfg, s.run.now, Undrain(cfg, s, n, a), n, a);
  }

  // ---- a request to drain: the queue ----

  lemma QueuesRest(cfg: Config, w: World, s: Sim, n: string, a: Answers)
    requires OnlyChanges(w, s.run.now, n) && Live(s, n) && s.fuel >= 3
    requires s.run.now.recs[n].spec.Drains() && (s.run.now.recs[n].cs.OK? || s.run.now.recs[n].cs.Cordoned?)
    ensures var w1, w' := s.run.now, Rest(cfg, s, n, a).run.now;
      && OnlyChanges(w, w', n) && Managed(w', n) && w'.kubes == w1.kubes && w'.recs[n].spec == w1.recs[n].spec
      && w'.recs[n].cs.Queued? && w'.recs[n].drained == (w1.recs[n].drained && w1.kubes[n].unsched)
  {
    ChecksChangeLittle(cfg, s, n, a);
    var s1 := CheckRebootRequired(cfg, SyncDrained(s, n), n, a);
    var s2 := Request(s1, n);
    StoppedStays(cfg, s2, n, a);
    ChangesAddUp(w, s.run.now, s1.run.now, n);
    ChangesAddUp(w, s1.run.now, s2.run.now, n);
  }

  /** A node asked to drain or to reboot is queued, from OK and from Cordoned, and after an undrain
      in progress has been finished. */
  lemma QueuedOutcome(cfg: Config, s: Sim, n: string, a: Answers)
    requires Fresh(s) && Managed(s.run.now, n) && s.run.now.recs[n].spec.Drains()
    requires s.run.now.recs[n].cs.OK? || s.run.now.recs[n].cs.Cordoned? || s.run.now.recs[n].cs.Undraining?
    requires s.run.now.recs[n].cs.Undraining? ==>
      && HooksSucceed(AskedHooks(cfg.plugins, a.postDrain)) && (s.run.now.kubes[n].unsched ==> NodesHealthy(s.run.now))
    ensures var w, w' := s.run.now, Reconcile.Reconcile(cfg, s, n, a).run.now;
      && OnlyChanges(w, w', n) && Managed(w', n) && w'.recs[n].spec == w.recs[n].spec && w'.recs[n].cs.Queued?
      && w'.kubes[n].unsched == (w.kubes[n].unsched && !w.recs[n].cs.Undraining?)
      && w'.recs[n].drained == (w.recs[n].drained && w.kubes[n].unsched && !w.recs[n].cs.Undraining?)
  {
    RestComesLast(cfg, s, n, a);
    if s.run.now.recs[n].cs.Undraining? {
      UndrainCompletes(cfg, s, n, a);
    } else {
      assert Undrain(cfg, s, n, a) == s;
    }
    QueuesRest(cfg, s.run.now, Undrain(cfg, s, n, a), n, a);
  }

  /** A queued node gets its turn exactly when no record at all works. */
  lemma TurnOutcome(cfg: Config, s: Sim, n: string, a: Answers)
    requires Fresh(s) && Managed(s.run.now, n) && s.run.now.recs[n].spec.Drains() && s.run.now.recs[n].cs.Queued?
    ensures var w, w' := s.run.now, Reconcile.Reconcile(cfg, s, n, a).run.now;
      && OnlyChanges(w, w', n) && Managed(w', n) && w'.kubes == w.kubes && w'.recs[n].spec == w.recs[n].spec
      && w'.recs[n].drained == (w.recs[n].drained && w.kubes[n].unsched)
      && w'.recs[n].cs == if forall m :: m in w.recs ==> w.recs[m].cs in {OK, Cordoned, Queued} then Next else Queued
  {
    assert Undrain(cfg, s, n, a) == s;
    ChecksChangeLittle(cfg, s, n, a);
    var s1 := CheckRebootRequired(cfg, SyncDrained(s, n), n, a);
    Stages.SameStatesSameWork(s.run.now, s1.run.now, n);
    Stages.TakesTurn(cfg, s1, n, a);
    NobodyWorksMeans(s.run.now);
    TurnWorld(s.run.now, s1.run.now, Progress(cfg, Request(s1, n), n, a).run.now, n);
  }

  lemma NobodyWorksMeans(w: World)
    ensures NobodyWorks(w) <==> forall m :: m in w.recs ==> w.recs[m].cs in {OK, Cordoned, Queued}
  {
  }

  lemma TurnWorld(w: World, w1: World, w2: World, n: string)
    requires OnlyChanges(w, w1, n) && w1.kubes == w.kubes && Managed(w1, n)
    requires w2 == w1 || w2 == Put(w1, n, w1.recs[n].(cs := Next))
    ensures OnlyChanges(w, w2, n) && w2.kubes == w.kubes && Managed(w2, n)
    ensures w2.recs[n] == w1.recs[n].(cs := w2.recs[n].cs)
  {
  }

  // ---- a request to drain: the turn ----

  /** A node that is drained and cordoned already is left alone by a Drained request. */
  lemma DrainedIsLeftAlone(cfg: Config, s: Sim, n: string, a: Answers)
    requires Fresh(s) && Managed(s.run.now, n) && s.run.now.recs[n].spec.WantDrained?
    requires s.run.now.recs[n].cs.Work() && !s.run.now.recs[n].cs.Undraining?
    requires s.run.now.recs[n].drained && s.run.now.kubes[n].unsched
    ensures Reconcile.Reconcile(cfg, s, n, a).run == s.run
  {
    Stages.TurnGoesOn(cfg, s, n, a);
    assert SyncDrained(s, n) == s && Verdict(s, n, a) == s;
    Stages.NothingToDrain(cfg, s, n, a);
    NoReboot(cfg, s, n, a);
  }

  /** Any other node is cordoned by it in its turn, and is drained unless the controller runs on it. */
  lemma DrainedOutcome(cfg: Config, s: Sim, n: string, a: Answers)
    requires Fresh(s) && Favourable(cfg, a) && Managed(s.run.now, n) && s.run.now.recs[n].spec.WantDrained?
    requires s.run.now.recs[n].cs.Work() && !s.run.now.recs[n].cs.Undraining?
    requires !(s.run.now.recs[n].drained && s.run.now.kubes[n].unsched)
    requires s.run.now.recs[n].cs.Next? ==> NodesHealthy(s.run.now)
    ensures var w, w' := s.run.now, Reconcile.Reconcile(cfg, s, n, a).run.now;
      && OnlyChanges(w, w', n) && w'.recs[n].spec.WantDrained? && w'.kubes[n].unsched
      && (if w.host != n then w'.recs[n].cs.Drained? && w'.recs[n].drained
          else !w'.recs[n].drained && w'.recs[n].cs == if w.recs[n].cs.Next? then Draining else w.recs[n].cs)
  {
    Stages.TurnGoesOn(cfg, s, n, a);
    var s1 := SyncDrained(s, n);
    SyncChangesLittle(s, n);
    assert Verdict(s1, n, a) == s1;
    SameHealth(s.run.now, s1.run.now, s1.run.now);
    DrainsOnly(cfg, s.run.now, s1, n, a);
  }

  lemma SyncChangesLittle(s: Sim, n: string)
    requires Fresh(s) && Managed(s.run.now, n)
    ensures var s' := SyncDrained(s, n); var w, w' := s.run.now, s'.run.now;
      && Live(s', n) && s'.fuel >= s.fuel - 1 && OnlyChanges(w, w', n) && w'.kubes == w.kubes
      && w'.recs[n] == w.recs[n].(drained := w.recs[n].drained && w.kubes[n].unsched)
  {
  }

  lemma DrainsOnly(cfg: Config, w: World, s: Sim, n: string, a: Answers)
    requires OnlyChanges(w, s.run.now, n) && Live(s, n) && s.fuel >= 7 && Favourable(cfg, a)
    requires s.run.now.recs[n].spec.WantDrained? && !s.run.now.recs[n].drained
    requires s.run.now.recs[n].cs.Next? ==> NodesHealthy(s.run.now)
    ensures var w1, w' := s.run.now, Reboot(cfg, Drain(cfg, s, n, a), n, a).run.now;
      && OnlyChanges(w, w', n) && w'.recs[n].spec.WantDrained? && w'.kubes[n].unsched
      && (if w1.host != n then w'.recs[n].cs.Drained? && w'.recs[n].drained
          else !w'.recs[n].drained && w'.recs[n].cs == if w1.recs[n].cs.Next? then Draining else w1.recs[n].cs)
  {
    DrainsNow(cfg, s, n, a);
    NoReboot(cfg, Drain(cfg, s, n, a), n, a);
    ChangesAddUp(w, s.run.now, Drain(cfg, s, n, a).run.now, n);
  }

  lemma NoReboot(cfg: Config, s: Sim, n: string, a: Answers)
    requires n in s.run.now.recs && s.run.now.recs[n].spec.WantDrained?
    ensures Reboot(cfg, s, n, a) == s
  {
  }

  lemma DrainsNow(cfg: Config, s: Sim, n: string, a: Answers)
    requires Live(s, n) && s.fuel >= 7 && Favourable(cfg, a)
    requires s.run.now.recs[n].spec.Drains() && !s.run.now.recs[n].drained
    requires s.run.now.recs[n].cs.Next? ==> NodesHealthy(s.run.now)
    ensures var w, w' := s.run.now, Drain(cfg, s, n, a).run.now;
      && OnlyChanges(w, w', n) && w'.recs[n].spec == w.recs[n].spec && w'.kubes[n].unsched
      && (if w.host != n then w'.recs[n].cs.Drained? && w'.recs[n].drained
          else !w'.recs[n].drained && w'.recs[n].cs == if w.recs[n].cs.Next? then Draining else w.recs[n].cs)
  {
    if s.run.now.host != n {
      Stages.DrainInTurn(cfg, s, n, a);
    } else {
      HostIsCordoned(cfg, s, n, a);
    }
  }

  lemma HostIsCordoned(cfg: Config, s: Sim, n: string, a: Answers)
    requires Live(s, n) && s.fuel >= 4 && Favourable(cfg, a) && s.run.now.host == n
    requires s.run.now.recs[n].spec.Drains() && !s.run.now.recs[n].drained
    requires s.run.now.recs[n].cs.Next? ==> NodesHealthy(s.run.now)
    ensures var w, w' := s.run.now, Drain(cfg, s, n, a).run.now;
      && OnlyChanges(w, w', n) && w'.kubes[n].unsched
      && w'.recs[n] == w.recs[n].(cs := if w.recs[n].cs.Next? then Draining else w.recs[n].cs)
  {
    Stages.ChecksThenEvict(cfg, s, n, a);
    Stages.ChecksPass(cfg, s, n, a);
    var s1 := DrainChecks(cfg, s, n, a);
    Stages.CordonsAndStops(cfg, s1, n, a);
    CordonAddsUp(s.run.now, s1.run.now, EvictPods(cfg, s1, n, a).run.now, n);
  }

  lemma CordonAddsUp(w: World, w1: World, w2: World, n: string)
    requires OnlyChanges(w, w1, n) && w2.recs == w1.recs && w2.host == w1.host && n in w2.kubes
    requires w2.kubes == w1.kubes[n := w2.kubes[n]]
    requires w2.kubes[n].conditions == w1.kubes[n].conditions && w2.kubes[n].bootId == w1.kubes[n].bootId
    ensures OnlyChanges(w, w2, n)
  {
  }

  // ---- what the plugins decide ----

  /** Every loaded plugin gives an answer, and is unsupported or says yes. */
  predicate AllSayYes(cfg: Config, q: map<string, Reply>) {
    forall id :: id in cfg.plugins ==>
      id in q && (q[id].supported == No || (q[id].supported == Yes && q[id].verdict == Yes))
  }

  /** Every loaded plugin gives an answer, and is unsupported or runs its hook without an error. */
  predicate AllHooksRun(cfg: Config, q: map<string, HookReply>) {
    forall id :: id in cfg.plugins ==>
      id in q && (q[id].supported == No || (q[id].supported == Yes && q[id].failure == None))
  }

  lemma YesMeansConsent(cfg: Config, q: map<string, Reply>)
    ensures AllConsent(Asked(cfg.plugins, q)) <==> AllSayYes(cfg, q)
  {
    var asked := Asked(cfg.plugins, q);
    assert forall id :: id in cfg.plugins <==> id in asked;
    forall id | id in cfg.plugins
      ensures asked[id].Consents() <==>
        id in q && (q[id].supported == No || (q[id].supported == Yes && q[id].verdict == Yes))
    {
    }
  }

  lemma RunMeansSuccess(cfg: Config, q: map<string, HookReply>)
    ensures HooksSucceed(AskedHooks(cfg.plugins, q)) <==> AllHooksRun(cfg, q)
  {
    var asked := AskedHooks(cfg.plugins, q);
    assert forall id :: id in cfg.plugins <==> id in asked;
    forall id | id in cfg.plugins
      ensures asked[id].Succeeds() <==>
        id in q && (q[id].supported == No || (q[id].supported == Yes && q[id].failure == None))
    {
    }
  }

  lemma FailedHooksKeepUndraining(cfg: Config, s: Sim, n: string, a: Answers)
    requires Live(s, n) && s.run.now.recs[n].cs.Undraining? && !HooksSucceed(AskedHooks(cfg.plugins, a.postDrain))
    ensures var s' := Undrain(cfg, s, n, a);
      s'.stopped && n in s'.run.now.recs && s'.run.now.recs[n].cs.Undraining?
  {
    var s1 := if s.run.now.kubes[n].unsched then Do(Do(s, NodesReady(n)), Uncordon(n)) else s;
    assert n in s1.run.now.recs && s1.run.now.recs[n] == s.run.now.recs[n];
    assert CompleteUndrain(cfg, s1, n, a).run == s1.run;
  }

  /** Wherever it fails, a reconcile takes a node out of Undraining only if the PostDrain hook of
      every loaded plugin runs. */
  lemma UndrainingNeedsHooks(cfg: Config, s: Sim, n: string, a: Answers)
    requires Live(s, n) && s.run.now.recs[n].cs.Undraining?
    ensures var w' := Reconcile.Reconcile(cfg, s, n, a).run.now;
      n !in w'.recs || !w'.recs[n].cs.Undraining? ==> AllHooksRun(cfg, a.postDrain)
  {
    RunMeansSuccess(cfg, a.postDrain);
    if !AllHooksRun(cfg, a.postDrain) {
      FailedHooksKeepUndraining(cfg, s, n, a);
      StoppedStays(cfg, Undrain(cfg, s, n, a), n, a);
    }
  }

  lemma UnreadyNodesKeepUndraining(cfg: Config, s: Sim, n: string, a: Answers)
    requires Live(s, n) && s.run.now.recs[n].cs.Undraining? && s.run.now.kubes[n].unsched && !NodesHealthy(s.run.now)
    ensures Reconcile.Reconcile(cfg, s, n, a).run == s.run
  {
    StoppedStays(cfg, Undrain(cfg, s, n, a), n, a);
  }

  /** When nothing fails to be written, it does so exactly when these hooks run and, on a node that is
      still cordoned, every node of the cluster is ready. */
  lemma UndrainingOutcome(cfg: Config, s: Sim, n: string, a: Answers)
    requires Fresh(s) && Managed(s.run.now, n) && s.run.now.recs[n].cs.Undraining?
    ensures var w, w' := s.run.now, Reconcile.Reconcile(cfg, s, n, a).run.now;
      && n in w'.recs
      && (!w'.recs[n].cs.Undraining? <==>
            AllHooksRun(cfg, a.postDrain) && (w.kubes[n].unsched ==> NodesHealthy(w)))
  {
    var w := s.run.now;
    RunMeansSuccess(cfg, a.postDrain);
    if w.kubes[n].unsched && !NodesHealthy(w) {
      UnreadyNodesKeepUndraining(cfg, s, n, a);
    } else if !AllHooksRun(cfg, a.postDrain) {
      FailedHooksKeepUndraining(cfg, s, n, a);
      StoppedStays(cfg, Undrain(cfg, s, n, a), n, a);
    } else if w.recs[n].spec.WantCordoned? {
      CordonedOutcome(cfg, s, n, a);
    } else if w.recs[n].spec.Drains() {
      QueuedOutcome(cfg, s, n, a);
    } else {
      ActiveAfterUndrain(cfg, s, n, a);
    }
  }

  lemma ActiveAfterUndrain(cfg: Config, s: Sim, n: string, a: Answers)
    requires Fresh(s) && HooksSucceed(AskedHooks(cfg.plugins, a.postDrain)) && Managed(s.run.now, n)
    requires s.run.now.recs[n].spec.WantActive? && s.run.now.recs[n].cs.Undraining?
    requires s.run.now.kubes[n].unsched ==> NodesHealthy(s.run.now)
    ensures Idle(Reconcile.Reconcile(cfg, s, n, a).run.now, n)
  {
    UndrainCompletes(cfg, s, n, a);
    var s1 := Undrain(cfg, s, n, a);
    if s1.run.now.kubes[n].manager.Foreign? {
      ForeignRestAfterUndrain(cfg, s.run.now, s1, n, a);
    } else {
      RestAfterUndrain(cfg, s.run.now, s1, n, a);
    }
    RestComesLast(cfg, s, n, a);
  }

  /** A drain that has passed its checks: the node is cordoned, and drained exactly when the PreDrain
      hook of every loaded plugin runs. */
  lemma DrainingOutcome(cfg: Config, s: Sim, n: string, a: Answers)
    requires Fresh(s) && Managed(s.run.now, n) && s.run.now.recs[n].spec.Drains() && s.run.now.recs[n].cs.Draining?
    requires !(s.run.now.recs[n].drained && s.run.now.kubes[n].unsched) && s.run.now.host != n
    ensures var w' := Reconcile.Reconcile(cfg, s, n, a).run.now;
      && Present(w', n) && w'.kubes[n].unsched
      && (w'.recs[n].drained <==> AllHooksRun(cfg, a.preDrain))
      && (if w'.recs[n].drained
          then w'.recs[n].cs == if s.run.now.recs[n].spec.WantReboot? then Rebooting else Drained
          else w'.recs[n].cs.Draining?)
  {
    Stages.TurnGoesOn(cfg, s, n, a);
    Stages.SyncKeepsVerdict(s, n);
    var s1 := SyncDrained(s, n);
    assert Verdict(s1, n, a) == s1 && s1.run.now.host != n;
    Stages.ChecksThenEvict(cfg, s1, n, a);
    assert DrainChecks(cfg, s1, n, a) == s1;
    RunMeansSuccess(cfg, a.preDrain);
    if AllHooksRun(cfg, a.preDrain) {
      EvictThenReboot(cfg, s1, n, a);
    } else {
      FailedHooksKeepDraining(cfg, s1, n, a);
    }
  }

  lemma EvictThenReboot(cfg: Config, s: Sim, n: string, a: Answers)
    requires Live(s, n) && s.fuel >= 7 && HooksSucceed(AskedHooks(cfg.plugins, a.preDrain)) && s.run.now.host != n
    requires s.run.now.recs[n].spec.Drains()
    ensures var w' := Reboot(cfg, EvictPods(cfg, s, n, a), n, a).run.now;
      && Present(w', n) && w'.kubes[n].unsched && w'.recs[n].drained
      && w'.recs[n].cs == if s.run.now.recs[n].spec.WantReboot? then Rebooting else Drained
  {
    Stages.EvictAtDraining(cfg, s, n, a);
    var s1 := EvictPods(cfg, s, n, a);
    if s.run.now.recs[n].spec.WantReboot? {
      Stages.IssuesReboot(cfg, s1, n, a);
    }
  }

  lemma FailedHooksKeepDraining(cfg: Config, s: Sim, n: string, a: Answers)
    requires Live(s, n) && s.fuel >= 2 && !HooksSucceed(AskedHooks(cfg.plugins, a.preDrain)) && s.run.now.host != n
    ensures var w' := Reboot(cfg, EvictPods(cfg, s, n, a), n, a).run.now;
      Present(w', n) && w'.kubes[n].unsched && w'.recs[n] == s.run.now.recs[n]
  {
    var s1 := if s.run.now.kubes[n].unsched then s else Do(s, Cordon(n));
    assert !s1.stopped && s1.run.now.recs == s.run.now.recs && n in s1.run.now.kubes && s1.run.now.kubes[n].unsched;
    var s2 := EvictPods(cfg, s, n, a);
    assert s2.stopped && s2.run.now == s1.run.now;
    StoppedStays(cfg, s2, n, a);
  }

  /** A turn leaves Next exactly when every node is ready and every loaded plugin says yes to both
      questions; under RebootIfRequired, when the verdict asks for the reboot. */
  lemma NextOutcome(cfg: Config, s: Sim, n: string, a: Answers)
    requires Fresh(s) && Managed(s.run.now, n) && s.run.now.recs[n].spec.Drains() && s.run.now.recs[n].cs.Next?
    requires !(s.run.now.recs[n].drained && s.run.now.kubes[n].unsched)
    requires s.run.now.recs[n].spec.WantReboot? ==> !Stages.NotRequired(s.run.now, n, a)
    ensures var w, w' := s.run.now, Reconcile.Reconcile(cfg, s, n, a).run.now;
      && n in w'.recs
      && (!w'.recs[n].cs.Next? <==> NodesHealthy(w) && AllSayYes(cfg, a.health) && AllSayYes(cfg, a.drainOk))
  {
    Stages.TurnGoesOn(cfg, s, n, a);
    Stages.SyncKeepsVerdict(s, n);
    var s1 := SyncDrained(s, n);
    PositiveGoesOn(s1, n, a);
    var s2 := Verdict(s1, n, a);
    SameHealth(s.run.now, s1.run.now, s2.run.now);
    LeavesNextIf(cfg, s2, n, a);
  }

  lemma LeavesNextIf(cfg: Config, s: Sim, n: string, a: Answers)
    requires Live(s, n) && s.fuel >= 3 && s.run.now.recs[n].cs.Next?
    requires s.run.now.recs[n].spec.Drains() && !s.run.now.recs[n].drained
    ensures var w, w' := s.run.now, Reboot(cfg, Drain(cfg, s, n, a), n, a).run.now;
      && n in w'.recs
      && (!w'.recs[n].cs.Next? <==> NodesHealthy(w) && AllSayYes(cfg, a.health) && AllSayYes(cfg, a.drainOk))
  {
    Stages.ChecksThenEvict(cfg, s, n, a);
    YesMeansConsent(cfg, a.health);
    YesMeansConsent(cfg, a.drainOk);
    ChecksDecide(cfg, s, n, a);
    NeverBackToNext(cfg, DrainChecks(cfg, s, n, a), n, a);
  }

  lemma SameHealth(w: World, w1: World, w2: World)
    requires w1.kubes == w.kubes && w2.kubes == w1.kubes
    ensures NodesHealthy(w2) <==> NodesHealthy(w)
  {
  }

  lemma PositiveGoesOn(s: Sim, n: string, a: Answers)
    requires Live(s, n) && s.fuel >= 2 && s.run.now.recs[n].cs.Next? && s.run.now.recs[n].spec.Drains()
    requires s.run.now.recs[n].spec.WantReboot? ==> !Stages.NotRequired(s.run.now, n, a)
    ensures var s' := Verdict(s, n, a);
      && Live(s', n) && s'.fuel >= s.fuel - 1 && s'.run.now.kubes == s.run.now.kubes
      && s'.run.now.recs[n].cs.Next? && s'.run.now.recs[n].spec == s.run.now.recs[n].spec
      && s'.run.now.recs[n].drained == s.run.now.recs[n].drained
  {
    if s.run.now.recs[n].spec.WantReboot? {
      Stages.RenewDecides(s, n, a);
    }
  }

  lemma ChecksDecide(cfg: Config, s: Sim, n: string, a: Answers)
    requires Live(s, n) && s.fuel >= 3 && s.run.now.recs[n].cs.Next?
    ensures var s' := DrainChecks(cfg, s, n, a);
      && n in s'.run.now.recs
      && if && NodesHealthy(s.run.now)
            && AllConsent(Asked(cfg.plugins, a.health)) && AllConsent(Asked(cfg.plugins, a.drainOk))
         then s'.run.now.recs[n].cs.Draining? else s'.stopped && s'.run.now.recs[n].cs.Next?
  {
    if NodesHealthy(s.run.now) && AllConsent(Asked(cfg.plugins, a.health)) {
      var s1 := Do(s, Healthy(n, Asked(cfg.plugins, a.health), a.took.0));
      assert Live(s1, n) && s1.run.now.recs == s.run.now.recs && s1.fuel == s.fuel - 1;
    }
  }

  lemma NeverBackToNext(cfg: Config, s: Sim, n: string, a: Answers)
    requires n in s.run.now.recs && (s.stopped || !s.run.now.recs[n].cs.Next?)
    ensures var w' := Reboot(cfg, EvictPods(cfg, s, n, a), n, a).run.now;
      n in w'.recs && (w'.recs[n].cs.Next? <==> s.run.now.recs[n].cs.Next?)
  {
    if s.stopped {
      StoppedStays(cfg, s, n, a);
    } else {
      EvictLeavesNext(cfg, s, n, a);
      RebootLeavesNext(cfg, EvictPods(cfg, s, n, a), n, a);
    }
  }

  lemma EvictLeavesNext(cfg: Config, s: Sim, n: string, a: Answers)
    requires n in s.run.now.recs && !s.run.now.recs[n].cs.Next?
    ensures var w' := EvictPods(cfg, s, n, a).run.now; n in w'.recs && !w'.recs[n].cs.Next?
  {
    if Live(s, n) {
      var s1 := if s.run.now.kubes[n].unsched then s else Do(s, Cordon(n));
      assert s1.run.now.recs == s.run.now.recs;
      EvictNowLeavesNext(cfg, s1, n, a);
    }
  }

  lemma EvictNowLeavesNext(cfg: Config, s: Sim, n: string, a: Answers)
    requires n in s.run.now.recs && !s.run.now.recs[n].cs.Next?
    ensures var w' := EvictNow(cfg, s, n, a).run.now; n in w'.recs && !w'.recs[n].cs.Next?
  {
    var hooks := AskedHooks(cfg.plugins, a.preDrain);
    WriteLeavesNext(s, n, PreDrain(n, hooks));
    var s1 := Do(s, PreDrain(n, hooks));
    WriteLeavesNext(s1, n, Evict(n));
    WriteLeavesNext(Do(s1, Evict(n)), n, MarkDrained(n));
  }

  /** The effects of an eviction and of a reboot. */
  lemma WriteLeavesNext(s: Sim, n: string, e: Event)
    requires n in s.run.now.recs && !s.run.now.recs[n].cs.Next?
    requires !e.Outside() && !e.CreateRecord? && !e.Finalize? && (e.SetState? ==> e.state.Rebooting?)
    ensures var w' := Do(s, e).run.now; n in w'.recs && !w'.recs[n].cs.Next?
  {
  }

  lemma RebootLeavesNext(cfg: Config, s: Sim, n: string, a: Answers)
    requires n in s.run.now.recs && !s.run.now.recs[n].cs.Next?
    ensures var w' := Reboot(cfg, s, n, a).run.now; n in w'.recs && !w'.recs[n].cs.Next?
  {
    if Live(s, n) {
      StartLeavesNext(cfg, s, n);
      FinishLeavesNext(cfg, s, n, a);
    }
  }

  lemma FinishLeavesNext(cfg: Config, s: Sim, n: string, a: Answers)
    requires n in s.run.now.recs && !s.run.now.recs[n].cs.Next?
    ensures var w' := FinishReboot(cfg, s, n, a).run.now; n in w'.recs && !w'.recs[n].cs.Next?
  {
    var e := Rebooted(n, s.run.now.clock + a.waits.1);
    WriteLeavesNext(s, n, e);
    WriteLeavesNext(Do(s, e), n, SetActive(n));
  }

  lemma StartLeavesNext(cfg: Config, s: Sim, n: string)
    requires Live(s, n) && !s.run.now.recs[n].cs.Next?
    ensures var w' := StartReboot(cfg, s, n).run.now; n in w'.recs && !w'.recs[n].cs.Next?
  {
    WriteLeavesNext(s, n, SaveBoot(n));
    var s1 := if s.run.now.kubes[n].bootId != s.run.now.recs[n].bootId then Do(s, SaveBoot(n)) else s;
    WriteLeavesNext(s1, n, RebootPod(n));
    var s2 := if cfg.containerNode then s1 else Do(s1, RebootPod(n));
    WriteLeavesNext(s2, n, SetState(n, Rebooting));
  }

  // ---- the end of a reboot ----

  /** A Rebooting node that is drained and cordoned is handed back exactly when the nodes are
      containers, or when its boot ID differs from the saved one and some Ready condition is true;
      otherwise nothing happens. */
  lemma RebootingOutcome(cfg: Config, s: Sim, n: string, a: Answers)
    requires Fresh(s) && Managed(s.run.now, n) && s.run.now.recs[n].spec.WantReboot? && s.run.now.recs[n].cs.Rebooting?
    requires s.run.now.recs[n].drained && s.run.now.kubes[n].unsched
    ensures var w, s' := s.run.now, Reconcile.Reconcile(cfg, s, n, a); var k := w.kubes[n];
      if cfg.containerNode ||
         (k.bootId != w.recs[n].bootId && exists c :: c in k.conditions && c.isReady && c.status == Up)
      then && OnlyChanges(w, s'.run.now, n) && s'.run.now.kubes == w.kubes
           && s'.run.now.recs[n].spec.WantActive? && s'.run.now.recs[n].cs.Rebooting?
           && s'.run.now.recs[n].bootId == "" && s'.run.now.recs[n].required == Some(false)
      else s'.run == s.run
  {
    Stages.RebootingOnlyFinishes(cfg, s, n, a);
    FinishOutcome(cfg, s, n, a);
  }

  lemma FinishOutcome(cfg: Config, s: Sim, n: string, a: Answers)
    requires Fresh(s) && Managed(s.run.now, n) && s.run.now.recs[n].spec.WantReboot? && s.run.now.recs[n].cs.Rebooting?
    ensures var w, s' := s.run.now, Reboot(cfg, s, n, a); var k := w.kubes[n];
      if cfg.containerNode ||
         (k.bootId != w.recs[n].bootId && exists c :: c in k.conditions && c.isReady && c.status == Up)
      then && OnlyChanges(w, s'.run.now, n) && s'.run.now.kubes == w.kubes
           && s'.run.now.recs[n].spec.WantActive? && s'.run.now.recs[n].cs.Rebooting?
           && s'.run.now.recs[n].bootId == "" && s'.run.now.recs[n].required == Some(false)
      else s'.run == s.run
  {
    var s1 := Do(s, Rebooted(n, s.run.now.clock + a.waits.1));
    assert Live(s1, n) && s1.fuel >= 1 && s1.run.now.kubes == s.run.now.kubes;
  }
}
