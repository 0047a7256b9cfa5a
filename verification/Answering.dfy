/** What a reconcile records is what its calls answered: every effect of a reconcile of `n` is an
    effect on `n`, and the ones that carry an answer carry the answer given in that reconcile. */
module Answering {
  import opened NodeTypes
  import opened Plugins
  import opened World
  import opened Protocol
  import opened Reconcile

  /** `q` holds the answer of every loaded plugin, and an error where there is none. */
  predicate Replied(cfg: Config, q: map<string, Reply>, answers: map<string, Reply>) {
    && q.Keys == cfg.plugins
    && forall id :: id in cfg.plugins ==> if id in answers then q[id] == answers[id] else q[id].supported.Err?
  }

  predicate HooksReplied(cfg: Config, q: map<string, HookReply>, answers: map<string, HookReply>) {
    && q.Keys == cfg.plugins
    && forall id :: id in cfg.plugins ==> if id in answers then q[id] == answers[id] else q[id].supported.Err?
  }

  /** The effect `e`, had in state `w` by a reconcile of `n`, says what the calls answered. */
  predicate Told(cfg: Config, w: World, n: string, a: Answers, e: Event) {
    && e.On(n)
    && match e
       case Checked(_, verdict, at, _) => verdict == a.verdict && at == w.clock + a.waits.0 + a.waits.1
       case Rebooted(_, at) => at == w.clock + a.waits.1
       case Healthy(_, q, took) => Replied(cfg, q, a.health) && took == a.took.0
       case DrainOk(_, q, took) => Replied(cfg, q, a.drainOk) && took == a.took.1
       case PreDrain(_, q) => HooksReplied(cfg, q, a.preDrain)
       case PostDrain(_, q) => HooksReplied(cfg, q, a.postDrain)
       case _ => true
  }

  ghost predicate ToldAt(cfg: Config, n: string, a: Answers, r: Run, k: int) {
    0 <= k < |r.steps| ==> Told(cfg, r.At(k), n, a, r.Ev(k))
  }

  /** Every effect that `s'` adds to the run of `s` says what the calls answered. */
  ghost predicate Tells(cfg: Config, n: string, a: Answers, s: Sim, s': Sim) {
    Continues(s, s') && forall k :: |s.run.steps| <= k ==> ToldAt(cfg, n, a, s'.run, k)
  }

  lemma DoTells(cfg: Config, n: string, a: Answers, s: Sim, e: Event)
    requires !e.Outside() && (!s.stopped ==> Told(cfg, s.run.now, n, a, e))
    ensures Tells(cfg, n, a, s, Do(s, e))
  {
  }

  lemma ThenTells(cfg: Config, n: string, a: Answers, s: Sim, s1: Sim, s2: Sim)
    requires Tells(cfg, n, a, s, s1) && Tells(cfg, n, a, s1, s2)
    ensures Tells(cfg, n, a, s, s2)
  {
    forall k | |s.run.steps| <= k ensures ToldAt(cfg, n, a, s2.run, k) {
      if k < |s1.run.steps| {
        assert ToldAt(cfg, n, a, s1.run, k) && s2.run.steps[k] == s1.run.steps[k];
      }
    }
  }

  lemma ThenDoTells(cfg: Config, n: string, a: Answers, s: Sim, s1: Sim, e: Event)
    requires Tells(cfg, n, a, s, s1) && !e.Outside() && (!s1.stopped ==> Told(cfg, s1.run.now, n, a, e))
    ensures Tells(cfg, n, a, s, Do(s1, e)) && Tells(cfg, n, a, s, Stop(Do(s1, e)))
  {
    DoTells(cfg, n, a, s1, e);
    ThenTells(cfg, n, a, s, s1, Do(s1, e));
  }

  lemma StayTells(cfg: Config, n: string, a: Answers, s: Sim)
    ensures Tells(cfg, n, a, s, s) && Tells(cfg, n, a, s, Stop(s))
  {
  }

  lemma UndrainTells(cfg: Config, s: Sim, n: string, a: Answers)
    ensures Tells(cfg, n, a, s, Undrain(cfg, s, n, a))
  {
    StayTells(cfg, n, a, s);
    if Live(s, n) {
      var r, k := s.run.now.recs[n], s.run.now.kubes[n];
      if r.cs.Undraining? {
        var s1 := s;
        if k.unsched {
          ThenDoTells(cfg, n, a, s, s, NodesReady(n));
          ThenDoTells(cfg, n, a, s, Do(s, NodesReady(n)), Uncordon(n));
          s1 := Do(Do(s, NodesReady(n)), Uncordon(n));
        }
        CompleteUndrainTells(cfg, s1, n, a);
        ThenTells(cfg, n, a, s, s1, CompleteUndrain(cfg, s1, n, a));
      } else if r.cs.NeedsUndrain() && r.spec.WantActive? {
        ThenDoTells(cfg, n, a, s, s, SetState(n, Undraining));
      }
    }
  }

  lemma CompleteUndrainTells(cfg: Config, s: Sim, n: string, a: Answers)
    ensures Tells(cfg, n, a, s, CompleteUndrain(cfg, s, n, a))
  {
    StayTells(cfg, n, a, s);
    var hooks := AskedHooks(cfg.plugins, a.postDrain);
    if Live(s, n) && HooksSucceed(hooks) {
      var s1 := Do(s, PostDrain(n, hooks));
      ThenDoTells(cfg, n, a, s, s, PostDrain(n, hooks));
      CloseUndrainTells(cfg, s1, n, a);
      ThenTells(cfg, n, a, s, s1, CloseUndrain(s1, n));
    }
  }

  lemma CloseUndrainTells(cfg: Config, s: Sim, n: string, a: Answers)
    ensures Tells(cfg, n, a, s, CloseUndrain(s, n))
  {
    StayTells(cfg, n, a, s);
    if Live(s, n) {
      ThenDoTells(cfg, n, a, s, s, ClearDrained(n));
      var s1 := if s.run.now.recs[n].drained then Do(s, ClearDrained(n)) else s;
      ThenDoTells(cfg, n, a, s, s1, SetState(n, OK));
    }
  }

  /** The reset of `Drained` and the periodic check. */
  lemma ChecksTell(cfg: Config, s: Sim, n: string, a: Answers)
    ensures Tells(cfg, n, a, s, CheckRebootRequired(cfg, SyncDrained(s, n), n, a))
  {
    StayTells(cfg, n, a, s);
    var s1 := SyncDrained(s, n);
    ThenDoTells(cfg, n, a, s, s, ClearDrained(n));
    ThenDoTells(cfg, n, a, s, s1, Checked(n, a.verdict, s1.run.now.clock + a.waits.0 + a.waits.1, true));
  }

  lemma RequestTells(cfg: Config, s: Sim, n: string, a: Answers)
    ensures Tells(cfg, n, a, s, Request(s, n))
  {
    StayTells(cfg, n, a, s);
    if Live(s, n) {
      var k := s.run.now.kubes[n];
      match s.run.now.recs[n].spec
      case WantActive =>
        ThenDoTells(cfg, n, a, s, s, Uncordon(n));
        ThenDoTells(cfg, n, a, s, if k.unsched then Do(s, Uncordon(n)) else s, SetState(n, OK));
      case WantCordoned =>
        ThenDoTells(cfg, n, a, s, s, Cordon(n));
        ThenDoTells(cfg, n, a, s, if k.unsched then s else Do(s, Cordon(n)), SetState(n, Cordoned));
      case _ => ThenDoTells(cfg, n, a, s, s, SetState(n, Queued));
    }
  }

  lemma VerdictTells(cfg: Config, s: Sim, n: string, a: Answers)
    ensures Tells(cfg, n, a, s, Verdict(s, n, a))
  {
    StayTells(cfg, n, a, s);
    var s1 := RenewVerdict(s, n, a);
    ThenDoTells(cfg, n, a, s, s, Checked(n, a.verdict, s.run.now.clock + a.waits.0 + a.waits.1, false));
    assert Tells(cfg, n, a, s, s1);
    StayTells(cfg, n, a, s1);
    ThenDoTells(cfg, n, a, s, s1, SetActive(n));
  }

  lemma DrainChecksTell(cfg: Config, s: Sim, n: string, a: Answers)
    ensures Tells(cfg, n, a, s, DrainChecks(cfg, s, n, a))
  {
    StayTells(cfg, n, a, s);
    var e := Healthy(n, Asked(cfg.plugins, a.health), a.took.0);
    ThenDoTells(cfg, n, a, s, s, e);
    AskDrainOkTells(cfg, Do(s, e), n, a);
    ThenTells(cfg, n, a, s, Do(s, e), AskDrainOk(cfg, Do(s, e), n, a));
  }

  lemma AskDrainOkTells(cfg: Config, s: Sim, n: string, a: Answers)
    ensures Tells(cfg, n, a, s, AskDrainOk(cfg, s, n, a))
  {
    StayTells(cfg, n, a, s);
    var e := DrainOk(n, Asked(cfg.plugins, a.drainOk), a.took.1);
    ThenDoTells(cfg, n, a, s, s, e);
    ThenDoTells(cfg, n, a, s, Do(s, e), SetState(n, Draining));
  }

  lemma EvictPodsTells(cfg: Config, s: Sim, n: string, a: Answers)
    ensures Tells(cfg, n, a, s, EvictPods(cfg, s, n, a))
  {
    StayTells(cfg, n, a, s);
    if Live(s, n) {
      ThenDoTells(cfg, n, a, s, s, Cordon(n));
      var s1 := if s.run.now.kubes[n].unsched then s else Do(s, Cordon(n));
      EvictNowTells(cfg, s1, n, a);
      ThenTells(cfg, n, a, s, s1, EvictNow(cfg, s1, n, a));
    }
  }

  lemma EvictNowTells(cfg: Config, s: Sim, n: string, a: Answers)
    ensures Tells(cfg, n, a, s, EvictNow(cfg, s, n, a))
  {
    StayTells(cfg, n, a, s);
    var s1 := Do(s, PreDrain(n, AskedHooks(cfg.plugins, a.preDrain)));
    ThenDoTells(cfg, n, a, s, s, PreDrain(n, AskedHooks(cfg.plugins, a.preDrain)));
    ThenDoTells(cfg, n, a, s, s1, Evict(n));
    ThenDoTells(cfg, n, a, s, Do(s1, Evict(n)), MarkDrained(n));
  }

  lemma DrainTells(cfg: Config, s: Sim, n: string, a: Answers)
    ensures Tells(cfg, n, a, s, Drain(cfg, s, n, a))
  {
    StayTells(cfg, n, a, s);
    DrainChecksTell(cfg, s, n, a);
    var s1 := DrainChecks(cfg, s, n, a);
    EvictPodsTells(cfg, s1, n, a);
    ThenTells(cfg, n, a, s, s1, EvictPods(cfg, s1, n, a));
  }

  lemma StartRebootTells(cfg: Config, s: Sim, n: string, a: Answers)
    ensures Tells(cfg, n, a, s, StartReboot(cfg, s, n))
  {
    StayTells(cfg, n, a, s);
    if Live(s, n) {
      ThenDoTells(cfg, n, a, s, s, SaveBoot(n));
      var s1 := if s.run.now.kubes[n].bootId != s.run.now.recs[n].bootId then Do(s, SaveBoot(n)) else s;
      PodTells(cfg, s, s1, n, a);
    }
  }

  lemma PodTells(cfg: Config, s: Sim, s1: Sim, n: string, a: Answers)
    requires Tells(cfg, n, a, s, s1)
    ensures Tells(cfg, n, a, s, Stop(s1))
    ensures var s2 := if cfg.containerNode then s1 else Do(s1, RebootPod(n));
      Tells(cfg, n, a, s, Stop(Do(s2, SetState(n, Rebooting))))
  {
    StayTells(cfg, n, a, s1);
    ThenTells(cfg, n, a, s, s1, Stop(s1));
    ThenDoTells(cfg, n, a, s, s1, RebootPod(n));
    ThenDoTells(cfg, n, a, s, if cfg.containerNode then s1 else Do(s1, RebootPod(n)), SetState(n, Rebooting));
  }

  lemma FinishRebootTells(cfg: Config, s: Sim, n: string, a: Answers)
    ensures Tells(cfg, n, a, s, FinishReboot(cfg, s, n, a))
  {
    StayTells(cfg, n, a, s);
    var e := Rebooted(n, s.run.now.clock + a.waits.1);
    ThenDoTells(cfg, n, a, s, s, e);
    ThenDoTells(cfg, n, a, s, Do(s, e), SetActive(n));
  }

  lemma RebootTells(cfg: Config, s: Sim, n: string, a: Answers)
    ensures Tells(cfg, n, a, s, Reboot(cfg, s, n, a))
  {
    StayTells(cfg, n, a, s);
    StartRebootTells(cfg, s, n, a);
    FinishRebootTells(cfg, s, n, a);
  }

  lemma ProgressTells(cfg: Config, s: Sim, n: string, a: Answers)
    ensures Tells(cfg, n, a, s, Progress(cfg, s, n, a))
  {
    StayTells(cfg, n, a, s);
    ThenDoTells(cfg, n, a, s, s, SetState(n, Next));
    VerdictTells(cfg, s, n, a);
    var s1 := Verdict(s, n, a);
    DrainTells(cfg, s1, n, a);
    var s2 := Drain(cfg, s1, n, a);
    ThenTells(cfg, n, a, s, s1, s2);
    RebootTells(cfg, s2, n, a);
    ThenTells(cfg, n, a, s, s2, Reboot(cfg, s2, n, a));
  }

  /** Every effect of a reconcile of `n`, wherever it fails, is one on `n`; a check records the
      verdict that the host gave, and the polls and hook runs the replies that the plugins gave. */
  lemma ReconcileTells(cfg: Config, s: Sim, n: string, a: Answers)
    ensures Tells(cfg, n, a, s, Reconcile.Reconcile(cfg, s, n, a))
  {
    StayTells(cfg, n, a, s);
    DoTells(cfg, n, a, s, CreateRecord(n));
    DoTells(cfg, n, a, s, Finalize(n));
    UndrainTells(cfg, s, n, a);
    var s1 := Undrain(cfg, s, n, a);
    RestTells(cfg, s1, n, a);
    ThenTells(cfg, n, a, s, s1, Rest(cfg, s1, n, a));
  }

  lemma RestTells(cfg: Config, s: Sim, n: string, a: Answers)
    ensures Tells(cfg, n, a, s, Rest(cfg, s, n, a))
  {
    ChecksTell(cfg, s, n, a);
    var s1 := CheckRebootRequired(cfg, SyncDrained(s, n), n, a);
    RequestTells(cfg, s1, n, a);
    var s2 := Request(s1, n);
    ThenTells(cfg, n, a, s, s1, s2);
    ProgressTells(cfg, s2, n, a);
    ThenTells(cfg, n, a, s, s2, Progress(cfg, s2, n, a));
  }
}
