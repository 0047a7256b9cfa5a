/** The imperative reconciler (internal/controller/node_controller.go): methods that read the
    persisted objects, write them back one field at a time, and return at the first failure. */
module Controller {
  import opened NodeTypes
  import opened Plugins
  import opened World
  import opened Protocol
  import opened Reconcile

  class NodeReconciler {
    const cfg: Config
    var w: World               // the persisted objects
    ghost var steps: seq<Step> // every effect so far
    var fuel: nat              // effects left before a call or a write fails
    var stopped: bool          // the reconcile in progress has returned

    constructor (cfg: Config, w: World)
      ensures this.cfg == cfg && State() == Sim(Run([], w), 0, true)
    {
      this.cfg, this.w, this.steps, this.fuel, this.stopped := cfg, w, [], 0, true;
    }

    ghost function State(): Sim
      reads this
    {
      Sim(Run(steps, w), fuel, stopped)
    }

    /** One call to the API server or to a plugin, or one persisted write. */
    method Perform(e: Event) returns (ok: bool)
      requires !stopped && !e.Outside()
      modifies this
      ensures State() == Do(old(State()), e)
      ensures ok == !stopped && (ok ==> w == Apply(old(w), e))
    {
      if fuel == 0 {
        stopped := true;
        return false;
      }
      steps := steps + [Step(w, e)];
      w, fuel := Apply(w, e), fuel - 1;
      ok := true;
    }

    method SetCurrentState(n: string, s: CurrentState) returns (ok: bool)
      requires !stopped && n in w.recs
      modifies this
      ensures State() == if old(w.recs[n].cs) == s then old(State()) else Do(old(State()), SetState(n, s))
      ensures ok == !stopped && (ok ==> n in w.recs && w.recs[n].cs == s && w.kubes == old(w.kubes))
    {
      if w.recs[n].cs == s {
        return true;
      }
      ok := Perform(SetState(n, s));
    }

    method SetUnschedulable(n: string, unsched: bool) returns (ok: bool)
      requires !stopped && n in w.kubes
      modifies this
      ensures State() == if old(w.kubes[n].unsched) == unsched then old(State())
                         else Do(old(State()), if unsched then Cordon(n) else Uncordon(n))
      ensures ok == !stopped && (ok ==> n in w.kubes && w.kubes[n].unsched == unsched && w.recs == old(w.recs))
    {
      if w.kubes[n].unsched == unsched {
        return true;
      }
      ok := Perform(if unsched then Cordon(n) else Uncordon(n));
    }

    method IsClusterHealthy() returns (healthy: bool)
      ensures healthy <==> NodesHealthy(w)
    {
      var nodes := map m | m in w.kubes :: w.kubes[m].conditions;
      assert forall m :: m in w.kubes ==> m in nodes && nodes[m] == w.kubes[m].conditions;
      healthy := IsClusterNodesHealthy(nodes);
    }

    /** The PreDrain or PostDrain hooks of every plugin. */
    method RunPluginHooks(replies: map<string, HookReply>) returns (ok: bool, hooks: map<string, HookReply>)
      ensures hooks == AskedHooks(cfg.plugins, replies) && (ok <==> HooksSucceed(hooks))
    {
      hooks := AskedHooks(cfg.plugins, replies);
      var succeeded, _, _ := RunHooks(hooks);
      ok := succeeded;
    }

    method RunCloseUndrain(n: string) returns (go: bool)
      requires Live(State(), n) && w.recs[n].cs.Undraining?
      modifies this
      ensures State() == CloseUndrain(old(State()), n) && go == !stopped
      ensures go ==> Live(State(), n)
    {
      if w.recs[n].drained {
        var ok := Perform(ClearDrained(n));
        if !ok { return false; }
      }
      go := SetCurrentState(n, OK);
    }

    method RunCompleteUndrain(n: string, a: Answers) returns (go: bool)
      requires Live(State(), n) && w.recs[n].cs.Undraining?
      modifies this
      ensures State() == CompleteUndrain(cfg, old(State()), n, a) && go == !stopped
      ensures go ==> Live(State(), n)
    {
      var succeeded, hooks := RunPluginHooks(a.postDrain);
      if !succeeded {
        stopped := true;
        return false;
      }
      var ok := Perform(PostDrain(n, hooks));
      if !ok { return false; }
      go := RunCloseUndrain(n);
    }

    method RunUndrain(n: string, a: Answers) returns (go: bool)
      requires Live(State(), n)
      modifies this
      ensures State() == Undrain(cfg, old(State()), n, a) && go == !stopped
      ensures go ==> Live(State(), n)
    {
      if w.recs[n].cs.Undraining? {
        if w.kubes[n].unsched {
          var healthy := IsClusterHealthy();
          if !healthy {
            stopped := true;
            return false;
          }
          var ok := Perform(NodesReady(n));
          if !ok { return false; }
          ok := SetUnschedulable(n, false);
          if !ok { return false; }
        }
        go := RunCompleteUndrain(n, a);
        return;
      }
      if w.recs[n].cs.NeedsUndrain() && w.recs[n].spec.WantActive? {
        var ok := SetCurrentState(n, Undraining);
        stopped := true;
        return false;
      }
      go := true;
    }

    /** Reset a stale `Drained`, then the periodic reboot-required check. */
    method RunChecks(n: string, a: Answers) returns (go: bool)
      requires Live(State(), n)
      modifies this
      ensures State() == CheckRebootRequired(cfg, SyncDrained(old(State()), n), n, a) && go == !stopped
      ensures go ==> Live(State(), n)
    {
      if !w.kubes[n].unsched && w.recs[n].drained {
        var ok := Perform(ClearDrained(n));
        if !ok { return false; }
      }
      go := RunPeriodicCheck(n, a);
    }

    method RunPeriodicCheck(n: string, a: Answers) returns (go: bool)
      requires Live(State(), n)
      modifies this
      ensures State() == CheckRebootRequired(cfg, old(State()), n, a) && go == !stopped
      ensures go ==> Live(State(), n)
    {
      if w.recs[n].cs.Work() {
        return true;
      }
      var interval := if cfg.checkInterval < 5 * MINUTE then 24 * HOUR else cfg.checkInterval;
      if Due(w.recs[n].lastChecked, w.clock + a.waits.0, interval) {
        var ok := Perform(Checked(n, a.verdict, w.clock + a.waits.0 + a.waits.1, true));
        return ok;
      }
      go := true;
    }

    method RunRequest(n: string) returns (go: bool)
      requires Live(State(), n)
      modifies this
      ensures State() == Request(old(State()), n) && go == !stopped
      ensures go ==> Live(State(), n)
    {
      match w.recs[n].spec
      case WantActive =>
        if w.kubes[n].manager.Foreign? {
          stopped := true;
          return false;
        }
        var ok := SetUnschedulable(n, false);
        if !ok { return false; }
        go := SetCurrentState(n, OK);
      case WantCordoned =>
        var ok := SetUnschedulable(n, true);
        if !ok { return false; }
        go := SetCurrentState(n, Cordoned);
      case _ =>
        if !w.recs[n].cs.Work() && !w.recs[n].cs.Queued? {
          var ok := SetCurrentState(n, Queued);
          stopped := true;
          return false;
        }
        go := true;
    }

    /** The verdict on record, renewed if it is older than two minutes. */
    method RunRenewVerdict(n: string, a: Answers) returns (go: bool, required: bool)
      requires Live(State(), n) && Decides(w.recs[n])
      modifies this
      ensures State() == RenewVerdict(old(State()), n, a) && go == !stopped
      ensures go ==> Live(State(), n) && Decides(w.recs[n]) && (required <==> w.recs[n].required == Some(true))
    {
      required := false;
      if Due(w.recs[n].lastChecked, w.clock + a.waits.0, 2 * MINUTE) {
        go := Perform(Checked(n, a.verdict, w.clock + a.waits.0 + a.waits.1, false));
        return go, a.verdict;
      }
      if w.recs[n].required.Some? {
        required := w.recs[n].required.value;
      }
      go := true;
    }

    method RunVerdict(n: string, a: Answers) returns (go: bool)
      requires Live(State(), n)
      modifies this
      ensures State() == Verdict(old(State()), n, a) && go == !stopped
      ensures go ==> Live(State(), n)
    {
      if !Decides(w.recs[n]) {
        return true;
      }
      var required;
      go, required := RunRenewVerdict(n, a);
      if go && !required {
        var ok := Perform(SetActive(n));
        stopped, go := true, false;
      }
    }

    /** The cluster-and-plugin health check over the present nodes. */
    method IsHealthyWith(replies: map<string, Reply>) returns (healthy: bool)
      ensures healthy <==> NodesHealthy(w) && AllConsent(replies)
    {
      var nodes := map m | m in w.kubes :: w.kubes[m].conditions;
      assert forall m :: m in w.kubes ==> m in nodes && nodes[m] == w.kubes[m].conditions;
      var answer, _, _, _ := IsHealthy(nodes, replies);
      healthy := answer;
    }

    method RunDrainChecks(n: string, a: Answers) returns (go: bool)
      requires Live(State(), n)
      modifies this
      ensures State() == DrainChecks(cfg, old(State()), n, a) && go == !stopped
      ensures go ==> Live(State(), n)
    {
      if !w.recs[n].cs.Next? {
        return true;
      }
      var replies := Asked(cfg.plugins, a.health);
      var healthy := IsHealthyWith(replies);
      if !healthy {
        stopped := true;
        return false;
      }
      go := Perform(Healthy(n, replies, a.took.0));
      if !go { return; }
      go := RunAskDrainOk(n, a);
    }

    method RunAskDrainOk(n: string, a: Answers) returns (go: bool)
      requires Live(State(), n) && w.recs[n].cs.Next?
      modifies this
      ensures State() == AskDrainOk(cfg, old(State()), n, a) && go == !stopped
      ensures go ==> Live(State(), n)
    {
      var replies := Asked(cfg.plugins, a.drainOk);
      var drainOk, _, _, _ := Poll(replies);
      if !drainOk {
        stopped := true;
        return false;
      }
      go := Perform(DrainOk(n, replies, a.took.1));
      if !go { return; }
      go := SetCurrentState(n, Draining);
    }

    method RunEvictPods(n: string, a: Answers) returns (go: bool)
      requires Live(State(), n)
      modifies this
      ensures State() == EvictPods(cfg, old(State()), n, a) && go == !stopped
      ensures go ==> Live(State(), n)
    {
      var ok := SetUnschedulable(n, true);
      if !ok { return false; }
      if w.host == n {
        stopped := true;
        return false;
      }
      go := RunEvictNow(n, a);
    }

    method RunEvictNow(n: string, a: Answers) returns (go: bool)
      requires Live(State(), n)
      modifies this
      ensures State() == EvictNow(cfg, old(State()), n, a) && go == !stopped
      ensures go ==> Live(State(), n)
    {
      var succeeded, hooks := RunPluginHooks(a.preDrain);
      var ok := Perform(PreDrain(n, hooks));
      if !ok { return false; }
      if !succeeded {
        stopped := true;
        return false;
      }
      go := RunEviction(n);
    }

    method RunEviction(n: string) returns (go: bool)
      requires Live(State(), n)
      modifies this
      ensures State() == Do(Do(old(State()), Evict(n)), MarkDrained(n)) && go == !stopped
      ensures go ==> Live(State(), n)
    {
      var ok := Perform(Evict(n));
      if !ok { return false; }
      go := Perform(MarkDrained(n));
    }

    method RunDrain(n: string, a: Answers) returns (go: bool)
      requires Live(State(), n)
      modifies this
      ensures State() == Drain(cfg, old(State()), n, a) && go == !stopped
      ensures go ==> Live(State(), n)
    {
      if !w.recs[n].spec.Drains() || w.recs[n].drained {
        return true;
      }
      go := RunDrainChecks(n, a);
      if !go { return; }
      go := RunEvictPods(n, a);
    }

    method RunStartReboot(n: string)
      requires Live(State(), n)
      modifies this
      ensures State() == StartReboot(cfg, old(State()), n)
    {
      if w.kubes[n].bootId != w.recs[n].bootId {
        var ok := Perform(SaveBoot(n));
        if !ok { return; }
      }
      if w.kubes[n].unsched {
        if !cfg.containerNode {
          var ok := Perform(RebootPod(n));
          if !ok { return; }
        }
        var ok := Perform(SetState(n, Rebooting));
      }
      stopped := true;
    }

    method IsNodeRebooted(n: string) returns (rebooted: bool)
      requires Present(w, n)
      ensures rebooted <==> IsRebooted(cfg, w.recs[n], w.kubes[n])
    {
      if cfg.containerNode {
        return true;
      }
      if w.kubes[n].bootId == w.recs[n].bootId {
        return false;
      }
      rebooted := IsNodeReady(w.kubes[n].conditions);
    }

    method RunFinishReboot(n: string, a: Answers)
      requires Live(State(), n)
      modifies this
      ensures State() == FinishReboot(cfg, old(State()), n, a)
    {
      var rebooted := IsNodeRebooted(n);
      if rebooted {
        var ok := Perform(Rebooted(n, w.clock + a.waits.1));
        if !ok { return; }
        ok := Perform(SetActive(n));
      }
      stopped := true;
    }

    method RunReboot(n: string, a: Answers)
      requires Live(State(), n)
      modifies this
      ensures State() == Reboot(cfg, old(State()), n, a)
    {
      if w.recs[n].spec.WantReboot? {
        if w.recs[n].cs.Drained? && w.recs[n].drained {
          RunStartReboot(n);
        } else if w.recs[n].cs.Rebooting? {
          RunFinishReboot(n, a);
        }
      }
    }

    /** The scan over all records for one that works. */
    method RunIsNextNode(n: string) returns (next: bool)
      requires Live(State(), n) && w.recs[n].cs.Queued?
      modifies this
      ensures State() == IsNextNode(old(State()), n)
      ensures next <==> old(NobodyWorks(w)) && !stopped
    {
      var rest := w.recs.Keys;
      while rest != {}
        invariant rest <= w.recs.Keys
        invariant forall m :: m in w.recs.Keys - rest ==> !w.recs[m].cs.Work()
        invariant State() == old(State())
        decreases rest
      {
        var m :| m in rest;
        if w.recs[m].cs.Work() {
          return false;
        }
        rest := rest - {m};
      }
      next := SetCurrentState(n, Next);
    }

    method RunWork(n: string, a: Answers)
      requires Live(State(), n)
      modifies this
      ensures State() == Reboot(cfg, Drain(cfg, old(State()), n, a), n, a)
    {
      ghost var s := State();
      var go := RunDrain(n, a);
      if go {
        RunReboot(n, a);
      } else {
        StoppedStays(cfg, Drain(cfg, s, n, a), n, a);
      }
    }

    method RunProgress(n: string, a: Answers)
      requires Live(State(), n)
      modifies this
      ensures State() == Progress(cfg, old(State()), n, a)
    {
      if w.recs[n].cs.Work() {
        ghost var s := State();
        var go := RunVerdict(n, a);
        if go {
          RunWork(n, a);
        } else {
          StoppedStays(cfg, Verdict(s, n, a), n, a);
        }
      } else if w.recs[n].cs.Queued? {
        var next := RunIsNextNode(n);
      }
    }

    method RunRest(n: string, a: Answers)
      requires Live(State(), n)
      modifies this
      ensures State() == Rest(cfg, old(State()), n, a)
    {
      ghost var s := State();
      var go := RunChecks(n, a);
      ghost var s1 := CheckRebootRequired(cfg, SyncDrained(s, n), n, a);
      if !go {
        StoppedStays(cfg, s1, n, a);
        return;
      }
      go := RunRequest(n);
      if go {
        RunProgress(n, a);
      } else {
        StoppedStays(cfg, Request(s1, n), n, a);
      }
    }

    /** `Reconcile` of a present and live record. */
    method RunReconcile(n: string, a: Answers)
      requires Live(State(), n)
      modifies this
      ensures State() == Reconcile.Reconcile(cfg, old(State()), n, a)
    {
      ghost var s := State();
      var go := RunUndrain(n, a);
      if go {
        RunRest(n, a);
      } else {
        StoppedStays(cfg, Undrain(cfg, s, n, a), n, a);
      }
    }

    /** `Reconcile`: whatever fails after `fuel` effects, the effects made are those of the
        specification, and a valid run stays valid. */
    method ReconcileNode(n: string, a: Answers, fuel: nat)
      modifies this
      ensures State() == Reconcile.Reconcile(cfg, Sim(Run(old(steps), old(w)), fuel, false), n, a)
      ensures old(steps) <= steps && |steps| - |old(steps)| <= fuel
      ensures Valid(cfg, Run(old(steps), old(w))) ==> Valid(cfg, Run(steps, w))
    {
      this.fuel, this.stopped := fuel, false;
      ghost var start := State();
      if n !in w.kubes {
        stopped := true;
      } else if n !in w.recs {
        var ok := Perform(CreateRecord(n));
      } else if w.recs[n].deleting {
        var ok := Perform(Finalize(n));
      } else {
        RunReconcile(n, a);
      }
      if Valid(cfg, start.run) {
        ReconcileIsAllowed(cfg, start, n, a);
      }
    }
  }
}
