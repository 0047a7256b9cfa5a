/** The persisted cluster state, and the effects that change it: the controller's own
    writes and calls, and what users, machines and the clock do. */
module World {
  import opened NodeTypes
  import opened Plugins

  /** Who owns the field `spec.unschedulable` of a kube node. */
  datatype Manager = Nobody | Ours | Foreign

  datatype Kube = Kube(unsched: bool, manager: Manager, bootId: string, conditions: seq<Condition>)

  datatype Record = Record(
    spec: NodeState,
    cs: CurrentState,
    drained: bool,
    required: Option<bool>,
    lastChecked: Option<int>,
    bootId: string,
    deleting: bool)

  /** `host` is the node that the controller itself runs on. */
  datatype World = World(recs: map<string, Record>, kubes: map<string, Kube>, clock: int, host: string)

  /** `plugins` are the IDs of the drain plugins, loaded once when the controller starts. */
  datatype Config = Config(checkInterval: int, containerNode: bool, plugins: set<string>)

  datatype Event =
    // writes of the controller
    | CreateRecord(node: string)
    | Finalize(node: string)
    | SetState(node: string, state: CurrentState)
    | MarkDrained(node: string)                      // Drained and current state in one patch
    | ClearDrained(node: string)
    | SetActive(node: string)                        // spec.state := Active
    | Cordon(node: string)
    | Uncordon(node: string)
    | SaveBoot(node: string)
    | Checked(node: string, verdict: bool, at: int, periodic: bool)
    | Rebooted(node: string, at: int)                // the boot ID is cleared
    // calls of the controller
    | NodesReady(node: string)                       // all-nodes check answered yes
    | Healthy(node: string, replies: map<string, Reply>, took: nat)
    | DrainOk(node: string, replies: map<string, Reply>, took: nat)
    | PreDrain(node: string, hooks: map<string, HookReply>)   // RunPreDrain was called, and how it went
    | Evict(node: string)                            // RunNodeDrain was called
    | PostDrain(node: string, hooks: map<string, HookReply>)  // RunPostDrain has succeeded
    | RebootPod(node: string)                        // the reboot pod was created
    // what happens outside the controller
    | UserSpec(node: string, spec: NodeState)
    | UserCreate(node: string, spec: NodeState)
    | UserDelete(node: string)
    | RecordGone(node: string)
    | CordonBy(node: string, unsched: bool, manager: Manager)
    | Boot(node: string, bootId: string)
    | Report(node: string, conditions: seq<Condition>)
    | KubeJoin(node: string, kube: Kube)
    | KubeLeave(node: string)
    | ControllerMoves(node: string)                  // the controller is rescheduled to a node
    | Tick(dt: nat)
  {
    predicate Outside() {
      UserSpec? || UserCreate? || UserDelete? || RecordGone? || CordonBy? || Boot? || Report? ||
      KubeJoin? || KubeLeave? || ControllerMoves? || Tick?
    }

    predicate On(n: string) {
      !Tick? && node == n
    }

    predicate PreDrains(n: string) {
      PreDrain? && node == n
    }

    /** The PostDrain hooks of `n` have been run. */
    predicate PostDrains(n: string) {
      PostDrain? && node == n
    }

    /** The record of `n` disappears. */
    predicate Removes(n: string) {
      (Finalize? || RecordGone?) && node == n
    }

    /** The machine behind `n` starts: a boot, or a (re-)registration. */
    predicate Boots(n: string) {
      (Boot? || KubeJoin?) && node == n
    }

    /** Someone other than the controller makes `n` schedulable. */
    predicate UncordonedOutside(n: string) {
      (CordonBy? && node == n && !unsched) || (KubeJoin? && node == n && !kube.unsched)
    }

    /** Someone other than the controller writes the schedulability of `n`. */
    predicate CordonChangedOutside(n: string) {
      (CordonBy? || KubeJoin? || KubeLeave?) && node == n
    }
  }

  function NewRecord(spec: NodeState): Record {
    Record(spec, Unset, false, None, None, "", false)
  }

  /** Times are persisted in whole seconds. */
  function Stored(t: int): int {
    t - t % SECOND
  }

  /** A time that is missing, or that lies before `now - interval`. */
  predicate Due(last: Option<int>, now: int, interval: int) {
    last.None? || last.value < now - interval
  }

  function EffectiveInterval(cfg: Config): (interval: int)
    ensures 5 * MINUTE <= interval
    ensures 5 * MINUTE <= cfg.checkInterval ==> interval == cfg.checkInterval
    ensures interval != cfg.checkInterval ==> interval == 24 * HOUR
  {
    if cfg.checkInterval < 5 * MINUTE then 24 * HOUR else cfg.checkInterval
  }

  predicate NodesHealthy(w: World) {
    forall n :: n in w.kubes ==> NoReadyConditionFails(w.kubes[n].conditions)
  }

  predicate Present(w: World, n: string) {
    n in w.recs && n in w.kubes
  }

  predicate NobodyWorks(w: World) {
    forall m :: m in w.recs ==> !w.recs[m].cs.Work()
  }

  /** `n` has a record, and its current state belongs to a work turn. */
  predicate Working(w: World, n: string) {
    n in w.recs && w.recs[n].cs.InTurn()
  }

  function Put(w: World, n: string, r: Record): World {
    w.(recs := w.recs[n := r])
  }

  function PutKube(w: World, n: string, k: Kube): World {
    w.(kubes := w.kubes[n := k])
  }

  /** The persisted state after one effect. An effect on an absent object changes nothing. */
  function Apply(w: World, e: Event): World {
    match e
    case CreateRecord(n) =>
      if n !in w.kubes then w else
      Put(w, n, NewRecord(if w.kubes[n].unsched then WantCordoned else WantActive))
    case Finalize(n) => w.(recs := w.recs - {n})
    case SetState(n, s) => if n in w.recs then Put(w, n, w.recs[n].(cs := s)) else w
    case MarkDrained(n) => if n in w.recs then Put(w, n, w.recs[n].(drained := true, cs := Drained)) else w
    case ClearDrained(n) => if n in w.recs then Put(w, n, w.recs[n].(drained := false)) else w
    case SetActive(n) => if n in w.recs then Put(w, n, w.recs[n].(spec := WantActive)) else w
    case Cordon(n) => if n in w.kubes then PutKube(w, n, w.kubes[n].(unsched := true, manager := Ours)) else w
    case Uncordon(n) => if n in w.kubes then PutKube(w, n, w.kubes[n].(unsched := false, manager := Nobody)) else w
    case SaveBoot(n) => if Present(w, n) then Put(w, n, w.recs[n].(bootId := w.kubes[n].bootId)) else w
    case Checked(n, v, t, _) =>
      if n in w.recs then
        Put(w, n, w.recs[n].(required := Some(v), lastChecked := Some(Stored(t)))).(clock := t)
      else w
    case Rebooted(n, t) =>
      if n in w.recs then
        Put(w, n, w.recs[n].(bootId := "", required := Some(false), lastChecked := Some(Stored(t)))).(clock := t)
      else w
    case NodesReady(_) => w
    case Healthy(_, _, took) => w.(clock := w.clock + took)
    case DrainOk(_, _, took) => w.(clock := w.clock + took)
    case PreDrain(_, _) => w
    case Evict(_) => w
    case PostDrain(_, _) => w
    case RebootPod(_) => w
    case UserSpec(n, s) => if n in w.recs then Put(w, n, w.recs[n].(spec := s)) else w
    case UserCreate(n, s) => if n in w.recs then w else Put(w, n, NewRecord(s))
    case UserDelete(n) => if n in w.recs then Put(w, n, w.recs[n].(deleting := true)) else w
    case RecordGone(n) => w.(recs := w.recs - {n})
    case CordonBy(n, u, m) => if n in w.kubes then PutKube(w, n, w.kubes[n].(unsched := u, manager := m)) else w
    case Boot(n, id) => if n in w.kubes then PutKube(w, n, w.kubes[n].(bootId := id)) else w
    case Report(n, c) => if n in w.kubes then PutKube(w, n, w.kubes[n].(conditions := c)) else w
    case KubeJoin(n, k) => if n in w.kubes then w else PutKube(w, n, k)
    case KubeLeave(n) => w.(kubes := w.kubes - {n})
    case ControllerMoves(n) => w.(host := n)
    case Tick(dt) => w.(clock := w.clock + dt)
  }
}
