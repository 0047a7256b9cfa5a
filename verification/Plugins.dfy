/** Cluster health, plugin polls and plugin hooks (internal/utils/drain-manager.go).
    The source ranges over maps, so every loop here picks the next key arbitrarily. */
module Plugins {
  import opened NodeTypes

  datatype Status = Up | Down | Unknown

  /** A condition of a kube node; `isReady` says that its type is `Ready`. */
  datatype Condition = Condition(isReady: bool, status: Status)

  /** What one plugin call answers. */
  datatype Answer = Yes | No | Err(error: string)

  /** The answers of one plugin to "are you supported" and then to the question asked. */
  datatype Reply = Reply(supported: Answer, verdict: Answer)
  {
    predicate Consents() {
      supported.No? || (supported.Yes? && verdict.Yes?)
    }
  }

  /** No `Ready` condition is other than true; a node without one passes. */
  predicate NoReadyConditionFails(conditions: seq<Condition>) {
    forall c :: c in conditions && c.isReady ==> c.status.Up?
  }

  /** Some `Ready` condition is true; a node without one does not pass. */
  predicate SomeReadyConditionHolds(conditions: seq<Condition>) {
    exists c :: c in conditions && c.isReady && c.status.Up?
  }

  predicate AllReady(nodes: map<string, seq<Condition>>) {
    forall n :: n in nodes ==> NoReadyConditionFails(nodes[n])
  }

  predicate AllConsent(replies: map<string, Reply>) {
    forall id :: id in replies ==> replies[id].Consents()
  }

  /** The replies of the plugins of a set; a plugin that gives no reply has failed. */
  function Asked(plugins: set<string>, replies: map<string, Reply>): (asked: map<string, Reply>)
    ensures asked.Keys == plugins
    ensures forall id :: id in plugins ==> if id in replies then asked[id] == replies[id] else asked[id].supported.Err?
  {
    map id | id in plugins :: if id in replies then replies[id] else Reply(Err("no reply"), No)
  }

  method IsClusterNodesHealthy(nodes: map<string, seq<Condition>>) returns (allReady: bool)
    ensures allReady <==> AllReady(nodes)
    ensures allReady <==> forall n, c :: n in nodes && c in nodes[n] && c.isReady ==> c.status == Up
  {
    allReady := true;
    var rest := nodes.Keys;
    while rest != {}
      invariant rest <= nodes.Keys
      invariant allReady <==> forall n :: n in nodes.Keys - rest ==> NoReadyConditionFails(nodes[n])
      decreases rest
    {
      var n :| n in rest;
      var conditions := nodes[n];
      var seen := true;
      for i := 0 to |conditions|
        invariant seen <==> NoReadyConditionFails(conditions[..i])
      {
        assert conditions[..i + 1] == conditions[..i] + [conditions[i]];
        if conditions[i].isReady && !conditions[i].status.Up? {
          seen := false;
        }
      }
      assert conditions[..|conditions|] == conditions;
      allReady := allReady && seen;
      rest := rest - {n};
    }
  }

  /** The loop over the conditions in `IsNodeRebooted`. */
  method IsNodeReady(conditions: seq<Condition>) returns (ready: bool)
    ensures ready <==> exists c :: c in conditions && c.isReady && c.status == Up
  {
    ready := false;
    for i := 0 to |conditions|
      invariant ready <==> SomeReadyConditionHolds(conditions[..i])
    {
      assert conditions[..i + 1] == conditions[..i] + [conditions[i]];
      if conditions[i].isReady && conditions[i].status.Up? {
        ready := true;
      }
    }
    assert conditions[..|conditions|] == conditions;
  }

  /** The status line of one plugin in the summary event. */
  datatype Line = Failed(id: string, error: string) | NotSupported(id: string) | Refused(id: string) | Fine(id: string)

  function LineOf(id: string, r: Reply): (line: Line)
    ensures line.id == id
    ensures line.Failed? <==> r.supported.Err? || (r.supported.Yes? && r.verdict.Err?)
    ensures line.Failed? ==> r.supported == Err(line.error) || (r.supported == Yes && r.verdict == Err(line.error))
    ensures line.NotSupported? <==> r.supported == No
    ensures line.Refused? <==> r.supported == Yes && r.verdict == No
    ensures line.Fine? <==> r.supported == Yes && r.verdict == Yes
  {
    match r.supported
    case Err(e) => Failed(id, e)
    case No => NotSupported(id)
    case Yes =>
      match r.verdict
      case Err(e) => Failed(id, e)
      case No => Refused(id)
      case Yes => Fine(id)
  }

  function ErrorsOf(lines: seq<Line>): seq<string> {
    if lines == [] then [] else
    var last := lines[|lines| - 1];
    ErrorsOf(lines[..|lines| - 1]) + if last.Failed? then [last.error] else []
  }

  /** Asking the plugin raises the error `e`. */
  predicate Raises(r: Reply, e: string) {
    r.supported == Err(e) || (r.supported == Yes && r.verdict == Err(e))
  }

  /** The plugins of `ids` that raise `e`. */
  function Raising(replies: map<string, Reply>, ids: set<string>, e: string): set<string> {
    set id | id in ids && id in replies && Raises(replies[id], e)
  }

  /** Every error is collected once for each plugin that raises it, and no other error is. */
  ghost predicate CollectsErrors(errs: seq<string>, replies: map<string, Reply>, ids: set<string>) {
    forall e :: multiset(errs)[e] == |Raising(replies, ids, e)|
  }

  lemma OneMoreError(errs: seq<string>, replies: map<string, Reply>, ids: set<string>, id: string)
    requires CollectsErrors(errs, replies, ids) && id in replies && id !in ids
    ensures var line := LineOf(id, replies[id]);
      CollectsErrors(errs + (if line.Failed? then [line.error] else []), replies, ids + {id})
  {
    var line := LineOf(id, replies[id]);
    var more := if line.Failed? then [line.error] else [];
    forall e ensures multiset(errs + more)[e] == |Raising(replies, ids + {id}, e)| {
      assert multiset(errs + more)[e] == multiset(errs)[e] + multiset(more)[e];
      assert Raises(replies[id], e) <==> line.Failed? && line.error == e;
      if Raises(replies[id], e) {
        assert Raising(replies, ids + {id}, e) == Raising(replies, ids, e) + {id};
      } else {
        assert Raising(replies, ids + {id}, e) == Raising(replies, ids, e);
      }
    }
  }

  /** Each plugin of `ids` has exactly one line, and it is the line of its own reply. */
  ghost predicate OneLineEach(lines: seq<Line>, replies: map<string, Reply>, ids: set<string>) {
    && (forall i :: 0 <= i < |lines| ==>
          lines[i].id in ids && lines[i].id in replies && lines[i] == LineOf(lines[i].id, replies[lines[i].id]))
    && (forall i, j :: 0 <= i < j < |lines| ==> lines[i].id != lines[j].id)
    && (forall id :: id in ids ==> exists i :: 0 <= i < |lines| && lines[i].id == id)
  }

  lemma {:induction false} NoErrorsIffNoneFailed(lines: seq<Line>)
    ensures ErrorsOf(lines) == [] <==> forall i :: 0 <= i < |lines| ==> !lines[i].Failed?
  {
    if lines != [] {
      var init := lines[..|lines| - 1];
      assert lines == init + [lines[|lines| - 1]];
      NoErrorsIffNoneFailed(init);
    }
  }

  /** No line of the summary is an error or a refusal. */
  predicate Clean(lines: seq<Line>) {
    forall i :: 0 <= i < |lines| ==> !lines[i].Failed? && !lines[i].Refused?
  }

  /** The loop shared by `IsHealthy` and `IsDrainOk`: the result, the errors joined into the
      returned one, the status lines, and whether the summary event is a warning. */
  method Poll(replies: map<string, Reply>) returns (yes: bool, errs: seq<string>, lines: seq<Line>, warning: bool)
    ensures yes <==> AllConsent(replies)
    ensures yes ==> errs == []
    ensures warning <==> !AllConsent(replies)
    ensures OneLineEach(lines, replies, replies.Keys)
    ensures forall i :: 0 <= i < |lines| ==> lines[i].id in replies
    ensures forall i :: 0 <= i < |lines| ==>
      var line, r := lines[i], replies[lines[i].id];
      && (line.Failed? ==> Raises(r, line.error)) && (line.NotSupported? <==> r.supported == No)
      && (line.Refused? <==> r.supported == Yes && r.verdict == No)
      && (line.Fine? <==> r.supported == Yes && r.verdict == Yes)
    ensures errs == ErrorsOf(lines)
    ensures CollectsErrors(errs, replies, replies.Keys)
    ensures yes <==> forall id :: id in replies ==>
      replies[id].supported == No || (replies[id].supported == Yes && replies[id].verdict == Yes)
  {
    var all := true;
    errs, lines := [], [];
    var rest := replies.Keys;
    ghost var done: set<string> := {};
    while rest != {}
      invariant done + rest == replies.Keys && done !! rest
      invariant Polled(all, errs, lines, replies, done)
      invariant CollectsErrors(errs, replies, done)
      decreases rest
    {
      var id :| id in rest;
      var line, error := PollOne(id, replies[id]);
      PolledOneMore(all, errs, lines, replies, done, id);
      OneMoreError(errs, replies, done, id);
      lines, errs := lines + [line], errs + error;
      all := all && !line.Failed? && !line.Refused?;
      rest, done := rest - {id}, done + {id};
    }
    assert done == replies.Keys;
    NoErrorsIffNoneFailed(lines);
    ConsentMeansCleanSummary(lines, replies);
    warning := !all || |errs| > 0;
    yes := all && |errs| == 0;
  }

  /** What the loop has established for the plugins `ids`. */
  ghost predicate Polled(all: bool, errs: seq<string>, lines: seq<Line>, replies: map<string, Reply>,
                         ids: set<string>)
  {
    (all <==> Clean(lines)) && OneLineEach(lines, replies, ids) && errs == ErrorsOf(lines)
  }

  lemma {:induction false} PolledOneMore(all: bool, errs: seq<string>, lines: seq<Line>, replies: map<string, Reply>,
                                         ids: set<string>, id: string)
    requires Polled(all, errs, lines, replies, ids) && id in replies && id !in ids
    ensures var line := LineOf(id, replies[id]);
      Polled(all && !line.Failed? && !line.Refused?, errs + (if line.Failed? then [line.error] else []),
             lines + [line], replies, ids + {id})
  {
    var line := LineOf(id, replies[id]);
    OneMoreLine(lines, replies, ids, id);
    assert (lines + [line])[..|lines|] == lines;
    assert Clean(lines + [line]) <==> Clean(lines) && !line.Failed? && !line.Refused? by {
      assert (lines + [line])[|lines|] == line;
      assert forall i :: 0 <= i < |lines| ==> (lines + [line])[i] == lines[i];
    }
  }

  /** One turn of the loop: the line to append and the errors to collect. */
  method PollOne(id: string, reply: Reply) returns (line: Line, error: seq<string>)
    ensures line == LineOf(id, reply)
    ensures error == if line.Failed? then [line.error] else []
  {
    if reply.supported.Err? {
      return Failed(id, reply.supported.error), [reply.supported.error];
    }
    if reply.supported.No? {
      return NotSupported(id), [];
    }
    if reply.verdict.Err? {
      return Failed(id, reply.verdict.error), [reply.verdict.error];
    }
    line, error := if reply.verdict.No? then Refused(id) else Fine(id), [];
  }

  lemma OneMoreLine(lines: seq<Line>, replies: map<string, Reply>, ids: set<string>, id: string)
    requires OneLineEach(lines, replies, ids) && id in replies && id !in ids
    ensures OneLineEach(lines + [LineOf(id, replies[id])], replies, ids + {id})
  {
    var more := lines + [LineOf(id, replies[id])];
    forall x | x in ids + {id} ensures exists i :: 0 <= i < |more| && more[i].id == x {
      if x in ids {
        var i :| 0 <= i < |lines| && lines[i].id == x;
        assert more[i].id == x;
      } else {
        assert more[|lines|].id == x;
      }
    }
  }

  /** A poll says yes exactly when no line of its summary is an error or a refusal. */
  lemma ConsentMeansCleanSummary(lines: seq<Line>, replies: map<string, Reply>)
    requires OneLineEach(lines, replies, replies.Keys)
    ensures AllConsent(replies) <==> Clean(lines)
  {
    if Clean(lines) {
      forall id | id in replies ensures replies[id].Consents() {
        var i :| 0 <= i < |lines| && lines[i].id == id;
      }
    }
  }

  /** `IsHealthy`: the nodes first; the plugins are asked only when every node passes. */
  method IsHealthy(nodes: map<string, seq<Condition>>, replies: map<string, Reply>)
    returns (healthy: bool, errs: seq<string>, lines: seq<Line>, warning: bool)
    ensures healthy <==> AllReady(nodes) && AllConsent(replies)
    ensures healthy ==> errs == []
    ensures warning <==> !healthy
    ensures errs == ErrorsOf(lines)
    ensures if AllReady(nodes) then OneLineEach(lines, replies, replies.Keys) else lines == []
    ensures if AllReady(nodes) then CollectsErrors(errs, replies, replies.Keys) else errs == []
  {
    var nodesHealthy := IsClusterNodesHealthy(nodes);
    if !nodesHealthy {
      return false, [], [], true;
    }
    healthy, errs, lines, warning := Poll(replies);
  }

  /** The answers of one plugin to "are you supported" and then to its hook;
      `failure` is the hook's error, if any. */
  datatype HookReply = HookReply(supported: Answer, failure: Option<string>)
  {
    predicate Succeeds() {
      supported.No? || (supported.Yes? && failure.None?)
    }
  }

  /** The hook replies of the plugins of a set; a plugin that gives no reply has failed. */
  function AskedHooks(plugins: set<string>, replies: map<string, HookReply>): (asked: map<string, HookReply>)
    ensures asked.Keys == plugins
    ensures forall id :: id in plugins ==> if id in replies then asked[id] == replies[id] else asked[id].supported.Err?
  {
    map id | id in plugins :: if id in replies then replies[id] else HookReply(Err("no reply"), None)
  }

  predicate HooksSucceed(replies: map<string, HookReply>) {
    forall id :: id in replies ==> replies[id].Succeeds()
  }

  /** The hooks called while visiting plugins in order: those of the supported ones. */
  function CallsOf(visited: seq<string>, replies: map<string, HookReply>): seq<string>
    requires forall id :: id in visited ==> id in replies
  {
    if visited == [] then [] else
    var last := visited[|visited| - 1];
    CallsOf(visited[..|visited| - 1], replies) + if replies[last].supported.Yes? then [last] else []
  }

  ghost predicate Distinct(s: seq<string>) {
    forall i, j :: 0 <= i < j < |s| ==> s[i] != s[j]
  }

  /** Among distinct visits, each supported plugin is called exactly once and no other is. */
  lemma {:induction false} CallsAreTheSupported(visited: seq<string>, replies: map<string, HookReply>)
    requires forall id :: id in visited ==> id in replies
    requires Distinct(visited)
    ensures Distinct(CallsOf(visited, replies))
    ensures forall id :: id in CallsOf(visited, replies) <==> id in visited && replies[id].supported.Yes?
  {
    if visited != [] {
      var init, last := visited[..|visited| - 1], visited[|visited| - 1];
      assert visited == init + [last];
      CallsAreTheSupported(init, replies);
    }
  }

  /** `RunPreDrain` and `RunPostDrain`: stop at the first error. `visited` is the order met. */
  method RunHooks(replies: map<string, HookReply>) returns (ok: bool, visited: seq<string>, calls: seq<string>)
    ensures ok <==> HooksSucceed(replies)
    ensures ok <==> forall id :: id in replies ==>
      replies[id].supported == No || (replies[id].supported == Yes && replies[id].failure == None)
    ensures Distinct(visited) && forall id :: id in visited ==> id in replies
    ensures calls == CallsOf(visited, replies)
    ensures Distinct(calls)
    ensures ok ==> forall id :: id in calls <==> id in replies && replies[id].supported.Yes?
    ensures !ok ==> visited != [] && !replies[visited[|visited| - 1]].Succeeds()
    ensures !ok ==> forall i :: 0 <= i < |visited| - 1 ==> replies[visited[i]].Succeeds()
  {
    visited, calls := [], [];
    var rest := replies.Keys;
    while rest != {}
      invariant rest <= replies.Keys
      invariant Distinct(visited)
      invariant forall id :: id in visited <==> id in replies.Keys - rest
      invariant forall id :: id in visited ==> replies[id].Succeeds()
      invariant calls == CallsOf(visited, replies)
      decreases rest
    {
      var id :| id in rest;
      var reply := replies[id];
      ghost var before := visited;
      visited := visited + [id];
      assert visited[..|visited| - 1] == before;
      rest := rest - {id};
      CallsAreTheSupported(visited, replies);
      if reply.supported.Err? {
        return false, visited, calls;
      }
      if reply.supported.Yes? {
        calls := calls + [id];
        if reply.failure.Some? {
          return false, visited, calls;
        }
      }
    }
    CallsAreTheSupported(visited, replies);
    ok := true;
  }

  /** A file of the plugin directory; `id` is what initialising it yields, or nothing on failure. */
  datatype Entry = Entry(name: string, isDir: bool, isSo: bool, id: Option<string>)
  {
    predicate Accepted() {
      !isDir && isSo
    }
  }

  /** `clients` remembers the file behind each registered plugin ID. */
  datatype Registry = Registry(clients: map<string, string>, fileId: map<string, string>)

  ghost predicate NamesDistinct(entries: seq<Entry>) {
    forall i, j :: 0 <= i < j < |entries| ==> entries[i].name != entries[j].name
  }

  /** Every accepted file initialises to a non-empty ID, and no two to the same one. */
  ghost predicate Loadable(entries: seq<Entry>) {
    && (forall i :: 0 <= i < |entries| && entries[i].Accepted() ==> entries[i].id.Some? && entries[i].id.value != "")
    && (forall i, j :: 0 <= i < j < |entries| && entries[i].Accepted() && entries[j].Accepted() ==>
          entries[i].id != entries[j].id)
  }

  /** The two maps are inverse bijections between the accepted files and their plugin IDs. */
  ghost predicate Registers(reg: Registry, entries: seq<Entry>) {
    && (forall i :: 0 <= i < |entries| && entries[i].Accepted() ==>
          entries[i].name in reg.fileId && entries[i].id == Some(reg.fileId[entries[i].name]))
    && (forall f :: f in reg.fileId ==> exists i :: 0 <= i < |entries| && entries[i].Accepted() && entries[i].name == f)
    && (forall f :: f in reg.fileId ==> reg.fileId[f] in reg.clients && reg.clients[reg.fileId[f]] == f)
    && (forall id :: id in reg.clients ==> reg.clients[id] in reg.fileId && reg.fileId[reg.clients[id]] == id)
  }

  /** The registration loop of `loadPluginsFromDir`; file names in a directory are distinct. */
  method LoadPlugins(entries: seq<Entry>) returns (loaded: Option<Registry>)
    requires NamesDistinct(entries)
    ensures loaded.Some? <==> Loadable(entries)
    ensures loaded.Some? ==> Registers(loaded.value, entries)
    ensures loaded.Some? ==> forall i :: 0 <= i < |entries| ==>
      (entries[i].name in loaded.value.fileId <==> entries[i].isSo && !entries[i].isDir)
  {
    var reg := Registry(map[], map[]);
    for i := 0 to |entries|
      invariant Loadable(entries[..i])
      invariant Registers(reg, entries[..i])
    {
      var e := entries[i];
      ghost var done := entries[..i];
      assert entries[..i + 1] == done + [e];
      if e.Accepted() {
        if e.id.None? || e.id.value == "" {
          return None;
        }
        if e.id.value in reg.clients {
          TakenTwice(reg, entries, i);
          return None;
        }
        RegisterOne(reg, done, e);
        reg := Registry(reg.clients[e.id.value := e.name], reg.fileId[e.name := e.id.value]);
      } else {
        SkipOne(reg, done, e);
      }
    }
    assert entries[..|entries|] == entries;
    loaded := Some(reg);
  }

  lemma TakenTwice(reg: Registry, entries: seq<Entry>, i: nat)
    requires i < |entries| && Registers(reg, entries[..i])
    requires entries[i].Accepted() && entries[i].id.Some? && entries[i].id.value in reg.clients
    ensures !Loadable(entries)
  {
    var file := reg.clients[entries[i].id.value];
    var j :| 0 <= j < |entries[..i]| && entries[..i][j].Accepted() && entries[..i][j].name == file;
    assert entries[j].id == entries[i].id;
  }

  lemma RegisterOne(reg: Registry, done: seq<Entry>, e: Entry)
    requires Loadable(done) && Registers(reg, done) && NamesDistinct(done + [e])
    requires e.Accepted() && e.id.Some? && e.id.value != "" && e.id.value !in reg.clients
    ensures Loadable(done + [e])
    ensures Registers(Registry(reg.clients[e.id.value := e.name], reg.fileId[e.name := e.id.value]), done + [e])
  {
    var more := done + [e];
    var reg' := Registry(reg.clients[e.id.value := e.name], reg.fileId[e.name := e.id.value]);
    assert forall i :: 0 <= i < |done| ==> done[i].name != e.name by {
      assert forall i :: 0 <= i < |done| ==> more[i] == done[i] && more[i].name != more[|done|].name;
    }
    assert e.name !in reg.fileId;
    forall f | f in reg'.fileId ensures exists i :: 0 <= i < |more| && more[i].Accepted() && more[i].name == f {
      if f == e.name {
        assert more[|done|].name == f;
      } else {
        var i :| 0 <= i < |done| && done[i].Accepted() && done[i].name == f;
        assert more[i].name == f;
      }
    }
  }

  lemma SkipOne(reg: Registry, done: seq<Entry>, e: Entry)
    requires Loadable(done) && Registers(reg, done) && !e.Accepted()
    ensures Loadable(done + [e]) && Registers(reg, done + [e])
  {
    var more := done + [e];
    forall f | f in reg.fileId ensures exists i :: 0 <= i < |more| && more[i].Accepted() && more[i].name == f {
      var i :| 0 <= i < |done| && done[i].Accepted() && done[i].name == f;
      assert more[i].name == f;
    }
  }
}
