/** The hub's metrics history (master/main.go) over Go slices, and the browser's copy of the same
    windows (ui/js/app.js).  A Go slice is a view of a backing array; `append` writes in place when
    the array has room, and re-slicing keeps the array, so slices handed out after the lock is
    released share memory with the live history. */
module Metrics {
  import opened Options
  import opened Windows

  datatype ContainerMetrics = ContainerMetrics(containerName: string, cpuPercent: real, memUsedMB: nat, memLimitMB: nat)

  datatype Payload = Payload(
    agentName: string, cpuPercent: real, memUsedMB: nat, memTotalMB: nat, diskUsedGB: nat, diskTotalGB: nat,
    containers: seq<ContainerMetrics>, timestamp: string)

  const NO_PAYLOAD := Payload("", 0.0, 0, 0, 0, 0, [], "")

  datatype Slice = Nil | Slice(data: array<Payload>, off: nat, len: nat, cap: nat)

  /** The part of each backing array that has been written, as values.  It only ever grows at the end. */
  type Memory = map<array<Payload>, seq<Payload>>

  /** What a slice reads, as long as the arrays agree with the memory. */
  ghost predicate Shows(mem: Memory, s: Slice, contents: seq<Payload>) {
    match s
    case Nil => contents == []
    case Slice(data, off, len, cap) =>
      && len <= cap && off + cap == data.Length
      && data in mem && off + len <= |mem[data]|
      && mem[data][off..off + len] == contents
  }

  ghost predicate Agrees(mem: Memory)
    reads mem.Keys
  {
    forall a :: a in mem ==> |mem[a]| <= a.Length && a[..|mem[a]|] == mem[a]
  }

  ghost predicate Grows(mem: Memory, mem': Memory) {
    forall a :: a in mem ==> a in mem' && mem[a] <= mem'[a]
  }

  lemma ShowsStays(mem: Memory, mem': Memory, s: Slice, contents: seq<Payload>)
    requires Shows(mem, s, contents) && Grows(mem, mem')
    ensures Shows(mem', s, contents)
  {
    if s.Slice? {
      assert mem'[s.data][..|mem[s.data]|] == mem[s.data];
    }
  }

  /** A live history ends where its array's written part ends. */
  ghost predicate Live(mem: Memory, s: Slice, contents: seq<Payload>) {
    s.Slice? && Shows(mem, s, contents) && s.off + s.len == |mem[s.data]|
  }

  /** From s to r the memory grew on r's array alone, which is s's or a new one, and r is live. */
  ghost predicate Extended(mem: Memory, s: Slice, mem': Memory, r: Slice, contents: seq<Payload>) {
    && Live(mem', r, contents) && Grows(mem, mem')
    && mem'.Keys == mem.Keys + {r.data}
    && (forall a :: a in mem && a != r.data ==> mem'[a] == mem[a])
    && (r.data in mem ==> s.Slice? && r.data == s.data)
  }

  /** history[len(history)-30:] */
  function Trim(s: Slice): Slice
    requires s.Slice? && s.len <= s.cap
  {
    if s.len > WINDOW then Slice(s.data, s.off + (s.len - WINDOW), WINDOW, s.cap - (s.len - WINDOW)) else s
  }

  lemma TrimExtended(mem: Memory, s: Slice, mem': Memory, r: Slice, contents: seq<Payload>)
    requires Extended(mem, s, mem', r, contents)
    ensures Extended(mem, s, mem', Trim(r), Last(contents))
  {
    var k := r.len - WINDOW;
    if k > 0 {
      assert contents[k..] == mem'[r.data][r.off + k..r.off + r.len];
    }
  }

  /** A slice that was returned to a caller, and what it read then. */
  datatype Snapshot = Snapshot(slice: Slice, contents: seq<Payload>)

  /** The history as values: the written parts of the arrays, the agent each array belongs to, the
      windows, and every slice that was ever returned. */
  datatype Shadow = Shadow(
    mem: Memory, owner: map<array<Payload>, string>, view: map<string, seq<Payload>>, handedOut: seq<Snapshot>)
  {
    /** The live histories show the windows, each on arrays that only its own agent uses, and the
        slices handed out show what they were handed out with. */
    ghost predicate Fits(live: map<string, Slice>) {
      && owner.Keys == mem.Keys && view.Keys == live.Keys
      && (forall n {:trigger Current(live, n)} :: n in live ==> Current(live, n))
      && (forall i {:trigger Unchanged(i)} :: 0 <= i < |handedOut| ==> Unchanged(i))
    }

    ghost predicate Current(live: map<string, Slice>, n: string) {
      && n in live && n in view && Live(mem, live[n], view[n])
      && live[n].data in owner && owner[live[n].data] == n
    }

    ghost predicate Unchanged(i: nat) {
      i < |handedOut| && Shows(mem, handedOut[i].slice, handedOut[i].contents)
    }

    ghost function Stored(n: string, s: Slice, mem': Memory, m: Payload): Shadow
      requires s.Slice?
    {
      Shadow(mem', owner[s.data := n], Push(view, n, m), handedOut)
    }
  }

  lemma SnapshotStays(shadow: Shadow, shadow': Shadow, i: nat)
    requires i < |shadow.handedOut| && shadow.Unchanged(i)
    requires shadow'.handedOut == shadow.handedOut && Grows(shadow.mem, shadow'.mem)
    ensures shadow'.Unchanged(i)
  {
    ShowsStays(shadow.mem, shadow'.mem, shadow.handedOut[i].slice, shadow.handedOut[i].contents);
  }

  /** Another agent's window is on an array of its own. */
  lemma CurrentStays(shadow: Shadow, live: map<string, Slice>, mem': Memory, n: string, s: Slice, m: Payload, k: string)
    requires shadow.owner.Keys == shadow.mem.Keys && shadow.Current(live, k) && k != n
    requires n in live ==> shadow.Current(live, n)
    requires Extended(shadow.mem, if n in live then live[n] else Nil, mem', s, Last(Get(shadow.view, n) + [m]))
    ensures shadow.Stored(n, s, mem', m).Current(live[n := s], k)
  {
    ShowsStays(shadow.mem, mem', live[k], shadow.view[k]);
  }

  lemma StoreFits(shadow: Shadow, live: map<string, Slice>, mem': Memory, n: string, s: Slice, m: Payload)
    requires shadow.Fits(live)
    requires Extended(shadow.mem, if n in live then live[n] else Nil, mem', s, Last(Get(shadow.view, n) + [m]))
    ensures shadow.Stored(n, s, mem', m).Fits(live[n := s])
  {
    assert n in live ==> shadow.Current(live, n);
    var shadow' := shadow.Stored(n, s, mem', m);
    forall i: nat | i < |shadow.handedOut|
      ensures shadow'.Unchanged(i)
    {
      SnapshotStays(shadow, shadow', i);
    }
    forall k | k in live && k != n
      ensures shadow'.Current(live[n := s], k)
    {
      CurrentStays(shadow, live, mem', n, s, m, k);
    }
  }

  class History {
    var metricsHistory: map<string, Slice>
    var latestMetrics: map<string, Payload>
    ghost var shadow: Shadow

    ghost predicate Valid()
      reads this, shadow.mem.Keys
    {
      Agrees(shadow.mem) && shadow.Fits(metricsHistory)
    }

    constructor ()
      ensures Valid() && shadow == Shadow(map[], map[], map[], []) && latestMetrics == map[]
    {
      metricsHistory, latestMetrics, shadow := map[], map[], Shadow(map[], map[], map[], []);
    }

    /** Every slice handed out before still reads what it read then: `Valid` says that each snapshot
        shows its contents, and the snapshots do not change. */
    method StoreMetrics(agentName: string, m: Payload)
      requires Valid()
      modifies this, shadow.mem.Keys
      ensures Valid() && fresh(shadow.mem.Keys - old(shadow.mem.Keys))
      ensures shadow.view == Push(old(shadow.view), agentName, m)
      ensures latestMetrics == old(latestMetrics)[agentName := m]
      ensures shadow.handedOut == old(shadow.handedOut)
    {
      latestMetrics := latestMetrics[agentName := m];
      var history;
      ghost var shadow';
      history, shadow' := AppendTo(agentName, m);
      metricsHistory := metricsHistory[agentName := history];
      shadow := shadow';
    }

    /** The agent's new slice, and what the tables are once it is stored. */
    method AppendTo(agentName: string, m: Payload) returns (history: Slice, ghost shadow': Shadow)
      requires Valid()
      modifies shadow.mem.Keys
      ensures Agrees(shadow'.mem) && shadow'.Fits(metricsHistory[agentName := history])
      ensures fresh(shadow'.mem.Keys - shadow.mem.Keys)
      ensures shadow'.view == Push(shadow.view, agentName, m) && shadow'.handedOut == shadow.handedOut
    {
      var before := if agentName in metricsHistory then metricsHistory[agentName] else Nil;
      assert agentName in metricsHistory ==> shadow.Current(metricsHistory, agentName);
      ghost var mem';
      history, mem' := AppendTrimmed(shadow.mem, before, Get(shadow.view, agentName), m);
      StoreFits(shadow, metricsHistory, mem', agentName, history, m);
      shadow' := shadow.Stored(agentName, history, mem', m);
    }

    /** append, then keep the last 30. */
    static method AppendTrimmed(ghost mem: Memory, s: Slice, ghost contents: seq<Payload>, m: Payload)
      returns (history: Slice, ghost mem': Memory)
      requires Agrees(mem) && (Live(mem, s, contents) || (s.Nil? && contents == []))
      modifies if s.Slice? then {s.data} else {}
      ensures Agrees(mem') && Extended(mem, s, mem', history, Last(contents + [m]))
      ensures history.data !in mem ==> fresh(history.data)
    {
      history, mem' := Append(mem, s, contents, m);
      TrimExtended(mem, s, mem', history, contents + [m]);
      if history.len > 30 {
        var k := history.len - 30;
        history := Slice(history.data, history.off + k, 30, history.cap - k);
      }
    }

    /** Go's append: in place when the capacity allows, else into a new array of unknown capacity. */
    static method Append(ghost mem: Memory, s: Slice, ghost contents: seq<Payload>, m: Payload)
      returns (r: Slice, ghost mem': Memory)
      requires Agrees(mem) && (Live(mem, s, contents) || (s.Nil? && contents == []))
      modifies if s.Slice? then {s.data} else {}
      ensures Agrees(mem') && Extended(mem, s, mem', r, contents + [m])
      ensures r.data !in mem ==> fresh(r.data)
    {
      if s.Slice? && s.len < s.cap {
        s.data[s.off + s.len] := m;
        r := s.(len := s.len + 1);
        mem' := mem[s.data := mem[s.data] + [m]];
        assert s.data[..|mem'[s.data]|] == mem'[s.data];
      } else {
        r, mem' := Grow(mem, s, contents, m);
      }
    }

    static method Grow(ghost mem: Memory, s: Slice, ghost contents: seq<Payload>, m: Payload)
      returns (r: Slice, ghost mem': Memory)
      requires Agrees(mem) && (Live(mem, s, contents) || (s.Nil? && contents == []))
      ensures Agrees(mem') && Extended(mem, s, mem', r, contents + [m])
      ensures r.data !in mem && fresh(r.data)
    {
      var n := if s.Nil? then 0 else s.len;
      var capacity :| capacity > n;
      var data := new Payload[capacity](_ => NO_PAYLOAD);
      if s.Slice? {
        CopyOut(mem, s, contents, data);
      }
      data[n] := m;
      r := Slice(data, 0, n + 1, capacity);
      mem' := mem[data := contents + [m]];
      assert data[..n + 1] == contents + [m];
    }

    static method CopyOut(ghost mem: Memory, s: Slice, ghost contents: seq<Payload>, data: array<Payload>)
      requires Agrees(mem) && s.Slice? && Shows(mem, s, contents)
      requires data !in mem && data.Length > s.len
      modifies data
      ensures data[..s.len] == contents
    {
      for i := 0 to s.len
        invariant data[..i] == contents[..i]
      {
        assert s.data[s.off + i] == s.data[..|mem[s.data]|][s.off + i];
        data[i] := s.data[s.off + i];
      }
    }

    method GetMetricsHistory(agentName: string) returns (s: Slice)
      requires Valid()
      modifies this`shadow
      ensures Valid()
      ensures shadow == old(shadow).(handedOut :=
          old(shadow.handedOut) + [Snapshot(s, Get(old(shadow.view), agentName))])
    {
      s := if agentName in metricsHistory then metricsHistory[agentName] else Nil;
      assert agentName in metricsHistory ==> shadow.Current(metricsHistory, agentName);
      ghost var before := shadow;
      shadow := shadow.(handedOut := shadow.handedOut + [Snapshot(s, Get(shadow.view, agentName))]);
      forall i: nat | i < |shadow.handedOut|
        ensures shadow.Unchanged(i)
      {
        assert i < |before.handedOut| ==> before.Unchanged(i);
      }
      forall n | n in metricsHistory
        ensures shadow.Current(metricsHistory, n)
      {
        assert before.Current(metricsHistory, n);
      }
    }
  }

  /** Reading a returned slice straight off its array, at any later time and without the lock, gives
      what it was returned with. */
  method ReadOut(h: History, ghost i: nat, s: Slice) returns (contents: seq<Payload>)
    requires h.Valid() && i < |h.shadow.handedOut| && h.shadow.handedOut[i].slice == s
    ensures contents == h.shadow.handedOut[i].contents
  {
    assert h.shadow.Unchanged(i);
    if s.Nil? {
      return [];
    }
    contents := s.data[s.off..s.off + s.len];
    assert s.data[..|h.shadow.mem[s.data]|][s.off..s.off + s.len] == contents;
  }

  // ---- Whole runs

  datatype Call = Store(agentName: string, m: Payload) | Fetch(agentName: string)

  function Stores(calls: seq<Call>): seq<(string, Payload)> {
    if calls == [] then []
    else
      var c := calls[|calls| - 1];
      Stores(calls[..|calls| - 1]) + if c.Store? then [(c.agentName, c.m)] else []
  }

  /** What each fetch must have seen: the tail of that agent's log at that moment. */
  function Answers(calls: seq<Call>): seq<seq<Payload>> {
    if calls == [] then []
    else
      var c := calls[|calls| - 1];
      var front := calls[..|calls| - 1];
      Answers(front) + if c.Fetch? then [Last(Project(Stores(front), c.agentName))] else []
  }

  /** The last value recorded under each name. */
  function Latest(log: seq<(string, Payload)>): map<string, Payload> {
    if log == [] then map[]
    else Latest(log[..|log| - 1])[log[|log| - 1].0 := log[|log| - 1].1]
  }

  lemma {:induction false} LatestIsLast(log: seq<(string, Payload)>, n: string)
    ensures n in Latest(log) <==> Project(log, n) != []
    ensures n in Latest(log) ==> Latest(log)[n] == Project(log, n)[|Project(log, n)| - 1]
  {
    if log == [] {
    } else {
      LatestIsLast(log[..|log| - 1], n);
    }
  }

  lemma CallsStep(calls: seq<Call>, i: nat)
    requires i < |calls|
    ensures var front, log := calls[..i], Stores(calls[..i]);
      match calls[i]
      case Store(n, m) =>
        && Stores(calls[..i + 1]) == log + [(n, m)] && Answers(calls[..i + 1]) == Answers(front)
        && PushAll(map[], log + [(n, m)]) == Push(PushAll(map[], log), n, m)
        && Latest(log + [(n, m)]) == Latest(log)[n := m]
      case Fetch(n) =>
        && Stores(calls[..i + 1]) == log
        && Answers(calls[..i + 1]) == Answers(front) + [Get(PushAll(map[], log), n)]
  {
    assert calls[..i + 1][..i] == calls[..i];
    var log := Stores(calls[..i]);
    match calls[i]
    case Store(n, m) =>
      assert (log + [(n, m)])[..|log|] == log;
    case Fetch(n) =>
      WindowIsTail(log, n);
  }

  function Contents(out: seq<Snapshot>): (r: seq<seq<Payload>>)
    ensures |r| == |out| && forall i :: 0 <= i < |out| ==> r[i] == out[i].contents
  {
    if out == [] then [] else Contents(out[..|out| - 1]) + [out[|out| - 1].contents]
  }

  ghost predicate Follows(shadow: Shadow, latest: map<string, Payload>, calls: seq<Call>) {
    && Contents(shadow.handedOut) == Answers(calls)
    && shadow.view == PushAll(map[], Stores(calls))
    && latest == Latest(Stores(calls))
  }

  method Perform(h: History, ghost calls: seq<Call>, ghost i: nat, c: Call)
    requires i < |calls| && calls[i] == c
    requires h.Valid() && Follows(h.shadow, h.latestMetrics, calls[..i])
    modifies h, h.shadow.mem.Keys
    ensures h.Valid() && fresh(h.shadow.mem.Keys - old(h.shadow.mem.Keys))
    ensures Follows(h.shadow, h.latestMetrics, calls[..i + 1])
  {
    CallsStep(calls, i);
    match c
    case Store(n, m) =>
      h.StoreMetrics(n, m);
    case Fetch(n) =>
      ghost var out := h.shadow.handedOut;
      var s := h.GetMetricsHistory(n);
      assert h.shadow.handedOut[..|out|] == out;
  }

  /** In any run over any agents, at the end every slice that was ever returned still reads what it
      read when it was returned, although its array has been written to since: `ReadOut` reads
      exactly `Contents`. */
  method Run(calls: seq<Call>) returns (h: History)
    ensures h.Valid() && Contents(h.shadow.handedOut) == Answers(calls)
    ensures h.shadow.view == PushAll(map[], Stores(calls))
    ensures h.latestMetrics == Latest(Stores(calls))
  {
    h := new History();
    assert calls[..0] == [];
    for i := 0 to |calls|
      invariant h.Valid() && fresh(h) && fresh(h.shadow.mem.Keys)
      invariant Follows(h.shadow, h.latestMetrics, calls[..i])
    {
      Perform(h, calls, i, calls[i]);
    }
    assert calls[..|calls|] == calls;
  }

  lemma WindowIsTail<T>(log: seq<(string, T)>, n: string)
    ensures Get(PushAll(map[], log), n) == Last(Project(log, n))
  {
    WindowIsTailOfLog(map[], [], log, n);
    assert [] + Project(log, n) == Project(log, n);
  }

  // ---- The browser

  class Client {
    var selectedAgent: Option<string>
    var agentMetricsHistory: map<string, seq<Payload>>
    var containerMetricsHistory: map<string, seq<ContainerMetrics>>

    ghost predicate Valid()
      reads this
    {
      forall n :: n in agentMetricsHistory ==> |agentMetricsHistory[n]| <= WINDOW
    }

    constructor ()
      ensures Valid() && selectedAgent == None && agentMetricsHistory == map[] && containerMetricsHistory == map[]
    {
      selectedAgent, agentMetricsHistory, containerMetricsHistory := None, map[], map[];
    }

    method HandleMetrics(payload: Payload)
      modifies this`agentMetricsHistory, this`containerMetricsHistory
      ensures old(Valid()) ==> Valid()
      ensures agentMetricsHistory == Push(old(agentMetricsHistory), payload.agentName, payload)
      ensures containerMetricsHistory == PushAll(old(containerMetricsHistory), Readings(payload.containers))
    {
      agentMetricsHistory := Record(agentMetricsHistory, payload.agentName, payload);
      ghost var before, log := containerMetricsHistory, Readings(payload.containers);
      for i := 0 to |payload.containers|
        invariant agentMetricsHistory == Push(old(agentMetricsHistory), payload.agentName, payload)
        invariant containerMetricsHistory == PushAll(before, log[..i])
      {
        var c := payload.containers[i];
        assert log[..i + 1][..i] == log[..i] && log[i] == (c.containerName, c);
        containerMetricsHistory := Record(containerMetricsHistory, c.containerName, c);
      }
      assert log[..|log|] == log;
    }

    /** The payloads that arrive one after the other. */
    method HandleAll(payloads: seq<Payload>)
      modifies this`agentMetricsHistory, this`containerMetricsHistory
      ensures old(Valid()) ==> Valid()
      ensures agentMetricsHistory == PushAll(old(agentMetricsHistory), ByAgent(payloads))
    {
      for i := 0 to |payloads|
        invariant old(Valid()) ==> Valid()
        invariant agentMetricsHistory == PushAll(old(agentMetricsHistory), ByAgent(payloads[..i]))
      {
        assert payloads[..i + 1][..i] == payloads[..i];
        ByAgentSnoc(payloads, i);
        HandleMetrics(payloads[i]);
      }
      assert payloads[..|payloads|] == payloads;
    }

    /** The push and splice on one array of a table. */
    method Record<T>(table: map<string, seq<T>>, k: string, x: T) returns (r: map<string, seq<T>>)
      ensures r == Push(table, k, x)
    {
      r := table;
      if k !in r {
        r := r[k := []];
      }
      var history := r[k] + [x];
      if |history| > 30 {
        history := Splice(history, |history| - 30);
      }
      r := r[k := history];
    }

    /** The first half of openAgent: the click, after which the history is fetched. */
    method OpenAgent(n: Option<string>)
      modifies this`selectedAgent
      ensures selectedAgent == n
    {
      selectedAgent := n;
    }

    /** The second half: a history arrives and replaces the window of whichever agent is selected by then.
        An empty one is ignored; without a selection the assignment throws, and nothing changes. */
    method HistoryArrives(history: seq<Payload>)
      requires |history| <= WINDOW
      modifies this`agentMetricsHistory
      ensures old(Valid()) ==> Valid()
      ensures agentMetricsHistory ==
        if history != [] && selectedAgent.Some? then old(agentMetricsHistory)[selectedAgent.value := history]
        else old(agentMetricsHistory)
    {
      if history != [] && selectedAgent.Some? {
        agentMetricsHistory := agentMetricsHistory[selectedAgent.value := history];
      }
    }
  }

  /** The browser goes by the name in the payload. */
  function ByAgent(payloads: seq<Payload>): (r: seq<(string, Payload)>)
    ensures |r| == |payloads|
  {
    seq(|payloads|, i requires 0 <= i < |payloads| => (payloads[i].agentName, payloads[i]))
  }

  lemma ByAgentSnoc(payloads: seq<Payload>, i: nat)
    requires i < |payloads|
    ensures var log := ByAgent(payloads[..i + 1]);
      log[..i] == ByAgent(payloads[..i]) && log[i] == (payloads[i].agentName, payloads[i])
  {
  }

  /** array.splice(0, n) on the array, leaving the rest. */
  function Splice<T>(s: seq<T>, n: nat): seq<T>
    requires n <= |s|
  {
    s[n..]
  }

  function Readings(cs: seq<ContainerMetrics>): seq<(string, ContainerMetrics)> {
    seq(|cs|, i requires 0 <= i < |cs| => (cs[i].containerName, cs[i]))
  }

  /** The readings of one container, in order. */
  function Of(cs: seq<ContainerMetrics>, n: string): seq<ContainerMetrics> {
    if cs == [] then []
    else Of(cs[..|cs| - 1], n) + if cs[|cs| - 1].containerName == n then [cs[|cs| - 1]] else []
  }

  lemma {:induction false} ReadingsOf(cs: seq<ContainerMetrics>, n: string)
    ensures Project(Readings(cs), n) == Of(cs, n)
  {
    if cs == [] {
    } else {
      var k := |cs| - 1;
      assert Readings(cs)[..k] == Readings(cs[..k]);
      ReadingsOf(cs[..k], n);
    }
  }

  /** After a payload, each container's window is the old one followed by that container's readings, cut to
      its last 30; the windows of other containers stay. */
  lemma ContainerWindow(table: map<string, seq<ContainerMetrics>>, cs: seq<ContainerMetrics>, n: string)
    requires |Get(table, n)| <= WINDOW
    ensures Get(PushAll(table, Readings(cs)), n) == Last(Get(table, n) + Of(cs, n))
  {
    ReadingsOf(cs, n);
    WindowIsTailOfLog(table, Get(table, n), Readings(cs), n);
  }

  /** The hub goes by the name of the connection.  Both names come from the agent's configuration. */
  ghost predicate Labelled(log: seq<(string, Payload)>) {
    forall i :: 0 <= i < |log| ==> log[i].1.agentName == log[i].0
  }

  /** The payloads of a log, as the hub relays them. */
  function Relayed(log: seq<(string, Payload)>): (r: seq<Payload>)
    ensures |r| == |log| && forall i :: 0 <= i < |log| ==> r[i] == log[i].1
  {
    seq(|log|, i requires 0 <= i < |log| => log[i].1)
  }

  /** The browser's window and the hub's agree: one that was loaded from the hub after the stores
      `before` and then handled the relayed payloads of the stores `after` holds what the hub holds now,
      when agents sign their payloads with the name they connected under. */
  lemma ClientAgreesWithHub(before: seq<(string, Payload)>, after: seq<(string, Payload)>,
                            client: map<string, seq<Payload>>, n: string)
    requires Get(client, n) == Get(PushAll(map[], before), n) && Labelled(after)
    ensures Get(PushAll(client, ByAgent(Relayed(after))), n) == Get(PushAll(map[], before + after), n)
         == Last(Project(before + after, n))
  {
    assert ByAgent(Relayed(after)) == after;
    WindowIsTail(before, n);
    WindowIsTailOfLog(client, Project(before, n), after, n);
    PushAllConcat(map[], before, after);
    WindowIsTailOfLog(PushAll(map[], before), Project(before, n), after, n);
    WindowIsTail(before + after, n);
  }

  // ---- When the browser's window is the hub's

  function Tail<T>(s: seq<T>, n: nat): seq<T> {
    if |s| <= n then s else s[|s| - n..]
  }

  /** Two windows followed by the same values become equal exactly when the parts of them that are still
      in sight are. */
  lemma InSight<T>(u: seq<T>, v: seq<T>, a: seq<T>)
    requires |a| <= WINDOW
    ensures Last(u + a) == Last(v + a) <==> Tail(u, WINDOW - |a|) == Tail(v, WINDOW - |a|)
  {
    TailAfter(u, a);
    TailAfter(v, a);
    var x, y := Tail(u, WINDOW - |a|), Tail(v, WINDOW - |a|);
    if x + a == y + a {
      assert |x| == |y| && (x + a)[..|x|] == x && (y + a)[..|y|] == y;
    }
  }

  lemma TailAfter<T>(u: seq<T>, a: seq<T>)
    requires |a| <= WINDOW
    ensures Last(u + a) == Tail(u, WINDOW - |a|) + a
  {
  }

  lemma OutOfSight<T>(u: seq<T>, v: seq<T>, a: seq<T>)
    requires |a| >= WINDOW
    ensures Last(u + a) == Last(v + a)
  {
    assert Last(u + a) == a[|a| - WINDOW..] && Last(v + a) == a[|a| - WINDOW..];
  }

  /** w is the browser's window, `past` what the hub recorded before it was asked, a what followed. */
  lemma FollowedWindow<T>(w: seq<T>, past: seq<T>, a: seq<T>)
    requires |w| <= WINDOW
    ensures Last((if past != [] then Last(past) else w) + a) == Last(past + a) <==>
      past != [] || w == [] || |a| >= WINDOW
  {
    if past != [] {
      LastOfLast(past, a);
    } else if |a| >= WINDOW {
      OutOfSight(w, past, a);
    } else {
      InSight(w, past, a);
    }
  }

  /** A browser session on one agent that stays open: its history is fetched and arrives, and then the
      browser handles what the hub relays.  Its window is the hub's if and only if the hub had recorded
      anything by then, or the browser had no window, or thirty payloads have come since: a browser
      that outlived a restart of the master shows a window the hub does not have. */
  method Follow(client: Client, hub: History,
                ghost before: seq<(string, Payload)>, after: seq<(string, Payload)>, n: string)
    requires client.Valid() && hub.Valid() && hub.shadow.view == PushAll(map[], before) && Labelled(after)
    modifies client, hub`shadow
    ensures Get(client.agentMetricsHistory, n) == Get(PushAll(map[], before + after), n) <==>
      Project(before, n) != [] || Get(old(client.agentMetricsHistory), n) == [] || |Project(after, n)| >= WINDOW
  {
    ghost var w, past, a := Get(client.agentMetricsHistory, n), Project(before, n), Project(after, n);
    client.OpenAgent(Some(n));
    WindowIsTail(before, n);
    var history := Fetch(hub, n);
    client.HistoryArrives(history);
    ghost var loaded := if past != [] then Last(past) else w;
    assert Get(client.agentMetricsHistory, n) == loaded;
    Followed(client.agentMetricsHistory, before, after, n, loaded);
    FollowedWindow(w, past, a);
    client.HandleAll(Relayed(after));
  }

  /** The master restarts while the browser holds a window, and fewer than thirty payloads come. */
  method FollowAfterRestart(client: Client, after: seq<(string, Payload)>, n: string)
    requires client.Valid() && Labelled(after)
    requires Get(client.agentMetricsHistory, n) != [] && |Project(after, n)| < WINDOW
    modifies client
    ensures Get(client.agentMetricsHistory, n) != Get(PushAll(map[], after), n)
  {
    var hub := new History();
    assert [] + after == after;
    Follow(client, hub, [], after, n);
  }

  lemma Followed(client: map<string, seq<Payload>>, before: seq<(string, Payload)>, after: seq<(string, Payload)>,
                 n: string, loaded: seq<Payload>)
    requires Labelled(after) && Get(client, n) == loaded && |loaded| <= WINDOW
    ensures Get(PushAll(client, ByAgent(Relayed(after))), n) == Last(loaded + Project(after, n))
    ensures Get(PushAll(map[], before + after), n) == Last(Project(before, n) + Project(after, n))
  {
    assert ByAgent(Relayed(after)) == after;
    WindowIsTailOfLog(client, loaded, after, n);
    WindowIsTail(before, n);
    PushAllConcat(map[], before, after);
    WindowIsTailOfLog(PushAll(map[], before), Project(before, n), after, n);
  }

  /** GET /api/metrics/n: the response is read off the slice after the lock is released. */
  method Fetch(hub: History, n: string) returns (history: seq<Payload>)
    requires hub.Valid() && |Get(hub.shadow.view, n)| <= WINDOW
    modifies hub`shadow
    ensures hub.Valid() && hub.shadow.view == old(hub.shadow.view)
    ensures history == Get(hub.shadow.view, n)
  {
    var s := hub.GetMetricsHistory(n);
    ghost var i := |hub.shadow.handedOut| - 1;
    history := ReadOut(hub, i, s);
  }

  /** Opening another agent before the first one's history arrives files that history under the other. */
  method OpenAnother(client: Client, hub: History, ghost before: seq<(string, Payload)>, n: string, other: string)
    requires client.Valid() && hub.Valid() && hub.shadow.view == PushAll(map[], before) && n != other
    modifies client, hub`shadow
    ensures Get(client.agentMetricsHistory, other) ==
      if Project(before, n) != [] then Last(Project(before, n)) else Get(old(client.agentMetricsHistory), other)
    ensures Get(client.agentMetricsHistory, n) == Get(old(client.agentMetricsHistory), n)
  {
    WindowIsTail(before, n);
    client.OpenAgent(Some(n));
    var history := Fetch(hub, n);
    client.OpenAgent(Some(other));
    client.HistoryArrives(history);
  }
}
