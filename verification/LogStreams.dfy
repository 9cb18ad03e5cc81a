/** The agent's table of log streams (agent/docker.go).  StreamLogs enters its cancel function under
    the server's id, cancelling the one it replaces, and when it ends takes whatever is entered there
    out again, before it cancels its own context. */
module LogStreams {
  import opened Columns

  type StreamId = nat

  datatype Table = Table(entries: map<ServerId, StreamId>, cancelled: set<StreamId>)
  {
    function CancelEntry(id: ServerId): Table {
      if id in entries then this.(cancelled := cancelled + {entries[id]}) else this
    }

    function Enter(id: ServerId, t: StreamId): Table {
      CancelEntry(id).(entries := entries[id := t])
    }

    function Delete(id: ServerId): Table {
      this.(entries := entries - {id})
    }

    function Cancel(t: StreamId): Table {
      this.(cancelled := cancelled + {t})
    }
  }

  const EMPTY_TABLE := Table(map[], {})

  class Context {
    const id: StreamId
    var done: bool

    constructor (id: StreamId)
      ensures this.id == id && !done
    {
      this.id, this.done := id, false;
    }

    method Cancel()
      modifies this
      ensures done
    {
      done := true;
    }
  }

  /** The methods are the sections that run under the mutex. */
  class DockerManager {
    var logStreams: map<ServerId, Context>
    var nextId: StreamId
    // the contexts made so far
    ghost var known: set<Context>

    ghost predicate Valid()
      reads this
    {
      && (forall id :: id in logStreams ==> logStreams[id] in known)
      && (forall x :: x in known ==> x.id < nextId)
      && (forall a, b :: a in known && b in known && a.id == b.id ==> a == b)
    }

    ghost function State(): Table
      reads this, known
    {
      Table(map id | id in logStreams :: logStreams[id].id, set x: Context | x in known && x.done :: x.id)
    }

    constructor ()
      ensures Valid() && State() == EMPTY_TABLE && known == {}
    {
      logStreams, nextId, known := map[], 0, {};
    }

    /** context.WithCancel. */
    method WithCancel() returns (ctx: Context)
      requires Valid()
      modifies this`nextId, this`known
      ensures Valid() && State() == old(State())
      ensures fresh(ctx) && !ctx.done && known == old(known) + {ctx}
      ensures forall x :: x in old(known) ==> x.id != ctx.id
    {
      ctx := new Context(nextId);
      nextId := nextId + 1;
      known := known + {ctx};
    }

    /** The beginning of StreamLogs: a context of its own, entered under the mutex. */
    method Begin(serverId: ServerId) returns (ctx: Context)
      requires Valid()
      modifies this`logStreams, this`nextId, this`known, known
      ensures Valid() && fresh(ctx) && known == old(known) + {ctx}
      ensures forall x :: x in old(known) ==> x.id != ctx.id
      ensures State() == old(State()).Enter(serverId, ctx.id)
    {
      ctx := WithCancel();
      Enter(serverId, ctx);
    }

    /** The deferred function of StreamLogs: first the entry goes, then the context is cancelled. */
    method End(serverId: ServerId, ctx: Context)
      requires Valid() && ctx in known
      modifies this`logStreams, ctx
      ensures Valid() && known == old(known)
      ensures State() == old(State()).Delete(serverId).Cancel(ctx.id)
    {
      Delete(serverId);
      ctx.Cancel();
    }

    method Enter(serverId: ServerId, cancel: Context)
      requires Valid() && cancel in known
      modifies this`logStreams, known
      ensures Valid() && known == old(known)
      ensures State() == old(State()).Enter(serverId, cancel.id)
    {
      if serverId in logStreams {
        logStreams[serverId].Cancel();
      }
      logStreams := logStreams[serverId := cancel];
    }

    method Delete(serverId: ServerId)
      requires Valid()
      modifies this`logStreams
      ensures Valid() && known == old(known) && State() == old(State()).Delete(serverId)
    {
      logStreams := logStreams - {serverId};
    }

    method StopLogStream(serverId: ServerId)
      requires Valid()
      modifies this`logStreams, known
      ensures Valid() && known == old(known)
      ensures State() == old(State()).CancelEntry(serverId).Delete(serverId)
    {
      if serverId in logStreams {
        logStreams[serverId].Cancel();
        logStreams := logStreams - {serverId};
      }
    }
  }

  // ---- All interleavings

  /** Where a call of StreamLogs is: reading, between the two halves of its deferred function, or over. */
  datatype Phase = Streaming | Deleted | Returned
  datatype Call = Call(id: ServerId, phase: Phase)
  datatype Sys = Sys(table: Table, calls: map<StreamId, Call>)

  const INIT := Sys(EMPTY_TABLE, map[])

  datatype Event =
    | Begin(id: ServerId, t: StreamId)
    | Cleanup(t: StreamId)
    | Finish(t: StreamId)
    | Stop(id: ServerId)

  predicate At(s: Sys, t: StreamId, phase: Phase) {
    t in s.calls && s.calls[t].phase == phase
  }

  predicate Enabled(s: Sys, e: Event) {
    match e
    case Begin(_, t) => t !in s.calls
    case Cleanup(t) => At(s, t, Streaming)
    case Finish(t) => At(s, t, Deleted)
    case Stop(_) => true
  }

  function Step(s: Sys, e: Event): Sys {
    if !Enabled(s, e) then s
    else
      match e
      case Begin(id, t) => Sys(s.table.Enter(id, t), s.calls[t := Call(id, Streaming)])
      case Cleanup(t) => Sys(s.table.Delete(s.calls[t].id), s.calls[t := s.calls[t].(phase := Deleted)])
      case Finish(t) => Sys(s.table.Cancel(t), s.calls[t := s.calls[t].(phase := Returned)])
      case Stop(id) => Sys(s.table.CancelEntry(id).Delete(id), s.calls)
  }

  function Exec(es: seq<Event>): Sys {
    if es == [] then INIT else Step(Exec(es[..|es| - 1]), es[|es| - 1])
  }

  predicate Entered(s: Sys, id: ServerId, t: StreamId) {
    id in s.table.entries && s.table.entries[id] == t
  }

  /** Entries are live; calls that are over are cancelled. */
  ghost predicate Safe(s: Sys) {
    && (forall id :: id in s.table.entries ==>
          s.table.entries[id] !in s.table.cancelled && s.table.entries[id] in s.calls
          && s.calls[s.table.entries[id]] == Call(id, Streaming))
    && (forall t :: t in s.calls && s.calls[t].phase.Returned? ==> t in s.table.cancelled)
    && (forall t :: t in s.table.cancelled ==> t in s.calls)
  }

  lemma StepSafe(s: Sys, e: Event)
    requires Safe(s)
    ensures Safe(Step(s, e))
  {
  }

  lemma {:induction false} ExecSafe(es: seq<Event>)
    ensures Safe(Exec(es))
  {
    if es == [] {
    } else {
      ExecSafe(es[..|es| - 1]);
      StepSafe(Exec(es[..|es| - 1]), es[|es| - 1]);
    }
  }

  /** In every interleaving the entry of a server is a call for that server that still reads, with an
      uncancelled context; the context of a call that returned is cancelled. */
  lemma EntriesAreLive(es: seq<Event>, id: ServerId, t: StreamId)
    ensures Entered(Exec(es), id, t) ==> Live(Exec(es), id, t)
    ensures At(Exec(es), t, Returned) ==> t in Exec(es).table.cancelled
  {
    ExecSafe(es);
  }

  // ---- Exactly what happened

  ghost predicate Happens(es: seq<Event>, i: nat, e: Event) {
    i < |es| && es[i] == e && Enabled(Exec(es[..i]), e)
  }

  /** The event works on the entry of a server. */
  predicate Touches(s: Sys, e: Event, id: ServerId) {
    Enabled(s, e) &&
    match e
    case Begin(i, _) => i == id
    case Cleanup(t) => s.calls[t].id == id
    case Finish(_) => false
    case Stop(i) => i == id
  }

  /** From i on nothing worked on the entry. */
  ghost predicate Untouched(es: seq<Event>, id: ServerId, i: nat, k: nat)
    requires k <= |es|
  {
    forall j :: i < j < k ==> !Touches(Exec(es[..j]), es[j], id)
  }

  ghost predicate Fresh(es: seq<Event>, id: ServerId, t: StreamId, i: nat) {
    Happens(es, i, Begin(id, t)) && Untouched(es, id, i, |es|)
  }

  lemma FreshSnoc(es: seq<Event>, id: ServerId, t: StreamId, i: nat)
    requires es != []
    ensures var k := |es| - 1;
      Fresh(es, id, t, i) <==>
        || (i == k && Happens(es, k, Begin(id, t)))
        || (i < k && Fresh(es[..k], id, t, i) && !Touches(Exec(es[..k]), es[k], id))
  {
    var k := |es| - 1;
    assert forall j :: 0 <= j < k ==> es[..k][..j] == es[..j];
    if i < k {
      assert es[..k][..i] == es[..i];
      assert Happens(es, i, Begin(id, t)) <==> Happens(es[..k], i, Begin(id, t));
      assert Untouched(es, id, i, |es|) <==> Untouched(es[..k], id, i, k) && !Touches(Exec(es[..k]), es[k], id);
    }
  }

  ghost predicate Newest(es: seq<Event>, id: ServerId, t: StreamId) {
    exists i: nat :: Fresh(es, id, t, i)
  }

  /** In every interleaving an id's entry is t exactly when t began for it and since then no call began,
      ended or was stopped under that id. */
  lemma {:induction false} TableIsExact(es: seq<Event>, id: ServerId, t: StreamId)
    ensures Entered(Exec(es), id, t) <==> Newest(es, id, t)
  {
    if es == [] {
    } else {
      var k := |es| - 1;
      var s := Exec(es[..k]);
      TableIsExact(es[..k], id, t);
      ExecSafe(es[..k]);
      forall i: nat
        ensures Fresh(es, id, t, i) <==>
          (i == k && Happens(es, k, Begin(id, t))) || (i < k && Fresh(es[..k], id, t, i) && !Touches(s, es[k], id))
      {
        FreshSnoc(es, id, t, i);
      }
      if Touches(s, es[k], id) {
        assert Entered(Exec(es), id, t) <==> es[k] == Begin(id, t);
        assert es[k] == Begin(id, t) ==> Fresh(es, id, t, k);
      } else {
        assert Entered(Exec(es), id, t) <==> Entered(s, id, t);
        if Entered(s, id, t) {
          var i: nat :| Fresh(es[..k], id, t, i);
          assert Fresh(es, id, t, i);
        }
      }
    }
  }

  /** Event j replaces or stops what is entered. */
  predicate Interrupts(s: Sys, e: Event, id: ServerId) {
    Touches(s, e, id) && !e.Cleanup?
  }

  /** A beginning or a StopLogStream found t in the table at j. */
  ghost predicate Interrupted(es: seq<Event>, t: StreamId, j: nat) {
    j < |es| && exists id :: Newest(es[..j], id, t) && Interrupts(Exec(es[..j]), es[j], id)
  }

  /** Its call is over, or it was interrupted. */
  ghost predicate CancelCause(es: seq<Event>, t: StreamId, j: nat) {
    Happens(es, j, Finish(t)) || Interrupted(es, t, j)
  }

  lemma CauseNow(es: seq<Event>, t: StreamId)
    requires es != []
    ensures var k := |es| - 1;
      CancelCause(es, t, k) <==>
        || (t in Exec(es).table.cancelled && t !in Exec(es[..k]).table.cancelled)
        || Happens(es, k, Finish(t))
  {
    var k := |es| - 1;
    var s, e := Exec(es[..k]), es[k];
    ExecSafe(es[..k]);
    if e.Begin? || e.Stop? { TableIsExact(es[..k], e.id, t); }
    if e.Begin? || e.Stop? {
      var id := e.id;
      if id in s.table.entries && Enabled(s, e) {
        TableIsExact(es[..k], id, s.table.entries[id]);
        assert Interrupted(es, s.table.entries[id], k) by { assert Newest(es[..k], id, s.table.entries[id]); }
      }
    }
  }

  lemma CauseBefore(es: seq<Event>, t: StreamId, j: nat)
    requires es != [] && j < |es| - 1
    ensures CancelCause(es, t, j) <==> CancelCause(es[..|es| - 1], t, j)
  {
    assert es[..|es| - 1][..j] == es[..j];
  }

  /** In every interleaving a context is cancelled exactly when its call is over, or the first event to
      work on its server's entry after it began was another beginning or a StopLogStream. */
  lemma {:induction false} CancellingIsExact(es: seq<Event>, t: StreamId)
    ensures t in Exec(es).table.cancelled <==> exists j: nat :: CancelCause(es, t, j)
  {
    if es == [] {
    } else {
      var k := |es| - 1;
      CancellingIsExact(es[..k], t);
      CauseNow(es, t);
      forall j: nat | j < k
        ensures CancelCause(es, t, j) <==> CancelCause(es[..k], t, j)
      {
        CauseBefore(es, t, j);
      }
      if t in Exec(es[..k]).table.cancelled {
        var j: nat :| CancelCause(es[..k], t, j);
        assert CancelCause(es, t, j);
      } else if t in Exec(es).table.cancelled {
        assert CancelCause(es, t, k);
      }
    }
  }

  // ---- When the table is the set of live streams

  predicate Live(s: Sys, id: ServerId, t: StreamId) {
    t in s.calls && s.calls[t] == Call(id, Streaming) && t !in s.table.cancelled
  }

  /** The table holds exactly the live streams. */
  ghost predicate Complete(s: Sys) {
    forall id, t {:trigger Live(s, id, t)} :: Live(s, id, t) <==> Entered(s, id, t)
  }

  /** A call ends while the entry of its server belongs to another one. */
  predicate Evicts(s: Sys, e: Event) {
    e.Cleanup? && Enabled(s, e) && s.calls[e.t].id in s.table.entries && s.table.entries[s.calls[e.t].id] != e.t
  }

  lemma StepComplete(s: Sys, e: Event)
    requires Safe(s) && Complete(s)
    ensures Complete(Step(s, e)) <==> !Evicts(s, e)
  {
    var s' := Step(s, e);
    forall id, t
      ensures Live(s', id, t) ==> Live(s, id, t) || e == Begin(id, t)
      ensures !Evicts(s, e) ==> (Live(s', id, t) <==> Entered(s', id, t))
    {
      assert Live(s, id, t) <==> Entered(s, id, t);
    }
    if Evicts(s, e) {
      var id := s.calls[e.t].id;
      assert Live(s', id, s.table.entries[id]) && !Entered(s', id, s.table.entries[id]);
    }
  }

  ghost predicate CompleteThroughout(es: seq<Event>) {
    forall k :: 0 <= k <= |es| ==> Complete(Exec(es[..k]))
  }

  ghost predicate NoneEvicts(es: seq<Event>) {
    forall k :: 0 <= k < |es| ==> !Evicts(Exec(es[..k]), es[k])
  }

  lemma CompleteBefore(es: seq<Event>, n: nat)
    requires n <= |es| && CompleteThroughout(es)
    ensures CompleteThroughout(es[..n]) && Complete(Exec(es[..n]))
  {
    forall k | 0 <= k <= n
      ensures Complete(Exec(es[..n][..k]))
    {
      assert es[..n][..k] == es[..k];
    }
  }

  lemma CompleteNow(es: seq<Event>)
    requires es != [] && CompleteThroughout(es[..|es| - 1]) && Complete(Exec(es))
    ensures CompleteThroughout(es)
  {
    forall k | 0 <= k <= |es|
      ensures Complete(Exec(es[..k]))
    {
      if k < |es| {
        assert es[..|es| - 1][..k] == es[..k];
      } else {
        assert es[..k] == es;
      }
    }
  }

  lemma EvictsSnoc(es: seq<Event>)
    requires es != []
    ensures NoneEvicts(es) <==> NoneEvicts(es[..|es| - 1]) && !Evicts(Exec(es[..|es| - 1]), es[|es| - 1])
  {
    var n := |es| - 1;
    assert forall k :: 0 <= k < n ==> es[..n][..k] == es[..k] && es[..n][k] == es[k];
    if NoneEvicts(es) {
      forall k | 0 <= k < n
        ensures !Evicts(Exec(es[..n][..k]), es[..n][k])
      {
        assert !Evicts(Exec(es[..k]), es[k]);
      }
    }
    if NoneEvicts(es[..n]) {
      forall k | 0 <= k < n
        ensures !Evicts(Exec(es[..k]), es[k])
      {
        assert !Evicts(Exec(es[..n][..k]), es[..n][k]);
      }
    }
  }

  lemma ExecComplete(es: seq<Event>)
    requires es != [] && Complete(Exec(es[..|es| - 1]))
    ensures Complete(Exec(es)) <==> !Evicts(Exec(es[..|es| - 1]), es[|es| - 1])
  {
    ExecSafe(es[..|es| - 1]);
    StepComplete(Exec(es[..|es| - 1]), es[|es| - 1]);
  }

  lemma {:induction false} CompleteMeansNoneEvicts(es: seq<Event>)
    requires CompleteThroughout(es)
    ensures NoneEvicts(es)
  {
    if es == [] {
    } else {
      var n := |es| - 1;
      CompleteBefore(es, n);
      CompleteBefore(es, n + 1);
      assert es[..n + 1] == es;
      CompleteMeansNoneEvicts(es[..n]);
      ExecComplete(es);
      EvictsSnoc(es);
    }
  }

  lemma {:induction false} NoneEvictsMeansComplete(es: seq<Event>)
    requires NoneEvicts(es)
    ensures CompleteThroughout(es)
  {
    if es == [] {
    } else {
      var n := |es| - 1;
      EvictsSnoc(es);
      NoneEvictsMeansComplete(es[..n]);
      CompleteBefore(es[..n], n);
      assert es[..n][..n] == es[..n];
      ExecComplete(es);
      CompleteNow(es);
    }
  }

  /** The table is complete throughout a run if and only if no call in it ever ends while the entry of
      its server belongs to another one. */
  lemma CompleteIffNoneEvicts(es: seq<Event>)
    ensures CompleteThroughout(es) <==> NoneEvicts(es)
  {
    if CompleteThroughout(es) { CompleteMeansNoneEvicts(es); }
    if NoneEvicts(es) { NoneEvictsMeansComplete(es); }
  }

  /** A stream begins only after the streams of that server have cleaned up. */
  ghost predicate Serial(es: seq<Event>) {
    forall k, id, t, u :: 0 <= k < |es| && es[k] == Begin(id, t) ==>
        !(u in Exec(es[..k]).calls && Exec(es[..k]).calls[u] == Call(id, Streaming))
  }

  ghost predicate OnePerServer(s: Sys) {
    forall t, u :: t in s.calls && u in s.calls && s.calls[t].phase.Streaming? && s.calls[t] == s.calls[u] ==> t == u
  }

  lemma {:induction false} SerialHasOne(es: seq<Event>)
    requires Serial(es)
    ensures OnePerServer(Exec(es))
  {
    if es == [] {
    } else {
      var k := |es| - 1;
      assert forall j :: 0 <= j < k ==> es[..k][..j] == es[..j];
      SerialHasOne(es[..k]);
    }
  }

  /** With one stream at a time per server the table is complete throughout. */
  lemma SerialIsComplete(es: seq<Event>)
    requires Serial(es)
    ensures Complete(Exec(es))
  {
    forall k | 0 <= k < |es|
      ensures !Evicts(Exec(es[..k]), es[k])
    {
      assert Serial(es[..k]) by {
        assert forall j :: 0 <= j < k ==> es[..k][..j] == es[..j];
      }
      SerialHasOne(es[..k]);
      ExecSafe(es[..k]);
    }
    CompleteIffNoneEvicts(es);
    assert es[..|es|] == es;
  }

  /** A stream that was evicted is out of reach for good: whatever happens later, nothing but its own
      end cancels it. */
  lemma {:induction false} EvictedIsOutOfReach(es: seq<Event>, more: seq<Event>, id: ServerId, t: StreamId)
    requires Live(Exec(es), id, t) && !Entered(Exec(es), id, t)
    ensures var s := Exec(es + more);
      !Entered(s, id, t) && t in s.calls && s.calls[t].id == id
        && (t in s.table.cancelled ==> s.calls[t].phase.Returned?)
  {
    if more == [] {
      assert es + more == es;
    } else {
      var k := |more| - 1;
      EvictedIsOutOfReach(es, more[..k], id, t);
      assert (es + more)[..|es| + k] == es + more[..k];
      ExecSafe(es + more[..k]);
    }
  }

  lemma Then(es: seq<Event>, e: Event)
    ensures Exec(es + [e]) == Step(Exec(es), e)
  {
    assert (es + [e])[..|es|] == es;
  }

  /** A second stream replaces the first; the end of the first evicts the second, and StopLogStream no
      longer finds it. */
  lemma ReplacementCanBeEvicted(id: ServerId)
    ensures var s := Exec([Begin(id, 0), Begin(id, 1), Cleanup(0), Finish(0), Stop(id)]);
      Live(s, id, 1) && !Entered(s, id, 1)
  {
    var es1 := [Begin(id, 0)];
    var es2 := es1 + [Begin(id, 1)];
    var es3 := es2 + [Cleanup(0)];
    var es4 := es3 + [Finish(0)];
    assert es4 + [Stop(id)] == [Begin(id, 0), Begin(id, 1), Cleanup(0), Finish(0), Stop(id)];
    assert [] + es1 == es1;
    Then([], Begin(id, 0));
    Then(es1, Begin(id, 1));
    Then(es2, Cleanup(0));
    Then(es3, Finish(0));
    Then(es4, Stop(id));
  }
}
