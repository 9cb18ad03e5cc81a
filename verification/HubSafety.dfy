/** What every interleaving keeps: channels are never misused, and nothing a connection accepted is
    duplicated, reordered or overtaken. */
module HubSafety {
  import opened Outbox
  import opened Hub
  import opened HubSystem

  function Texts(ms: seq<Message>): seq<Frame> {
    seq(|ms|, i requires 0 <= i < |ms| => Text(ms[i]))
  }

  predicate Early(phase: Phase) {
    phase.Selecting? || phase.ToInsert? || phase.ToPend? || phase.Waiting?
  }

  /** The wire carries the approval (if any), then the written messages, then the close frame (if
      any), and nothing else. */
  ghost predicate ConnOk(conn: Conn, closed: bool) {
    && conn.box.Conserves(closed)
    && (!conn.Started() ==> conn.box == EMPTY)
    && conn.wire == (if conn.greeting.Some? then [ApprovedFrame(conn.greeting.value)] else [])
                    + Texts(conn.box.written) + (if conn.box.closeSent then [CloseFrame] else [])
    && conn.promotions <= 1
    && (Early(conn.phase) ==> conn.promotions == 0)
    && (conn.phase.Approving? ==> conn.promotions == 1)
    && (Early(conn.phase) || conn.phase.Approving? || conn.promotions == 0 ==> conn.greeting.None?)
  }

  ghost predicate Fine(s: Sys, c: ConnId) {
    c in s.conns ==> ConnOk(s.conns[c], c in s.hub.closed)
  }

  predicate Live(s: Sys, c: ConnId) {
    && c in s.conns
    && (s.conns[c].phase.Registered? || s.conns[c].phase.ToUnregister? || (Gone(s, c) && s.run == Unregistering(c)))
  }

  /** The hub has received the connection for unregistration. */
  predicate Gone(s: Sys, c: ConnId) {
    c in s.conns && (s.conns[c].phase.ToOffline? || s.conns[c].phase.Done?)
  }

  /** The registry has c under its own name. */
  predicate InRegistry(s: Sys, c: ConnId) {
    c in s.conns && s.conns[c].name in s.hub.agents && s.hub.agents[s.conns[c].name] == c
  }

  ghost predicate AgentOk(s: Sys, n: Name) {
    n in s.hub.agents ==>
      var c := s.hub.agents[n];
      Live(s, c) && s.conns[c].name == n && c !in s.hub.closed
  }

  ghost predicate ClosedOk(s: Sys, c: ConnId) {
    c in s.hub.closed ==> Gone(s, c) && s.run != Unregistering(c)
  }

  ghost predicate PendingOk(s: Sys, n: Name) {
    n in s.hub.pending ==>
      var c := s.hub.pending[n];
      s.At(c, Waiting) && s.conns[c].waiter && s.conns[c].name == n
  }

  ghost predicate SenderOk(s: Sys, t: nat) {
    t in s.senders ==> InRegistry(s, s.senders[t].c)
  }

  ghost predicate TargetOk(s: Sys, c: ConnId) {
    s.run.Broadcasting? && c in s.run.targets ==> InRegistry(s, c)
  }

  ghost predicate RunOk(s: Sys) {
    match s.run
    case Registering(c) => Live(s, c) && !Gone(s, c)
    case Unregistering(c) => Gone(s, c)
    case _ => true
  }

  ghost predicate Safe(s: Sys) {
    && !s.hub.panicked
    && RunOk(s)
    && (forall c {:trigger Fine(s, c)} :: Fine(s, c))
    && (forall n {:trigger AgentOk(s, n)} :: AgentOk(s, n))
    && (forall c {:trigger ClosedOk(s, c)} :: ClosedOk(s, c))
    && (forall n {:trigger PendingOk(s, n)} :: PendingOk(s, n))
    && (forall t {:trigger SenderOk(s, t)} :: SenderOk(s, t))
    && (forall c {:trigger TargetOk(s, c)} :: TargetOk(s, c))
  }

  // ---- One connection

  lemma TextsAppend(ms: seq<Message>, m: Message)
    ensures Texts(ms + [m]) == Texts(ms) + [Text(m)]
  {
  }

  /** A connection changes its place or its waiter; only a waiting one is promoted. */
  ghost predicate Moved(conn: Conn, conn': Conn) {
    && conn'.box == conn.box && conn'.Started() == conn.Started()
    && conn'.greeting == conn.greeting && conn'.wire == conn.wire
    && (Early(conn'.phase) ==> Early(conn.phase))
    && (if conn'.phase.Approving? && conn'.phase != conn.phase
        then conn.phase.Waiting? && conn'.promotions == conn.promotions + 1
        else conn'.promotions == conn.promotions)
  }

  lemma MovedOk(conn: Conn, conn': Conn, closed: bool)
    requires ConnOk(conn, closed) && Moved(conn, conn')
    ensures ConnOk(conn', closed)
  {
  }

  lemma JoinMoves(s: Sys, e: JoinEvent, c: ConnId)
    requires JoinEnabled(s, e) && !e.ApproveTake? && !e.ApproveWrite? && c in s.conns
    ensures c in JoinStep(s, e).conns && Moved(s.conns[c], JoinStep(s, e).conns[c])
  {
  }

  lemma ApproveTakeMoves(s: Sys, t: nat, c: ConnId)
    requires Safe(s) && JoinEnabled(s, ApproveTake(t)) && c in s.conns
    ensures c in JoinStep(s, ApproveTake(t)).conns && Moved(s.conns[c], JoinStep(s, ApproveTake(t)).conns[c])
  {
    assert PendingOk(s, s.approvers[t].name);
  }

  lemma ConnectFine(s: Sys, e: JoinEvent, c: ConnId)
    requires Safe(s) && JoinEnabled(s, e) && e.Connect?
    ensures Fine(JoinStep(s, e), c)
  {
    assert Fine(s, c) && ClosedOk(s, c);
  }

  lemma ApproveWriteFine(s: Sys, e: JoinEvent, c: ConnId)
    requires Safe(s) && JoinEnabled(s, e) && e.ApproveWrite?
    ensures Fine(JoinStep(s, e), c)
  {
    assert Fine(s, c);
  }

  /** The connection's own facts under each kind of event. */
  lemma JoinFine(s: Sys, e: JoinEvent, c: ConnId, s': Sys)
    requires Safe(s) && JoinEnabled(s, e) && s' == JoinStep(s, e)
    ensures Fine(s', c)
  {
    if e.Connect? {
      ConnectFine(s, e, c);
    } else if e.ApproveWrite? {
      ApproveWriteFine(s, e, c);
    } else {
      JoinMoveFine(s, e, c, s');
    }
  }

  lemma JoinMoveFine(s: Sys, e: JoinEvent, c: ConnId, s': Sys)
    requires Safe(s) && JoinEnabled(s, e) && s' == JoinStep(s, e)
    requires !e.Connect? && !e.ApproveWrite?
    ensures Fine(s', c)
  {
    assert Fine(s, c);
    JoinFrame(s, e, c);
    if c in s.conns {
      if e.ApproveTake? { ApproveTakeMoves(s, e.t, c); } else { JoinMoves(s, e, c); }
      MovedOk(s.conns[c], s'.conns[c], c in s.hub.closed);
    } else {
      JoinNew(s, e, c);
    }
  }

  lemma JoinNew(s: Sys, e: JoinEvent, c: ConnId)
    requires Safe(s) && JoinEnabled(s, e) && !e.Connect? && c !in s.conns
    ensures c !in JoinStep(s, e).conns
  {
    if e.ApproveTake? {
      assert PendingOk(s, s.approvers[e.t].name);
    }
  }

  lemma LifeFine(s: Sys, e: LifeEvent, c: ConnId)
    requires Safe(s) && LifeEnabled(s, e)
    ensures Fine(LifeStep(s, e), c)
  {
    assert Fine(s, c) && ClosedOk(s, c);
  }

  lemma SendFine(s: Sys, c: ConnId, d: ConnId, m: Message)
    requires Safe(s) && SendReady(s, c) && InRegistry(s, c)
    ensures Fine(Send(s, c, m), d) && !Send(s, c, m).hub.panicked
  {
    assert Fine(s, d) && Fine(s, c) && AgentOk(s, s.conns[c].name);
    PushConserves(s.conns[c].box, false, m);
  }

  /** The connection whose writer takes a step. */
  predicate WriterStep(e: TrafficEvent, d: ConnId) {
    match e
    case WriterTake(c) => c == d
    case WriterWrite(c, _) => c == d
    case WriterClose(c, _) => c == d
    case WriterPingFails(c) => c == d
    case _ => false
  }

  lemma WriterFine(s: Sys, e: TrafficEvent, d: ConnId, c: ConnId)
    requires Fine(s, d) && Fine(s, c) && TrafficEnabled(s, e) && WriterStep(e, d)
    ensures Fine(TrafficStep(s, e), c) && TrafficStep(s, e).hub == s.hub
  {
    match e
    case WriterTake(_) =>
      TakeConserves(s.conns[d].box, d in s.hub.closed);
    case WriterWrite(_, ok) =>
      WroteConserves(s.conns[d].box, d in s.hub.closed, ok);
      TextsAppend(s.conns[d].box.written, s.conns[d].box.writing.value);
    case WriterClose(_, _) =>
    case WriterPingFails(_) =>
  }

  lemma TrafficFine(s: Sys, e: TrafficEvent, c: ConnId)
    requires Safe(s) && TrafficEnabled(s, e)
    ensures Fine(TrafficStep(s, e), c) && !TrafficStep(s, e).hub.panicked
  {
    assert Fine(s, c);
    if d :| WriterStep(e, d) { assert Fine(s, d); }
    match e
    case SendFinish(t) =>
      assert SenderOk(s, t);
      SendFine(s, s.senders[t].c, c, s.senders[t].m);
      assert Fine(Send(s, s.senders[t].c, s.senders[t].m), c);
    case BroadcastSend(d) =>
      assert TargetOk(s, d);
      SendFine(s, d, c, s.run.m);
      assert Fine(Send(s, d, s.run.m), c);
    case WriterTake(d) => WriterFine(s, e, d, c);
    case WriterWrite(d, ok) => WriterFine(s, e, d, c);
    case WriterClose(d, ok) => WriterFine(s, e, d, c);
    case WriterPingFails(d) => WriterFine(s, e, d, c);
    case _ =>
  }

  // ---- The registry

  /** Joining leaves the registry, the hub goroutine, the senders and every started connection alone. */
  lemma JoinFrame(s: Sys, e: JoinEvent, c: ConnId)
    requires Safe(s) && JoinEnabled(s, e)
    ensures var s' := JoinStep(s, e);
      && s'.hub.agents == s.hub.agents && s'.hub.closed == s.hub.closed && s'.hub.panicked == s.hub.panicked
      && s'.run == s.run && s'.senders == s.senders && s'.history == s.history
      && (c in s.conns ==> c in s'.conns && s'.conns[c].name == s.conns[c].name)
      && (c in s.conns && s.conns[c].Started() ==> s'.conns[c].phase == s.conns[c].phase)
  {
    if e.ApproveTake? {
      assert PendingOk(s, s.approvers[e.t].name);
    }
  }

  lemma JoinPending(s: Sys, e: JoinEvent, n: Name)
    requires Safe(s) && JoinEnabled(s, e)
    ensures PendingOk(JoinStep(s, e), n)
  {
    assert PendingOk(s, n);
    if e.ApproveTake? {
      assert PendingOk(s, s.approvers[e.t].name);
    }
  }

  lemma JoinSafe(s: Sys, e: JoinEvent)
    requires Safe(s) && JoinEnabled(s, e)
    ensures Safe(JoinStep(s, e))
  {
    var s' := JoinStep(s, e);
    JoinFrame(s, e, if s.run.Registering? || s.run.Unregistering? then s.run.c else 0);
    assert RunOk(s');
    forall c
      ensures Fine(s', c) && ClosedOk(s', c) && TargetOk(s', c)
    {
      assert ClosedOk(s, c) && TargetOk(s, c);
      JoinFrame(s, e, c);
      JoinFine(s, e, c, s');
    }
    forall n
      ensures AgentOk(s', n) && PendingOk(s', n)
    {
      assert AgentOk(s, n);
      if n in s.hub.agents { JoinFrame(s, e, s.hub.agents[n]); }
      JoinFrame(s, e, 0);
      JoinPending(s, e, n);
    }
    forall t: nat
      ensures SenderOk(s', t)
    {
      assert SenderOk(s, t);
      if t in s.senders { JoinFrame(s, e, s.senders[t].c); }
      JoinFrame(s, e, 0);
    }
  }

  /** The registry does not change while anybody holds the read lock. */
  lemma LifeHolders(s: Sys, e: LifeEvent, t: nat, c: ConnId)
    requires Safe(s) && LifeEnabled(s, e)
    ensures SenderOk(LifeStep(s, e), t)
    ensures TargetOk(LifeStep(s, e), c)
  {
    assert SenderOk(s, t) && TargetOk(s, c);
  }

  lemma LifeAgent(s: Sys, e: LifeEvent, n: Name)
    requires Safe(s) && LifeEnabled(s, e)
    ensures AgentOk(LifeStep(s, e), n) && PendingOk(LifeStep(s, e), n)
  {
    assert AgentOk(s, n) && PendingOk(s, n);
    if e.DoRegister? {
      assert ClosedOk(s, s.run.c);
    }
  }

  /** Nobody closes a channel twice. */
  lemma LifeClosed(s: Sys, e: LifeEvent, c: ConnId)
    requires Safe(s) && LifeEnabled(s, e)
    ensures ClosedOk(LifeStep(s, e), c) && RunOk(LifeStep(s, e)) && !LifeStep(s, e).hub.panicked
  {
    assert ClosedOk(s, c);
    if e.DoUnregister? {
      assert ClosedOk(s, s.run.c);
    }
  }

  lemma LifeSafe(s: Sys, e: LifeEvent)
    requires Safe(s) && LifeEnabled(s, e)
    ensures Safe(LifeStep(s, e))
  {
    var s' := LifeStep(s, e);
    LifeClosed(s, e, 0);
    forall c
      ensures Fine(s', c) && ClosedOk(s', c) && TargetOk(s', c)
    {
      LifeFine(s, e, c);
      LifeClosed(s, e, c);
      LifeHolders(s, e, 0, c);
    }
    forall n
      ensures AgentOk(s', n) && PendingOk(s', n)
    {
      LifeAgent(s, e, n);
    }
    forall t: nat
      ensures SenderOk(s', t)
    {
      LifeHolders(s, e, t, 0);
    }
  }

  lemma TrafficConn(s: Sys, e: TrafficEvent, c: ConnId)
    requires TrafficEnabled(s, e)
    ensures var s' := TrafficStep(s, e);
      && (c in s.conns <==> c in s'.conns)
      && (c in s.conns ==> s'.conns[c].name == s.conns[c].name && s'.conns[c].phase == s.conns[c].phase
                           && s'.conns[c].waiter == s.conns[c].waiter)
  {
  }

  /** Traffic leaves the tables and every phase alone. */
  lemma TrafficFrame(s: Sys, e: TrafficEvent, c: ConnId)
    requires TrafficEnabled(s, e)
    ensures var s' := TrafficStep(s, e);
      && s'.hub.agents == s.hub.agents && s'.hub.pending == s.hub.pending && s'.hub.closed == s.hub.closed
      && s'.rows == s.rows && s'.issued == s.issued && s'.approvers == s.approvers && s'.history == s.history
      && (c in s.conns <==> c in s'.conns)
      && (c in s.conns ==> s'.conns[c].name == s.conns[c].name && s'.conns[c].phase == s.conns[c].phase
                           && s'.conns[c].waiter == s.conns[c].waiter)
      && (s'.run == s.run || ((s'.run.Idle? || s'.run.Broadcasting?) && (s.run.Idle? || s.run.Broadcasting?)))
  {
    TrafficConn(s, e, c);
  }

  lemma TrafficHolders(s: Sys, e: TrafficEvent, t: nat, c: ConnId)
    requires Safe(s) && TrafficEnabled(s, e)
    ensures SenderOk(TrafficStep(s, e), t)
    ensures TargetOk(TrafficStep(s, e), c)
  {
    assert SenderOk(s, t) && TargetOk(s, c);
    match e
    case SendBegin(_, n, _) =>
      assert AgentOk(s, n);
    case BroadcastBegin(_) =>
      if c in s.hub.agents.Values {
        var n :| n in s.hub.agents && s.hub.agents[n] == c;
        assert AgentOk(s, n);
      }
    case _ =>
  }

  lemma TrafficSafe(s: Sys, e: TrafficEvent)
    requires Safe(s) && TrafficEnabled(s, e)
    ensures Safe(TrafficStep(s, e))
  {
    var s' := TrafficStep(s, e);
    TrafficFine(s, e, 0);
    TrafficFrame(s, e, if s.run.Registering? || s.run.Unregistering? then s.run.c else 0);
    assert RunOk(s');
    forall c
      ensures Fine(s', c) && ClosedOk(s', c) && TargetOk(s', c)
    {
      assert ClosedOk(s, c);
      TrafficFine(s, e, c);
      TrafficFrame(s, e, c);
      TrafficHolders(s, e, 0, c);
    }
    forall n
      ensures AgentOk(s', n) && PendingOk(s', n)
    {
      assert AgentOk(s, n) && PendingOk(s, n);
      if n in s.hub.agents { TrafficFrame(s, e, s.hub.agents[n]); }
      if n in s.hub.pending { TrafficFrame(s, e, s.hub.pending[n]); }
      TrafficFrame(s, e, 0);
    }
    forall t: nat
      ensures SenderOk(s', t)
    {
      TrafficHolders(s, e, t, 0);
    }
  }

  lemma StepSafe(s: Sys, e: Event)
    requires Safe(s)
    ensures Safe(Step(s, e))
  {
    if Enabled(s, e) {
      match e
      case Join(j) => JoinSafe(s, j);
      case Life(l) => LifeSafe(s, l);
      case Traffic(m) => TrafficSafe(s, m);
      case Restart =>
    }
  }

  lemma {:induction false} ExecSafe(es: seq<Event>)
    ensures Safe(Exec(es))
  {
    if es == [] {
    } else {
      ExecSafe(es[..|es| - 1]);
      StepSafe(Exec(es[..|es| - 1]), es[|es| - 1]);
    }
  }

  // ---- The promises

  /** In every run: no panic; a registered connection's channel is open; while a send is in flight its
      channel is open and stays in the registry. */
  lemma ChannelsAreSafe(es: seq<Event>, n: Name, t: nat)
    ensures var s := Exec(es);
      && !s.hub.panicked
      && (n in s.hub.agents ==> s.hub.agents[n] !in s.hub.closed)
      && (t in s.senders ==> s.senders[t].c !in s.hub.closed && InRegistry(s, s.senders[t].c))
  {
    ExecSafe(es);
    var s := Exec(es);
    assert AgentOk(s, n) && SenderOk(s, t);
    if t in s.senders {
      assert AgentOk(s, s.conns[s.senders[t].c].name);
    }
  }

  /** In every run, on every connection: accepted == written ++ lost ++ being written ++ queued with at
      most one lost; the wire is the approval, the written messages in order, and the close frame,
      which comes only after every accepted message; a pending connection is promoted at most once. */
  lemma NothingIsLostOrOvertaken(es: seq<Event>, c: ConnId)
    requires c in Exec(es).conns
    ensures var s := Exec(es);
      var conn := s.conns[c];
      && conn.box.Conserves(c in s.hub.closed)
      && conn.promotions <= 1
      && conn.wire == (if conn.greeting.Some? then [ApprovedFrame(conn.greeting.value)] else [])
                      + Texts(conn.box.written) + (if conn.box.closeSent then [CloseFrame] else [])
      && (CloseFrame in conn.wire ==> conn.box.written == conn.box.accepted)
  {
    ExecSafe(es);
    var s := Exec(es);
    assert Fine(s, c);
    var conn := s.conns[c];
    if CloseFrame in conn.wire {
      assert CloseFrame !in Texts(conn.box.written);
      ClosedMeansAllWritten(conn.box, c in s.hub.closed);
    }
  }
}
