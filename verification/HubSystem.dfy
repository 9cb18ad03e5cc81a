/** The master's side of the agent protocol as one transition system: the hub goroutine, the read and
    write goroutines of every connection, HTTP handlers that send or approve, and the agents table
    (master/main.go, master/websocket.go, master/api_agents.go, master/db.go).  Every event is one
    atomic step; any interleaving of the goroutines is a sequence of events. */
module HubSystem {
  import opened Options
  import opened Outbox
  import opened Hub

  datatype Token = NoToken | Token(text: string)

  datatype Status = Pending | Approved | Online | Offline
  datatype Row = Row(id: nat, token: Token, status: Status)

  /** Where the goroutines of one websocket connection are. */
  datatype Phase =
    | Selecting               // has sent `register`; the row is not read yet
    | ToInsert                // no row was found
    | ToPend                  // on its way to the pending table
    | Waiting                 // in waitForApproval
    | Approving(token: Token) // taken from the pending table by an approval
    | Admitted                // the row is known not to be pending
    | ToRegister              // blocked on hub.RegisterAgent
    | Registered              // received by the hub; reader and writer run
    | ToUnregister            // the reader ended, blocked on hub.UnregisterAgent
    | ToOffline               // received by the hub; the row is not marked offline yet
    | Done
    | Refused

  datatype Frame = ApprovedFrame(token: Token) | Text(m: Message) | CloseFrame

  /** `waiter`: waitForApproval is still reading.  `greeting`: the approved frame that was written. */
  datatype Conn = Conn(
    name: Name, token: Token, phase: Phase, waiter: bool, promotions: nat, greeting: Option<Token>,
    box: Outbox, wire: seq<Frame>)
  {
    /** The writer goroutine has been started. */
    predicate Started() {
      phase.Registered? || phase.ToUnregister? || phase.ToOffline? || phase.Done?
    }
  }

  datatype HubPc =
    | Idle
    | Registering(c: ConnId)
    | Unregistering(c: ConnId)
    | Broadcasting(m: Message, targets: set<ConnId>)
  datatype Sender = Sender(c: ConnId, m: Message)
  datatype Approver = Approver(name: Name, token: Token)

  /** What happened to the registry, in order. */
  datatype RegEvent = Reg(name: Name, c: ConnId) | Unreg(name: Name, c: ConnId)

  /** `issued` lists the approvals of the table's whole life. */
  datatype Sys = Sys(
    rows: map<Name, Row>, nextRow: nat, issued: seq<(Name, Token)>,
    conns: map<ConnId, Conn>, hub: Tables, run: HubPc,
    senders: map<nat, Sender>, approvers: map<nat, Approver>, history: seq<RegEvent>)
  {
    function Put(c: ConnId, conn: Conn): Sys {
      this.(conns := conns[c := conn])
    }

    function SetPhase(c: ConnId, phase: Phase): Sys
      requires c in conns
    {
      Put(c, conns[c].(phase := phase))
    }

    function SetBox(c: ConnId, box: Outbox): Sys
      requires c in conns
    {
      Put(c, conns[c].(box := box))
    }

    /** UPDATE agents SET status: no effect without a row. */
    function SetStatus(n: Name, status: Status): Sys {
      if n in rows then this.(rows := rows[n := rows[n].(status := status)]) else this
    }

    /** Senders and broadcasts hold the read lock until their send completes. */
    predicate LockFree() {
      senders == map[] && !run.Broadcasting?
    }

    predicate At(c: ConnId, phase: Phase) {
      c in conns && conns[c].phase == phase
    }
  }

  const INIT := Sys(map[], 1, [], map[], EMPTY_TABLES, Idle, map[], map[], [])

  /** From the register message to the registration with the hub, approvals included. */
  datatype JoinEvent =
    | Connect(c: ConnId, name: Name, token: Token)
    | SelectRow(c: ConnId)
    | InsertPending(c: ConnId)
    | Refuse(c: ConnId)
    | AddPending(c: ConnId)
    | WaiterExit(c: ConnId)
    | ApproveRow(t: nat, name: Name, token: Token)
    | ApproveTake(t: nat)
    | ApproveWrite(c: ConnId, ok: bool)
    | MarkOnline(c: ConnId)

  /** The life of a registered connection. */
  datatype LifeEvent =
    | TakeRegister(c: ConnId)
    | DoRegister
    | ReaderEnd(c: ConnId)
    | TakeUnregister(c: ConnId)
    | DoUnregister
    | MarkOffline(c: ConnId)

  /** Messages to agents. */
  datatype TrafficEvent =
    | SendBegin(t: nat, name: Name, m: Message)
    | SendFinish(t: nat)
    | BroadcastBegin(m: Message)
    | BroadcastSend(c: ConnId)
    | BroadcastEnd
    | WriterTake(c: ConnId)
    | WriterWrite(c: ConnId, ok: bool)
    | WriterClose(c: ConnId, ok: bool)
    | WriterPingFails(c: ConnId)

  /** Restart: the process ends and starts again; only the table survives. */
  datatype Event = Join(j: JoinEvent) | Life(l: LifeEvent) | Traffic(m: TrafficEvent) | Restart

  /** A send completes when there is room, and panics on a closed channel. */
  predicate SendReady(s: Sys, c: ConnId) {
    c in s.conns && (c in s.hub.closed || s.conns[c].box.HasRoom())
  }

  predicate JoinEnabled(s: Sys, e: JoinEvent) {
    match e
    case Connect(c, _, _) => c !in s.conns
    case SelectRow(c) => s.At(c, Selecting)
    case InsertPending(c) => s.At(c, ToInsert)
    case Refuse(c) => s.At(c, Selecting) || s.At(c, ToInsert)
    case AddPending(c) => s.At(c, ToPend) && s.LockFree()
    case WaiterExit(c) => c in s.conns && s.conns[c].waiter && s.LockFree()
    case ApproveRow(t, n, token) => t !in s.approvers && n in s.rows && token.Token?
    case ApproveTake(t) =>
      && t in s.approvers && s.LockFree()
      && (s.approvers[t].name in s.hub.pending ==> s.hub.pending[s.approvers[t].name] in s.conns)
    case ApproveWrite(c, _) => c in s.conns && s.conns[c].phase.Approving?
    case MarkOnline(c) => s.At(c, Admitted)
  }

  predicate LifeEnabled(s: Sys, e: LifeEvent) {
    match e
    case TakeRegister(c) => s.At(c, ToRegister) && s.run.Idle?
    case DoRegister => s.run.Registering? && s.run.c in s.conns && s.LockFree()
    case ReaderEnd(c) => s.At(c, Registered)
    case TakeUnregister(c) => s.At(c, ToUnregister) && s.run.Idle?
    case DoUnregister => s.run.Unregistering? && s.run.c in s.conns && s.LockFree()
    case MarkOffline(c) => s.At(c, ToOffline)
  }

  predicate TrafficEnabled(s: Sys, e: TrafficEvent) {
    match e
    case SendBegin(t, _, _) => t !in s.senders
    case SendFinish(t) => t in s.senders && SendReady(s, s.senders[t].c)
    case BroadcastBegin(_) => s.run.Idle?
    case BroadcastSend(c) => s.run.Broadcasting? && c in s.run.targets && SendReady(s, c)
    case BroadcastEnd => s.run.Broadcasting? && s.run.targets == {}
    case WriterTake(c) => c in s.conns && s.conns[c].Started() && s.conns[c].box.CanTake()
    case WriterWrite(c, _) => c in s.conns && s.conns[c].Started() && s.conns[c].box.writing.Some?
    case WriterClose(c, _) => c in s.conns && s.conns[c].Started() && s.conns[c].box.CanClose(c in s.hub.closed)
    case WriterPingFails(c) => c in s.conns && s.conns[c].Started() && s.conns[c].box.CanPing()
  }

  function Selected(s: Sys, c: ConnId): Phase
    requires c in s.conns
  {
    var conn := s.conns[c];
    if conn.name !in s.rows then ToInsert
    else
      var row := s.rows[conn.name];
      if row.status == Pending then ToPend
      else if row.status == Approved && row.token != conn.token then Refused
      else Admitted
  }

  /** INSERT ... ON CONFLICT (name) DO UPDATE: an existing row keeps its status. */
  function UpsertPending(s: Sys, n: Name): Sys {
    s.(rows := if n in s.rows then s.rows else s.rows[n := Row(s.nextRow, NoToken, Pending)], nextRow := s.nextRow + 1)
  }

  function Approve(s: Sys, n: Name, token: Token): Sys
    requires n in s.rows
  {
    s.(rows := s.rows[n := s.rows[n].(token := token, status := Approved)], issued := s.issued + [(n, token)])
  }

  function Promote(conn: Conn, token: Token): Conn {
    conn.(phase := Approving(token), promotions := conn.promotions + 1)
  }

  function Send(s: Sys, c: ConnId, m: Message): Sys
    requires c in s.conns
  {
    if c in s.hub.closed then s.(hub := s.hub.(panicked := true)) else s.SetBox(c, s.conns[c].box.Push(m))
  }

  function JoinStep(s: Sys, e: JoinEvent): Sys
    requires JoinEnabled(s, e)
  {
    match e
    case Connect(c, n, token) => s.Put(c, Conn(n, token, Selecting, false, 0, None, EMPTY, []))
    case SelectRow(c) => s.SetPhase(c, Selected(s, c))
    case InsertPending(c) => UpsertPending(s, s.conns[c].name).SetPhase(c, ToPend)
    case Refuse(c) => s.SetPhase(c, Refused)
    case AddPending(c) =>
      s.(hub := s.hub.AddPending(s.conns[c].name, c)).Put(c, s.conns[c].(phase := Waiting, waiter := true))
    case WaiterExit(c) =>
      var phase := if s.conns[c].phase.Waiting? then Refused else s.conns[c].phase;
      var conn := s.conns[c].(waiter := false, phase := phase);
      s.(hub := s.hub.RemovePending(conn.name)).Put(c, conn)
    case ApproveRow(t, n, token) => Approve(s, n, token).(approvers := s.approvers[t := Approver(n, token)])
    case ApproveTake(t) =>
      var a := s.approvers[t];
      var s1 := s.(approvers := s.approvers - {t});
      if a.name !in s.hub.pending then s1
      else
        var c := s.hub.pending[a.name];
        s1.(hub := s.hub.RemovePending(a.name)).Put(c, Promote(s.conns[c], a.token))
    case ApproveWrite(c, ok) =>
      var conn := s.conns[c];
      var token := conn.phase.token;
      if ok then s.Put(c, conn.(phase := Admitted, greeting := Some(token), wire := conn.wire + [ApprovedFrame(token)]))
      else s.SetPhase(c, Admitted)
    case MarkOnline(c) => s.SetStatus(s.conns[c].name, Online).SetPhase(c, ToRegister)
  }

  function LifeStep(s: Sys, e: LifeEvent): Sys
    requires LifeEnabled(s, e)
  {
    match e
    case TakeRegister(c) => s.(run := Registering(c)).SetPhase(c, Registered)
    case DoRegister =>
      var n := s.conns[s.run.c].name;
      s.(hub := s.hub.Register(n, s.run.c), run := Idle, history := s.history + [Reg(n, s.run.c)])
    case ReaderEnd(c) => s.SetPhase(c, ToUnregister)
    case TakeUnregister(c) => s.(run := Unregistering(c)).SetPhase(c, ToOffline)
    case DoUnregister =>
      var n := s.conns[s.run.c].name;
      s.(hub := s.hub.Unregister(n, s.run.c), run := Idle, history := s.history + [Unreg(n, s.run.c)])
    case MarkOffline(c) => s.SetStatus(s.conns[c].name, Offline).SetPhase(c, Done)
  }

  function TrafficStep(s: Sys, e: TrafficEvent): Sys
    requires TrafficEnabled(s, e)
  {
    match e
    case SendBegin(t, n, m) =>
      if n in s.hub.agents then s.(senders := s.senders[t := Sender(s.hub.agents[n], m)]) else s
    case SendFinish(t) => Send(s, s.senders[t].c, s.senders[t].m).(senders := s.senders - {t})
    case BroadcastBegin(m) => s.(run := Broadcasting(m, s.hub.agents.Values))
    case BroadcastSend(c) => Send(s, c, s.run.m).(run := s.run.(targets := s.run.targets - {c}))
    case BroadcastEnd => s.(run := Idle)
    case WriterTake(c) => s.SetBox(c, s.conns[c].box.Take())
    case WriterWrite(c, ok) =>
      var conn := s.conns[c];
      s.Put(c, conn.(box := conn.box.Wrote(ok), wire := conn.wire + if ok then [Text(conn.box.writing.value)] else []))
    case WriterClose(c, ok) =>
      var conn := s.conns[c];
      s.Put(c, conn.(box := conn.box.WroteClose(ok), wire := conn.wire + if ok then [CloseFrame] else []))
    case WriterPingFails(c) => s.SetBox(c, s.conns[c].box.PingFailed())
  }

  predicate Enabled(s: Sys, e: Event) {
    match e
    case Join(j) => JoinEnabled(s, j)
    case Life(l) => LifeEnabled(s, l)
    case Traffic(m) => TrafficEnabled(s, m)
    case Restart => true
  }

  function Step(s: Sys, e: Event): Sys {
    if !Enabled(s, e) then s
    else
      match e
      case Join(j) => JoinStep(s, j)
      case Life(l) => LifeStep(s, l)
      case Traffic(m) => TrafficStep(s, m)
      case Restart => INIT.(rows := s.rows, nextRow := s.nextRow, issued := s.issued)
  }

  /** Every run of the system from an empty database. */
  function Exec(es: seq<Event>): Sys {
    if es == [] then INIT else Step(Exec(es[..|es| - 1]), es[|es| - 1])
  }
}
