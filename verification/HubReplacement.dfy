/** A run in which a connection is replaced by another one of its name, and both end: the channel of the
    second one stays open for good (master/main.go, master/websocket.go). */
module HubReplacement {
  import opened Options
  import opened Outbox
  import opened Hub
  import opened HubSystem

  const NAME := Name("agent-1")
  const TOKEN := Token("secret")
  const REGS := [Reg(NAME, 1), Reg(NAME, 2)]

  lemma Then(es: seq<Event>, s: Sys, e: Event, s': Sys) returns (r: seq<Event>)
    requires Exec(es) == s && Step(s, e) == s'
    ensures r == es + [e] && Exec(r) == s'
  {
    r := es + [e];
    assert r[..|es|] == es;
  }

  function ConnAt(token: Token, phase: Phase): Conn {
    Conn(NAME, token, phase, false, 0, None, EMPTY, [])
  }

  /** The first connection of the name has asked for approval. */
  function Asked(row: Row, issued: seq<(Name, Token)>, approvers: map<nat, Approver>): Sys {
    INIT.(rows := map[NAME := row], nextRow := 2, issued := issued, conns := map[0 := ConnAt(NoToken, ToPend)],
          approvers := approvers)
  }

  function Approved(): Sys {
    Asked(Row(1, TOKEN, Status.Approved), [(NAME, TOKEN)], map[0 := Approver(NAME, TOKEN)])
  }

  /** Connection 1 of the approved name, and then connection 2 as well. */
  function One(status: Status, p1: Phase): Sys {
    Approved().(rows := map[NAME := Row(1, TOKEN, status)],
                conns := map[0 := ConnAt(NoToken, ToPend), 1 := ConnAt(TOKEN, p1)])
  }

  function Two(p1: Phase, p2: Phase): Sys {
    var s := One(Online, p1);
    s.(conns := s.conns[2 := ConnAt(TOKEN, p2)])
  }

  function At(s: Sys, agents: map<Name, ConnId>, closed: set<ConnId>, run: HubPc, history: seq<RegEvent>): Sys {
    s.(hub := Tables(agents, map[], closed, false), run := run, history := history)
  }

  function First(phase: Phase): Sys {
    INIT.(conns := map[0 := ConnAt(NoToken, phase)])
  }

  lemma NameUnknown() returns (es: seq<Event>)
    ensures Exec(es) == First(ToInsert)
  {
    es := Then([], INIT, Join(Connect(0, NAME, NoToken)), First(Selecting));
    es := Then(es, First(Selecting), Join(SelectRow(0)), First(ToInsert));
  }

  lemma NameApproved() returns (es: seq<Event>)
    ensures Exec(es) == Approved()
  {
    var s := Asked(Row(1, NoToken, Pending), [], map[]);
    es := NameUnknown();
    es := Then(es, First(ToInsert), Join(InsertPending(0)), s);
    es := Then(es, s, Join(ApproveRow(0, NAME, TOKEN)), Approved());
  }

  lemma OneSelected() returns (es: seq<Event>)
    ensures Exec(es) == One(Status.Approved, Admitted)
  {
    es := NameApproved();
    es := Then(es, Approved(), Join(Connect(1, NAME, TOKEN)), One(Status.Approved, Selecting));
    es := Then(es, One(Status.Approved, Selecting), Join(SelectRow(1)), One(Status.Approved, Admitted));
  }

  lemma OneAdmitted() returns (es: seq<Event>)
    ensures Exec(es) == One(Online, ToRegister)
  {
    es := OneSelected();
    es := Then(es, One(Status.Approved, Admitted), Join(MarkOnline(1)), One(Online, ToRegister));
  }

  lemma TwoConnected() returns (es: seq<Event>)
    ensures Exec(es) == Two(ToRegister, Selecting)
  {
    es := OneAdmitted();
    es := Then(es, One(Online, ToRegister), Join(Connect(2, NAME, TOKEN)), Two(ToRegister, Selecting));
  }

  lemma TwoSelected() returns (es: seq<Event>)
    ensures Exec(es) == Two(ToRegister, Admitted)
  {
    es := TwoConnected();
    es := Then(es, Two(ToRegister, Selecting), Join(SelectRow(2)), Two(ToRegister, Admitted));
  }

  lemma TwoAdmitted() returns (es: seq<Event>)
    ensures Exec(es) == Two(ToRegister, ToRegister)
  {
    es := TwoSelected();
    es := Then(es, Two(ToRegister, Admitted), Join(MarkOnline(2)), Two(ToRegister, ToRegister));
  }

  lemma FirstRegistered() returns (es: seq<Event>)
    ensures Exec(es) == At(Two(Registered, ToRegister), map[NAME := 1], {}, Idle, [Reg(NAME, 1)])
  {
    var s1 := At(Two(Registered, ToRegister), map[], {}, Registering(1), []);
    es := TwoAdmitted();
    es := Then(es, Two(ToRegister, ToRegister), Life(TakeRegister(1)), s1);
    es := Then(es, s1, Life(DoRegister), At(Two(Registered, ToRegister), map[NAME := 1], {}, Idle, [Reg(NAME, 1)]));
  }

  lemma BothRegistered() returns (es: seq<Event>)
    ensures Exec(es) == At(Two(Registered, Registered), map[NAME := 2], {}, Idle, REGS)
  {
    var s1 := At(Two(Registered, Registered), map[NAME := 1], {}, Registering(2), [Reg(NAME, 1)]);
    es := FirstRegistered();
    es := Then(es, Exec(es), Life(TakeRegister(2)), s1);
    es := Then(es, s1, Life(DoRegister), At(Two(Registered, Registered), map[NAME := 2], {}, Idle, REGS));
  }

  lemma FirstReaderEnds() returns (es: seq<Event>)
    ensures Exec(es) == At(Two(ToUnregister, Registered), map[NAME := 2], {}, Idle, REGS)
  {
    es := BothRegistered();
    es := Then(es, Exec(es), Life(ReaderEnd(1)), At(Two(ToUnregister, Registered), map[NAME := 2], {}, Idle, REGS));
  }

  lemma FirstLeaves() returns (es: seq<Event>)
    ensures Exec(es) == At(Two(ToOffline, Registered), map[NAME := 2], {}, Unregistering(1), REGS)
  {
    es := FirstReaderEnds();
    es := Then(es, Exec(es), Life(TakeUnregister(1)),
               At(Two(ToOffline, Registered), map[NAME := 2], {}, Unregistering(1), REGS));
  }

  lemma FirstGone() returns (es: seq<Event>)
    ensures Exec(es) == At(Two(ToOffline, Registered), map[], {1}, Idle, REGS + [Unreg(NAME, 1)])
  {
    es := FirstLeaves();
    es := Then(es, Exec(es), Life(DoUnregister),
               At(Two(ToOffline, Registered), map[], {1}, Idle, REGS + [Unreg(NAME, 1)]));
  }

  lemma SecondLeaves() returns (es: seq<Event>)
    ensures Exec(es) == At(Two(ToOffline, ToOffline), map[], {1}, Unregistering(2), REGS + [Unreg(NAME, 1)])
  {
    var s1 := At(Two(ToOffline, ToUnregister), map[], {1}, Idle, REGS + [Unreg(NAME, 1)]);
    es := FirstGone();
    es := Then(es, Exec(es), Life(ReaderEnd(2)), s1);
    es := Then(es, s1, Life(TakeUnregister(2)),
               At(Two(ToOffline, ToOffline), map[], {1}, Unregistering(2), REGS + [Unreg(NAME, 1)]));
  }

  /** Both connections have unregistered, and one channel is still open: its writer never sees a close. */
  lemma ReplacedRun() returns (es: seq<Event>)
    ensures Exec(es).history == [Reg(NAME, 1), Reg(NAME, 2), Unreg(NAME, 1), Unreg(NAME, 2)]
    ensures Exec(es).hub.agents == map[] && Exec(es).hub.closed == {1} && Exec(es).run.Idle?
  {
    var h := REGS + [Unreg(NAME, 1)];
    es := SecondLeaves();
    es := Then(es, Exec(es), Life(DoUnregister),
               At(Two(ToOffline, ToOffline), map[], {1}, Idle, h + [Unreg(NAME, 2)]));
  }

  // ---- A first connection from its approval to its first message

  const TEXT := Message("start_server")

  function Newcomer(phase: Phase, waiter: bool, promotions: nat, greeting: Option<Token>,
                    box: Outbox, wire: seq<Frame>): Conn
  {
    Conn(NAME, NoToken, phase, waiter, promotions, greeting, box, wire)
  }

  function Welcomed(status: Status, conn: Conn): Sys {
    Approved().(rows := map[NAME := Row(1, TOKEN, status)], conns := map[0 := conn], approvers := map[])
  }

  function Greeted(phase: Phase, box: Outbox, more: seq<Frame>): Conn {
    Newcomer(phase, true, 1, Some(TOKEN), box, [ApprovedFrame(TOKEN)] + more)
  }

  lemma Waits() returns (es: seq<Event>)
    ensures Exec(es) == First(Waiting).(rows := map[NAME := Row(1, NoToken, Pending)], nextRow := 2,
                                        conns := map[0 := Newcomer(Waiting, true, 0, None, EMPTY, [])],
                                        hub := EMPTY_TABLES.AddPending(NAME, 0))
  {
    var s := Asked(Row(1, NoToken, Pending), [], map[]);
    es := NameUnknown();
    es := Then(es, First(ToInsert), Join(InsertPending(0)), s);
    es := Then(es, s, Join(AddPending(0)), s.(conns := map[0 := Newcomer(Waiting, true, 0, None, EMPTY, [])],
                                              hub := EMPTY_TABLES.AddPending(NAME, 0)));
  }

  lemma Taken() returns (es: seq<Event>)
    ensures Exec(es) == Welcomed(Status.Approved, Newcomer(Phase.Approving(TOKEN), true, 1, None, EMPTY, []))
  {
    es := Waits();
    var s := Exec(es);
    var s1 := s.(rows := map[NAME := Row(1, TOKEN, Status.Approved)], issued := [(NAME, TOKEN)],
                 approvers := map[0 := Approver(NAME, TOKEN)]);
    es := Then(es, s, Join(ApproveRow(0, NAME, TOKEN)), s1);
    es := Then(es, s1, Join(ApproveTake(0)),
               Welcomed(Status.Approved, Newcomer(Phase.Approving(TOKEN), true, 1, None, EMPTY, [])));
  }

  lemma Told() returns (es: seq<Event>)
    ensures Exec(es) == Welcomed(Status.Approved, Greeted(Admitted, EMPTY, []))
  {
    es := Taken();
    assert [] + [ApprovedFrame(TOKEN)] == [ApprovedFrame(TOKEN)] + [];
    es := Then(es, Exec(es), Join(ApproveWrite(0, true)), Welcomed(Status.Approved, Greeted(Admitted, EMPTY, [])));
  }

  lemma ComesOnline() returns (es: seq<Event>)
    ensures Exec(es) == Welcomed(Online, Greeted(ToRegister, EMPTY, []))
  {
    es := Told();
    es := Then(es, Exec(es), Join(MarkOnline(0)), Welcomed(Online, Greeted(ToRegister, EMPTY, [])));
  }

  function Served(box: Outbox, more: seq<Frame>): Sys {
    At(Welcomed(Online, Greeted(Registered, box, more)), map[NAME := 0], {}, Idle, [Reg(NAME, 0)])
  }

  lemma Registers() returns (es: seq<Event>)
    ensures Exec(es) == Served(EMPTY, [])
  {
    var s := At(Welcomed(Online, Greeted(Registered, EMPTY, [])), map[], {}, Registering(0), []);
    es := ComesOnline();
    es := Then(es, Exec(es), Life(TakeRegister(0)), s);
    es := Then(es, s, Life(DoRegister), Served(EMPTY, []));
  }

  lemma Receives() returns (es: seq<Event>)
    ensures Exec(es) == Served(EMPTY.Push(TEXT), [])
  {
    var s := Served(EMPTY, []).(senders := map[0 := Sender(0, TEXT)]);
    es := Registers();
    es := Then(es, Exec(es), Traffic(SendBegin(0, NAME, TEXT)), s);
    es := Then(es, s, Traffic(SendFinish(0)), Served(EMPTY.Push(TEXT), []));
  }

  /** A run in which an unknown agent connects, is approved and is sent a message: the approval with its
      token and then the message are on the wire. */
  lemma WelcomedRun() returns (es: seq<Event>)
    ensures 0 in Exec(es).conns && Exec(es).conns[0].wire == [ApprovedFrame(TOKEN), Text(TEXT)]
    ensures Exec(es).hub.agents == map[NAME := 0] && Exec(es).rows == map[NAME := Row(1, TOKEN, Online)]
  {
    es := TakesText();
    assert [ApprovedFrame(TOKEN)] + [] + [Text(TEXT)] == [ApprovedFrame(TOKEN)] + [Text(TEXT)] && [] + [TEXT] == [TEXT];
    es := Then(es, Exec(es), Traffic(WriterWrite(0, true)),
               Served(EMPTY.(accepted := [TEXT], written := [TEXT]), [Text(TEXT)]));
  }

  lemma TakesText() returns (es: seq<Event>)
    ensures Exec(es) == Served(EMPTY.(accepted := [TEXT], writing := Some(TEXT)), [])
  {
    es := Receives();
    assert [] + [TEXT] == [TEXT] && [TEXT][1..] == [];
    es := Then(es, Exec(es), Traffic(WriterTake(0)), Served(EMPTY.(accepted := [TEXT], writing := Some(TEXT)), []));
  }
}
