/** When the table and Docker agree.  A run is orderly when a server gets a command only after its
    previous one is over, the master's own status writes succeed, a container name belongs to one
    server at a time and is passed on only when no container is up under it, and a lookup by name
    finds a container of exactly that name. */
module LifecycleAgreement {
  import opened Columns
  import opened Options
  import opened Lifecycle

  ghost predicate Up(s: Sys, n: ContainerName) {
    exists c :: c in s.docker && s.docker[c].name == n && s.docker[c].running
  }

  /** c is the id of a container that is up under the name. */
  ghost predicate UpAs(s: Sys, n: ContainerName, c: Option<nat>) {
    c.Some? && c.value in s.docker && s.docker[c.value].name == n && s.docker[c.value].running
  }

  /** No command of the server is under way. */
  ghost predicate Idle(s: Sys, id: ServerId) {
    && (forall cmd: Command {:trigger s.commands[cmd]} :: cmd.id == id ==> s.commands[cmd] == 0)
    && (forall r: Reply {:trigger s.replies[r]} :: r.id == id ==> s.replies[r] == 0)
    && (forall g {:trigger g in s.goroutines} :: g in s.goroutines ==> s.goroutines[g].id != id)
  }

  ghost predicate WritePending(s: Sys, id: ServerId) {
    exists k :: s.writes[Write(id, k)] > 0
  }

  /** Nothing about the server is under way anywhere. */
  ghost predicate Quiescent(s: Sys, id: ServerId) {
    Idle(s, id) && !WritePending(s, id)
  }

  /** The server may still do something to containers of its name, or its row speaks about them. */
  ghost predicate Owner(s: Sys, id: ServerId) {
    id in s.names && (id in s.rows || !Idle(s, id))
  }

  ghost predicate SoleOwner(s: Sys, id: ServerId)
    requires id in s.names
  {
    forall j {:trigger Owner(s, j)} :: Owner(s, j) && s.names[j] == s.names[id] ==> j == id
  }

  /** Every server that had the name is gone with all its work, and left no container up. */
  ghost predicate NameFree(s: Sys, n: ContainerName) {
    forall id {:trigger Owner(s, id)} :: id in s.names && s.names[id] == n ==> !Owner(s, id) && !Up(s, n)
  }

  ghost predicate Agree(s: Sys, id: ServerId) {
    id in s.rows ==>
      && (s.rows[id].status.Running? ==> UpAs(s, s.rows[id].name, s.rows[id].containerId))
      && (s.rows[id].status.Stopped? ==> !Up(s, s.rows[id].name))
  }

  ghost predicate Orderly(s: Sys, e: Event) {
    match e
    case Master(CreateServer(_, n)) => NameFree(s, n)
    case Master(Send(id, _, _)) => Quiescent(s, id) && id in s.names && SoleOwner(s, id)
    case Master(FailWrite(_)) => false
    case Docker(g, Found(c)) =>
      c.Some? && g in s.goroutines ==> c.value in s.docker && s.docker[c.value].name == s.goroutines[g].name
    case _ => true
  }

  ghost predicate OrderlyRun(es: seq<Event>) {
    forall i :: 0 <= i < |es| ==> Orderly(Exec(es[..i]), es[i])
  }

  // ---- The invariant

  /** Where the one piece of work of a server is. */
  datatype Stage = Quiet | InCommand(cmd: Command) | InGoroutine(g: nat) | InReply(r: Reply)

  ghost predicate Located(s: Sys, id: ServerId, stage: Stage) {
    && (forall cmd {:trigger s.commands[cmd]} :: s.commands[cmd] > 0 && cmd.id == id ==>
        stage == InCommand(cmd) && s.commands[cmd] == 1)
    && (forall g {:trigger s.goroutines[g]} :: g in s.goroutines && s.goroutines[g].id == id ==>
        stage == InGoroutine(g))
    && (forall r {:trigger s.replies[r]} :: s.replies[r] > 0 && r.id == id ==> stage == InReply(r) && s.replies[r] == 1)
    && match stage
       case Quiet => true
       case InCommand(cmd) => s.commands[cmd] == 1 && cmd.id == id
       case InGoroutine(g) => g in s.goroutines && s.goroutines[g].id == id
       case InReply(r) => s.replies[r] == 1 && r.id == id
  }

  ghost predicate Unsettled(s: Sys, id: ServerId) {
    id in s.rows ==> WritePending(s, id) || Transient(s.rows[id].status)
  }

  /** While work is under way the row is transient or about to be; afterwards it agrees. */
  ghost predicate TrackedAt(s: Sys, id: ServerId, stage: Stage) {
    Located(s, id, stage) && (Unsettled(s, id) || (stage.Quiet? && Agree(s, id)))
  }

  ghost predicate Tracked(s: Sys, id: ServerId) {
    exists stage :: TrackedAt(s, id, stage)
  }

  ghost predicate Truthful(s: Sys, r: Reply) {
    && r.id in s.names
    && (r.status.Running? ==> UpAs(s, s.names[r.id], r.containerId))
    && (r.status.Stopped? ==> !Up(s, s.names[r.id]))
  }

  ghost predicate ReplyOk(s: Sys, r: Reply) {
    s.replies[r] > 0 ==> Truthful(s, r)
  }

  predicate HasContainer(pc: Pc) {
    StopsAt(pc) || pc.RemoveOld? || pc.RemoveAny? || pc.StartNew?
  }

  ghost predicate GoroutineOk(s: Sys, g: nat) {
    g in s.goroutines ==>
      var w := s.goroutines[g];
      && w.id in s.names && w.name == s.names[w.id]
      && (HasContainer(w.pc) ==> w.pc.c < s.nextContainer && (w.pc.c in s.docker ==> s.docker[w.pc.c].name == w.name))
      && (w.pc.Report? ==> w.pc.reply.id == w.id && Truthful(s, w.pc.reply))
  }

  ghost predicate CommandOk(s: Sys, cmd: Command) {
    s.commands[cmd] > 0 ==> cmd.id in s.names && cmd.name == s.names[cmd.id]
  }

  /** A container name has one owner at a time. */
  ghost predicate NamesOk(s: Sys) {
    && (forall i, j {:trigger Owner(s, i), Owner(s, j)} :: Owner(s, i) && Owner(s, j) && s.names[i] == s.names[j] ==>
        i == j)
    && (forall i :: i in s.rows ==> i in s.names && s.rows[i].name == s.names[i])
  }

  /** Docker keeps names apart; every container stems from some server. */
  ghost predicate DockerOk(s: Sys) {
    && (forall c, d :: c in s.docker && d in s.docker && s.docker[c].name == s.docker[d].name ==> c == d)
    && (forall c :: c in s.docker ==> c < s.nextContainer && exists i :: i in s.names && s.names[i] == s.docker[c].name)
  }

  ghost predicate Inv(s: Sys) {
    && NamesOk(s) && DockerOk(s)
    && (forall id {:trigger Tracked(s, id)} :: Tracked(s, id))
    && (forall r {:trigger ReplyOk(s, r)} :: ReplyOk(s, r))
    && (forall g {:trigger GoroutineOk(s, g)} :: GoroutineOk(s, g))
    && (forall cmd {:trigger CommandOk(s, cmd)} :: CommandOk(s, cmd))
  }

  // ---- What a step leaves alone

  ghost predicate SameMail(s: Sys, s': Sys, id: ServerId) {
    && (forall cmd: Command {:trigger s'.commands[cmd]} :: cmd.id == id ==> s'.commands[cmd] == s.commands[cmd])
    && (forall r: Reply {:trigger s'.replies[r]} :: r.id == id ==> s'.replies[r] == s.replies[r])
    && (forall g {:trigger g in s.goroutines} {:trigger g in s'.goroutines} ::
          (g in s.goroutines && s.goroutines[g].id == id) <==> (g in s'.goroutines && s'.goroutines[g].id == id))
  }

  ghost predicate SameRow(s: Sys, s': Sys, id: ServerId) {
    && Lookup(s'.rows, id) == Lookup(s.rows, id)
    && forall k {:trigger s'.writes[Write(id, k)]} :: s'.writes[Write(id, k)] == s.writes[Write(id, k)]
  }

  lemma LocatedStays(s: Sys, s': Sys, id: ServerId, stage: Stage)
    requires Located(s, id, stage) && SameMail(s, s', id)
    ensures Located(s', id, stage)
  {
  }

  lemma UnsettledStays(s: Sys, s': Sys, id: ServerId)
    requires Unsettled(s, id) && SameRow(s, s', id)
    ensures Unsettled(s', id)
  {
    if id in s.rows && WritePending(s, id) {
      var k :| s.writes[Write(id, k)] > 0;
      assert s'.writes[Write(id, k)] > 0;
    }
  }

  /** The same containers are up under the name. */
  ghost predicate SameUp(s: Sys, s': Sys, n: ContainerName) {
    && (Up(s, n) <==> Up(s', n))
    && (forall c {:trigger UpAs(s', n, c)} :: UpAs(s, n, c) <==> UpAs(s', n, c))
  }

  lemma AgreeStays(s: Sys, s': Sys, id: ServerId)
    requires Agree(s, id) && SameRow(s, s', id)
    requires id in s.rows ==> SameUp(s, s', s.rows[id].name)
    ensures Agree(s', id)
  {
  }

  lemma TrackedStays(s: Sys, s': Sys, id: ServerId)
    requires Tracked(s, id) && SameMail(s, s', id) && SameRow(s, s', id)
    requires id in s.rows ==> SameUp(s, s', s.rows[id].name)
    ensures Tracked(s', id)
  {
    var stage :| TrackedAt(s, id, stage);
    LocatedStays(s, s', id, stage);
    if Unsettled(s, id) { UnsettledStays(s, s', id); } else { AgreeStays(s, s', id); }
    assert TrackedAt(s', id, stage);
  }

  lemma SameDocker(s: Sys, s': Sys, n: ContainerName)
    requires s'.docker == s.docker
    ensures SameUp(s, s', n)
  {
  }

  // ---- The master's steps

  lemma SendTracked(s: Sys, s': Sys, id: ServerId, kind: Kind, delivered: bool)
    requires Tracked(s, id) && Quiescent(s, id) && id in s.names && s' == SendCommand(s, id, kind, delivered)
    ensures Tracked(s', id)
  {
    var stage :| TrackedAt(s, id, stage);
    assert stage.Quiet?;
    var cmd := Command(id, s.names[id], kind);
    if delivered {
      assert s'.commands == s.commands + multiset{cmd};
      assert s'.writes[Write(id, kind)] > 0;
      assert Located(s', id, InCommand(cmd));
      assert TrackedAt(s', id, InCommand(cmd));
    } else {
      LocatedStays(s, s', id, Quiet);
      if kind.Delete? {
        assert s'.writes[Write(id, kind)] > 0;
      }
      assert TrackedAt(s', id, Quiet);
    }
  }

  lemma SendElsewhere(s: Sys, s': Sys, id: ServerId, kind: Kind, delivered: bool, other: ServerId)
    requires id in s.names && s' == SendCommand(s, id, kind, delivered) && other != id
    ensures SameMail(s, s', other) && SameRow(s, s', other)
  {
  }

  lemma WriteTracked(s: Sys, s': Sys, w: Write)
    requires Tracked(s, w.id) && s.writes[w] > 0 && s' == WriteRow(s, w)
    ensures Tracked(s', w.id)
  {
    var stage :| TrackedAt(s, w.id, stage);
    LocatedStays(s, s', w.id, stage);
    assert Unsettled(s', w.id);
    assert TrackedAt(s', w.id, stage);
  }

  lemma WriteElsewhere(s: Sys, s': Sys, w: Write, other: ServerId)
    requires s' == WriteRow(s, w) && other != w.id
    ensures SameMail(s, s', other) && SameRow(s, s', other)
  {
  }

  /** Handling the one reply of a server settles its row, unless the master's own write is still to come. */
  lemma ReplyTracked(s: Sys, s': Sys, r: Reply)
    requires Tracked(s, r.id) && Truthful(s, r) && NamesOk(s) && s.replies[r] > 0 && s' == UpdateRow(s, r)
    ensures Tracked(s', r.id)
  {
    var stage :| TrackedAt(s, r.id, stage);
    assert stage == InReply(r);
    assert s'.replies[r] == 0;
    assert Located(s', r.id, Quiet);
    SameDocker(s, s', s.names[r.id]);
    assert Agree(s', r.id);
    assert TrackedAt(s', r.id, Quiet);
  }

  lemma ReplyElsewhere(s: Sys, s': Sys, r: Reply, other: ServerId)
    requires s' == UpdateRow(s, r) && other != r.id
    ensures SameMail(s, s', other) && SameRow(s, s', other)
  {
  }

  /** Nothing under way and no container stem from a server that was never created. */
  lemma CreateTracked(s: Sys, s': Sys, id: ServerId, n: ContainerName)
    requires Inv(s) && id !in s.names && NameFree(s, n)
    requires s' == s.(rows := s.rows[id := Row(n, Stopped, None)], names := s.names[id := n])
    ensures Tracked(s', id)
  {
    FreeNameIsDown(s, n);
    forall cmd: Command | cmd.id == id
      ensures s'.commands[cmd] == 0
    {
      assert CommandOk(s, cmd);
    }
    forall g | g in s.goroutines
      ensures s'.goroutines[g].id != id
    {
      assert GoroutineOk(s, g);
    }
    forall r: Reply | r.id == id
      ensures s'.replies[r] == 0
    {
      assert ReplyOk(s, r);
    }
    assert Located(s', id, Quiet);
    SameDocker(s, s', n);
    assert TrackedAt(s', id, Quiet);
  }

  /** A name that nobody ever had is free, and no container is up under a free name. */
  lemma FreeNameIsDown(s: Sys, n: ContainerName)
    requires DockerOk(s) && NameFree(s, n)
    ensures !Up(s, n)
  {
    if i :| i in s.names && s.names[i] == n {
      assert !Owner(s, i);
    } else {
      forall c | c in s.docker
        ensures s.docker[c].name != n
      {
      }
    }
  }

  /** At the instant of creation a new row agrees exactly when no container is up under its name. */
  lemma NewRowAgrees(s: Sys, id: ServerId, n: ContainerName)
    requires MasterEnabled(s, CreateServer(id, n))
    ensures Agree(Step(s, Master(CreateServer(id, n))), id) <==> !Up(s, n)
  {
    SameDocker(s, Step(s, Master(CreateServer(id, n))), n);
  }

  /** What holds of messages and goroutines in one state and holds in the next. */
  ghost predicate NamesGrow(s: Sys, s': Sys) {
    forall i {:trigger i in s.names} {:trigger i in s'.names} :: i in s.names ==>
        i in s'.names && s'.names[i] == s.names[i]
  }

  lemma TruthfulAt(s: Sys, s': Sys, r: Reply)
    requires Truthful(s, r) && NamesGrow(s, s') && s'.docker == s.docker
    ensures Truthful(s', r)
  {
    SameDocker(s, s', s.names[r.id]);
  }

  lemma GoroutineStays(s: Sys, s': Sys, g: nat)
    requires GoroutineOk(s, g) && NamesGrow(s, s') && s'.docker == s.docker && s'.nextContainer == s.nextContainer
    requires Lookup(s'.goroutines, g) == Lookup(s.goroutines, g)
    ensures GoroutineOk(s', g)
  {
    if g in s.goroutines && s.goroutines[g].pc.Report? {
      TruthfulAt(s, s', s.goroutines[g].pc.reply);
    }
  }

  lemma DockerOkStays(s: Sys, s': Sys)
    requires DockerOk(s) && NamesGrow(s, s') && s'.docker == s.docker && s'.nextContainer == s.nextContainer
    ensures DockerOk(s')
  {
    forall c | c in s'.docker
      ensures exists i :: i in s'.names && s'.names[i] == s'.docker[c].name
    {
      var i :| i in s.names && s.names[i] == s.docker[c].name;
      assert s'.names[i] == s'.docker[c].name;
    }
  }

  lemma MasterTracked(s: Sys, e: MasterEvent, s': Sys, id: ServerId)
    requires Inv(s) && MasterEnabled(s, e) && Orderly(s, Master(e)) && s' == MasterStep(s, e)
    ensures Tracked(s', id)
  {
    assert Tracked(s, id);
    match e
    case CreateServer(i, n) => if i == id { CreateTracked(s, s', id, n); } else { TrackedStays(s, s', id); }
    case Send(i, kind, d) =>
      if i == id {
        SendTracked(s, s', id, kind, d);
      } else {
        SendElsewhere(s, s', i, kind, d, id);
        TrackedStays(s, s', id);
      }
    case DoWrite(w) =>
      if w.id == id { WriteTracked(s, s', w); } else { WriteElsewhere(s, s', w, id); TrackedStays(s, s', id); }
    case HandleReply(r) =>
      assert ReplyOk(s, r);
      if r.id == id { ReplyTracked(s, s', r); } else { ReplyElsewhere(s, s', r, id); TrackedStays(s, s', id); }
  }

  lemma OwnerOf(s: Sys, g: nat, r: Reply, cmd: Command)
    ensures GoroutineOk(s, g) && g in s.goroutines ==> Owner(s, s.goroutines[g].id)
    ensures ReplyOk(s, r) && s.replies[r] > 0 ==> Owner(s, r.id)
    ensures CommandOk(s, cmd) && s.commands[cmd] > 0 ==> Owner(s, cmd.id)
  {
  }

  lemma StaysIdle(s: Sys, s': Sys, id: ServerId)
    requires SameMail(s, s', id)
    ensures Idle(s, id) ==> Idle(s', id)
  {
  }

  /** The owners of names stay the same or get fewer. */
  lemma OwnersShrink(s: Sys, s': Sys)
    requires NamesOk(s) && s'.names == s.names
    requires forall i {:trigger Owner(s', i)} :: Owner(s', i) ==> Owner(s, i)
    requires forall i :: i in s'.rows ==> i in s.rows && s'.rows[i].name == s.rows[i].name
    ensures NamesOk(s') && NamesGrow(s, s')
  {
  }

  lemma CreateNames(s: Sys, s': Sys, id: ServerId, n: ContainerName)
    requires NamesOk(s) && id !in s.names && NameFree(s, n)
    requires s' == s.(rows := s.rows[id := Row(n, Stopped, None)], names := s.names[id := n])
    ensures NamesOk(s') && NamesGrow(s, s')
  {
    forall i
      ensures Owner(s', i) ==> i == id || (Owner(s, i) && s.names[i] != n)
    {
      StaysIdle(s, s', i);
    }
  }

  lemma SendNames(s: Sys, s': Sys, id: ServerId, kind: Kind, delivered: bool)
    requires NamesOk(s) && id in s.names && SoleOwner(s, id) && s' == SendCommand(s, id, kind, delivered)
    ensures NamesOk(s') && NamesGrow(s, s')
  {
    forall i
      ensures Owner(s', i) ==> i == id || Owner(s, i)
    {
      if i != id {
        SendElsewhere(s, s', id, kind, delivered, i);
        StaysIdle(s, s', i);
      }
    }
  }

  lemma RowNames(s: Sys, s': Sys)
    requires NamesOk(s) && s'.names == s.names && s'.commands == s.commands && s'.goroutines == s.goroutines
    requires forall r :: s'.replies[r] <= s.replies[r]
    requires forall i :: i in s'.rows ==> i in s.rows && s'.rows[i].name == s.rows[i].name
    ensures NamesOk(s') && NamesGrow(s, s')
  {
    OwnersShrink(s, s');
  }

  lemma MasterNames(s: Sys, e: MasterEvent, s': Sys)
    requires NamesOk(s) && MasterEnabled(s, e) && Orderly(s, Master(e)) && s' == MasterStep(s, e)
    ensures NamesOk(s') && NamesGrow(s, s')
    ensures s'.docker == s.docker && s'.nextContainer == s.nextContainer && s'.goroutines == s.goroutines
  {
    match e
    case CreateServer(id, n) => CreateNames(s, s', id, n);
    case Send(id, kind, delivered) => SendNames(s, s', id, kind, delivered);
    case DoWrite(_) => RowNames(s, s');
    case HandleReply(_) => RowNames(s, s');
  }

  lemma MasterMail(s: Sys, e: MasterEvent, s': Sys, cmd: Command, r: Reply)
    requires MasterEnabled(s, e) && s' == MasterStep(s, e)
    ensures s'.commands[cmd] > 0 ==> s.commands[cmd] > 0 || (cmd.id in s.names && cmd.name == s.names[cmd.id])
    ensures s'.replies[r] <= s.replies[r]
  {
  }

  lemma MasterInv(s: Sys, e: MasterEvent, s': Sys)
    requires Inv(s) && MasterEnabled(s, e) && Orderly(s, Master(e)) && s' == MasterStep(s, e)
    ensures Inv(s')
  {
    MasterNames(s, e, s');
    DockerOkStays(s, s');
    forall id
      ensures Tracked(s', id)
    {
      MasterTracked(s, e, s', id);
    }
    forall r
      ensures ReplyOk(s', r)
    {
      assert ReplyOk(s, r);
      MasterMail(s, e, s', Command(0, ContainerName(""), Stop), r);
      if s'.replies[r] > 0 { TruthfulAt(s, s', r); }
    }
    forall g
      ensures GoroutineOk(s', g)
    {
      assert GoroutineOk(s, g);
      GoroutineStays(s, s', g);
    }
    forall cmd
      ensures CommandOk(s', cmd)
    {
      assert CommandOk(s, cmd);
      MasterMail(s, e, s', cmd, Reply(0, Error, None));
    }
  }

  // ---- The network's steps

  /** The server the message or goroutine of the event belongs to. */
  function ServerOf(s: Sys, e: MailEvent): ServerId
    requires MailEnabled(s, e)
  {
    match e
    case LoseCommand(cmd) => cmd.id
    case LoseReply(r) => r.id
    case Receive(_, cmd) => cmd.id
    case Reported(g, _) => s.goroutines[g].pc.reply.id
  }

  lemma ReportedLocated(s: Sys, g: nat, sent: bool, s': Sys, stage: Stage)
    requires MailEnabled(s, Reported(g, sent)) && s' == MailStep(s, Reported(g, sent))
    requires GoroutineOk(s, g) && Located(s, s.goroutines[g].id, stage)
    ensures Located(s', s.goroutines[g].id, if sent then InReply(s.goroutines[g].pc.reply) else Quiet)
  {
    assert s.replies[s.goroutines[g].pc.reply] == 0;
  }

  lemma ReceiveLocated(s: Sys, g: nat, cmd: Command, s': Sys, stage: Stage)
    requires MailEnabled(s, Receive(g, cmd)) && s' == MailStep(s, Receive(g, cmd)) && Located(s, cmd.id, stage)
    ensures Located(s', cmd.id, InGoroutine(g))
  {
    assert s'.commands[cmd] == 0;
  }

  /** Wherever the one piece of work goes, it was somewhere. */
  lemma MailLocated(s: Sys, e: MailEvent, s': Sys, stage: Stage) returns (stage': Stage)
    requires MailEnabled(s, e) && Located(s, ServerOf(s, e), stage) && s' == MailStep(s, e)
    requires e.Reported? ==> GoroutineOk(s, e.g)
    ensures Located(s', ServerOf(s, e), stage') && !stage.Quiet?
  {
    match e
    case LoseCommand(cmd) => stage' := Quiet; assert s'.commands[cmd] == 0;
    case LoseReply(r) => stage' := Quiet; assert s'.replies[r] == 0;
    case Receive(g, cmd) => stage' := InGoroutine(g); ReceiveLocated(s, g, cmd, s', stage);
    case Reported(g, sent) =>
      stage' := if sent then InReply(s.goroutines[g].pc.reply) else Quiet;
      ReportedLocated(s, g, sent, s', stage);
  }

  lemma ReportedElsewhere(s: Sys, g: nat, sent: bool, s': Sys, id: ServerId)
    requires MailEnabled(s, Reported(g, sent)) && s' == MailStep(s, Reported(g, sent))
    requires GoroutineOk(s, g) && id != s.goroutines[g].id
    ensures SameMail(s, s', id)
  {
  }

  lemma ReceiveElsewhere(s: Sys, g: nat, cmd: Command, s': Sys, id: ServerId)
    requires MailEnabled(s, Receive(g, cmd)) && s' == MailStep(s, Receive(g, cmd)) && id != cmd.id
    ensures SameMail(s, s', id)
  {
  }

  lemma MailElsewhere(s: Sys, e: MailEvent, s': Sys, id: ServerId)
    requires MailEnabled(s, e) && s' == MailStep(s, e) && id != ServerOf(s, e)
    requires e.Reported? ==> GoroutineOk(s, e.g)
    ensures SameMail(s, s', id)
  {
    match e
    case LoseCommand(_) =>
    case LoseReply(_) =>
    case Receive(g, cmd) => ReceiveElsewhere(s, g, cmd, s', id);
    case Reported(g, sent) => ReportedElsewhere(s, g, sent, s', id);
  }

  lemma MailFrame(s: Sys, e: MailEvent, s': Sys)
    requires MailEnabled(s, e) && s' == MailStep(s, e)
    ensures s'.rows == s.rows && s'.names == s.names && s'.writes == s.writes
    ensures s'.docker == s.docker && s'.nextContainer == s.nextContainer
    ensures forall r {:trigger s'.replies[r]} :: s'.replies[r] > 0 ==>
        s.replies[r] > 0 || (e.Reported? && r == s.goroutines[e.g].pc.reply)
    ensures forall cmd {:trigger s'.commands[cmd]} :: s'.commands[cmd] <= s.commands[cmd]
    ensures forall g {:trigger g in s'.goroutines} :: g in s'.goroutines ==>
      (g in s.goroutines && s'.goroutines[g] == s.goroutines[g])
      || (e.Receive? && e.g == g && s'.goroutines[g] == Goroutine(e.cmd.id, e.cmd.name, FirstCall(e.cmd.kind)))
  {
    match e
    case LoseCommand(_) =>
    case LoseReply(_) =>
    case Receive(_, _) =>
    case Reported(_, _) =>
  }

  lemma MailNames(s: Sys, e: MailEvent, s': Sys)
    requires NamesOk(s) && MailEnabled(s, e) && s' == MailStep(s, e)
    requires e.Reported? ==> GoroutineOk(s, e.g)
    requires e.Receive? ==> CommandOk(s, e.cmd)
    ensures NamesOk(s') && NamesGrow(s, s')
  {
    MailFrame(s, e, s');
    forall i
      ensures Owner(s', i) ==> Owner(s, i)
    {
      if i != ServerOf(s, e) {
        MailElsewhere(s, e, s', i);
        StaysIdle(s, s', i);
      } else {
        assert !Idle(s, i);
      }
    }
    OwnersShrink(s, s');
  }

  lemma MailTracked(s: Sys, e: MailEvent, s': Sys, id: ServerId)
    requires Tracked(s, id) && MailEnabled(s, e) && s' == MailStep(s, e)
    requires e.Reported? ==> GoroutineOk(s, e.g)
    ensures Tracked(s', id)
  {
    MailFrame(s, e, s');
    if id == ServerOf(s, e) {
      var stage :| TrackedAt(s, id, stage);
      var stage' := MailLocated(s, e, s', stage);
      UnsettledStays(s, s', id);
      assert TrackedAt(s', id, stage');
    } else {
      MailElsewhere(s, e, s', id);
      TrackedStays(s, s', id);
    }
  }

  lemma MailInv(s: Sys, e: MailEvent, s': Sys)
    requires Inv(s) && MailEnabled(s, e) && s' == MailStep(s, e)
    ensures Inv(s')
  {
    if e.Reported? { assert GoroutineOk(s, e.g); }
    if e.Receive? { assert CommandOk(s, e.cmd); }
    MailFrame(s, e, s');
    MailNames(s, e, s');
    DockerOkStays(s, s');
    forall id
      ensures Tracked(s', id)
    {
      assert Tracked(s, id);
      MailTracked(s, e, s', id);
    }
    forall r
      ensures ReplyOk(s', r)
    {
      assert ReplyOk(s, r);
      if s'.replies[r] > 0 { TruthfulAt(s, s', r); }
    }
    forall g
      ensures GoroutineOk(s', g)
    {
      assert GoroutineOk(s, g);
      if e.Receive? && g == e.g {
        assert CommandOk(s, e.cmd);
      } else if g in s'.goroutines {
        GoroutineStays(s, s', g);
      }
    }
    forall cmd
      ensures CommandOk(s', cmd)
    {
      assert CommandOk(s, cmd);
    }
  }

  // ---- Docker's steps

  /** At most one container changed, and before and after it carries the name n; a container that is
      new took a name nobody had. */
  ghost predicate Touches(s: Sys, s': Sys, c: nat, n: ContainerName) {
    && s.nextContainer <= s'.nextContainer
    && (forall k {:trigger Lookup(s'.docker, k)} :: k != c ==> Lookup(s'.docker, k) == Lookup(s.docker, k))
    && (c in s.docker ==> s.docker[c].name == n)
    && (c in s'.docker ==>
          && s'.docker[c].name == n && c < s'.nextContainer
          && (c !in s.docker ==> c >= s.nextContainer && !NameInUse(s.docker, n)))
  }

  lemma DockerTouches(s: Sys, g: nat, ret: Return, s': Sys) returns (c: nat)
    requires DockerOk(s) && GoroutineOk(s, g) && DockerEnabled(s, g, ret) && s' == DockerStep(s, g, ret)
    ensures Touches(s, s', c, s.goroutines[g].name)
  {
    match ret
    case Pulled(_) => c := s.nextContainer;
    case Found(_) => c := s.nextContainer;
    case StopReturned(ok, running) => c := s.goroutines[g].pc.c;
    case RemoveReturned(gone) => c := s.goroutines[g].pc.c;
    case CreateReturned(_) => c := s.nextContainer;
    case StartReturned(ok, running) => c := s.goroutines[g].pc.c;
  }

  lemma TouchesAt(s: Sys, s': Sys, c: nat, n: ContainerName, k: nat)
    requires Touches(s, s', c, n)
    ensures k != c ==> (k in s'.docker <==> k in s.docker) && (k in s.docker ==> s'.docker[k] == s.docker[k])
  {
    assert Lookup(s'.docker, k) == Lookup(s'.docker, k);
  }

  lemma UpElsewhere(s: Sys, s': Sys, c: nat, n: ContainerName, m: ContainerName)
    requires Touches(s, s', c, n) && m != n
    ensures SameUp(s, s', m)
  {
    forall k: nat
      ensures UpAs(s, m, Some(k)) <==> UpAs(s', m, Some(k))
    {
      TouchesAt(s, s', c, n, k);
    }
    if Up(s, m) {
      var k :| k in s.docker && s.docker[k].name == m && s.docker[k].running;
      TouchesAt(s, s', c, n, k);
    }
    if Up(s', m) {
      var k :| k in s'.docker && s'.docker[k].name == m && s'.docker[k].running;
      TouchesAt(s, s', c, n, k);
    }
  }

  lemma DockerOkKept(s: Sys, s': Sys, c: nat, n: ContainerName)
    requires DockerOk(s) && Touches(s, s', c, n) && s'.names == s.names && exists i :: i in s.names && s.names[i] == n
    ensures DockerOk(s')
  {
    forall k | k in s'.docker
      ensures k < s'.nextContainer && (exists i :: i in s'.names && s'.names[i] == s'.docker[k].name)
    {
      TouchesAt(s, s', c, n, k);
    }
    forall k, l | k in s'.docker && l in s'.docker && s'.docker[k].name == s'.docker[l].name
      ensures k == l
    {
      TouchesAt(s, s', c, n, k);
      TouchesAt(s, s', c, n, l);
    }
  }

  /** A lookup that finds a container finds one of the goroutine's own name. */
  lemma OwnFindOk(s: Sys, g: nat, found: Option<nat>, s': Sys)
    requires DockerOk(s) && GoroutineOk(s, g) && DockerEnabled(s, g, Found(found))
        && Orderly(s, Docker(g, Found(found)))
    requires s' == AfterFind(s, g, found)
    ensures GoroutineOk(s', g)
  {
  }

  lemma OwnStopOk(s: Sys, g: nat, ok: bool, running: bool, s': Sys)
    requires DockerOk(s) && GoroutineOk(s, g) && DockerEnabled(s, g, StopReturned(ok, running))
    requires s' == AfterStop(s, g, ok, running)
    ensures GoroutineOk(s', g)
  {
    var c, n := s.goroutines[g].pc.c, s.goroutines[g].name;
    assert s'.nextContainer == s.nextContainer;
    assert c in s'.docker ==> s'.docker[c].name == n;
    if ok {
      forall k | k in s'.docker && s'.docker[k].name == n
        ensures !s'.docker[k].running
      {
        assert k == c;
      }
      assert !Up(s', n);
    }
  }

  lemma OwnStartOk(s: Sys, g: nat, ok: bool, running: bool, s': Sys)
    requires DockerOk(s) && GoroutineOk(s, g) && DockerEnabled(s, g, StartReturned(ok, running))
    requires s' == AfterStart(s, g, ok, running)
    ensures GoroutineOk(s', g)
  {
    if ok {
      var c := s.goroutines[g].pc.c;
      assert s'.docker[c].name == s.goroutines[g].name && s'.docker[c].running;
      assert UpAs(s', s.goroutines[g].name, Some(c));
    }
  }

  lemma OwnGoroutineOk(s: Sys, g: nat, ret: Return, s': Sys)
    requires DockerOk(s) && GoroutineOk(s, g) && DockerEnabled(s, g, ret) && Orderly(s, Docker(g, ret))
    requires s' == DockerStep(s, g, ret)
    ensures GoroutineOk(s', g)
  {
    match ret
    case Pulled(_) =>
    case Found(c) => OwnFindOk(s, g, c, s');
    case StopReturned(ok, running) => OwnStopOk(s, g, ok, running, s');
    case RemoveReturned(_) =>
    case CreateReturned(_) =>
    case StartReturned(ok, running) => OwnStartOk(s, g, ok, running, s');
  }

  /** Two goroutines, or a goroutine and a reply, never belong to one server. */
  lemma Exclusive(s: Sys, g: nat, h: nat, r: Reply)
    requires g in s.goroutines && Tracked(s, s.goroutines[g].id)
    ensures h in s.goroutines && h != g ==> s.goroutines[h].id != s.goroutines[g].id
    ensures s.replies[r] > 0 ==> r.id != s.goroutines[g].id
  {
    var stage :| TrackedAt(s, s.goroutines[g].id, stage);
    assert stage == InGoroutine(g);
  }

  lemma TruthfulStays(s: Sys, s': Sys, c: nat, id: ServerId, r: Reply)
    requires NamesOk(s) && id in s.names && s'.names == s.names && Touches(s, s', c, s.names[id])
    requires Truthful(s, r) && r.id != id && Owner(s, id) && Owner(s, r.id)
    ensures Truthful(s', r)
  {
    UpElsewhere(s, s', c, s.names[id], s.names[r.id]);
  }

  lemma OtherGoroutineOk(s: Sys, g: nat, h: nat, s': Sys, c: nat)
    requires NamesOk(s) && GoroutineOk(s, g) && GoroutineOk(s, h) && h != g && s.OnlyMoves(s', g)
    requires Tracked(s, s.goroutines[g].id) && Touches(s, s', c, s.goroutines[g].name)
    ensures GoroutineOk(s', h)
  {
    Exclusive(s, g, h, Reply(0, Error, None));
    OwnerOf(s, g, Reply(0, Error, None), Command(0, ContainerName(""), Stop));
    OwnerOf(s, h, Reply(0, Error, None), Command(0, ContainerName(""), Stop));
    if h in s.goroutines {
      var w := s.goroutines[h];
      if w.pc.Report? { TruthfulStays(s, s', c, s.goroutines[g].id, w.pc.reply); }
      if HasContainer(w.pc) { OtherContainer(s, g, h, s', c); }
    }
  }

  lemma OtherContainer(s: Sys, g: nat, h: nat, s': Sys, c: nat)
    requires NamesOk(s) && GoroutineOk(s, g) && GoroutineOk(s, h) && h in s.goroutines
        && HasContainer(s.goroutines[h].pc)
    requires g in s.goroutines && s.goroutines[h].id != s.goroutines[g].id && Touches(s, s', c, s.goroutines[g].name)
    requires Owner(s, s.goroutines[g].id) && Owner(s, s.goroutines[h].id)
    ensures var k := s.goroutines[h].pc.c;
      k < s'.nextContainer && (k in s'.docker ==> s'.docker[k].name == s.goroutines[h].name)
  {
    TouchesAt(s, s', c, s.goroutines[g].name, s.goroutines[h].pc.c);
  }

  lemma DockerNames(s: Sys, g: nat, s': Sys)
    requires NamesOk(s) && s.OnlyMoves(s', g)
    ensures NamesOk(s')
  {
    forall i
      ensures Owner(s', i) ==> Owner(s, i)
    {
      assert SameMail(s, s', i);
      StaysIdle(s, s', i);
    }
    OwnersShrink(s, s');
  }

  lemma DockerTracked(s: Sys, g: nat, s': Sys, c: nat, id: ServerId)
    requires NamesOk(s) && GoroutineOk(s, g) && Tracked(s, id) && s.OnlyMoves(s', g)
    requires Touches(s, s', c, s.goroutines[g].name)
    ensures Tracked(s', id)
  {
    assert SameMail(s, s', id) && SameRow(s, s', id);
    var stage :| TrackedAt(s, id, stage);
    if Unsettled(s, id) {
      LocatedStays(s, s', id, stage);
      UnsettledStays(s, s', id);
      assert TrackedAt(s', id, stage);
    } else {
      assert s.goroutines[g].id != id;
      assert Owner(s, s.goroutines[g].id) && Owner(s, id);
      UpElsewhere(s, s', c, s.goroutines[g].name, s.rows[id].name);
      TrackedStays(s, s', id);
    }
  }

  lemma DockerInv(s: Sys, g: nat, ret: Return, s': Sys)
    requires Inv(s) && DockerEnabled(s, g, ret) && Orderly(s, Docker(g, ret)) && s' == DockerStep(s, g, ret)
    ensures Inv(s')
  {
    assert GoroutineOk(s, g) && Tracked(s, s.goroutines[g].id);
    var c := DockerTouches(s, g, ret, s');
    DockerNames(s, g, s');
    OwnerOf(s, g, Reply(0, Error, None), Command(0, ContainerName(""), Stop));
    DockerOkKept(s, s', c, s.goroutines[g].name);
    OwnGoroutineOk(s, g, ret, s');
    forall id
      ensures Tracked(s', id)
    {
      assert Tracked(s, id);
      DockerTracked(s, g, s', c, id);
    }
    forall r
      ensures ReplyOk(s', r)
    {
      assert ReplyOk(s, r);
      Exclusive(s, g, g, r);
      OwnerOf(s, g, r, Command(0, ContainerName(""), Stop));
      if s.replies[r] > 0 { TruthfulStays(s, s', c, s.goroutines[g].id, r); }
    }
    forall h
      ensures GoroutineOk(s', h)
    {
      assert GoroutineOk(s, h);
      if h != g { OtherGoroutineOk(s, g, h, s', c); }
    }
    forall cmd
      ensures CommandOk(s', cmd)
    {
      assert CommandOk(s, cmd);
    }
  }

  // ---- Runs

  lemma StepInv(s: Sys, e: Event)
    requires Inv(s) && Orderly(s, e)
    ensures Inv(Step(s, e))
  {
    if Enabled(s, e) {
      match e
      case Master(m) => MasterInv(s, m, Step(s, e));
      case Mail(l) => MailInv(s, l, Step(s, e));
      case Docker(g, ret) => DockerInv(s, g, ret, Step(s, e));
    }
  }

  lemma {:induction false} OrderlyInv(es: seq<Event>)
    requires OrderlyRun(es)
    ensures Inv(Exec(es))
  {
    if es == [] {
      forall id
        ensures Tracked(INIT, id)
      {
        assert TrackedAt(INIT, id, Quiet);
      }
    } else {
      var k := |es| - 1;
      assert OrderlyRun(es[..k]) by {
        assert forall i :: 0 <= i < k ==> es[..k][..i] == es[..i];
      }
      OrderlyInv(es[..k]);
      assert Orderly(Exec(es[..k]), es[k]);
      StepInv(Exec(es[..k]), es[k]);
    }
  }

  /** Work under way shows in the row: when the row says neither starting nor stopping and the master
      owes it no write, nothing is under way and the row is right. */
  lemma SettledMeansQuiescent(s: Sys, id: ServerId)
    requires Inv(s) && id in s.rows && !Transient(s.rows[id].status) && !WritePending(s, id)
    ensures Quiescent(s, id) && Agree(s, id)
  {
    assert Tracked(s, id);
    var stage :| TrackedAt(s, id, stage);
  }

  /** In every orderly run, whenever the master owes the row no write, a row that says running holds the
      id of a container of its name that is up and a row that says stopped has none up, after any
      failures and losses on the way, whether the master's own status write came before or after the
      agent's answer, and whatever is under way. */
  lemma OrderlyServersAgree(es: seq<Event>, id: ServerId)
    requires OrderlyRun(es) && !WritePending(Exec(es), id)
    ensures Agree(Exec(es), id)
  {
    OrderlyInv(es);
    var s := Exec(es);
    if id in s.rows && !Transient(s.rows[id].status) { SettledMeansQuiescent(s, id); }
  }

  /** In particular whenever nothing is under way for the server. */
  lemma QuiescentServersAgree(es: seq<Event>, id: ServerId)
    requires OrderlyRun(es) && Quiescent(Exec(es), id)
    ensures Agree(Exec(es), id)
  {
    OrderlyServersAgree(es, id);
  }

  // ---- Conditions on what the master does

  /** The master sends a command only for a row that says neither starting nor stopping and that it owes
      no write; for the rest as in an orderly run. */
  ghost predicate Careful(s: Sys, e: Event) {
    match e
    case Master(Send(id, _, _)) => id in s.rows && !Transient(s.rows[id].status) && !WritePending(s, id)
    case _ => Orderly(s, e)
  }

  ghost predicate CarefulRun(es: seq<Event>) {
    forall i :: 0 <= i < |es| ==> Careful(Exec(es[..i]), es[i])
  }

  lemma CarefulIsOrderly(s: Sys, e: Event)
    requires Inv(s) && Careful(s, e)
    ensures Orderly(s, e)
  {
    match e
    case Master(Send(id, _, _)) =>
      SettledMeansQuiescent(s, id);
      assert Owner(s, id);
    case _ =>
  }

  lemma OrderlySnoc(es: seq<Event>)
    requires es != [] && OrderlyRun(es[..|es| - 1]) && Orderly(Exec(es[..|es| - 1]), es[|es| - 1])
    ensures OrderlyRun(es)
  {
    var front := es[..|es| - 1];
    forall i | 0 <= i < |es|
      ensures Orderly(Exec(es[..i]), es[i])
    {
      if i < |front| { assert front[..i] == es[..i] && front[i] == es[i]; }
    }
  }

  lemma CarefulFront(es: seq<Event>)
    requires es != [] && CarefulRun(es)
    ensures CarefulRun(es[..|es| - 1]) && Careful(Exec(es[..|es| - 1]), es[|es| - 1])
  {
    var front := es[..|es| - 1];
    forall i | 0 <= i < |front|
      ensures Careful(Exec(front[..i]), front[i])
    {
      assert front[..i] == es[..i];
    }
  }

  lemma {:induction false} CarefulRunsAreOrderly(es: seq<Event>)
    requires CarefulRun(es)
    ensures OrderlyRun(es)
  {
    if es == [] {
    } else {
      var k := |es| - 1;
      CarefulFront(es);
      CarefulRunsAreOrderly(es[..k]);
      OrderlyInv(es[..k]);
      CarefulIsOrderly(Exec(es[..k]), es[k]);
      OrderlySnoc(es);
    }
  }

  /** When the master goes by the rows in this way, then in every run each row it owes no write agrees
      with Docker. */
  lemma CarefulServersAgree(es: seq<Event>, id: ServerId)
    requires CarefulRun(es) && !WritePending(Exec(es), id)
    ensures Agree(Exec(es), id)
  {
    CarefulRunsAreOrderly(es);
    OrderlyServersAgree(es, id);
  }

  /** A name that no server ever had is free. */
  lemma NewNameIsFree(s: Sys, n: ContainerName)
    requires n !in s.names.Values
    ensures NameFree(s, n)
  {
  }

  /** The master goes by its own table and memory alone: it also creates servers only under names that
      none had before. */
  ghost predicate Guarded(s: Sys, e: Event) {
    match e
    case Master(CreateServer(_, n)) => n !in s.names.Values
    case _ => Careful(s, e)
  }

  ghost predicate GuardedRun(es: seq<Event>) {
    forall i :: 0 <= i < |es| ==> Guarded(Exec(es[..i]), es[i])
  }

  /** When the master keeps to this, then in every run each row it owes no write agrees with Docker. */
  lemma GuardedServersAgree(es: seq<Event>, id: ServerId)
    requires GuardedRun(es) && !WritePending(Exec(es), id)
    ensures Agree(Exec(es), id)
  {
    forall i | 0 <= i < |es|
      ensures Careful(Exec(es[..i]), es[i])
    {
      if es[i].Master? && es[i].m.CreateServer? { NewNameIsFree(Exec(es[..i]), es[i].m.name); }
    }
    CarefulServersAgree(es, id);
  }
}
