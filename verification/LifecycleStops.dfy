/** Commands that may be under way together: any number of stop commands for one server, and anything
    beside its delete command.  Of the other servers nothing is assumed but that their container names
    are different ones. */
module LifecycleStops {
  import opened Columns
  import opened Options
  import opened Lifecycle
  import opened LifecycleAgreement

  /** The event is about something else than commanding the server: nobody takes its name, the master's
      writes to its row succeed, and lookups are exact. */
  ghost predicate Apart(s: Sys, id: ServerId, e: Event) {
    match e
    case Master(CreateServer(_, n)) => id in s.names ==> n != s.names[id]
    case Master(Send(i, _, _)) => i != id && (id in s.names && i in s.names ==> s.names[i] != s.names[id])
    case Master(FailWrite(w)) => w.id != id
    case _ => Orderly(s, e)
  }

  // ---- A server that is being deleted

  ghost predicate Doomed(s: Sys, id: ServerId) {
    id in s.names && (id in s.rows ==> s.writes[Write(id, Delete)] > 0)
  }

  lemma DoomedStays(s: Sys, id: ServerId, e: Event)
    requires Doomed(s, id) && (e.Master? && e.m.FailWrite? ==> e.m.w.id != id)
    ensures Doomed(Step(s, e), id)
  {
    if Enabled(s, e) {
      match e
      case Master(m) => DoomedMaster(s, id, m, Step(s, e));
      case Mail(l) => MailFrame(s, l, Step(s, e));
      case Docker(g, ret) =>
    }
  }

  lemma DoomedMaster(s: Sys, id: ServerId, e: MasterEvent, s': Sys)
    requires Doomed(s, id) && MasterEnabled(s, e) && (e.FailWrite? ==> e.w.id != id) && s' == MasterStep(s, e)
    ensures Doomed(s', id)
  {
    match e
    case CreateServer(_, _) =>
    case Send(_, _, _) => assert s'.writes[Write(id, Delete)] >= s.writes[Write(id, Delete)];
    case DoWrite(w) => assert w != Write(id, Delete) ==> s'.writes[Write(id, Delete)] == s.writes[Write(id, Delete)];
    case FailWrite(w) => assert s'.writes[Write(id, Delete)] == s.writes[Write(id, Delete)];
    case HandleReply(_) =>
  }

  lemma DoomedAgrees(s: Sys, id: ServerId)
    requires Doomed(s, id) && !WritePending(s, id)
    ensures id !in s.rows
  {
  }

  // ---- A server that is only being stopped

  predicate StopAnswer(r: Reply) {
    (r.status.Stopped? || r.status.Error?) && r.containerId.None?
  }

  predicate StopWork(pc: Pc) {
    pc.FindRunning? || pc.StopRunning? || (pc.Report? && StopAnswer(pc.reply))
  }

  ghost predicate TrueAnswer(s: Sys, id: ServerId, r: Reply)
    requires id in s.names
  {
    StopAnswer(r) && (r.status.Stopped? ==> !Up(s, s.names[id]))
  }

  ghost predicate WorkOk(s: Sys, id: ServerId, g: nat)
    requires id in s.names
  {
    g in s.goroutines ==>
      var w := s.goroutines[g];
      && w.id in s.names && w.name == s.names[w.id] && (w.name == s.names[id] ==> w.id == id)
      && (HasContainer(w.pc) ==> w.pc.c < s.nextContainer && (w.pc.c in s.docker ==> s.docker[w.pc.c].name == w.name))
      && (w.pc.Report? ==> w.pc.reply.id == w.id)
      && (w.id == id ==> StopWork(w.pc) && (w.pc.Report? ==> TrueAnswer(s, id, w.pc.reply)))
  }

  ghost predicate MessageOk(s: Sys, id: ServerId, cmd: Command)
    requires id in s.names
  {
    s.commands[cmd] > 0 ==>
      && cmd.id in s.names && cmd.name == s.names[cmd.id] && (cmd.name == s.names[id] ==> cmd.id == id)
      && (cmd.id == id ==> cmd.kind.Stop?)
  }

  ghost predicate AnswerOk(s: Sys, id: ServerId, r: Reply)
    requires id in s.names
  {
    s.replies[r] > 0 && r.id == id ==> TrueAnswer(s, id, r)
  }

  ghost predicate OnlyStopsWritten(s: Sys, id: ServerId) {
    forall k {:trigger Write(id, k)} :: s.writes[Write(id, k)] > 0 ==> k.Stop?
  }

  /** A row that says running says so from before the first stop command. */
  ghost predicate RowOk(s: Sys, id: ServerId)
    requires id in s.names
  {
    id in s.rows ==>
      && s.rows[id].name == s.names[id]
      && (WritePending(s, id)
          || ((s.rows[id].status.Running? ==> Idle(s, id) && UpAs(s, s.names[id], s.rows[id].containerId))
              && (s.rows[id].status.Stopped? ==> !Up(s, s.names[id]))))
  }

  ghost predicate OnlyStops(s: Sys, id: ServerId) {
    && id in s.names && DockerOk(s) && OnlyStopsWritten(s, id) && RowOk(s, id)
    && (forall g {:trigger WorkOk(s, id, g)} :: WorkOk(s, id, g))
    && (forall cmd {:trigger MessageOk(s, id, cmd)} :: MessageOk(s, id, cmd))
    && (forall r {:trigger AnswerOk(s, id, r)} :: AnswerOk(s, id, r))
  }

  /** So it is in every orderly run while nothing is under way for the server. */
  lemma QuiescentMeansOnlyStops(s: Sys, id: ServerId)
    requires Inv(s) && Quiescent(s, id) && id in s.rows
    ensures OnlyStops(s, id)
  {
    assert Owner(s, id);
    assert Tracked(s, id);
    var stage :| TrackedAt(s, id, stage);
    assert Agree(s, id) || Transient(s.rows[id].status);
    forall g
      ensures WorkOk(s, id, g)
    {
      assert GoroutineOk(s, g);
      OwnerOf(s, g, Reply(0, Error, None), Command(0, ContainerName(""), Stop));
    }
    forall cmd
      ensures MessageOk(s, id, cmd)
    {
      assert CommandOk(s, cmd);
      OwnerOf(s, 0, Reply(0, Error, None), cmd);
    }
    forall r
      ensures AnswerOk(s, id, r)
    {
    }
  }

  // ---- The master's steps

  lemma TrueAnswerStays(s: Sys, s': Sys, id: ServerId, r: Reply)
    requires id in s.names && NamesGrow(s, s') && TrueAnswer(s, id, r)
    requires Up(s', s.names[id]) ==> Up(s, s.names[id])
    ensures TrueAnswer(s', id, r)
  {
  }

  lemma WorkStays(s: Sys, s': Sys, id: ServerId, g: nat)
    requires id in s.names && WorkOk(s, id, g) && NamesGrow(s, s')
    requires s'.docker == s.docker && s'.nextContainer == s.nextContainer
    requires Lookup(s'.goroutines, g) == Lookup(s.goroutines, g)
    ensures WorkOk(s', id, g)
  {
    SameDocker(s, s', s.names[id]);
  }

  ghost predicate Allowed(s: Sys, id: ServerId, e: Event) {
    e == Master(Send(id, Stop, true)) || e == Master(Send(id, Stop, false)) || Apart(s, id, e)
  }

  lemma MasterGrows(s: Sys, e: MasterEvent, s': Sys)
    requires MasterEnabled(s, e) && s' == MasterStep(s, e)
    ensures NamesGrow(s, s')
    ensures s'.docker == s.docker && s'.nextContainer == s.nextContainer && s'.goroutines == s.goroutines
  {
  }

  lemma StopSentRow(s: Sys, id: ServerId, delivered: bool, s': Sys)
    requires OnlyStops(s, id) && s' == SendCommand(s, id, Stop, delivered)
    ensures RowOk(s', id) && OnlyStopsWritten(s', id)
  {
    if delivered {
      assert s'.writes[Write(id, Stop)] > 0;
    } else {
      assert s' == s;
    }
  }

  lemma RowStays(s: Sys, s': Sys, id: ServerId)
    requires id in s.names && RowOk(s, id) && SameRow(s, s', id) && NamesGrow(s, s')
    requires Idle(s, id) ==> Idle(s', id)
    requires SameUp(s, s', s.names[id]) || !Idle(s, id)
    requires Up(s', s.names[id]) ==> Up(s, s.names[id])
    ensures RowOk(s', id)
  {
    if id in s.rows && WritePending(s, id) {
      var k :| s.writes[Write(id, k)] > 0;
      assert s'.writes[Write(id, k)] > 0;
    }
  }

  lemma WritesStay(s: Sys, s': Sys, id: ServerId)
    requires OnlyStopsWritten(s, id) && forall w: Write :: w.id == id ==> s'.writes[w] <= s.writes[w]
    ensures OnlyStopsWritten(s', id)
  {
  }

  lemma StopWrittenRow(s: Sys, id: ServerId, w: Write, s': Sys)
    requires OnlyStops(s, id) && s.writes[w] > 0 && w.id == id && s' == WriteRow(s, w)
    ensures RowOk(s', id) && OnlyStopsWritten(s', id)
  {
    assert w == Write(id, w.kind);
    assert w.kind.Stop?;
  }

  lemma AnswerHandledRow(s: Sys, id: ServerId, r: Reply, s': Sys)
    requires OnlyStops(s, id) && s.replies[r] > 0 && r.id == id && s' == UpdateRow(s, r)
    ensures RowOk(s', id) && OnlyStopsWritten(s', id)
  {
    assert AnswerOk(s, id, r);
    SameDocker(s, s', s.names[id]);
    assert s'.writes == s.writes;
  }

  lemma ElsewhereSame(s: Sys, id: ServerId, e: MasterEvent, s': Sys)
    requires id in s.names && MasterEnabled(s, e) && Apart(s, id, Master(e)) && s' == MasterStep(s, e)
    requires e.DoWrite? ==> e.w.id != id
    requires e.HandleReply? ==> e.r.id != id
    ensures SameMail(s, s', id) && SameRow(s, s', id)
  {
    match e
    case CreateServer(_, _) =>
    case Send(i, kind, d) => SendElsewhere(s, s', i, kind, d, id);
    case DoWrite(w) => WriteElsewhere(s, s', w, id);
    case FailWrite(_) =>
    case HandleReply(r) => ReplyElsewhere(s, s', r, id);
  }

  lemma ElsewhereRow(s: Sys, id: ServerId, e: MasterEvent, s': Sys)
    requires OnlyStops(s, id) && MasterEnabled(s, e) && Apart(s, id, Master(e)) && s' == MasterStep(s, e)
    requires e.DoWrite? ==> e.w.id != id
    requires e.HandleReply? ==> e.r.id != id
    ensures RowOk(s', id) && OnlyStopsWritten(s', id)
  {
    MasterGrows(s, e, s');
    SameDocker(s, s', s.names[id]);
    ElsewhereSame(s, id, e, s');
    StaysIdle(s, s', id);
    RowStays(s, s', id);
    WritesSame(s, s', id);
  }

  lemma WritesSame(s: Sys, s': Sys, id: ServerId)
    requires OnlyStopsWritten(s, id) && SameRow(s, s', id)
    ensures OnlyStopsWritten(s', id)
  {
    forall k | s'.writes[Write(id, k)] > 0
      ensures k.Stop?
    {
      assert s'.writes[Write(id, k)] == s.writes[Write(id, k)];
    }
  }

  lemma MasterRowOk(s: Sys, id: ServerId, e: MasterEvent, s': Sys)
    requires OnlyStops(s, id) && MasterEnabled(s, e) && Allowed(s, id, Master(e)) && s' == MasterStep(s, e)
    ensures RowOk(s', id) && OnlyStopsWritten(s', id)
  {
    if e.Send? && e.id == id {
      StopSentRow(s, id, e.delivered, s');
    } else if e.DoWrite? && e.w.id == id {
      StopWrittenRow(s, id, e.w, s');
    } else if e.HandleReply? && e.r.id == id {
      AnswerHandledRow(s, id, e.r, s');
    } else {
      ElsewhereRow(s, id, e, s');
    }
  }

  lemma MasterMessage(s: Sys, id: ServerId, e: MasterEvent, s': Sys, cmd: Command)
    requires OnlyStops(s, id) && MasterEnabled(s, e) && Allowed(s, id, Master(e)) && s' == MasterStep(s, e)
    ensures MessageOk(s', id, cmd)
  {
    assert MessageOk(s, id, cmd);
    MasterGrows(s, e, s');
  }

  lemma MasterStops(s: Sys, id: ServerId, e: MasterEvent, s': Sys)
    requires OnlyStops(s, id) && MasterEnabled(s, e) && Allowed(s, id, Master(e)) && s' == MasterStep(s, e)
    ensures OnlyStops(s', id)
  {
    MasterGrows(s, e, s');
    DockerOkStays(s, s');
    MasterRowOk(s, id, e, s');
    SameDocker(s, s', s.names[id]);
    forall g
      ensures WorkOk(s', id, g)
    {
      assert WorkOk(s, id, g);
      WorkStays(s, s', id, g);
    }
    forall cmd
      ensures MessageOk(s', id, cmd)
    {
      MasterMessage(s, id, e, s', cmd);
    }
    forall r
      ensures AnswerOk(s', id, r)
    {
      assert AnswerOk(s, id, r);
      MasterMail(s, e, s', Command(0, ContainerName(""), Stop), r);
    }
  }

  // ---- The network's steps

  lemma MailRowOk(s: Sys, id: ServerId, e: MailEvent, s': Sys)
    requires OnlyStops(s, id) && MailEnabled(s, e) && s' == MailStep(s, e)
    ensures RowOk(s', id) && OnlyStopsWritten(s', id)
  {
    MailFrame(s, e, s');
    SameDocker(s, s', s.names[id]);
    if e.Reported? { assert WorkOk(s, id, e.g); }
    assert Idle(s, id) ==> Idle(s', id);
    RowStays(s, s', id);
  }

  lemma MailStops(s: Sys, id: ServerId, e: MailEvent, s': Sys)
    requires OnlyStops(s, id) && MailEnabled(s, e) && s' == MailStep(s, e)
    ensures OnlyStops(s', id)
  {
    MailFrame(s, e, s');
    DockerOkStays(s, s');
    MailRowOk(s, id, e, s');
    SameDocker(s, s', s.names[id]);
    forall g
      ensures WorkOk(s', id, g)
    {
      assert WorkOk(s, id, g);
      if e.Receive? && g == e.g {
        assert MessageOk(s, id, e.cmd);
      } else if g in s'.goroutines {
        WorkStays(s, s', id, g);
      }
    }
    forall cmd
      ensures MessageOk(s', id, cmd)
    {
      assert MessageOk(s, id, cmd);
    }
    forall r
      ensures AnswerOk(s', id, r)
    {
      assert AnswerOk(s, id, r);
      if e.Reported? { assert WorkOk(s, id, e.g); }
    }
  }

  // ---- Docker's steps

  lemma WorkIsGoroutine(s: Sys, id: ServerId, g: nat, ret: Return)
    requires OnlyStops(s, id) && DockerEnabled(s, g, ret)
    ensures GoroutineOk(s, g)
  {
    assert WorkOk(s, id, g);
  }

  /** A stop never brings a container up. */
  lemma StopsOnlyLower(s: Sys, g: nat, ret: Return, s': Sys)
    requires DockerEnabled(s, g, ret) && StopWork(s.goroutines[g].pc) && s' == DockerStep(s, g, ret)
    ensures Up(s', s.goroutines[g].name) ==> Up(s, s.goroutines[g].name)
  {
    var n := s.goroutines[g].name;
    if Up(s', n) {
      var c :| c in s'.docker && s'.docker[c].name == n && s'.docker[c].running;
      assert c in s.docker && s.docker[c].name == n && s.docker[c].running;
    }
  }

  lemma UpOnlyFalls(s: Sys, id: ServerId, g: nat, ret: Return, c: nat, s': Sys)
    requires OnlyStops(s, id) && DockerEnabled(s, g, ret) && s' == DockerStep(s, g, ret)
    requires Touches(s, s', c, s.goroutines[g].name)
    ensures Up(s', s.names[id]) ==> Up(s, s.names[id])
    ensures s.goroutines[g].id != id ==> SameUp(s, s', s.names[id])
  {
    assert WorkOk(s, id, g);
    if s.goroutines[g].id == id {
      StopsOnlyLower(s, g, ret, s');
    } else {
      UpElsewhere(s, s', c, s.goroutines[g].name, s.names[id]);
    }
  }

  lemma OwnWorkOk(s: Sys, id: ServerId, g: nat, ret: Return, s': Sys)
    requires OnlyStops(s, id) && DockerEnabled(s, g, ret) && Orderly(s, Docker(g, ret)) && s' == DockerStep(s, g, ret)
    ensures WorkOk(s', id, g)
  {
    assert WorkOk(s, id, g);
    WorkIsGoroutine(s, id, g, ret);
    OwnGoroutineOk(s, g, ret, s');
    if s.goroutines[g].id == id { StopWorkStays(s, g, ret, s'); }
  }

  lemma StopWorkStays(s: Sys, g: nat, ret: Return, s': Sys)
    requires DockerEnabled(s, g, ret) && StopWork(s.goroutines[g].pc) && s' == DockerStep(s, g, ret)
    ensures StopWork(s'.goroutines[g].pc)
  {
  }

  lemma OtherWorkOk(s: Sys, id: ServerId, g: nat, h: nat, c: nat, s': Sys)
    requires OnlyStops(s, id) && s.OnlyMoves(s', g) && h != g && Touches(s, s', c, s.goroutines[g].name)
    requires Up(s', s.names[id]) ==> Up(s, s.names[id])
    ensures WorkOk(s', id, h)
  {
    assert WorkOk(s, id, h);
    if h in s.goroutines && HasContainer(s.goroutines[h].pc) {
      TouchesAt(s, s', c, s.goroutines[g].name, s.goroutines[h].pc.c);
    }
  }

  lemma DockerRowOk(s: Sys, id: ServerId, g: nat, s': Sys)
    requires OnlyStops(s, id) && s.OnlyMoves(s', g)
    requires Up(s', s.names[id]) ==> Up(s, s.names[id])
    requires s.goroutines[g].id != id ==> SameUp(s, s', s.names[id])
    ensures RowOk(s', id)
  {
    assert SameMail(s, s', id) && SameRow(s, s', id);
    StaysIdle(s, s', id);
    RowStays(s, s', id);
  }

  lemma DockerStops(s: Sys, id: ServerId, g: nat, ret: Return, s': Sys)
    requires OnlyStops(s, id) && DockerEnabled(s, g, ret) && Orderly(s, Docker(g, ret)) && s' == DockerStep(s, g, ret)
    ensures OnlyStops(s', id)
  {
    WorkIsGoroutine(s, id, g, ret);
    var c := DockerTouches(s, g, ret, s');
    DockerOkKept(s, s', c, s.goroutines[g].name);
    UpOnlyFalls(s, id, g, ret, c, s');
    DockerRowOk(s, id, g, s');
    forall h
      ensures WorkOk(s', id, h)
    {
      if h == g { OwnWorkOk(s, id, g, ret, s'); } else { OtherWorkOk(s, id, g, h, c, s'); }
    }
    forall cmd
      ensures MessageOk(s', id, cmd)
    {
      assert MessageOk(s, id, cmd);
    }
    forall r
      ensures AnswerOk(s', id, r)
    {
      assert AnswerOk(s, id, r);
    }
  }

  // ---- Runs

  lemma OnlyStopsStays(s: Sys, id: ServerId, e: Event)
    requires OnlyStops(s, id) && Allowed(s, id, e)
    ensures OnlyStops(Step(s, e), id)
  {
    if Enabled(s, e) {
      match e
      case Master(m) => MasterStops(s, id, m, Step(s, e));
      case Mail(l) => MailStops(s, id, l, Step(s, e));
      case Docker(g, ret) => DockerStops(s, id, g, ret, Step(s, e));
    }
  }

  lemma OnlyStopsAgrees(s: Sys, id: ServerId)
    requires OnlyStops(s, id) && !WritePending(s, id)
    ensures Agree(s, id)
  {
  }

  /** However the run goes on: any stop commands, and whatever is apart from the server. */
  ghost predicate GoesOnStopping(es: seq<Event>, more: seq<Event>, id: ServerId) {
    forall i :: 0 <= i < |more| ==> Allowed(Exec(es + more[..i]), id, more[i])
  }

  lemma {:induction false} StopsTogether(es: seq<Event>, more: seq<Event>, id: ServerId)
    requires OnlyStops(Exec(es), id) && GoesOnStopping(es, more, id)
    ensures OnlyStops(Exec(es + more), id)
  {
    if more == [] {
      assert es + more == es;
    } else {
      var k := |more| - 1;
      StoppingFront(es, more, id);
      StopsTogether(es, more[..k], id);
      ExecAfter(es, more);
      OnlyStopsStays(Exec(es + more[..k]), id, more[k]);
    }
  }

  lemma StoppingFront(es: seq<Event>, more: seq<Event>, id: ServerId)
    requires more != [] && GoesOnStopping(es, more, id)
    ensures var k := |more| - 1;
      GoesOnStopping(es, more[..k], id) && Allowed(Exec(es + more[..k]), id, more[k])
  {
    var front := more[..|more| - 1];
    forall i | 0 <= i < |front|
      ensures Allowed(Exec(es + front[..i]), id, front[i])
    {
      assert front[..i] == more[..i];
    }
  }

  lemma ExecAfter(es: seq<Event>, more: seq<Event>)
    requires more != []
    ensures var k := |more| - 1; Exec(es + more) == Step(Exec(es + more[..k]), more[k])
  {
    var k := |more| - 1;
    assert (es + more)[..|es| + k] == es + more[..k];
  }

  /** After an orderly run that left nothing under way for a server, any number of stop commands may
      overlap: whenever the master owes the row no write, it agrees with Docker. */
  lemma OverlappingStopsAgree(es: seq<Event>, more: seq<Event>, id: ServerId)
    requires OrderlyRun(es) && Quiescent(Exec(es), id) && id in Exec(es).rows
    requires GoesOnStopping(es, more, id) && !WritePending(Exec(es + more), id)
    ensures Agree(Exec(es + more), id)
  {
    OrderlyInv(es);
    QuiescentMeansOnlyStops(Exec(es), id);
    StopsTogether(es, more, id);
    OnlyStopsAgrees(Exec(es + more), id);
  }
}
