/** What the agent answers, by what happened: each goroutine's place and answer follow from the command
    it received and the last thing Docker returned to it, in every run. */
module LifecycleAnswers {
  import opened Columns
  import opened Options
  import opened Lifecycle
  import opened LifecycleAgreement

  // ---- Read off the events

  /** The command the goroutine received and has not reported on. */
  function Handling(es: seq<Event>, g: nat): Option<Command> {
    if es == [] then None
    else
      var front, e := es[..|es| - 1], es[|es| - 1];
      if !Enabled(Exec(front), e) || !e.Mail? then Handling(front, g)
      else
        match e.l
        case Receive(h, cmd) => if h == g then Some(cmd) else Handling(front, g)
        case Reported(h, _) => if h == g then None else Handling(front, g)
        case _ => Handling(front, g)
  }

  /** What Docker returned last since then. */
  function LastReturn(es: seq<Event>, g: nat): Option<Return> {
    if es == [] then None
    else
      var front, e := es[..|es| - 1], es[|es| - 1];
      if !Enabled(Exec(front), e) then LastReturn(front, g)
      else
        match e
        case Docker(h, ret) => if h == g then Some(ret) else LastReturn(front, g)
        case Mail(Receive(h, _)) => if h == g then None else LastReturn(front, g)
        case _ => LastReturn(front, g)
  }

  // ---- Where a goroutine is

  predicate DuringStart(last: Option<Return>, w: Goroutine) {
    match last
    case None => w.pc == PullImage
    case Some(Pulled(ok)) => if ok then w.pc == FindOld else Reports(w, Error)
    case Some(Found(c)) => w.pc == if c.Some? then StopOld(c.value) else CreateNew
    case Some(StopReturned(_, _)) => w.pc.RemoveOld?
    case Some(RemoveReturned(_)) => w.pc == CreateNew
    case Some(CreateReturned(ok)) => if ok then w.pc.StartNew? else Reports(w, Error)
    case Some(StartReturned(ok, _)) => Reports(w, if ok then Running else Error)
  }

  predicate DuringStop(last: Option<Return>, w: Goroutine) {
    match last
    case None => w.pc == FindRunning
    case Some(Found(c)) => if c.Some? then w.pc == StopRunning(c.value) else Reports(w, Error)
    case Some(StopReturned(ok, _)) => Reports(w, if ok then Stopped else Error)
    case _ => false
  }

  predicate DuringDelete(last: Option<Return>, w: Goroutine) {
    match last
    case None => w.pc == FindAny
    case Some(Found(c)) => if c.Some? then w.pc == StopAny(c.value) else Reports(w, Deleted)
    case Some(StopReturned(_, _)) => w.pc.RemoveAny?
    case Some(RemoveReturned(_)) => Reports(w, Deleted)
    case _ => false
  }

  /** About to answer, for the server of the command; only `running` comes with a container id. */
  predicate Reports(w: Goroutine, status: Status) {
    && w.pc.Report? && w.pc.reply.id == w.id && w.pc.reply.status == status
    && (w.pc.reply.containerId.Some? <==> status.Running?)
  }

  predicate InPlace(cmd: Command, last: Option<Return>, w: Goroutine) {
    && w.id == cmd.id && w.name == cmd.name
    && match cmd.kind
       case Start => DuringStart(last, w)
       case Stop => DuringStop(last, w)
       case Delete => DuringDelete(last, w)
  }

  lemma StartReturns(s: Sys, g: nat, ret: Return, last: Option<Return>)
    requires DockerEnabled(s, g, ret) && DuringStart(last, s.goroutines[g])
    ensures DuringStart(Some(ret), DockerStep(s, g, ret).goroutines[g])
  {
  }

  lemma StopReturns(s: Sys, g: nat, ret: Return, last: Option<Return>)
    requires DockerEnabled(s, g, ret) && DuringStop(last, s.goroutines[g])
    ensures DuringStop(Some(ret), DockerStep(s, g, ret).goroutines[g])
  {
  }

  lemma DeleteReturns(s: Sys, g: nat, ret: Return, last: Option<Return>)
    requires DockerEnabled(s, g, ret) && DuringDelete(last, s.goroutines[g])
    ensures DuringDelete(Some(ret), DockerStep(s, g, ret).goroutines[g])
  {
  }

  lemma CallReturns(s: Sys, g: nat, ret: Return, cmd: Command, last: Option<Return>)
    requires DockerEnabled(s, g, ret) && InPlace(cmd, last, s.goroutines[g])
    ensures InPlace(cmd, Some(ret), DockerStep(s, g, ret).goroutines[g])
  {
    match cmd.kind
    case Start => StartReturns(s, g, ret, last);
    case Stop => StopReturns(s, g, ret, last);
    case Delete => DeleteReturns(s, g, ret, last);
  }

  ghost predicate Placed(s: Sys, g: nat, handling: Option<Command>, last: Option<Return>) {
    && (g in s.goroutines <==> handling.Some?)
    && (g in s.goroutines ==> InPlace(handling.value, last, s.goroutines[g]))
  }

  lemma MailPlaced(s: Sys, l: MailEvent, s': Sys, g: nat, handling: Option<Command>, last: Option<Return>)
    requires MailEnabled(s, l) && s' == MailStep(s, l) && Placed(s, g, handling, last)
    ensures
      match l
      case Receive(h, cmd) => if h == g then Placed(s', g, Some(cmd), None) else Placed(s', g, handling, last)
      case Reported(h, _) => if h == g then Placed(s', g, None, last) else Placed(s', g, handling, last)
      case _ => Placed(s', g, handling, last)
  {
  }

  lemma {:induction false} ExecPlaced(es: seq<Event>, g: nat)
    ensures Placed(Exec(es), g, Handling(es, g), LastReturn(es, g))
  {
    if es == [] {
    } else {
      var front, e := es[..|es| - 1], es[|es| - 1];
      var s := Exec(front);
      ExecPlaced(front, g);
      if Enabled(s, e) {
        match e
        case Master(m) => MasterGoroutines(s, m);
        case Mail(l) => MailPlaced(s, l, Step(s, e), g, Handling(front, g), LastReturn(front, g));
        case Docker(h, ret) =>
          if h == g { CallReturns(s, g, ret, Handling(front, g).value, LastReturn(front, g)); }
      }
    }
  }

  lemma MasterGoroutines(s: Sys, e: MasterEvent)
    requires MasterEnabled(s, e)
    ensures MasterStep(s, e).goroutines == s.goroutines
  {
  }

  // ---- The answers

  predicate StartFailed(last: Option<Return>) {
    || last == Some(Pulled(false)) || last == Some(CreateReturned(false))
    || last == Some(StartReturned(false, true)) || last == Some(StartReturned(false, false))
  }

  predicate StartWorked(last: Option<Return>) {
    last == Some(StartReturned(true, true)) || last == Some(StartReturned(true, false))
  }

  lemma StartPlace(last: Option<Return>, w: Goroutine)
    requires DuringStart(last, w)
    ensures w.pc.Report? <==> StartFailed(last) || StartWorked(last)
    ensures w.pc.Report? ==> (w.pc.reply.status == Running <==> StartWorked(last))
    ensures w.pc.Report? ==> (w.pc.reply.status == Error <==> StartFailed(last))
    ensures w.pc.Report? ==> w.pc.reply.id == w.id && (w.pc.reply.containerId.Some? <==> StartWorked(last))
  {
  }

  lemma PlaceAnswer(cmd: Command, last: Option<Return>, w: Goroutine)
    requires InPlace(cmd, last, w) && w.pc.Report?
    ensures !Transient(w.pc.reply.status) && w.pc.reply.id == cmd.id
  {
  }

  /** In every run, a goroutine that handles a start command is about to answer exactly when Docker's last
      return to it was a failing pull, a failing create or a start; it says `running` exactly after a
      start that succeeded, and `error` exactly after the others. */
  lemma StartAnswers(es: seq<Event>, g: nat)
    requires g in Exec(es).goroutines && Handling(es, g).Some? && Handling(es, g).value.kind.Start?
    ensures var last, pc := LastReturn(es, g), Exec(es).goroutines[g].pc;
      && (pc.Report? <==> StartFailed(last) || StartWorked(last))
      && (pc.Report? ==>
            && pc.reply.id == Handling(es, g).value.id
            && (pc.reply.status == Running <==> StartWorked(last)) && (pc.reply.status == Error <==> StartFailed(last))
            && (pc.reply.containerId.Some? <==> StartWorked(last)))
  {
    ExecPlaced(es, g);
    StartPlace(LastReturn(es, g), Exec(es).goroutines[g]);
  }

  /** The same for stop: `stopped` exactly after a stop that succeeded, `error` exactly after one that
      failed or when no container was found. */
  lemma StopAnswers(es: seq<Event>, g: nat)
    requires g in Exec(es).goroutines && Handling(es, g).Some? && Handling(es, g).value.kind.Stop?
    ensures var last, pc := LastReturn(es, g), Exec(es).goroutines[g].pc;
      var failed := last == Some(Found(None)) || last == Some(StopReturned(false, true))
                    || last == Some(StopReturned(false, false));
      var stopped := last == Some(StopReturned(true, true)) || last == Some(StopReturned(true, false));
      && (pc.Report? <==> failed || stopped)
      && (pc.Report? ==> pc.reply.id == Handling(es, g).value.id && pc.reply.containerId.None?)
      && (pc.Report? ==> (pc.reply.status == Stopped <==> stopped) && (pc.reply.status == Error <==> failed))
  {
    ExecPlaced(es, g);
  }

  /** And for delete: `deleted`, once no container was found or the removal returned, well or not. */
  lemma DeleteAnswers(es: seq<Event>, g: nat)
    requires g in Exec(es).goroutines && Handling(es, g).Some? && Handling(es, g).value.kind.Delete?
    ensures var last, pc := LastReturn(es, g), Exec(es).goroutines[g].pc;
      && (pc.Report? <==>
            last == Some(Found(None)) || last == Some(RemoveReturned(true)) || last == Some(RemoveReturned(false)))
      && (pc.Report? ==> pc.reply == Reply(Handling(es, g).value.id, Deleted, None))
  {
    ExecPlaced(es, g);
  }

  /** Event i is a goroutine's report that got into the queue. */
  ghost predicate ReportedAt(es: seq<Event>, i: nat, r: Reply) {
    && i < |es| && es[i].Mail? && es[i].l.Reported? && es[i].l.sent
    && es[i].l.g in Exec(es[..i]).goroutines && Exec(es[..i]).goroutines[es[i].l.g].pc == Report(r)
  }

  lemma RepliesGrow(s: Sys, e: Event, r: Reply)
    requires Enabled(s, e) && Step(s, e).replies[r] > 0 && s.replies[r] == 0
    ensures e.Mail? && e.l.Reported? && e.l.sent && e.l.g in s.goroutines && s.goroutines[e.l.g].pc == Report(r)
  {
    match e
    case Master(m) => MasterMail(s, m, Step(s, e), Command(0, ContainerName(""), Stop), r);
    case Mail(l) =>
    case Docker(_, _) =>
  }

  /** Every answer on its way was reported by a goroutine. */
  lemma {:induction false} AnswersWereReported(es: seq<Event>, r: Reply)
    requires Exec(es).replies[r] > 0
    ensures exists i :: ReportedAt(es, i, r)
  {
    var k := |es| - 1;
    var front := es[..k];
    if Exec(front).replies[r] > 0 {
      AnswersWereReported(front, r);
      var i: nat :| ReportedAt(front, i, r);
      assert front[..i] == es[..i];
      assert ReportedAt(es, i, r);
    } else {
      RepliesGrow(Exec(front), es[k], r);
      assert ReportedAt(es, k, r);
    }
  }

  /** No answer ever says that something is under way. */
  lemma NoTransientAnswers(es: seq<Event>, r: Reply, g: nat)
    ensures Exec(es).replies[r] > 0 ==> !Transient(r.status)
    ensures g in Exec(es).goroutines && Exec(es).goroutines[g].pc.Report? ==>
      !Transient(Exec(es).goroutines[g].pc.reply.status)
  {
    if g in Exec(es).goroutines && Exec(es).goroutines[g].pc.Report? { GoroutineAnswer(es, g); }
    if Exec(es).replies[r] > 0 {
      AnswersWereReported(es, r);
      var i: nat :| ReportedAt(es, i, r);
      GoroutineAnswer(es[..i], es[i].l.g);
    }
  }

  lemma GoroutineAnswer(es: seq<Event>, g: nat)
    requires g in Exec(es).goroutines && Exec(es).goroutines[g].pc.Report?
    ensures var w := Exec(es).goroutines[g]; !Transient(w.pc.reply.status) && w.pc.reply.id == w.id
  {
    ExecPlaced(es, g);
    PlaceAnswer(Handling(es, g).value, LastReturn(es, g), Exec(es).goroutines[g]);
  }

  lemma ExecNext(es: seq<Event>, e: Event)
    ensures Exec(es + [e]) == Step(Exec(es), e)
  {
    assert (es + [e])[..|es|] == es;
  }

  /** In every run, handling an answer leaves the row with the answer's status, which is not a transient
      one, and with its container id if it has one; every other row stays. */
  lemma HandledRow(es: seq<Event>, r: Reply)
    requires Exec(es).replies[r] > 0 && r.id in Exec(es).rows
    ensures var row, rows := Exec(es).rows[r.id], Exec(es + [Master(HandleReply(r))]).rows;
      && r.id in rows && rows == Exec(es).rows[r.id := rows[r.id]] && rows[r.id].name == row.name
      && rows[r.id].status == r.status && !Transient(rows[r.id].status)
      && rows[r.id].containerId == (if r.containerId == None then row.containerId else r.containerId)
  {
    NoTransientAnswers(es, r, 0);
    ExecNext(es, Master(HandleReply(r)));
  }

  // ---- Nobody is left starting or stopping

  predicate OwesStatus(s: Sys, id: ServerId) {
    s.writes[Write(id, Start)] > 0 || s.writes[Write(id, Stop)] > 0
  }

  /** Nothing is lost, and an answer is handled only after the master's own write. */
  ghost predicate Smooth(s: Sys, e: Event) {
    match e
    case Mail(LoseCommand(_)) => false
    case Mail(LoseReply(_)) => false
    case Mail(Reported(_, sent)) => sent
    case Master(HandleReply(r)) => !OwesStatus(s, r.id)
    case _ => true
  }

  ghost predicate SmoothRun(es: seq<Event>) {
    forall i :: 0 <= i < |es| ==> Smooth(Exec(es[..i]), es[i])
  }

  ghost predicate Moving(s: Sys, id: ServerId) {
    (id in s.rows && Transient(s.rows[id].status)) || OwesStatus(s, id) ==> !Idle(s, id)
  }

  lemma IdleBefore(s: Sys, s': Sys, id: ServerId)
    requires SameMail(s, s', id) && Idle(s', id)
    ensures Idle(s, id)
  {
    forall cmd: Command | cmd.id == id
      ensures s.commands[cmd] == 0
    {
      assert s'.commands[cmd] == s.commands[cmd];
    }
    forall r: Reply | r.id == id
      ensures s.replies[r] == 0
    {
      assert s'.replies[r] == s.replies[r];
    }
  }

  /** The row gets no transient status and no write, and the traffic is the same. */
  lemma MovingStays(s: Sys, s': Sys, id: ServerId)
    requires Moving(s, id) && SameMail(s, s', id)
    requires id in s'.rows && Transient(s'.rows[id].status) ==>
        (id in s.rows && Transient(s.rows[id].status)) || OwesStatus(s, id)
    requires OwesStatus(s', id) ==> OwesStatus(s, id)
    ensures Moving(s', id)
  {
    if Idle(s', id) { IdleBefore(s, s', id); }
  }

  lemma SendMoving(s: Sys, s': Sys, id: ServerId, kind: Kind, delivered: bool)
    requires id in s.names && Moving(s, id) && s' == SendCommand(s, id, kind, delivered)
    ensures Moving(s', id)
  {
    if delivered {
      assert s'.commands[Command(id, s.names[id], kind)] > 0;
    } else {
      MovingStays(s, s', id);
    }
  }

  lemma WriteMoving(s: Sys, s': Sys, w: Write, id: ServerId)
    requires s.writes[w] > 0 && Moving(s, id) && s' == WriteRow(s, w)
    ensures Moving(s', id)
  {
    if w.id == id { assert w == Write(id, w.kind); }
    MovingStays(s, s', id);
  }

  lemma HandleMoving(s: Sys, s': Sys, r: Reply, id: ServerId)
    requires s.replies[r] > 0 && !Transient(r.status) && !OwesStatus(s, r.id) && Moving(s, id) && s' == UpdateRow(s, r)
    ensures Moving(s', id)
  {
    if r.id != id {
      ReplyElsewhere(s, s', r, id);
      MovingStays(s, s', id);
    }
  }

  lemma MasterMoving(s: Sys, e: MasterEvent, s': Sys, id: ServerId)
    requires MasterEnabled(s, e) && Smooth(s, Master(e)) && s' == MasterStep(s, e) && Moving(s, id)
    requires e.HandleReply? ==> !Transient(e.r.status)
    ensures Moving(s', id)
  {
    match e
    case CreateServer(_, _) => MovingStays(s, s', id);
    case Send(i, kind, d) =>
      if i != id {
        SendElsewhere(s, s', i, kind, d, id);
        MovingStays(s, s', id);
      } else {
        SendMoving(s, s', id, kind, d);
      }
    case DoWrite(w) => WriteMoving(s, s', w, id);
    case FailWrite(_) => MovingStays(s, s', id);
    case HandleReply(r) => HandleMoving(s, s', r, id);
  }

  /** The network moves work on but never ends it. */
  lemma MailMoving(s: Sys, l: MailEvent, s': Sys, id: ServerId)
    requires MailEnabled(s, l) && Smooth(s, Mail(l)) && s' == MailStep(s, l) && Moving(s, id)
    requires l.Reported? ==> s.goroutines[l.g].pc.reply.id == s.goroutines[l.g].id
    ensures Moving(s', id)
  {
    MailFrame(s, l, s');
    match l
    case Receive(g, cmd) =>
      if cmd.id == id {
        assert g in s'.goroutines && s'.goroutines[g].id == id;
      } else {
        ReceiveMoving(s, g, cmd, s', id);
      }
    case Reported(g, _) =>
      var r := s.goroutines[g].pc.reply;
      if r.id == id { assert s'.replies[r] > 0; } else { ReportedMoving(s, g, s', id); }
  }

  lemma ReceiveMoving(s: Sys, g: nat, cmd: Command, s': Sys, id: ServerId)
    requires MailEnabled(s, Receive(g, cmd)) && s' == MailStep(s, Receive(g, cmd)) && Moving(s, id) && cmd.id != id
    ensures Moving(s', id)
  {
    ReceiveElsewhere(s, g, cmd, s', id);
    MovingStays(s, s', id);
  }

  lemma ReportedMoving(s: Sys, g: nat, s': Sys, id: ServerId)
    requires MailEnabled(s, Reported(g, true)) && s' == MailStep(s, Reported(g, true)) && Moving(s, id)
    requires s.goroutines[g].pc.reply.id == s.goroutines[g].id != id
    ensures Moving(s', id)
  {
    assert SameMail(s, s', id);
    MovingStays(s, s', id);
  }

  lemma DockerMoving(s: Sys, g: nat, s': Sys, id: ServerId)
    requires s.OnlyMoves(s', g) && Moving(s, id)
    ensures Moving(s', id)
  {
    assert SameMail(s, s', id);
    MovingStays(s, s', id);
  }

  lemma StepMoving(es: seq<Event>, e: Event, id: ServerId)
    requires Moving(Exec(es), id) && Smooth(Exec(es), e)
    ensures Moving(Step(Exec(es), e), id)
  {
    var s := Exec(es);
    if Enabled(s, e) {
      match e
      case Master(m) =>
        if m.HandleReply? { NoTransientAnswers(es, m.r, 0); }
        MasterMoving(s, m, Step(s, e), id);
      case Mail(l) =>
        if l.Reported? { GoroutineAnswer(es, l.g); }
        MailMoving(s, l, Step(s, e), id);
      case Docker(g, ret) => DockerMoving(s, g, Step(s, e), id);
    }
  }

  lemma SmoothFront(es: seq<Event>)
    requires es != [] && SmoothRun(es)
    ensures SmoothRun(es[..|es| - 1]) && Smooth(Exec(es[..|es| - 1]), es[|es| - 1])
  {
    var front := es[..|es| - 1];
    forall i | 0 <= i < |front|
      ensures Smooth(Exec(front[..i]), front[i])
    {
      assert front[..i] == es[..i];
    }
  }

  lemma {:induction false} ExecMoving(es: seq<Event>, id: ServerId)
    requires SmoothRun(es)
    ensures Moving(Exec(es), id)
  {
    if es == [] {
    } else {
      SmoothFront(es);
      ExecMoving(es[..|es| - 1], id);
      StepMoving(es[..|es| - 1], es[|es| - 1], id);
    }
  }

  /** When nothing is lost and each answer is handled after the master's own write, then in every run,
      however many commands overlap, a row says `starting` or `stopping` only while a command, a
      goroutine or an answer of its server is on its way. */
  lemma NobodyIsStuck(es: seq<Event>, id: ServerId)
    requires SmoothRun(es) && Idle(Exec(es), id) && id in Exec(es).rows
    ensures Exec(es).rows[id].status !in {Starting, Stopping}
  {
    ExecMoving(es, id);
  }

  /** With commands in order as well, a row at rest is right: it says running and its container is up, or
      stopped and none is up, or that something failed or was deleted. */
  lemma RestingRows(es: seq<Event>, id: ServerId)
    requires SmoothRun(es) && OrderlyRun(es) && Quiescent(Exec(es), id) && id in Exec(es).rows
    ensures var s := Exec(es);
      var row := s.rows[id];
      match row.status
      case Running => UpAs(s, row.name, row.containerId)
      case Stopped => !Up(s, row.name)
      case Error => true
      case Deleted => true
      case _ => false
  {
    NobodyIsStuck(es, id);
    QuiescentServersAgree(es, id);
  }
}
