/** Starting, stopping and deleting game servers across the master's table, messages in flight, the
    agent's goroutines and Docker (master/api_servers.go, master/websocket.go, agent/agent.go,
    agent/docker.go).  The agent handles every message in a goroutine of its own, so commands and
    status messages overtake each other freely and every Docker call is a step of its own. */
module Lifecycle {
  import opened Columns
  import opened Options

  datatype ContainerName = ContainerName(text: string)

  datatype Status = Stopped | Starting | Running | Stopping | Error | Deleted

  /** Statuses only the master writes, while a command is on its way. */
  predicate Transient(st: Status) {
    st.Starting? || st.Stopping?
  }

  datatype Row = Row(name: ContainerName, status: Status, containerId: Option<nat>)

  datatype Kind = Start | Stop | Delete
  datatype Command = Command(id: ServerId, name: ContainerName, kind: Kind)
  datatype Reply = Reply(id: ServerId, status: Status, containerId: Option<nat>)

  /** What an HTTP handler still has to do to the row after it queued the command. */
  datatype Write = Write(id: ServerId, kind: Kind)

  datatype Container = Container(name: ContainerName, running: bool)

  /** The next Docker call of a goroutine. */
  datatype Pc =
    | PullImage
    | FindOld | StopOld(c: nat) | RemoveOld(c: nat)
    | CreateNew | StartNew(c: nat)
    | FindRunning | StopRunning(c: nat)
    | FindAny | StopAny(c: nat) | RemoveAny(c: nat)
    | Report(reply: Reply)
  datatype Goroutine = Goroutine(id: ServerId, name: ContainerName, pc: Pc)

  /** `names` remembers every server ever created; `started` records which containers a start command
      for a server created and then started. */
  datatype Sys = Sys(
    rows: map<ServerId, Row>, names: map<ServerId, ContainerName>,
    commands: multiset<Command>, writes: multiset<Write>, replies: multiset<Reply>,
    goroutines: map<nat, Goroutine>,
    docker: map<nat, Container>, nextContainer: nat,
    created: set<(ServerId, nat)>, started: set<(ServerId, nat)>)
  {
    /** One goroutine gets on with its work; of the rest only Docker may change. */
    predicate OnlyMoves(to: Sys, g: nat) {
      && g in goroutines && g in to.goroutines
      && to.goroutines == goroutines[g := goroutines[g].(pc := to.goroutines[g].pc)]
      && to.rows == rows && to.names == names
      && to.commands == commands && to.writes == writes && to.replies == replies
    }

    function Goto(g: nat, pc: Pc): (r: Sys)
      requires g in goroutines
      ensures OnlyMoves(r, g)
    {
      this.(goroutines := goroutines[g := goroutines[g].(pc := pc)])
    }

    function ReportFrom(g: nat, status: Status, c: Option<nat>): (r: Sys)
      requires g in goroutines
      ensures OnlyMoves(r, g)
    {
      Goto(g, Report(Reply(goroutines[g].id, status, c)))
    }

    function SetRunning(c: nat, on: bool): Sys {
      if c in docker then this.(docker := docker[c := docker[c].(running := on)]) else this
    }
  }

  const INIT := Sys(map[], map[], multiset{}, multiset{}, multiset{}, map[], map[], 0, {}, {})

  datatype MasterEvent =
    | CreateServer(id: ServerId, name: ContainerName)
    | Send(id: ServerId, kind: Kind, delivered: bool)
    | DoWrite(w: Write)
    | FailWrite(w: Write)
    | HandleReply(r: Reply)

  /** The network and the two ends of it on the agent. */
  datatype MailEvent =
    | LoseCommand(cmd: Command)
    | LoseReply(r: Reply)
    | Receive(g: nat, cmd: Command)
    | Reported(g: nat, sent: bool)

  /** How the Docker call a goroutine is at returns. */
  datatype Return =
    | Pulled(ok: bool)
    | Found(c: Option<nat>)
    | StopReturned(ok: bool, running: bool)
    | RemoveReturned(gone: bool)
    | CreateReturned(ok: bool)
    | StartReturned(ok: bool, running: bool)

  datatype Event = Master(m: MasterEvent) | Mail(l: MailEvent) | Docker(g: nat, ret: Return)

  predicate NameInUse(docker: map<nat, Container>, n: ContainerName) {
    exists c :: c in docker && docker[c].name == n
  }

  predicate MasterEnabled(s: Sys, e: MasterEvent) {
    match e
    case CreateServer(id, _) => id !in s.names
    case Send(id, _, _) => id in s.names
    case DoWrite(w) => s.writes[w] > 0
    case FailWrite(w) => s.writes[w] > 0
    case HandleReply(r) => s.replies[r] > 0
  }

  predicate MailEnabled(s: Sys, e: MailEvent) {
    match e
    case LoseCommand(cmd) => s.commands[cmd] > 0
    case LoseReply(r) => s.replies[r] > 0
    case Receive(g, cmd) => s.commands[cmd] > 0 && g !in s.goroutines
    case Reported(g, _) => g in s.goroutines && s.goroutines[g].pc.Report?
  }

  /** Docker refuses to create a container under a name in use. */
  predicate DockerEnabled(s: Sys, g: nat, ret: Return) {
    && g in s.goroutines
    && var pc := s.goroutines[g].pc;
       match ret
       case Pulled(_) => pc.PullImage?
       case Found(_) => Finding(pc)
       case StopReturned(ok, _) => StopsAt(pc) && (ok ==> pc.c in s.docker)
       case RemoveReturned(_) => Removing(pc)
       case CreateReturned(ok) => pc.CreateNew? && (ok ==> !NameInUse(s.docker, s.goroutines[g].name))
       case StartReturned(ok, _) => pc.StartNew? && (ok ==> pc.c in s.docker)
  }

  predicate Enabled(s: Sys, e: Event) {
    match e
    case Master(m) => MasterEnabled(s, m)
    case Mail(l) => MailEnabled(s, l)
    case Docker(g, ret) => DockerEnabled(s, g, ret)
  }

  predicate Finding(pc: Pc) {
    pc.FindOld? || pc.FindRunning? || pc.FindAny?
  }

  predicate Removing(pc: Pc) {
    pc.RemoveOld? || pc.RemoveAny?
  }

  predicate StopsAt(pc: Pc) {
    pc.StopOld? || pc.StopRunning? || pc.StopAny?
  }

  /** The handler has read the name from the row, which may be gone by now; a name never changes.
      startServer and stopServer first queue the command and then update the row; without a connected
      agent they do nothing.  deleteServer drops the row either way. */
  function SendCommand(s: Sys, id: ServerId, kind: Kind, delivered: bool): (r: Sys)
    requires id in s.names
    ensures r == s.(commands := r.commands, writes := r.writes)
  {
    var s1 := if delivered then s.(commands := s.commands + multiset{Command(id, s.names[id], kind)}) else s;
    if delivered || kind.Delete? then s1.(writes := s1.writes + multiset{Write(id, kind)}) else s1
  }

  function WriteRow(s: Sys, w: Write): (r: Sys)
    ensures r == s.(rows := r.rows, writes := s.writes - multiset{w})
  {
    var s1 := s.(writes := s.writes - multiset{w});
    if w.id !in s.rows then s1
    else
      match w.kind
      case Start => s1.(rows := s.rows[w.id := s.rows[w.id].(status := Starting)])
      case Stop => s1.(rows := s.rows[w.id := s.rows[w.id].(status := Stopping)])
      case Delete => s1.(rows := s.rows - {w.id})
  }

  /** The status message updates the status, and the container id when it carries one. */
  function UpdateRow(s: Sys, r: Reply): (s': Sys)
    ensures s' == s.(rows := s'.rows, replies := s.replies - multiset{r})
  {
    var s1 := s.(replies := s.replies - multiset{r});
    if r.id !in s.rows then s1
    else
      var row := s.rows[r.id];
      s1.(rows := s.rows[r.id := row.(status := r.status,
                                      containerId := if r.containerId.Some? then r.containerId else row.containerId)])
  }

  function FirstCall(kind: Kind): Pc {
    match kind
    case Start => PullImage
    case Stop => FindRunning
    case Delete => FindAny
  }

  function AfterFind(s: Sys, g: nat, c: Option<nat>): (r: Sys)
    requires g in s.goroutines && Finding(s.goroutines[g].pc)
    ensures s.OnlyMoves(r, g)
  {
    match s.goroutines[g].pc
    case FindOld => s.Goto(g, if c.Some? then StopOld(c.value) else CreateNew)
    case FindRunning => if c.Some? then s.Goto(g, StopRunning(c.value)) else s.ReportFrom(g, Error, None)
    case FindAny => if c.Some? then s.Goto(g, StopAny(c.value)) else s.ReportFrom(g, Deleted, None)
  }

  /** A stop that succeeds leaves the container stopped; after an error it may be so or as it was. */
  function AfterStop(s: Sys, g: nat, ok: bool, running: bool): (r: Sys)
    requires g in s.goroutines && StopsAt(s.goroutines[g].pc)
    ensures s.OnlyMoves(r, g)
  {
    var c := s.goroutines[g].pc.c;
    var s1 := s.SetRunning(c, !ok && running && c in s.docker && s.docker[c].running);
    match s.goroutines[g].pc
    case StopOld(_) => s1.Goto(g, RemoveOld(c))
    case StopRunning(_) => s1.ReportFrom(g, if ok then Stopped else Error, None)
    case StopAny(_) => s1.Goto(g, RemoveAny(c))
  }

  function AfterRemove(s: Sys, g: nat, gone: bool): (r: Sys)
    requires g in s.goroutines && Removing(s.goroutines[g].pc)
    ensures s.OnlyMoves(r, g)
  {
    var pc := s.goroutines[g].pc;
    var s1 := if gone then s.(docker := s.docker - {pc.c}) else s;
    if pc.RemoveOld? then s1.Goto(g, CreateNew) else s1.ReportFrom(g, Deleted, None)
  }

  function AfterCreate(s: Sys, g: nat, ok: bool): (r: Sys)
    requires g in s.goroutines
    ensures s.OnlyMoves(r, g)
  {
    if !ok then s.ReportFrom(g, Error, None)
    else
      var c := s.nextContainer;
      s.(docker := s.docker[c := Container(s.goroutines[g].name, false)], nextContainer := c + 1,
         created := s.created + {(s.goroutines[g].id, c)}).Goto(g, StartNew(c))
  }

  function AfterStart(s: Sys, g: nat, ok: bool, running: bool): (r: Sys)
    requires g in s.goroutines && s.goroutines[g].pc.StartNew?
    ensures s.OnlyMoves(r, g)
  {
    var c := s.goroutines[g].pc.c;
    if ok then s.SetRunning(c, true).(started := s.started + {(s.goroutines[g].id, c)}).ReportFrom(g, Running, Some(c))
    else s.SetRunning(c, running).ReportFrom(g, Error, None)
  }

  function MasterStep(s: Sys, e: MasterEvent): Sys
    requires MasterEnabled(s, e)
  {
    match e
    case CreateServer(id, name) => s.(rows := s.rows[id := Row(name, Stopped, None)], names := s.names[id := name])
    case Send(id, kind, delivered) => SendCommand(s, id, kind, delivered)
    case DoWrite(w) => WriteRow(s, w)
    case FailWrite(w) => s.(writes := s.writes - multiset{w})
    case HandleReply(r) => UpdateRow(s, r)
  }

  /** The agent's sendMessage drops a report when its queue is full. */
  function MailStep(s: Sys, e: MailEvent): Sys
    requires MailEnabled(s, e)
  {
    match e
    case LoseCommand(cmd) => s.(commands := s.commands - multiset{cmd})
    case LoseReply(r) => s.(replies := s.replies - multiset{r})
    case Receive(g, cmd) =>
      s.(commands := s.commands - multiset{cmd},
         goroutines := s.goroutines[g := Goroutine(cmd.id, cmd.name, FirstCall(cmd.kind))])
    case Reported(g, sent) =>
      var r := s.goroutines[g].pc.reply;
      s.(goroutines := s.goroutines - {g}, replies := if sent then s.replies + multiset{r} else s.replies)
  }

  function DockerStep(s: Sys, g: nat, ret: Return): (r: Sys)
    requires DockerEnabled(s, g, ret)
    ensures s.OnlyMoves(r, g)
  {
    match ret
    case Pulled(ok) => if ok then s.Goto(g, FindOld) else s.ReportFrom(g, Error, None)
    case Found(c) => AfterFind(s, g, c)
    case StopReturned(ok, running) => AfterStop(s, g, ok, running)
    case RemoveReturned(gone) => AfterRemove(s, g, gone)
    case CreateReturned(ok) => AfterCreate(s, g, ok)
    case StartReturned(ok, running) => AfterStart(s, g, ok, running)
  }

  function Step(s: Sys, e: Event): Sys {
    if !Enabled(s, e) then s
    else
      match e
      case Master(m) => MasterStep(s, m)
      case Mail(l) => MailStep(s, l)
      case Docker(g, ret) => DockerStep(s, g, ret)
  }

  function Exec(es: seq<Event>): Sys {
    if es == [] then INIT else Step(Exec(es[..|es| - 1]), es[|es| - 1])
  }
}
