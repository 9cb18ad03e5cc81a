/** The state of the hub, its connections and the agents table as read off the events alone: who registered,
    what was sent to whom, what was written, who was approved with which token. */
module HubEvents {
  import opened Options
  import opened Outbox
  import opened Hub
  import opened HubSystem
  import opened HubSafety
  import opened HubHistory

  // ---- Connections and the hub goroutine

  /** The name a connection gave when it connected. */
  function NameOf(es: seq<Event>, c: ConnId): Option<Name> {
    if es == [] then None
    else
      var front, e := es[..|es| - 1], es[|es| - 1];
      if !Enabled(Exec(front), e) then NameOf(front, c)
      else
        match e
        case Join(Connect(d, n, _)) => if d == c then Some(n) else NameOf(front, c)
        case Restart => None
        case _ => NameOf(front, c)
  }

  /** What the hub goroutine is at. */
  function Doing(es: seq<Event>): HubPc {
    if es == [] then Idle
    else
      var front, e := es[..|es| - 1], es[|es| - 1];
      if !Enabled(Exec(front), e) then Doing(front)
      else
        match e
        case Life(TakeRegister(c)) => Registering(c)
        case Life(TakeUnregister(c)) => Unregistering(c)
        case Life(DoRegister) => Idle
        case Life(DoUnregister) => Idle
        case Traffic(BroadcastBegin(m)) => Broadcasting(m, Exec(front).hub.agents.Values)
        case Traffic(BroadcastSend(c)) =>
          if Doing(front).Broadcasting? then Broadcasting(Doing(front).m, Doing(front).targets - {c}) else Idle
        case Traffic(BroadcastEnd) => Idle
        case Restart => Idle
        case _ => Doing(front)
  }

  lemma StepName(s: Sys, e: Event, c: ConnId)
    requires Safe(s) && Enabled(s, e) && !e.Restart?
    ensures var s' := Step(s, e);
      if e.Join? && e.j.Connect? && e.j.c == c then c in s'.conns && s'.conns[c].name == e.j.name
      else (c in s'.conns <==> c in s.conns) && (c in s.conns ==> s'.conns[c].name == s.conns[c].name)
  {
    match e
    case Join(j) => JoinName(s, j, c);
    case Life(l) => LifeName(s, l, c);
    case Traffic(m) => TrafficConn(s, m, c);
  }

  lemma JoinName(s: Sys, j: JoinEvent, c: ConnId)
    requires Safe(s) && JoinEnabled(s, j)
    ensures var s' := JoinStep(s, j);
      if j.Connect? && j.c == c then c in s'.conns && s'.conns[c].name == j.name
      else (c in s'.conns <==> c in s.conns) && (c in s.conns ==> s'.conns[c].name == s.conns[c].name)
  {
    if j.Connect? {
    } else {
      JoinFrame(s, j, c);
      if c !in s.conns { JoinNew(s, j, c); }
    }
  }

  lemma LifeName(s: Sys, l: LifeEvent, c: ConnId)
    requires LifeEnabled(s, l)
    ensures c in LifeStep(s, l).conns <==> c in s.conns
    ensures c in s.conns ==> LifeStep(s, l).conns[c].name == s.conns[c].name
  {
  }

  lemma {:induction false} NamesAreExact(es: seq<Event>, c: ConnId)
    ensures c in Exec(es).conns <==> NameOf(es, c).Some?
    ensures c in Exec(es).conns ==> Exec(es).conns[c].name == NameOf(es, c).value
  {
    if es == [] {
    } else {
      var front, e := es[..|es| - 1], es[|es| - 1];
      NamesAreExact(front, c);
      ExecSafe(front);
      if Enabled(Exec(front), e) && !e.Restart? { StepName(Exec(front), e, c); }
    }
  }

  lemma JoinRun(s: Sys, j: JoinEvent)
    requires JoinEnabled(s, j)
    ensures JoinStep(s, j).run == s.run && JoinStep(s, j).senders == s.senders
  {
  }

  lemma {:induction false} RunIsExact(es: seq<Event>)
    ensures Exec(es).run == Doing(es)
  {
    if es == [] {
    } else {
      var front, e := es[..|es| - 1], es[|es| - 1];
      RunIsExact(front);
      if Enabled(Exec(front), e) {
        match e
        case Join(j) => JoinRun(Exec(front), j);
        case Life(l) => LifeRun(Exec(front), l);
        case Traffic(m) => TrafficRun(Exec(front), m);
        case Restart =>
      }
    }
  }

  lemma LifeRun(s: Sys, l: LifeEvent)
    requires LifeEnabled(s, l)
    ensures LifeStep(s, l).run ==
      match l
      case TakeRegister(c) => Registering(c)
      case TakeUnregister(c) => Unregistering(c)
      case DoRegister => Idle
      case DoUnregister => Idle
      case _ => s.run
  {
  }

  lemma TrafficRun(s: Sys, m: TrafficEvent)
    requires TrafficEnabled(s, m)
    ensures TrafficStep(s, m).run ==
      match m
      case BroadcastBegin(x) => Broadcasting(x, s.hub.agents.Values)
      case BroadcastSend(c) => Broadcasting(s.run.m, s.run.targets - {c})
      case BroadcastEnd => Idle
      case _ => s.run
  {
  }

  // ---- The registry

  /** The registrations and unregistrations the hub goroutine carried out. */
  function RegLog(es: seq<Event>): seq<RegEvent> {
    if es == [] then []
    else
      var front, e := es[..|es| - 1], es[|es| - 1];
      if !Enabled(Exec(front), e) then RegLog(front)
      else
        match e
        case Restart => []
        case Life(DoRegister) =>
          (match Doing(front)
           case Registering(c) => RegLog(front) + [Reg(NameOf(front, c).GetOr(Name("")), c)]
           case _ => RegLog(front))
        case Life(DoUnregister) =>
          (match Doing(front)
           case Unregistering(c) => RegLog(front) + [Unreg(NameOf(front, c).GetOr(Name("")), c)]
           case _ => RegLog(front))
        case _ => RegLog(front)
  }

  lemma {:induction false} HistoryIsExact(es: seq<Event>)
    ensures Exec(es).history == RegLog(es)
  {
    if es == [] {
    } else {
      var front, e := es[..|es| - 1], es[|es| - 1];
      var s := Exec(front);
      HistoryIsExact(front);
      RunIsExact(front);
      if Enabled(s, e) {
        match e
        case Join(j) => JoinKeepsRecord(s, j);
        case Life(l) =>
          if l.DoRegister? || l.DoUnregister? { NamesAreExact(front, s.run.c); } else { LifeKeepsRecord(s, l); }
        case Traffic(m) => TrafficKeepsRecord(s, m);
        case Restart =>
      }
    }
  }

  /** In every run, agents[n] is c exactly when, among the registrations and unregistrations carried out
      since the last restart, the last one of that name registered c. */
  lemma RegistryFollowsEvents(es: seq<Event>, n: Name, c: ConnId)
    ensures (n in Exec(es).hub.agents && Exec(es).hub.agents[n] == c) <==>
      exists i :: LastOfName(RegLog(es), n, i) && RegLog(es)[i] == Reg(n, c)
  {
    HistoryIsExact(es);
    RegistryIsExact(es, n, c);
  }

  // ---- Messages

  /** The send of goroutine t that is on its way: to the connection the name stood for when it began. */
  function Begun(es: seq<Event>, t: nat): Option<Sender> {
    if es == [] then None
    else
      var front, e := es[..|es| - 1], es[|es| - 1];
      if !Enabled(Exec(front), e) then Begun(front, t)
      else
        match e
        case Traffic(SendBegin(u, n, m)) =>
          if u == t && n in Exec(front).hub.agents then Some(Sender(Exec(front).hub.agents[n], m)) else Begun(front, t)
        case Traffic(SendFinish(u)) => if u == t then None else Begun(front, t)
        case Restart => None
        case _ => Begun(front, t)
  }

  lemma TrafficSenders(s: Sys, m: TrafficEvent, t: nat)
    requires TrafficEnabled(s, m)
    ensures Lookup(TrafficStep(s, m).senders, t) ==
      match m
      case SendBegin(u, n, x) =>
        if u == t && n in s.hub.agents then Some(Sender(s.hub.agents[n], x)) else Lookup(s.senders, t)
      case SendFinish(u) => if u == t then None else Lookup(s.senders, t)
      case _ => Lookup(s.senders, t)
  {
  }

  lemma LifeSenders(s: Sys, l: LifeEvent)
    requires LifeEnabled(s, l)
    ensures LifeStep(s, l).senders == s.senders
  {
  }

  lemma {:induction false} SendersAreExact(es: seq<Event>, t: nat)
    ensures Lookup(Exec(es).senders, t) == Begun(es, t)
  {
    if es == [] {
    } else {
      var front, e := es[..|es| - 1], es[|es| - 1];
      SendersAreExact(front, t);
      if Enabled(Exec(front), e) {
        match e
        case Join(j) => JoinRun(Exec(front), j);
        case Life(l) => LifeSenders(Exec(front), l);
        case Traffic(m) => TrafficSenders(Exec(front), m, t);
        case Restart =>
      }
    }
  }

  /** The message the event puts into the channel of c: a send completes, or a broadcast reaches c. */
  function Delivers(front: seq<Event>, e: Event, c: ConnId): seq<Message> {
    match e
    case Traffic(SendFinish(t)) =>
      if Begun(front, t).Some? && Begun(front, t).value.c == c then [Begun(front, t).value.m] else []
    case Traffic(BroadcastSend(d)) => if d == c && Doing(front).Broadcasting? then [Doing(front).m] else []
    case _ => []
  }

  predicate Fresh(e: Event, c: ConnId) {
    e.Restart? || (e.Join? && e.j.Connect? && e.j.c == c)
  }

  /** Everything sent to the connection since it connected. */
  function Sent(es: seq<Event>, c: ConnId): seq<Message> {
    if es == [] then []
    else
      var front, e := es[..|es| - 1], es[|es| - 1];
      if !Enabled(Exec(front), e) then Sent(front, c)
      else if Fresh(e, c) then []
      else Sent(front, c) + Delivers(front, e, c)
  }

  /** How many messages its writer took, how many it wrote, and whether it ended. */
  function Takes(es: seq<Event>, c: ConnId): nat {
    if es == [] then 0
    else
      var front, e := es[..|es| - 1], es[|es| - 1];
      if !Enabled(Exec(front), e) then Takes(front, c)
      else if Fresh(e, c) then 0
      else Takes(front, c) + if e == Traffic(WriterTake(c)) then 1 else 0
  }

  function Writes(es: seq<Event>, c: ConnId): nat {
    if es == [] then 0
    else
      var front, e := es[..|es| - 1], es[|es| - 1];
      if !Enabled(Exec(front), e) then Writes(front, c)
      else if Fresh(e, c) then 0
      else Writes(front, c) + if e == Traffic(WriterWrite(c, true)) then 1 else 0
  }

  function Ended(es: seq<Event>, c: ConnId): bool {
    if es == [] then false
    else
      var front, e := es[..|es| - 1], es[|es| - 1];
      if !Enabled(Exec(front), e) then Ended(front, c)
      else if Fresh(e, c) then false
      else Ended(front, c) || Ends(e, c)
  }

  predicate Ends(e: Event, c: ConnId) {
    || e == Traffic(WriterWrite(c, false)) || e == Traffic(WriterPingFails(c))
    || e == Traffic(WriterClose(c, true)) || e == Traffic(WriterClose(c, false))
  }

  /** What one event does to the channel and the writer of c. */
  ghost predicate Advances(b: Outbox, b': Outbox, delivered: seq<Message>, e: Event, c: ConnId) {
    && b'.accepted == b.accepted + delivered
    && |b'.written| == |b.written| + (if e == Traffic(WriterWrite(c, true)) then 1 else 0)
    && |b'.written| + |b'.lost| + |b'.Holding()|
       == |b.written| + |b.lost| + |b.Holding()| + (if e == Traffic(WriterTake(c)) then 1 else 0)
    && b'.exited == (b.exited || Ends(e, c))
  }

  lemma SendAdvances(s: Sys, d: ConnId, m: Message, c: ConnId, e: Event)
    requires d in s.conns && d !in s.hub.closed && c in s.conns && e.Traffic? && (e.m.SendFinish? || e.m.BroadcastSend?)
    ensures c in Send(s, d, m).conns
    ensures Advances(s.conns[c].box, Send(s, d, m).conns[c].box, if c == d then [m] else [], e, c)
  {
  }

  lemma WriterAdvances(s: Sys, m: TrafficEvent, c: ConnId)
    requires TrafficEnabled(s, m) && c in s.conns && !m.SendFinish? && !m.BroadcastSend?
    ensures c in TrafficStep(s, m).conns
    ensures Advances(s.conns[c].box, TrafficStep(s, m).conns[c].box, [], Traffic(m), c)
  {
    match m
    case WriterTake(d) =>
    case WriterWrite(d, ok) =>
    case WriterClose(d, ok) =>
    case WriterPingFails(d) =>
    case _ =>
  }

  lemma JoinBoxes(s: Sys, j: JoinEvent, c: ConnId)
    requires Safe(s) && JoinEnabled(s, j) && c in s.conns
    ensures c in JoinStep(s, j).conns && JoinStep(s, j).conns[c].box == s.conns[c].box
  {
    if j.ApproveTake? { assert PendingOk(s, s.approvers[j.t].name); }
  }

  lemma LifeBoxes(s: Sys, l: LifeEvent, c: ConnId)
    requires LifeEnabled(s, l) && c in s.conns
    ensures c in LifeStep(s, l).conns && LifeStep(s, l).conns[c].box == s.conns[c].box
  {
  }

  lemma TrafficAdvances(front: seq<Event>, m: TrafficEvent, c: ConnId)
    requires TrafficEnabled(Exec(front), m) && c in Exec(front).conns
    ensures var s := Exec(front);
      c in TrafficStep(s, m).conns
      && Advances(s.conns[c].box, TrafficStep(s, m).conns[c].box, Delivers(front, Traffic(m), c), Traffic(m), c)
  {
    var s := Exec(front);
    ExecSafe(front);
    if m.SendFinish? {
      SendersAreExact(front, m.t);
      assert SenderOk(s, m.t) && AgentOk(s, s.conns[s.senders[m.t].c].name);
      SendAdvances(s, s.senders[m.t].c, s.senders[m.t].m, c, Traffic(m));
    } else if m.BroadcastSend? {
      RunIsExact(front);
      assert TargetOk(s, m.c) && AgentOk(s, s.conns[m.c].name);
      SendAdvances(s, m.c, s.run.m, c, Traffic(m));
    } else {
      WriterAdvances(s, m, c);
    }
  }

  ghost predicate BoxFollows(b: Outbox, sent: seq<Message>, takes: nat, writes: nat, ended: bool) {
    && b.accepted == sent && |b.written| == writes && |b.written| + |b.lost| + |b.Holding()| == takes
    && b.exited == ended
  }

  lemma StepBox(front: seq<Event>, e: Event, c: ConnId)
    requires Enabled(Exec(front), e) && !Fresh(e, c) && c in Exec(front).conns
    ensures var s := Exec(front);
      c in Step(s, e).conns && Advances(s.conns[c].box, Step(s, e).conns[c].box, Delivers(front, e, c), e, c)
  {
    var s := Exec(front);
    match e
    case Join(j) =>
      ExecSafe(front);
      JoinBoxes(s, j, c);
    case Life(l) => LifeBoxes(s, l, c);
    case Traffic(m) => TrafficAdvances(front, m, c);
  }

  lemma {:induction false} BoxIsExact(es: seq<Event>, c: ConnId)
    requires c in Exec(es).conns
    ensures BoxFollows(Exec(es).conns[c].box, Sent(es, c), Takes(es, c), Writes(es, c), Ended(es, c))
  {
    var front, e := es[..|es| - 1], es[|es| - 1];
    var s := Exec(front);
    if !Enabled(s, e) {
      BoxIsExact(front, c);
    } else if Fresh(e, c) {
      assert Exec(es).conns[c].box == EMPTY;
    } else {
      ExecSafe(front);
      StepName(s, e, c);
      BoxIsExact(front, c);
      StepBox(front, e, c);
    }
  }

  /** In every run, exactly the messages sent to a connection entered its channel, in order; the ones its
      writer wrote are the first of them, as many as it wrote, and the ones still queued are those it has
      not taken. */
  lemma DeliveryIsExact(es: seq<Event>, c: ConnId)
    requires c in Exec(es).conns
    ensures var b, sent := Exec(es).conns[c].box, Sent(es, c);
      && Writes(es, c) <= Takes(es, c) <= |sent|
      && b.accepted == sent && b.written == sent[..Writes(es, c)] && b.queue == sent[Takes(es, c)..]
      && b.exited == Ended(es, c)
  {
    BoxIsExact(es, c);
    ExecSafe(es);
    assert Fine(Exec(es), c);
    BoxSplits(Exec(es).conns[c].box, c in Exec(es).hub.closed, Sent(es, c), Takes(es, c), Writes(es, c), Ended(es, c));
  }

  lemma BoxSplits(b: Outbox, closed: bool, sent: seq<Message>, takes: nat, writes: nat, ended: bool)
    requires b.Conserves(closed) && BoxFollows(b, sent, takes, writes, ended)
    ensures writes <= takes <= |sent| && b.written == sent[..writes] && b.queue == sent[takes..]
  {
    assert b.accepted == b.written + (b.lost + b.Holding() + b.queue);
    assert b.accepted == (b.written + b.lost + b.Holding()) + b.queue;
  }

  lemma ExecNext(es: seq<Event>, e: Event)
    ensures Exec(es + [e]) == Step(Exec(es), e)
  {
    assert (es + [e])[..|es|] == es;
  }

  /** A send that began completes as soon as fewer than 256 messages are queued, and so does the broadcast to
      a connection. */
  lemma SendsComplete(es: seq<Event>, t: nat, c: ConnId)
    ensures var s := Exec(es);
      Enabled(s, Traffic(SendFinish(t))) <==>
        t in s.senders && s.senders[t].c in s.conns && |s.conns[s.senders[t].c].box.queue| < 256
    ensures var s := Exec(es);
      Enabled(s, Traffic(BroadcastSend(c))) <==>
        s.run.Broadcasting? && c in s.run.targets && c in s.conns && |s.conns[c].box.queue| < 256
  {
    ExecSafe(es);
    var s := Exec(es);
    if t in s.senders { assert SenderOk(s, t) && AgentOk(s, s.conns[s.senders[t].c].name); }
    if s.run.Broadcasting? && c in s.run.targets { assert TargetOk(s, c) && AgentOk(s, s.conns[c].name); }
  }

  /** A send to a name in the registry is begun, to the connection the name stands for; to any other name
      it does nothing.  A broadcast is begun to every connection in the registry. */
  lemma SendsBegin(es: seq<Event>, t: nat, n: Name, m: Message)
    requires t !in Exec(es).senders
    ensures var s, s' := Exec(es), Exec(es + [Traffic(SendBegin(t, n, m))]);
      if n in s.hub.agents then s'.senders == s.senders[t := Sender(s.hub.agents[n], m)] else s' == s
    ensures var s, s' := Exec(es), Exec(es + [Traffic(BroadcastBegin(m))]);
      s.run.Idle? ==>
        s'.run.Broadcasting? && s'.run.m == m && forall c :: c in s'.run.targets <==> c in s.hub.agents.Values
  {
    ExecNext(es, Traffic(SendBegin(t, n, m)));
    ExecNext(es, Traffic(BroadcastBegin(m)));
  }
}
