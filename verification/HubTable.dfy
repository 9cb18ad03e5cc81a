/** The agents table and the pending table as read off the events alone, and what an approval puts on the
    wire (master/db.go, master/websocket.go, master/api_agents.go). */
module HubTable {
  import opened Options
  import opened Outbox
  import opened Hub
  import opened HubSystem
  import opened HubSafety
  import opened HubEvents

  // ---- Approvals

  /** The approvals of the table's whole life, restarts included. */
  function Approvals(es: seq<Event>): seq<(Name, Token)> {
    if es == [] then []
    else
      var front, e := es[..|es| - 1], es[|es| - 1];
      if !Enabled(Exec(front), e) then Approvals(front)
      else
        match e
        case Join(ApproveRow(_, n, token)) => Approvals(front) + [(n, token)]
        case _ => Approvals(front)
  }

  lemma JoinIssued(s: Sys, j: JoinEvent)
    requires JoinEnabled(s, j)
    ensures JoinStep(s, j).issued == if j.ApproveRow? then s.issued + [(j.name, j.token)] else s.issued
  {
  }

  lemma LifeIssued(s: Sys, l: LifeEvent)
    requires LifeEnabled(s, l)
    ensures LifeStep(s, l).issued == s.issued && LifeStep(s, l).approvers == s.approvers
    ensures LifeStep(s, l).hub.pending == s.hub.pending
  {
  }

  lemma {:induction false} ApprovalsAreExact(es: seq<Event>)
    ensures Exec(es).issued == Approvals(es)
  {
    if es == [] {
    } else {
      var front, e := es[..|es| - 1], es[|es| - 1];
      ApprovalsAreExact(front);
      if Enabled(Exec(front), e) {
        match e
        case Join(j) => JoinIssued(Exec(front), j);
        case Life(l) => LifeIssued(Exec(front), l);
        case Traffic(m) => TrafficFrame(Exec(front), m, 0);
        case Restart =>
      }
    }
  }

  /** The approval request t has written the row and not yet looked for a pending connection. */
  function Approving(es: seq<Event>, t: nat): Option<Approver> {
    if es == [] then None
    else
      var front, e := es[..|es| - 1], es[|es| - 1];
      if !Enabled(Exec(front), e) then Approving(front, t)
      else
        match e
        case Join(ApproveRow(u, n, token)) => if u == t then Some(Approver(n, token)) else Approving(front, t)
        case Join(ApproveTake(u)) => if u == t then None else Approving(front, t)
        case Restart => None
        case _ => Approving(front, t)
  }

  lemma JoinApprovers(s: Sys, j: JoinEvent, t: nat)
    requires JoinEnabled(s, j)
    ensures Lookup(JoinStep(s, j).approvers, t) ==
      match j
      case ApproveRow(u, n, token) => if u == t then Some(Approver(n, token)) else Lookup(s.approvers, t)
      case ApproveTake(u) => if u == t then None else Lookup(s.approvers, t)
      case _ => Lookup(s.approvers, t)
  {
  }

  lemma {:induction false} ApproversAreExact(es: seq<Event>, t: nat)
    ensures Lookup(Exec(es).approvers, t) == Approving(es, t)
  {
    if es == [] {
    } else {
      var front, e := es[..|es| - 1], es[|es| - 1];
      ApproversAreExact(front, t);
      if Enabled(Exec(front), e) {
        match e
        case Join(j) => JoinApprovers(Exec(front), j, t);
        case Life(l) => LifeIssued(Exec(front), l);
        case Traffic(m) => TrafficFrame(Exec(front), m, 0);
        case Restart =>
      }
    }
  }

  // ---- The pending table

  /** The connection that waits under a name: the last one to enter, unless since then a waiter of the name
      ended or an approval of the name took it. */
  function Waiting(es: seq<Event>, n: Name): Option<ConnId> {
    if es == [] then None
    else
      var front, e := es[..|es| - 1], es[|es| - 1];
      if !Enabled(Exec(front), e) then Waiting(front, n)
      else
        match e
        case Join(AddPending(c)) => if NameOf(front, c) == Some(n) then Some(c) else Waiting(front, n)
        case Join(WaiterExit(c)) => if NameOf(front, c) == Some(n) then None else Waiting(front, n)
        case Join(ApproveTake(t)) =>
          if Approving(front, t).Some? && Approving(front, t).value.name == n then None else Waiting(front, n)
        case Restart => None
        case _ => Waiting(front, n)
  }

  lemma JoinWaiting(s: Sys, j: JoinEvent, n: Name)
    requires JoinEnabled(s, j)
    ensures Lookup(JoinStep(s, j).hub.pending, n) ==
      match j
      case AddPending(c) => if s.conns[c].name == n then Some(c) else Lookup(s.hub.pending, n)
      case WaiterExit(c) => if s.conns[c].name == n then None else Lookup(s.hub.pending, n)
      case ApproveTake(t) => if s.approvers[t].name == n then None else Lookup(s.hub.pending, n)
      case _ => Lookup(s.hub.pending, n)
  {
  }

  lemma {:induction false} PendingIsExact(es: seq<Event>, n: Name)
    ensures Lookup(Exec(es).hub.pending, n) == Waiting(es, n)
  {
    if es == [] {
    } else {
      var front, e := es[..|es| - 1], es[|es| - 1];
      PendingIsExact(front, n);
      if Enabled(Exec(front), e) {
        match e
        case Join(j) =>
          JoinWaiting(Exec(front), j, n);
          if j.AddPending? || j.WaiterExit? { NamesAreExact(front, j.c); }
          if j.ApproveTake? { ApproversAreExact(front, j.t); }
        case Life(l) => LifeIssued(Exec(front), l);
        case Traffic(m) => TrafficFrame(Exec(front), m, 0);
        case Restart =>
      }
    }
  }

  // ---- The rows

  /** The status of a row: pending from the first insertion, approved by an approval, online and offline as
      its connections come and go. */
  function StatusOf(es: seq<Event>, n: Name): Option<Status> {
    if es == [] then None
    else
      var front, e := es[..|es| - 1], es[|es| - 1];
      var before := StatusOf(front, n);
      if !Enabled(Exec(front), e) then before
      else
        match e
        case Join(InsertPending(c)) => if NameOf(front, c) == Some(n) && before == None then Some(Pending) else before
        case Join(ApproveRow(_, m, _)) => if m == n then Some(Approved) else before
        case Join(MarkOnline(c)) => if NameOf(front, c) == Some(n) && before != None then Some(Online) else before
        case Life(MarkOffline(c)) => if NameOf(front, c) == Some(n) && before != None then Some(Offline) else before
        case _ => before
  }

  function RowStatus(s: Sys, n: Name): Option<Status> {
    if n in s.rows then Some(s.rows[n].status) else None
  }

  lemma JoinStatus(s: Sys, j: JoinEvent, n: Name)
    requires JoinEnabled(s, j)
    ensures RowStatus(JoinStep(s, j), n) ==
      match j
      case InsertPending(c) => if s.conns[c].name == n && n !in s.rows then Some(Pending) else RowStatus(s, n)
      case ApproveRow(_, m, _) => if m == n then Some(Approved) else RowStatus(s, n)
      case MarkOnline(c) => if s.conns[c].name == n && n in s.rows then Some(Online) else RowStatus(s, n)
      case _ => RowStatus(s, n)
  {
  }

  lemma LifeStatus(s: Sys, l: LifeEvent, n: Name)
    requires LifeEnabled(s, l)
    ensures RowStatus(LifeStep(s, l), n) ==
      if l.MarkOffline? && s.conns[l.c].name == n && n in s.rows then Some(Offline) else RowStatus(s, n)
  {
  }

  lemma {:induction false} StatusIsExact(es: seq<Event>, n: Name)
    ensures RowStatus(Exec(es), n) == StatusOf(es, n)
  {
    if es == [] {
    } else {
      var front, e := es[..|es| - 1], es[|es| - 1];
      StatusIsExact(front, n);
      if Enabled(Exec(front), e) {
        match e
        case Join(j) =>
          JoinStatus(Exec(front), j, n);
          if j.InsertPending? || j.MarkOnline? { NamesAreExact(front, j.c); }
        case Life(l) =>
          LifeStatus(Exec(front), l, n);
          if l.MarkOffline? { NamesAreExact(front, l.c); }
        case Traffic(m) => TrafficFrame(Exec(front), m, 0);
        case Restart =>
      }
    }
  }

  /** Different names have different row ids, all of them already drawn. */
  ghost predicate RowIdsDistinct(s: Sys) {
    && (forall n {:trigger s.rows[n]} :: n in s.rows ==> s.rows[n].id < s.nextRow)
    && (forall m, n {:trigger s.rows[m], s.rows[n]} :: m in s.rows && n in s.rows && m != n ==>
        s.rows[m].id != s.rows[n].id)
  }

  lemma JoinRowIds(s: Sys, j: JoinEvent)
    requires RowIdsDistinct(s) && JoinEnabled(s, j)
    ensures RowIdsDistinct(JoinStep(s, j))
  {
  }

  lemma LifeRowIds(s: Sys, l: LifeEvent)
    requires RowIdsDistinct(s) && LifeEnabled(s, l)
    ensures RowIdsDistinct(LifeStep(s, l))
  {
  }

  lemma {:induction false} RowIdsStayDistinct(es: seq<Event>)
    ensures RowIdsDistinct(Exec(es))
  {
    if es == [] {
    } else {
      var s, e := Exec(es[..|es| - 1]), es[|es| - 1];
      RowIdsStayDistinct(es[..|es| - 1]);
      if Enabled(s, e) {
        match e
        case Join(j) => JoinRowIds(s, j);
        case Life(l) => LifeRowIds(s, l);
        case Traffic(m) => TrafficRows(s, m);
        case Restart =>
      }
    }
  }

  lemma TrafficRows(s: Sys, m: TrafficEvent)
    requires TrafficEnabled(s, m)
    ensures TrafficStep(s, m).rows == s.rows && TrafficStep(s, m).nextRow == s.nextRow
  {
  }

  /** What becomes of a connection when its row is read: without a row one is inserted, a pending row is
      waited on, an approved row asks for its own token, and any other row lets the connection in. */
  lemma AdmissionIsExact(es: seq<Event>, c: ConnId)
    requires Exec(es).At(c, Selecting)
    ensures var s, s' := Exec(es), Exec(es + [Join(SelectRow(c))]);
      var n, token := s.conns[c].name, s.conns[c].token;
      && c in s'.conns
      && (s'.conns[c].phase == ToInsert <==> n !in s.rows)
      && (s'.conns[c].phase == ToPend <==> StatusOf(es, n) == Some(Pending))
      && (s'.conns[c].phase == Refused <==>
          StatusOf(es, n) == Some(Approved) && n in s.rows && s.rows[n].token != token)
      && (s'.conns[c].phase == Admitted <==>
            || (StatusOf(es, n) == Some(Approved) && n in s.rows && s.rows[n].token == token)
            || StatusOf(es, n) == Some(Online) || StatusOf(es, n) == Some(Offline))
  {
    HubEvents.ExecNext(es, Join(SelectRow(c)));
    StatusIsExact(es, Exec(es).conns[c].name);
  }

  // ---- What an approval writes

  /** The token with which the connection was taken from the pending table. */
  function Promoted(es: seq<Event>, c: ConnId): Option<Token> {
    if es == [] then None
    else
      var front, e := es[..|es| - 1], es[|es| - 1];
      if !Enabled(Exec(front), e) then Promoted(front, c)
      else if Fresh(e, c) then None
      else
        match e
        case Join(ApproveTake(t)) =>
          if Approving(front, t).Some? && Waiting(front, Approving(front, t).value.name) == Some(c)
          then Some(Approving(front, t).value.token)
          else Promoted(front, c)
        case _ => Promoted(front, c)
  }

  /** The token that was written to it. */
  function Greeted(es: seq<Event>, c: ConnId): Option<Token> {
    if es == [] then None
    else
      var front, e := es[..|es| - 1], es[|es| - 1];
      if !Enabled(Exec(front), e) then Greeted(front, c)
      else if Fresh(e, c) then None
      else if e == Join(ApproveWrite(c, true)) then Promoted(front, c)
      else Greeted(front, c)
  }

  ghost predicate GreetingOk(conn: Conn, promoted: Option<Token>, greeted: Option<Token>) {
    && (conn.phase.Approving? ==> promoted == Some(conn.phase.token))
    && conn.greeting == greeted
  }

  lemma JoinGreeting(s: Sys, j: JoinEvent, c: ConnId)
    requires Safe(s) && JoinEnabled(s, j) && c in s.conns && !(j.Connect? && j.c == c)
    ensures c in JoinStep(s, j).conns
    ensures var conn, conn' := s.conns[c], JoinStep(s, j).conns[c];
      && conn'.greeting == (if j == ApproveWrite(c, true) then Some(conn.phase.token) else conn.greeting)
      && (conn'.phase.Approving? ==>
            if j.ApproveTake? && Lookup(s.hub.pending, s.approvers[j.t].name) == Some(c)
            then conn'.phase.token == s.approvers[j.t].token
            else conn.phase == conn'.phase)
      && (j.ApproveTake? && Lookup(s.hub.pending, s.approvers[j.t].name) == Some(c) ==> conn'.phase.Approving?)
  {
    if j.ApproveTake? { assert PendingOk(s, s.approvers[j.t].name); }
  }

  lemma LifeGreeting(s: Sys, l: LifeEvent, c: ConnId)
    requires LifeEnabled(s, l) && c in s.conns
    ensures c in LifeStep(s, l).conns && LifeStep(s, l).conns[c].greeting == s.conns[c].greeting
    ensures LifeStep(s, l).conns[c].phase.Approving? ==> LifeStep(s, l).conns[c].phase == s.conns[c].phase
  {
  }

  lemma TrafficGreeting(s: Sys, m: TrafficEvent, c: ConnId)
    requires TrafficEnabled(s, m) && c in s.conns
    ensures c in TrafficStep(s, m).conns && TrafficStep(s, m).conns[c].greeting == s.conns[c].greeting
    ensures TrafficStep(s, m).conns[c].phase == s.conns[c].phase
  {
  }

  lemma StepGreeting(front: seq<Event>, e: Event, c: ConnId)
    requires c in Exec(front).conns && Enabled(Exec(front), e) && !Fresh(e, c)
    requires GreetingOk(Exec(front).conns[c], Promoted(front, c), Greeted(front, c))
    ensures c in Step(Exec(front), e).conns
    ensures GreetingOk(Step(Exec(front), e).conns[c], Promoted(front + [e], c), Greeted(front + [e], c))
  {
    var s := Exec(front);
    assert (front + [e])[..|front|] == front;
    ExecSafe(front);
    match e
    case Join(j) =>
      JoinGreeting(s, j, c);
      if j.ApproveTake? {
        ApproversAreExact(front, j.t);
        PendingIsExact(front, s.approvers[j.t].name);
      }
    case Life(l) => LifeGreeting(s, l, c);
    case Traffic(m) => TrafficGreeting(s, m, c);
  }

  lemma {:induction false} GreetingIsExact(es: seq<Event>, c: ConnId)
    requires c in Exec(es).conns
    ensures GreetingOk(Exec(es).conns[c], Promoted(es, c), Greeted(es, c))
  {
    var front, e := es[..|es| - 1], es[|es| - 1];
    var s := Exec(front);
    if !Enabled(s, e) {
      GreetingIsExact(front, c);
    } else if Fresh(e, c) {
      assert Exec(es).conns[c].greeting == None;
    } else {
      ExecSafe(front);
      StepName(s, e, c);
      GreetingIsExact(front, c);
      StepGreeting(front, e, c);
      assert front + [e] == es;
    }
  }

  /** In every run, the wire of a connection is exactly: the approval with the token of the request that
      took it from the pending table, if it was written; the messages sent to it, in order, as many as
      its writer wrote; and the close frame, if it was written. */
  lemma WireIsExact(es: seq<Event>, c: ConnId)
    requires c in Exec(es).conns
    ensures Writes(es, c) <= |Sent(es, c)|
    ensures Exec(es).conns[c].wire ==
      (if Greeted(es, c).Some? then [ApprovedFrame(Greeted(es, c).value)] else [])
      + Texts(Sent(es, c)[..Writes(es, c)]) + (if Exec(es).conns[c].box.closeSent then [CloseFrame] else [])
  {
    GreetingIsExact(es, c);
    DeliveryIsExact(es, c);
    NothingIsLostOrOvertaken(es, c);
  }
}
