/** What the agents table promises across connects, approvals and disconnects, and across restarts of
    the master. */
module HubApproval {
  import opened Options
  import opened Hub
  import opened HubSystem
  import opened HubSafety

  /** The token the last approval of a name set. */
  function LastIssued(issued: seq<(Name, Token)>, n: Name): Option<Token> {
    if issued == [] then None
    else if issued[|issued| - 1].0 == n then Some(issued[|issued| - 1].1)
    else LastIssued(issued[..|issued| - 1], n)
  }

  predicate Admissible(s: Sys, n: Name) {
    n in s.rows && s.rows[n].status != Pending
  }

  /** A row is pending exactly as long as nobody approved it; its token is the last one issued. */
  ghost predicate RowOk(s: Sys, n: Name) {
    && (n !in s.rows ==> LastIssued(s.issued, n).None?)
    && (n in s.rows ==>
          && (s.rows[n].status == Pending <==> LastIssued(s.issued, n).None?)
          && s.rows[n].token == (if LastIssued(s.issued, n).Some? then LastIssued(s.issued, n).value else NoToken))
  }

  predicate Past(phase: Phase) {
    !Early(phase) && !phase.Refused?
  }

  ghost predicate PastOk(s: Sys, c: ConnId) {
    c in s.conns && Past(s.conns[c].phase) ==> Admissible(s, s.conns[c].name)
  }

  ghost predicate ApproverOk(s: Sys, t: nat) {
    t in s.approvers ==> Admissible(s, s.approvers[t].name)
  }

  ghost predicate TableOk(s: Sys) {
    && (forall n {:trigger RowOk(s, n)} :: RowOk(s, n))
    && (forall c {:trigger PastOk(s, c)} :: PastOk(s, c))
    && (forall t {:trigger ApproverOk(s, t)} :: ApproverOk(s, t))
  }

  ghost predicate StaysAdmissible(s: Sys, s': Sys, n: Name) {
    Admissible(s, n) ==> Admissible(s', n) && s'.rows[n].id == s.rows[n].id
  }

  lemma JoinMonotone(s: Sys, j: JoinEvent, n: Name)
    requires JoinEnabled(s, j)
    ensures StaysAdmissible(s, JoinStep(s, j), n)
  {
  }

  lemma LifeMonotone(s: Sys, l: LifeEvent, n: Name)
    requires LifeEnabled(s, l)
    ensures StaysAdmissible(s, LifeStep(s, l), n)
  {
  }

  /** Once a name is admissible it stays so. */
  lemma StepMonotone(s: Sys, e: Event, n: Name)
    ensures StaysAdmissible(s, Step(s, e), n)
  {
    if Enabled(s, e) {
      match e
      case Join(j) => JoinMonotone(s, j, n);
      case Life(l) => LifeMonotone(s, l, n);
      case Traffic(m) => TrafficFrame(s, m, 0);
      case Restart =>
    }
  }

  lemma JoinRow(s: Sys, e: JoinEvent, n: Name)
    requires TableOk(s) && JoinEnabled(s, e)
    ensures RowOk(JoinStep(s, e), n)
  {
    assert RowOk(s, n);
    match e
    case ApproveRow(t, m, token) =>
      assert RowOk(s, m);
      assert (s.issued + [(m, token)])[..|s.issued|] == s.issued;
    case MarkOnline(c) =>
      assert PastOk(s, c);
    case _ =>
  }

  /** A connection passes the gate only by seeing a row that is not pending, or by an approval. */
  lemma JoinGate(s: Sys, e: JoinEvent, c: ConnId)
    requires JoinEnabled(s, e) && !e.ApproveTake?
    ensures var s' := JoinStep(s, e);
      c in s'.conns && Past(s'.conns[c].phase) ==>
        c in s.conns && s'.conns[c].name == s.conns[c].name
        && (Past(s.conns[c].phase) || Admissible(s, s.conns[c].name))
  {
  }

  lemma ApproveTakeGate(s: Sys, e: JoinEvent, c: ConnId)
    requires Safe(s) && TableOk(s) && JoinEnabled(s, e) && e.ApproveTake?
    ensures PastOk(JoinStep(s, e), c)
  {
    assert PastOk(s, c) && ApproverOk(s, e.t) && PendingOk(s, s.approvers[e.t].name);
  }

  lemma JoinPast(s: Sys, e: JoinEvent, c: ConnId, s': Sys)
    requires Safe(s) && TableOk(s) && JoinEnabled(s, e) && s' == JoinStep(s, e)
    ensures PastOk(s', c)
  {
    if e.ApproveTake? {
      ApproveTakeGate(s, e, c);
    } else {
      JoinGate(s, e, c);
      assert PastOk(s, c);
      if c in s.conns {
        JoinMonotone(s, e, s.conns[c].name);
      }
    }
  }

  lemma JoinApprover(s: Sys, e: JoinEvent, t: nat)
    requires TableOk(s) && JoinEnabled(s, e)
    ensures ApproverOk(JoinStep(s, e), t)
  {
    assert ApproverOk(s, t);
    if t in s.approvers {
      JoinMonotone(s, e, s.approvers[t].name);
    }
  }

  lemma LifeApproved(s: Sys, e: LifeEvent, n: Name, c: ConnId, t: nat)
    requires TableOk(s) && LifeEnabled(s, e)
    ensures RowOk(LifeStep(s, e), n) && PastOk(LifeStep(s, e), c) && ApproverOk(LifeStep(s, e), t)
  {
    assert RowOk(s, n) && PastOk(s, c) && ApproverOk(s, t);
    if c in s.conns {
      LifeMonotone(s, e, s.conns[c].name);
    }
    if t in s.approvers {
      LifeMonotone(s, e, s.approvers[t].name);
    }
    if e.MarkOffline? {
      assert PastOk(s, e.c);
    }
  }

  lemma TrafficApproved(s: Sys, e: TrafficEvent, n: Name, c: ConnId, t: nat)
    requires TableOk(s) && TrafficEnabled(s, e)
    ensures RowOk(TrafficStep(s, e), n) && PastOk(TrafficStep(s, e), c) && ApproverOk(TrafficStep(s, e), t)
  {
    assert RowOk(s, n) && PastOk(s, c) && ApproverOk(s, t);
    TrafficFrame(s, e, c);
  }

  lemma StepApproved(s: Sys, e: Event)
    requires Safe(s) && TableOk(s)
    ensures TableOk(Step(s, e))
  {
    var s' := Step(s, e);
    if Enabled(s, e) {
      forall n
        ensures RowOk(s', n)
      {
        assert RowOk(s, n);
        match e
        case Join(j) => JoinRow(s, j, n);
        case Life(l) => LifeApproved(s, l, n, 0, 0);
        case Traffic(m) => TrafficApproved(s, m, n, 0, 0);
        case Restart =>
      }
      forall c
        ensures PastOk(s', c)
      {
        match e
        case Join(j) => JoinPast(s, j, c, s');
        case Life(l) => LifeApproved(s, l, Name(""), c, 0);
        case Traffic(m) => TrafficApproved(s, m, Name(""), c, 0);
        case Restart =>
      }
      forall t: nat
        ensures ApproverOk(s', t)
      {
        match e
        case Join(j) => JoinApprover(s, j, t);
        case Life(l) => LifeApproved(s, l, Name(""), 0, t);
        case Traffic(m) => TrafficApproved(s, m, Name(""), 0, t);
        case Restart =>
      }
    }
  }

  lemma {:induction false} ExecApproved(es: seq<Event>)
    ensures TableOk(Exec(es))
  {
    if es == [] {
    } else {
      ExecApproved(es[..|es| - 1]);
      ExecSafe(es[..|es| - 1]);
      StepApproved(Exec(es[..|es| - 1]), es[|es| - 1]);
    }
  }

  /** In every run, a row is pending exactly when no approval was ever issued for it, and its token is
      the one of the last approval. */
  lemma PendingUntilApproved(es: seq<Event>, n: Name)
    requires n in Exec(es).rows
    ensures var s := Exec(es);
      && (s.rows[n].status == Pending <==> forall i :: 0 <= i < |s.issued| ==> s.issued[i].0 != n)
      && s.rows[n].token == (if LastIssued(s.issued, n).Some? then LastIssued(s.issued, n).value else NoToken)
  {
    ExecApproved(es);
    var s := Exec(es);
    assert RowOk(s, n);
    IssuedMeaning(s.issued, n);
  }

  lemma {:induction false} IssuedMeaning(issued: seq<(Name, Token)>, n: Name)
    ensures LastIssued(issued, n).None? <==> forall i :: 0 <= i < |issued| ==> issued[i].0 != n
  {
    if issued == [] {
    } else {
      var k := |issued| - 1;
      IssuedMeaning(issued[..k], n);
      assert issued[k].0 != n ==> forall i :: 0 <= i < k ==> issued[..k][i] == issued[i];
      if issued[k].0 != n && LastIssued(issued[..k], n).Some? {
        var i :| 0 <= i < k && issued[..k][i].0 == n;
        assert issued[i].0 == n;
      }
    }
  }

  /** In every run, only a name whose row has left pending is in the registry, and a name that has left
      pending never returns to it, restarts of the master included. */
  lemma OnlyApprovedAgentsRegister(es: seq<Event>, n: Name)
    requires n in Exec(es).hub.agents
    ensures Admissible(Exec(es), n)
  {
    ExecApproved(es);
    ExecSafe(es);
    var s := Exec(es);
    assert AgentOk(s, n) && PastOk(s, s.hub.agents[n]);
  }

  lemma {:induction false} NeverPendingAgain(es: seq<Event>, more: seq<Event>, n: Name)
    requires Admissible(Exec(es), n)
    ensures Admissible(Exec(es + more), n)
    ensures Exec(es + more).rows[n].id == Exec(es).rows[n].id
    decreases |more|
  {
    if more == [] {
      assert es + more == es;
    } else {
      var front := more[..|more| - 1];
      NeverPendingAgain(es, front, n);
      var e := more[|more| - 1];
      assert es + more == (es + front) + [e];
      ExecNext(es + front, e);
      StepMonotone(Exec(es + front), e, n);
    }
  }

  lemma ExecNext(es: seq<Event>, e: Event)
    ensures Exec(es + [e]) == Step(Exec(es), e)
  {
    assert (es + [e])[..|es|] == es;
  }
}
