/** With no assumption at all about order, loss, overlap or which container a lookup by name finds:
    what the table says about a container was caused by a start command for that very server. */
module LifecycleCausality {
  import opened Columns
  import opened Options
  import opened Lifecycle

  /** A claim about a container is backed by a start. */
  ghost predicate Backed(s: Sys, id: ServerId, status: Status, c: Option<nat>) {
    && (status.Running? ==> c.Some?)
    && (c.Some? ==> (id, c.value) in s.started)
  }

  ghost predicate RowBacked(s: Sys, id: ServerId) {
    id in s.rows ==> Backed(s, id, s.rows[id].status, s.rows[id].containerId)
  }

  ghost predicate ReplyBacked(s: Sys, r: Reply) {
    s.replies[r] > 0 ==> Backed(s, r.id, r.status, r.containerId)
  }

  ghost predicate GoroutineBacked(s: Sys, g: nat) {
    g in s.goroutines ==>
      var w := s.goroutines[g];
      && (w.pc.StartNew? ==> (w.id, w.pc.c) in s.created)
      && (w.pc.Report? ==> w.pc.reply.id == w.id && Backed(s, w.id, w.pc.reply.status, w.pc.reply.containerId))
  }

  /** A container belongs to one server, and only created ones are started. */
  ghost predicate Caused(s: Sys) {
    && s.started <= s.created
    && (forall p :: p in s.created ==> p.1 < s.nextContainer)
    && (forall p, q :: p in s.created && q in s.created && p.1 == q.1 ==> p == q)
    && (forall id {:trigger RowBacked(s, id)} :: RowBacked(s, id))
    && (forall r {:trigger ReplyBacked(s, r)} :: ReplyBacked(s, r))
    && (forall g {:trigger GoroutineBacked(s, g)} :: GoroutineBacked(s, g))
  }

  lemma MasterFrame(s: Sys, e: MasterEvent, r: Reply)
    requires MasterEnabled(s, e)
    ensures var s' := MasterStep(s, e);
      && s'.replies[r] <= s.replies[r] && s'.goroutines == s.goroutines
      && s'.created == s.created && s'.started == s.started && s'.nextContainer == s.nextContainer
  {
  }

  lemma MasterRow(s: Sys, e: MasterEvent, id: ServerId)
    requires Caused(s) && MasterEnabled(s, e)
    ensures RowBacked(MasterStep(s, e), id)
  {
    assert RowBacked(s, id);
    if e.HandleReply? { assert ReplyBacked(s, e.r); }
  }

  lemma MasterCaused(s: Sys, e: MasterEvent, s': Sys)
    requires Caused(s) && MasterEnabled(s, e) && s' == MasterStep(s, e)
    ensures Caused(s')
  {
    MasterFrame(s, e, Reply(0, Error, None));
    forall id
      ensures RowBacked(s', id)
    {
      MasterRow(s, e, id);
    }
    forall r
      ensures ReplyBacked(s', r)
    {
      assert ReplyBacked(s, r);
      MasterFrame(s, e, r);
    }
    forall g
      ensures GoroutineBacked(s', g)
    {
      assert GoroutineBacked(s, g);
    }
  }

  lemma MailCaused(s: Sys, e: MailEvent)
    requires Caused(s) && MailEnabled(s, e)
    ensures Caused(MailStep(s, e))
  {
    var s' := MailStep(s, e);
    forall id
      ensures RowBacked(s', id)
    {
      assert RowBacked(s, id);
    }
    forall r
      ensures ReplyBacked(s', r)
    {
      assert ReplyBacked(s, r);
      if e.Reported? { assert GoroutineBacked(s, e.g); }
    }
    forall g
      ensures GoroutineBacked(s', g)
    {
      assert GoroutineBacked(s, g);
    }
  }

  lemma DockerCaused(s: Sys, g: nat, ret: Return)
    requires Caused(s) && DockerEnabled(s, g, ret)
    ensures Caused(DockerStep(s, g, ret))
  {
    var s' := DockerStep(s, g, ret);
    assert GoroutineBacked(s, g);
    DockerCreates(s, g, ret);
    forall id
      ensures RowBacked(s', id)
    {
      assert RowBacked(s, id);
    }
    forall r
      ensures ReplyBacked(s', r)
    {
      assert ReplyBacked(s, r);
    }
    forall h
      ensures GoroutineBacked(s', h)
    {
      assert GoroutineBacked(s, h);
      DockerGoroutine(s, g, ret, h);
    }
  }

  lemma DockerCreates(s: Sys, g: nat, ret: Return)
    requires Caused(s) && DockerEnabled(s, g, ret)
    ensures var s' := DockerStep(s, g, ret);
      && s'.rows == s.rows && s'.replies == s.replies
      && s.created <= s'.created && s.started <= s'.started <= s'.created
      && (forall p :: p in s'.created ==> p.1 < s'.nextContainer)
      && (forall p, q :: p in s'.created && q in s'.created && p.1 == q.1 ==> p == q)
  {
    assert GoroutineBacked(s, g);
  }

  lemma DockerGoroutine(s: Sys, g: nat, ret: Return, h: nat)
    requires Caused(s) && DockerEnabled(s, g, ret)
    ensures GoroutineBacked(DockerStep(s, g, ret), h)
  {
    assert GoroutineBacked(s, h);
    if h == g { OwnGoroutine(s, g, ret); } else { OtherGoroutine(s, g, ret, h, DockerStep(s, g, ret)); }
  }

  lemma OwnGoroutine(s: Sys, g: nat, ret: Return)
    requires GoroutineBacked(s, g) && DockerEnabled(s, g, ret)
    ensures GoroutineBacked(DockerStep(s, g, ret), g)
  {
    match ret
    case Pulled(_) =>
    case Found(_) =>
    case StopReturned(_, _) =>
    case RemoveReturned(_) =>
    case CreateReturned(_) =>
    case StartReturned(_, _) =>
  }

  lemma OtherGoroutine(s: Sys, g: nat, ret: Return, h: nat, s': Sys)
    requires Caused(s) && DockerEnabled(s, g, ret) && s' == DockerStep(s, g, ret) && h != g
    ensures GoroutineBacked(s', h)
  {
    assert GoroutineBacked(s, h);
    DockerCreates(s, g, ret);
    DockerOthers(s, g, ret, h);
  }

  lemma DockerOthers(s: Sys, g: nat, ret: Return, h: nat)
    requires DockerEnabled(s, g, ret) && h != g
    ensures Lookup(DockerStep(s, g, ret).goroutines, h) == Lookup(s.goroutines, h)
  {
  }

  lemma StepCaused(s: Sys, e: Event)
    requires Caused(s)
    ensures Caused(Step(s, e))
  {
    if Enabled(s, e) {
      match e
      case Master(m) => MasterCaused(s, m, Step(s, e));
      case Mail(l) => MailCaused(s, l);
      case Docker(g, ret) => DockerCaused(s, g, ret);
    }
  }

  lemma {:induction false} ExecCaused(es: seq<Event>)
    ensures Caused(Exec(es))
  {
    if es == [] {
    } else {
      ExecCaused(es[..|es| - 1]);
      StepCaused(Exec(es[..|es| - 1]), es[|es| - 1]);
    }
  }

  /** Event i is the successful return of the Docker start of container c, by a goroutine that handles
      a start command for server id. */
  ghost predicate StartedAt(es: seq<Event>, i: nat, id: ServerId, c: nat) {
    && i < |es| && es[i].Docker? && es[i].ret.StartReturned? && es[i].ret.ok && Enabled(Exec(es[..i]), es[i])
    && var w := Exec(es[..i]).goroutines[es[i].g];
       w.id == id && w.pc == StartNew(c)
  }

  lemma StartedGrows(s: Sys, e: Event, id: ServerId, c: nat)
    requires (id, c) in Step(s, e).started && (id, c) !in s.started
    ensures e.Docker? && e.ret.StartReturned? && e.ret.ok && Enabled(s, e)
    ensures s.goroutines[e.g].id == id && s.goroutines[e.g].pc == StartNew(c)
  {
    match e
    case Master(m) =>
    case Mail(l) =>
    case Docker(g, ret) =>
  }

  lemma {:induction false} StartedMeaning(es: seq<Event>, id: ServerId, c: nat)
    requires (id, c) in Exec(es).started
    ensures exists i :: StartedAt(es, i, id, c)
  {
    var k := |es| - 1;
    var front := es[..k];
    if (id, c) in Exec(front).started {
      StartedMeaning(front, id, c);
      var i: nat :| StartedAt(front, i, id, c);
      assert front[..i] == es[..i];
      assert StartedAt(es, i, id, c);
    } else {
      StartedGrows(Exec(front), es[k], id, c);
      assert StartedAt(es, k, id, c);
    }
  }

  /** In every run: a server whose status is `running` has a container id, and the container of any
      stored id was created for this server alone and started by an earlier start command for it. */
  lemma ReportedStateWasCaused(es: seq<Event>, id: ServerId)
    requires id in Exec(es).rows
    ensures var s := Exec(es);
      var row := s.rows[id];
      && (row.status.Running? ==> row.containerId.Some?)
      && (row.containerId.Some? ==>
            && (exists i :: StartedAt(es, i, id, row.containerId.value))
            && (id, row.containerId.value) in s.created
            && forall other :: (other, row.containerId.value) in s.created ==> other == id)
  {
    ExecCaused(es);
    var s := Exec(es);
    assert RowBacked(s, id);
    if s.rows[id].containerId.Some? {
      var c := s.rows[id].containerId.value;
      StartedMeaning(es, id, c);
      assert (id, c) in s.created;
      forall other | (other, c) in s.created
        ensures other == id
      {
        assert (other, c).1 == (id, c).1;
      }
    }
  }
}
