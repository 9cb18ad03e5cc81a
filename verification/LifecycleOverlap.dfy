/** Runs from the empty system: agreement can be reached, and each point of an orderly run is needed. */
module LifecycleOverlap {
  import opened Columns
  import opened Options
  import opened Lifecycle
  import opened LifecycleAgreement
  import opened LifecycleMoves
  import opened LifecyclePairs

  const NAME := ContainerName("lanmaster-1")

  /** A server exists and nothing has happened to it. */
  function Fresh(): Sys {
    INIT.(rows := map[0 := Row(NAME, Stopped, None)], names := map[0 := NAME])
  }

  lemma Created0() returns (es: seq<Event>)
    ensures CarefulFrom(es, 0) && OrderlyRun(es) && Exec(es) == Fresh() && Quiescent(Exec(es), 0)
  {
    es := Then([], Master(CreateServer(0, NAME)), 0);
    assert CarefulRun(es);
    CarefulRunsAreOrderly(es);
  }

  function Up0(status: Status, c: Option<nat>, replies: multiset<Reply>): Sys {
    INIT.(rows := map[0 := Row(NAME, status, c)], names := map[0 := NAME], replies := replies,
          docker := map[0 := Container(NAME, true)], nextContainer := 1, created := {(0, 0)}, started := {(0, 0)})
  }

  lemma Commanded0() returns (es: seq<Event>)
    ensures CarefulFrom(es, 0)
    ensures Exec(es) == Fresh().(rows := map[0 := Row(NAME, Starting, None)],
        commands := multiset{Command(0, NAME, Start)})
  {
    es := Created0();
    FreshIsSettled(Start);
    es := Commands(es, 0, Start, 0);
    assert Written(Fresh().rows, 0, Start) == map[0 := Row(NAME, Starting, None)];
  }

  lemma FreshIsSettled(kind: Kind)
    ensures Careful(Fresh(), Master(Send(0, kind, true)))
  {
    assert !WritePending(Fresh(), 0);
  }

  lemma Started0() returns (es: seq<Event>)
    ensures CarefulFrom(es, 0) && Exec(es) == Up0(Starting, None, multiset{Reply(0, Running, Some(0))})
  {
    es := Commanded0();
    es := Starts(es, 0, NAME, 0);
  }

  /** It was started by the book. */
  lemma Running0() returns (es: seq<Event>)
    ensures CarefulFrom(es, 0) && Exec(es) == Up0(Running, Some(0), multiset{})
  {
    es := Started0();
    es := Handles(es, Reply(0, Running, Some(0)), 0);
  }

  /** A careful run can make a server run, and its row says so. */
  lemma OrderlyRunsCanStartServers() returns (es: seq<Event>)
    ensures CarefulRun(es) && OrderlyRun(es) && Quiescent(Exec(es), 0)
    ensures Exec(es).rows == map[0 := Row(NAME, Running, Some(0))] && UpAs(Exec(es), NAME, Some(0))
  {
    es := Running0();
    assert CarefulRun(es);
    CarefulRunsAreOrderly(es);
  }

  /** A stop command sent right after the start command, with nothing lost and nothing failing. */
  lemma OverlapDisagrees() returns (es: seq<Event>)
    ensures Quiescent(Exec(es), 0) && !Agree(Exec(es), 0)
    ensures 0 in Exec(es).rows && Exec(es).rows[0].status == Running && !Up(Exec(es), Exec(es).rows[0].name)
  {
    es := Created0();
    es := PairBreaks(es, 0, Start, Stop);
  }

  /** A server is deleted while the agent is away, and a new one takes over its name: nothing is under
      way, and the new row is wrong from the start. */
  lemma ReuseDisagrees() returns (es: seq<Event>)
    ensures Quiescent(Exec(es), 1) && !Agree(Exec(es), 1)
    ensures Exec(es).rows == map[1 := Row(NAME, Stopped, None)] && Up(Exec(es), NAME)
  {
    es := Deleted0();
    var s := Exec(es);
    es := Then(es, Master(CreateServer(1, NAME)), |es|);
    assert 0 in s.docker && s.docker[0] == Container(NAME, true) && Up(s, NAME);
    NewRowAgrees(s, 1, NAME);
    SameDocker(s, Exec(es), NAME);
    assert Exec(es).rows == map[1 := Row(NAME, Stopped, None)];
  }

  lemma DeleteOwed0() returns (es: seq<Event>)
    ensures Exec(es) == Up0(Running, Some(0), multiset{}).(writes := multiset{Write(0, Delete)})
  {
    es := Running0();
    es := Then(es, Master(Send(0, Delete, false)), |es|);
  }

  lemma Deleted0() returns (es: seq<Event>)
    ensures Exec(es) == Up0(Running, Some(0), multiset{}).(rows := map[])
  {
    es := DeleteOwed0();
    es := Writes(es, Write(0, Delete), |es|);
  }

  /** A server is deleted by the book, and a new one takes over its name before the agent has handled the
      delete command, when no container is up: the command later removes the new server's container. */
  lemma LateDeleteDisagrees() returns (es: seq<Event>, k: nat)
    ensures k < |es| && es[k] == Master(CreateServer(1, NAME)) && !Up(Exec(es[..k]), NAME)
        && Exec(es[..k]).rows == map[]
    ensures OrderlyRun(es[..k]) && CarefulFrom(es, k + 1)
    ensures Quiescent(Exec(es), 1) && !Agree(Exec(es), 1)
  {
    var front := Created0();
    FreshIsSettled(Delete);
    front := Commands(front, 0, Delete, 0);
    assert CarefulRun(front);
    CarefulRunsAreOrderly(front);
    k := |front|;
    es := TakeoverBreaks(front, 0, NAME, Delete, 1);
    assert es[..k] == front && es[k] == (front + [Master(CreateServer(1, NAME))])[k];
  }

  // ---- Rows that stay as they are

  /** The agent's answer is handled before the master's own write, which nobody corrects any more. */
  lemma LateWriteSticks() returns (es: seq<Event>)
    ensures OrderlyRun(es) && Quiescent(Exec(es), 0)
    ensures 0 in Exec(es).rows && Exec(es).rows[0].status == Starting && Up(Exec(es), NAME)
  {
    es := AnswerFirst0();
    es := Writes(es, Write(0, Start), 0);
    assert CarefulRun(es);
    CarefulRunsAreOrderly(es);
    assert 0 in Exec(es).docker && Exec(es).docker[0] == Container(NAME, true);
  }

  lemma SentOnly0() returns (es: seq<Event>)
    ensures CarefulFrom(es, 0)
    ensures Exec(es) == Fresh().(commands := multiset{Command(0, NAME, Start)}, writes := multiset{Write(0, Start)})
  {
    es := Created0();
    FreshIsSettled(Start);
    es := Then(es, Master(Send(0, Start, true)), 0);
  }

  lemma AnsweredFirst0() returns (es: seq<Event>)
    ensures CarefulFrom(es, 0)
    ensures Exec(es) == Up0(Stopped, None, multiset{Reply(0, Running, Some(0))}).(writes := multiset{Write(0, Start)})
  {
    es := SentOnly0();
    es := Starts(es, 0, NAME, 0);
  }

  lemma AnswerFirst0() returns (es: seq<Event>)
    ensures CarefulFrom(es, 0)
    ensures Exec(es) == Up0(Running, Some(0), multiset{}).(writes := multiset{Write(0, Start)})
  {
    es := AnsweredFirst0();
    es := Handles(es, Reply(0, Running, Some(0)), 0);
  }

  /** A command that is lost leaves its row starting. */
  lemma LossSticks() returns (es: seq<Event>)
    ensures OrderlyRun(es) && Quiescent(Exec(es), 0)
    ensures 0 in Exec(es).rows && Exec(es).rows[0].status == Starting
  {
    es := Commanded0();
    es := Then(es, Mail(LoseCommand(Command(0, NAME, Start))), 0);
    assert CarefulRun(es);
    CarefulRunsAreOrderly(es);
  }
}
