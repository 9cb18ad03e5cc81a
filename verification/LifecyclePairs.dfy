/** Which commands go wrong together, from every orderly state: two commands for one server, and the
    commands of a former server whose container name is taken over. */
module LifecyclePairs {
  import opened Columns
  import opened Options
  import opened Lifecycle
  import opened LifecycleAgreement
  import opened LifecycleMoves
  import opened LifecycleStops

  function Both(id: ServerId, a: Kind, b: Kind): seq<Event> {
    [Master(Send(id, a, true)), Master(Send(id, b, true))]
  }

  /** Both commands are on their way, and the row is written. */
  ghost predicate Ready(s: Sys, id: ServerId, a: Kind, b: Kind, status: Status, s': Sys)
    requires id in s.names && id in s.rows
  {
    s' == s.(commands := s.commands + multiset{Command(id, s.names[id], a), Command(id, s.names[id], b)},
             rows := s.rows[id := s.rows[id].(status := status)])
  }

  lemma Sends(es: seq<Event>, id: ServerId, a: Kind, b: Kind)
    requires id in Exec(es).names
    ensures var s := Exec(es);
      Exec(es + Both(id, a, b)) ==
        s.(commands := s.commands + multiset{Command(id, s.names[id], a), Command(id, s.names[id], b)},
           writes := s.writes + multiset{Write(id, a), Write(id, b)})
  {
    var s, n := Exec(es), Exec(es).names[id];
    var r := SendsOne(es, id, a);
    var r' := SendsOne(r, id, b);
    assert r' == es + Both(id, a, b);
    assert s.commands + multiset{Command(id, n, a)} + multiset{Command(id, n, b)}
        == s.commands + multiset{Command(id, n, a), Command(id, n, b)};
    assert s.writes + multiset{Write(id, a)} + multiset{Write(id, b)} ==
        s.writes + multiset{Write(id, a), Write(id, b)};
  }

  lemma SendsOne(es: seq<Event>, id: ServerId, kind: Kind) returns (r: seq<Event>)
    requires id in Exec(es).names
    ensures r == es + [Master(Send(id, kind, true))]
    ensures var s := Exec(es);
      Exec(r) == s.(commands := s.commands + multiset{Command(id, s.names[id], kind)},
                    writes := s.writes + multiset{Write(id, kind)})
  {
    r := Then(es, Master(Send(id, kind, true)), 0);
  }

  lemma WritesGone(m: multiset<Write>, v: Write, w: Write)
    ensures m + multiset{v, w} - multiset{v} - multiset{w} == m
    ensures (m + multiset{v, w})[v] > 0 && (m + multiset{v, w} - multiset{v})[w] > 0
  {
  }

  lemma WrittenTwice(rows: map<ServerId, Row>, id: ServerId, a: Kind, b: Kind)
    requires id in rows && !a.Delete? && !b.Delete?
    ensures Written(Written(rows, id, a), id, b) ==
        rows[id := rows[id].(status := if b.Start? then Starting else Stopping)]
  {
  }

  lemma WritesBoth(es: seq<Event>, id: ServerId, a: Kind, b: Kind, k: nat) returns (r: seq<Event>, status: Status)
    requires id in Exec(es).names && id in Exec(es).rows && !a.Delete? && !b.Delete?
    ensures Follows(es + Both(id, a, b), r, k) && Ready(Exec(es), id, a, b, status, Exec(r))
  {
    var s := Exec(es);
    Sends(es, id, a, b);
    WritesGone(s.writes, Write(id, a), Write(id, b));
    WrittenTwice(s.rows, id, a, b);
    var r1 := Writes(es + Both(id, a, b), Write(id, a), k);
    r := Writes(r1, Write(id, b), k);
    status := if b.Start? then Starting else Stopping;
    FollowsOn(es + Both(id, a, b), r1, r, k);
  }

  lemma FollowsOn(es: seq<Event>, r: seq<Event>, t: seq<Event>, k: nat)
    requires Follows(es, r, k) && Follows(r, t, k)
    ensures Follows(es, t, k)
  {
  }

  // ---- From both commands on their way to a row that is wrong

  /** Nothing is under way but what was, and the row of the server is a given one. */
  ghost predicate Over(s: Sys, id: ServerId, status: Status, c: Option<nat>, s': Sys) {
    && s'.commands == s.commands && s'.writes == s.writes && s'.replies == s.replies && s'.goroutines == s.goroutines
    && id in s.rows && s'.rows == s.rows[id := s.rows[id].(status := status, containerId := c)]
  }

  lemma OverIsQuiescent(s: Sys, id: ServerId, status: Status, c: Option<nat>, s': Sys)
    requires Quiescent(s, id) && Over(s, id, status, c, s')
    ensures Quiescent(s', id)
  {
  }

  /** One start command has been answered, the other command is still on its way. */
  ghost predicate Half(s: Sys, id: ServerId, other: Command, s': Sys)
    requires id in s.names && id in s.rows
  {
    && s'.commands == s.commands + multiset{other} && s'.writes == s.writes && s'.goroutines == s.goroutines
    && s'.replies == s.replies + multiset{Reply(id, Running, Some(s.nextContainer))}
    && (exists status :: s'.rows == s.rows[id := s.rows[id].(status := status)])
    && OneOfAName(s'.docker) && s'.nextContainer == s.nextContainer + 1
    && s.nextContainer in s'.docker && s'.docker[s.nextContainer] == Container(s.names[id], true)
  }

  lemma LaunchedOne(s: Sys, id: ServerId, n: ContainerName)
    requires OneOfAName(s.docker) && !NameInUse(s.docker, n)
    ensures OneOfAName(Launched(s, id, n).docker)
  {
  }

  lemma WithoutKeepsOne(docker: map<nat, Container>, n: ContainerName)
    requires OneOfAName(docker)
    ensures OneOfAName(Without(docker, n))
    ensures forall c :: c in Without(docker, n) ==> Without(docker, n)[c].name != n
  {
  }

  lemma StartsFirst(es: seq<Event>, s: Sys, id: ServerId, other: Kind, status: Status, k: nat) returns (r: seq<Event>)
    requires id in s.names && id in s.rows && OneOfAName(s.docker) && Ready(s, id, Start, other, status, Exec(es))
    ensures Follows(es, r, k) && Half(s, id, Command(id, s.names[id], other), Exec(r))
  {
    var n := s.names[id];
    var cmd, b := Command(id, n, Start), Command(id, n, other);
    assert s.commands + multiset{cmd, b} - multiset{cmd} == s.commands + multiset{b};
    r := Starts(es, id, n, k);
    WithoutKeepsOne(s.docker, n);
    LaunchedOne(s.(docker := Without(s.docker, n)), id, n);
    assert Exec(r).rows == s.rows[id := s.rows[id].(status := status)];
  }

  lemma AnswersLeft(m: multiset<Reply>, a: Reply, b: Reply)
    ensures m + multiset{a} + multiset{b} - multiset{b} - multiset{a} == m
  {
  }

  /** Both commands are answered; the row is still the one written before. */
  ghost predicate Answers(s: Sys, id: ServerId, first: Reply, last: Reply, s': Sys)
    requires id in s.rows
  {
    && s'.commands == s.commands && s'.writes == s.writes && s'.goroutines == s.goroutines
    && s'.replies == s.replies + multiset{last} + multiset{first}
    && exists status :: s'.rows == s.rows[id := s.rows[id].(status := status)]
  }

  lemma HandlesBoth(es: seq<Event>, s: Sys, id: ServerId, first: Reply, last: Reply, k: nat) returns (r: seq<Event>)
    requires first.id == id && last.id == id && last.containerId.Some?
    requires id in s.rows && Answers(s, id, first, last, Exec(es))
    ensures Follows(es, r, k) && Over(s, id, last.status, last.containerId, Exec(r))
        && Exec(r).docker == Exec(es).docker
  {
    AnswersLeft(s.replies, last, first);
    var r1 := Handles(es, first, k);
    assert Exec(r1).replies == s.replies + multiset{last};
    r := Handles(r1, last, k);
    FollowsOn(es, r1, r, k);
  }

  /** A stop command that arrives after the start is through, and the answers change places. */
  lemma StopsLate(es: seq<Event>, s: Sys, id: ServerId, k: nat) returns (r: seq<Event>)
    requires id in s.names && id in s.rows && Half(s, id, Command(id, s.names[id], Stop), Exec(es))
    ensures Follows(es, r, k) && Over(s, id, Running, Some(s.nextContainer), Exec(r))
    ensures !UpAs(Exec(r), s.names[id], Some(s.nextContainer)) && !Up(Exec(r), s.names[id])
  {
    var c, n := s.nextContainer, s.names[id];
    assert s.commands + multiset{Command(id, n, Stop)} - multiset{Command(id, n, Stop)} == s.commands;
    var r1 := StopsRunning(es, id, n, c, k);
    r := HandlesBoth(r1, s, id, Reply(id, Stopped, None), Reply(id, Running, Some(c)), k);
    FollowsOn(es, r1, r, k);
    StoppedIsDown(Exec(es), Exec(r), c, n);
  }

  lemma StoppedIsDown(s: Sys, s': Sys, c: nat, n: ContainerName)
    requires OneOfAName(s.docker) && c in s.docker && s.docker[c].name == n
    requires s'.docker == s.SetRunning(c, false).docker
    ensures !Up(s', n)
  {
  }

  lemma Replaced(s: Sys, id: ServerId, s1: Sys, s2: Sys)
    requires id in s.names && id in s.rows && Half(s, id, Command(id, s.names[id], Start), s1)
    requires var n := s.names[id];
      s2 == Answered(Launched(Taken(s1, Command(id, n, Start)).(docker := Without(s1.docker, n)), id, n),
                     Reply(id, Running, Some(s1.nextContainer)))
    ensures s2.commands == s.commands && s2.writes == s.writes && s2.goroutines == s.goroutines && s2.rows == s1.rows
    ensures s2.replies == s1.replies + multiset{Reply(id, Running, Some(s.nextContainer + 1))}
    ensures s.nextContainer !in s2.docker
  {
    var n := s.names[id];
    assert s.commands + multiset{Command(id, n, Start)} - multiset{Command(id, n, Start)} == s.commands;
  }

  /** A second start replaces the container of the first, and the answers change places. */
  lemma StartsAgain(es: seq<Event>, s: Sys, id: ServerId, k: nat) returns (r: seq<Event>)
    requires id in s.names && id in s.rows && Half(s, id, Command(id, s.names[id], Start), Exec(es))
    ensures Follows(es, r, k) && Over(s, id, Running, Some(s.nextContainer), Exec(r))
    ensures !UpAs(Exec(r), s.names[id], Some(s.nextContainer))
  {
    var c := s.nextContainer;
    var r1 := Replaces(es, s, id, k);
    r := HandlesBoth(r1, s, id, Reply(id, Running, Some(c + 1)), Reply(id, Running, Some(c)), k);
    FollowsOn(es, r1, r, k);
  }

  lemma Replaces(es: seq<Event>, s: Sys, id: ServerId, k: nat) returns (r: seq<Event>)
    requires id in s.names && id in s.rows && Half(s, id, Command(id, s.names[id], Start), Exec(es))
    ensures Follows(es, r, k) && s.nextContainer !in Exec(r).docker
    ensures var c := s.nextContainer;
      Answers(s, id, Reply(id, Running, Some(c + 1)), Reply(id, Running, Some(c)), Exec(r))
  {
    r := Starts(es, id, s.names[id], k);
    Replaced(s, id, Exec(es), Exec(r));
  }

  // ---- Pairs of commands

  predicate SafePair(a: Kind, b: Kind) {
    a.Delete? || b.Delete? || (a.Stop? && b.Stop?)
  }

  /** From any orderly state, a pair with a start command and no delete command can go wrong, with
      nothing lost, nothing failing and no further command. */
  lemma PairBreaks(es: seq<Event>, id: ServerId, a: Kind, b: Kind) returns (r: seq<Event>)
    requires OrderlyRun(es) && Quiescent(Exec(es), id) && id in Exec(es).rows && !SafePair(a, b)
    ensures Follows(es + Both(id, a, b), r, |es| + 2) && CarefulFrom(r, |es| + 2)
    ensures Quiescent(Exec(r), id) && !Agree(Exec(r), id)
    ensures id in Exec(r).rows && Exec(r).rows[id].status == Running
    ensures a.Stop? || b.Stop? ==> !Up(Exec(r), Exec(r).rows[id].name)
  {
    var s, k := Exec(es), |es| + 2;
    OrderlyInv(es);
    var r1, status := WritesBoth(es, id, a, b, k);
    var other := if a.Start? then b else a;
    var n := s.names[id];
    assert multiset{Command(id, n, a), Command(id, n, b)} == multiset{Command(id, n, Start), Command(id, n, other)};
    var r2 := StartsFirst(r1, s, id, other, status, k);
    if other.Stop? { r := StopsLate(r2, s, id, k); } else { r := StartsAgain(r2, s, id, k); }
    FollowsOn(es + Both(id, a, b), r1, r2, k);
    FollowsOn(es + Both(id, a, b), r2, r, k);
    OverIsQuiescent(s, id, Running, Some(s.nextContainer), Exec(r));
  }

  /** Everything that happens is apart from the server. */
  ghost predicate AllApart(es: seq<Event>, more: seq<Event>, id: ServerId) {
    forall i :: 0 <= i < |more| ==> Apart(Exec(es + more[..i]), id, more[i])
  }

  lemma PlainIsApart(s: Sys, id: ServerId, e: Event)
    requires Careful(s, e) && Plain(e)
    ensures Apart(s, id, e)
  {
  }

  lemma FollowsApart(es: seq<Event>, r: seq<Event>, id: ServerId)
    requires Follows(es, r, |es|) && CarefulFrom(r, |es|)
    ensures es + r[|es|..] == r && AllApart(es, r[|es|..], id)
  {
    var more := r[|es|..];
    assert es + more == r;
    forall i | 0 <= i < |more|
      ensures Apart(Exec(es + more[..i]), id, more[i])
    {
      assert es + more[..i] == r[..|es| + i] && more[i] == r[|es| + i];
      PlainIsApart(Exec(es + more[..i]), id, more[i]);
    }
  }

  lemma {:induction false} DoomedRun(es: seq<Event>, more: seq<Event>, id: ServerId)
    requires Doomed(Exec(es), id) && AllApart(es, more, id)
    ensures Doomed(Exec(es + more), id)
  {
    if more == [] {
      assert es + more == es;
    } else {
      var k := |more| - 1;
      assert forall i :: 0 <= i < k ==> more[..k][..i] == more[..i];
      assert AllApart(es, more[..k], id);
      DoomedRun(es, more[..k], id);
      ExecAfter(es, more);
      assert Apart(Exec(es + more[..k]), id, more[k]);
      DoomedStays(Exec(es + more[..k]), id, more[k]);
    }
  }

  lemma StopPairAgrees(es: seq<Event>, more: seq<Event>, id: ServerId)
    requires OrderlyRun(es) && Quiescent(Exec(es), id) && id in Exec(es).rows
    requires AllApart(es + Both(id, Stop, Stop), more, id) && !WritePending(Exec(es + Both(id, Stop, Stop) + more), id)
    ensures Agree(Exec(es + Both(id, Stop, Stop) + more), id)
  {
    var es2 := es + Both(id, Stop, Stop);
    OrderlyInv(es);
    QuiescentMeansOnlyStops(Exec(es), id);
    var r := Then(es, Master(Send(id, Stop, true)), 0);
    OnlyStopsStays(Exec(es), id, Master(Send(id, Stop, true)));
    var r' := Then(r, Master(Send(id, Stop, true)), 0);
    OnlyStopsStays(Exec(r), id, Master(Send(id, Stop, true)));
    assert r' == es2;
    ApartIsStopping(es2, more, id);
    StopsTogether(es2, more, id);
    OnlyStopsAgrees(Exec(es2 + more), id);
  }

  lemma ApartIsStopping(es: seq<Event>, more: seq<Event>, id: ServerId)
    requires AllApart(es, more, id)
    ensures GoesOnStopping(es, more, id)
  {
  }

  lemma DeletePairAgrees(es: seq<Event>, more: seq<Event>, id: ServerId, a: Kind, b: Kind)
    requires id in Exec(es).names && (a.Delete? || b.Delete?)
    requires AllApart(es + Both(id, a, b), more, id) && !WritePending(Exec(es + Both(id, a, b) + more), id)
    ensures Agree(Exec(es + Both(id, a, b) + more), id)
  {
    Sends(es, id, a, b);
    DoomedRun(es + Both(id, a, b), more, id);
    DoomedAgrees(Exec(es + Both(id, a, b) + more), id);
  }

  ghost predicate PairAgrees(es: seq<Event>, id: ServerId, a: Kind, b: Kind) {
    forall more {:trigger AllApart(es + Both(id, a, b), more, id)} ::
      AllApart(es + Both(id, a, b), more, id) && !WritePending(Exec(es + Both(id, a, b) + more), id) ==>
        Agree(Exec(es + Both(id, a, b) + more), id)
  }

  /** Two commands for one server sent without waiting in between, at any moment of an orderly run when
      nothing is under way for it: however the rest of the run goes, its row agrees whenever the master
      owes it no write, if and only if one of them is a delete command or both are stop commands. */
  lemma PairAgreesIff(es: seq<Event>, id: ServerId, a: Kind, b: Kind)
    requires OrderlyRun(es) && Quiescent(Exec(es), id) && id in Exec(es).rows
    ensures PairAgrees(es, id, a, b) <==> SafePair(a, b)
  {
    OrderlyInv(es);
    if SafePair(a, b) {
      forall more | AllApart(es + Both(id, a, b), more, id) && !WritePending(Exec(es + Both(id, a, b) + more), id)
        ensures Agree(Exec(es + Both(id, a, b) + more), id)
      {
        if a.Stop? && b.Stop? { StopPairAgrees(es, more, id); } else { DeletePairAgrees(es, more, id, a, b); }
      }
    } else {
      var r := PairBreaks(es, id, a, b);
      FollowsApart(es + Both(id, a, b), r, id);
    }
  }

  // ---- Taking over a container name

  lemma {:induction false} WritesAreNamed(es: seq<Event>, w: Write)
    ensures Exec(es).writes[w] > 0 ==> w.id in Exec(es).names
  {
    if es == [] {
    } else {
      WritesAreNamed(es[..|es| - 1], w);
      StepWrites(Exec(es[..|es| - 1]), es[|es| - 1], w);
    }
  }

  lemma StepWrites(s: Sys, e: Event, w: Write)
    requires s.writes[w] > 0 ==> w.id in s.names
    ensures Step(s, e).writes[w] > 0 ==> w.id in Step(s, e).names
  {
    if Enabled(s, e) {
      match e
      case Master(m) => MasterWrites(s, m, w);
      case Mail(l) => MailFrame(s, l, Step(s, e));
      case Docker(_, _) =>
    }
  }

  lemma MasterWrites(s: Sys, e: MasterEvent, w: Write)
    requires MasterEnabled(s, e)
    ensures MasterStep(s, e).writes[w] > 0 ==> s.writes[w] > 0 || w.id in s.names
    ensures s.names.Keys <= MasterStep(s, e).names.Keys
  {
  }

  lemma UnknownIsQuiescent(es: seq<Event>, id: ServerId)
    requires Inv(Exec(es)) && id !in Exec(es).names
    ensures Quiescent(Exec(es), id)
  {
    var s := Exec(es);
    forall cmd: Command | cmd.id == id
      ensures s.commands[cmd] == 0
    {
      assert CommandOk(s, cmd);
    }
    forall r: Reply | r.id == id
      ensures s.replies[r] == 0
    {
      assert ReplyOk(s, r);
    }
    forall g | g in s.goroutines
      ensures s.goroutines[g].id != id
    {
      assert GoroutineOk(s, g);
    }
    forall k
      ensures s.writes[Write(id, k)] == 0
    {
      WritesAreNamed(es, Write(id, k));
    }
  }

  function TakenOver(s: Sys, id: ServerId, n: ContainerName): Sys {
    s.(rows := s.rows[id := Row(n, Stopped, None)], names := s.names[id := n])
  }

  /** Only messages of other servers came or went, and the row of the server is a given one. */
  ghost predicate OverFor(s: Sys, id: ServerId, n: ContainerName, status: Status, c: Option<nat>, s': Sys) {
    && s'.writes == s.writes && s'.goroutines == s.goroutines
    && (forall cmd: Command :: cmd.id == id ==> s'.commands[cmd] == s.commands[cmd])
    && (forall r: Reply :: r.id == id ==> s'.replies[r] == s.replies[r])
    && id in s'.rows && s'.rows[id] == Row(n, status, c)
  }

  lemma OverForIsQuiescent(s: Sys, id: ServerId, n: ContainerName, status: Status, c: Option<nat>, s': Sys)
    requires Quiescent(s, id) && OverFor(s, id, n, status, c, s')
    ensures Quiescent(s', id)
  {
  }

  /** A start command of the former holder brings its container up beside a row that says stopped. */
  lemma FormerStarts(es: seq<Event>, s: Sys, h: ServerId, n: ContainerName, id: ServerId, k: nat)
    returns (r: seq<Event>)
    requires h != id && OneOfAName(s.docker) && s.commands[Command(h, n, Start)] > 0
    requires Exec(es) == TakenOver(s, id, n)
    ensures Follows(es, r, k) && OverFor(s, id, n, Stopped, None, Exec(r)) && Up(Exec(r), n)
  {
    r := Starts(es, h, n, k);
    assert s.nextContainer in Exec(r).docker && Exec(r).docker[s.nextContainer] == Container(n, true);
  }

  /** The new server is started by the book. */
  lemma NewServerRuns(es: seq<Event>, s: Sys, n: ContainerName, id: ServerId, k: nat) returns (r: seq<Event>)
    requires OneOfAName(s.docker) && !WritePending(s, id) && Exec(es) == TakenOver(s, id, n)
    ensures es <= r && (CarefulFrom(es, k) ==> CarefulFrom(r, k))
    ensures OverFor(s, id, n, Running, Some(s.nextContainer), Exec(r)) && OneOfAName(Exec(r).docker)
    ensures Exec(r).commands == s.commands
    ensures s.nextContainer in Exec(r).docker && Exec(r).docker[s.nextContainer] == Container(n, true)
  {
    var r1 := NewServerCommanded(es, s, n, id, k);
    var r2 := NewServerStarts(r1, s, n, id, k);
    r := NewServerAnswers(r2, s, n, id, k);
  }

  lemma NewServerCommanded(es: seq<Event>, s: Sys, n: ContainerName, id: ServerId, k: nat) returns (r: seq<Event>)
    requires !WritePending(s, id) && Exec(es) == TakenOver(s, id, n)
    ensures es <= r && (CarefulFrom(es, k) ==> CarefulFrom(r, k))
    ensures var s1 := TakenOver(s, id, n);
      Exec(r) == s1.(commands := s1.commands + multiset{Command(id, n, Start)},
        rows := s1.rows[id := Row(n, Starting, None)])
  {
    assert !WritePending(TakenOver(s, id, n), id);
    r := Commands(es, id, Start, k);
  }

  lemma NewServerAnswers(es: seq<Event>, s: Sys, n: ContainerName, id: ServerId, k: nat) returns (r: seq<Event>)
    requires var s2 := Exec(es);
      && s2.writes == s.writes && s2.goroutines == s.goroutines && s2.commands == s.commands
      && s2.replies == s.replies + multiset{Reply(id, Running, Some(s.nextContainer))}
      && s2.rows == s.rows[id := Row(n, Starting, None)]
    ensures Follows(es, r, k) && Exec(r).docker == Exec(es).docker && Exec(r).commands == s.commands
    ensures OverFor(s, id, n, Running, Some(s.nextContainer), Exec(r))
  {
    r := Handles(es, Reply(id, Running, Some(s.nextContainer)), k);
  }

  lemma NewServerStarts(es: seq<Event>, s: Sys, n: ContainerName, id: ServerId, k: nat) returns (r: seq<Event>)
    requires OneOfAName(s.docker)
    requires var s1 := TakenOver(s, id, n);
      Exec(es) == s1.(commands := s1.commands + multiset{Command(id, n, Start)},
        rows := s1.rows[id := Row(n, Starting, None)])
    ensures Follows(es, r, k) && OneOfAName(Exec(r).docker)
    ensures var s2 := Exec(r);
      && s2.writes == s.writes && s2.goroutines == s.goroutines && s2.commands == s.commands
      && s2.replies == s.replies + multiset{Reply(id, Running, Some(s.nextContainer))}
      && s2.rows == s.rows[id := Row(n, Starting, None)]
      && s.nextContainer in s2.docker && s2.docker[s.nextContainer] == Container(n, true)
  {
    var cmd := Command(id, n, Start);
    assert s.commands + multiset{cmd} - multiset{cmd} == s.commands;
    r := Starts(es, id, n, k);
    WithoutKeepsOne(s.docker, n);
    LaunchedOne(s.(docker := Without(s.docker, n)), id, n);
  }

  /** Then a stop or delete command of the former holder finds the new server's container. */
  lemma FormerStops(es: seq<Event>, s: Sys, h: ServerId, n: ContainerName, kind: Kind, id: ServerId, c: nat, k: nat)
    returns (r: seq<Event>)
    requires h != id && !kind.Start? && Exec(es).commands[Command(h, n, kind)] > 0
    requires OverFor(s, id, n, Running, Some(c), Exec(es)) && OneOfAName(Exec(es).docker)
    requires c in Exec(es).docker && Exec(es).docker[c] == Container(n, true)
    ensures Follows(es, r, k) && OverFor(s, id, n, Running, Some(c), Exec(r)) && !UpAs(Exec(r), n, Some(c))
  {
    if kind.Stop? { r := StopsRunning(es, h, n, c, k); } else { r := Deletes(es, h, n, c, k); }
  }

  /** While any command of a former holder is on its way, or its container is up, a server created under
      the name can end up with a wrong row, although every later step is careful, nothing is lost and
      nothing fails. */
  lemma TakeoverBreaks(es: seq<Event>, h: ServerId, n: ContainerName, kind: Kind, id: ServerId) returns (r: seq<Event>)
    requires OrderlyRun(es) && id !in Exec(es).names
    requires Up(Exec(es), n) || Exec(es).commands[Command(h, n, kind)] > 0
    ensures es + [Master(CreateServer(id, n))] <= r && CarefulFrom(r, |es| + 1)
    ensures Quiescent(Exec(r), id) && !Agree(Exec(r), id)
  {
    var s, k := Exec(es), |es| + 1;
    OrderlyInv(es);
    UnknownIsQuiescent(es, id);
    var r1 := Then(es, Master(CreateServer(id, n)), k);
    if Up(s, n) {
      r := r1;
      NewRowAgrees(s, id, n);
      OverForIsQuiescent(s, id, n, Stopped, None, Exec(r));
    } else {
      assert CommandOk(s, Command(h, n, kind));
      r := FormerBreaks(r1, s, h, n, kind, id, k);
    }
  }

  lemma FormerBreaks(es: seq<Event>, s: Sys, h: ServerId, n: ContainerName, kind: Kind, id: ServerId, k: nat)
    returns (r: seq<Event>)
    requires h != id && OneOfAName(s.docker) && s.commands[Command(h, n, kind)] > 0 && Quiescent(s, id)
    requires Exec(es) == TakenOver(s, id, n)
    ensures es <= r && (CarefulFrom(es, k) ==> CarefulFrom(r, k))
    ensures Quiescent(Exec(r), id) && !Agree(Exec(r), id)
  {
    if kind.Start? {
      r := FormerStarts(es, s, h, n, id, k);
      OverForIsQuiescent(s, id, n, Stopped, None, Exec(r));
    } else {
      r := NewServerRuns(es, s, n, id, k);
      r := FormerStops(r, s, h, n, kind, id, s.nextContainer, k);
      OverForIsQuiescent(s, id, n, Running, Some(s.nextContainer), Exec(r));
    }
  }

  /** Nothing of a former holder of the name is being worked on by the agent or about to be answered. */
  ghost predicate AgentDone(s: Sys, n: ContainerName) {
    forall i {:trigger Owner(s, i)} :: i in s.names && s.names[i] == n ==>
      && i !in s.rows
      && (forall g :: g in s.goroutines ==> s.goroutines[g].id != i)
      && (forall r: Reply :: r.id == i ==> s.replies[r] == 0)
  }

  ghost predicate TakeoverAgrees(es: seq<Event>, id: ServerId, n: ContainerName) {
    forall r {:trigger CarefulFrom(r, |es| + 1)} ::
      es + [Master(CreateServer(id, n))] <= r && CarefulFrom(r, |es| + 1) && !WritePending(Exec(r), id) ==>
        Agree(Exec(r), id)
  }

  /** A free name may be taken over: the row agrees from then on in every careful run. */
  lemma FreeNameAgrees(es: seq<Event>, id: ServerId, n: ContainerName, r: seq<Event>)
    requires OrderlyRun(es) && NameFree(Exec(es), n)
    requires es + [Master(CreateServer(id, n))] <= r && CarefulFrom(r, |es| + 1) && !WritePending(Exec(r), id)
    ensures Agree(Exec(r), id)
  {
    CreationIsOrderly(es, id, n);
    CarefulRest(es + [Master(CreateServer(id, n))], r);
    OrderlyServersAgree(r, id);
  }

  lemma CreationIsOrderly(es: seq<Event>, id: ServerId, n: ContainerName)
    requires OrderlyRun(es) && NameFree(Exec(es), n)
    ensures OrderlyRun(es + [Master(CreateServer(id, n))])
  {
    var es1 := es + [Master(CreateServer(id, n))];
    assert es1[..|es1| - 1] == es;
    OrderlySnoc(es1);
  }

  lemma {:induction false} CarefulRest(es: seq<Event>, r: seq<Event>)
    requires es <= r && OrderlyRun(es) && CarefulFrom(r, |es|)
    ensures OrderlyRun(r)
  {
    if |r| == |es| {
      assert r == es;
    } else {
      var front := r[..|r| - 1];
      CarefulFromFront(r, |es|);
      CarefulRest(es, front);
      OrderlyAfter(r);
    }
  }

  lemma OrderlyAfter(r: seq<Event>)
    requires r != [] && OrderlyRun(r[..|r| - 1]) && Careful(Exec(r[..|r| - 1]), r[|r| - 1])
    ensures OrderlyRun(r)
  {
    OrderlyInv(r[..|r| - 1]);
    CarefulIsOrderly(Exec(r[..|r| - 1]), r[|r| - 1]);
    OrderlySnoc(r);
  }

  lemma CarefulFromFront(r: seq<Event>, k: nat)
    requires k < |r| && CarefulFrom(r, k)
    ensures CarefulFrom(r[..|r| - 1], k) && Careful(Exec(r[..|r| - 1]), r[|r| - 1])
  {
    var front := r[..|r| - 1];
    forall i | k <= i < |front|
      ensures Careful(Exec(front[..i]), front[i])
    {
      assert front[..i] == r[..i];
    }
  }

  /** Creating a server under a container name, at a moment of an orderly run when the agent is done with
      the former holders: its row agrees in every careful run from then on if and only if the name is
      free, that is, no command of a former holder is on its way and no container is up under it. */
  lemma TakeoverAgreesIff(es: seq<Event>, id: ServerId, n: ContainerName)
    requires OrderlyRun(es) && id !in Exec(es).names && AgentDone(Exec(es), n)
    ensures TakeoverAgrees(es, id, n) <==> NameFree(Exec(es), n)
  {
    if NameFree(Exec(es), n) { FreeNamesAgree(es, id, n); } else { TakenNamesBreak(es, id, n); }
  }

  lemma FreeNamesAgree(es: seq<Event>, id: ServerId, n: ContainerName)
    requires OrderlyRun(es) && NameFree(Exec(es), n)
    ensures TakeoverAgrees(es, id, n)
  {
    forall r | es + [Master(CreateServer(id, n))] <= r && CarefulFrom(r, |es| + 1) && !WritePending(Exec(r), id)
      ensures Agree(Exec(r), id)
    {
      FreeNameAgrees(es, id, n, r);
    }
  }

  lemma TakenNamesBreak(es: seq<Event>, id: ServerId, n: ContainerName)
    requires OrderlyRun(es) && id !in Exec(es).names && AgentDone(Exec(es), n) && !NameFree(Exec(es), n)
    ensures !TakeoverAgrees(es, id, n)
  {
    OrderlyInv(es);
    CommandsNamed(Exec(es));
    var h, kind := Obstacle(Exec(es), n);
    var r := TakeoverBreaks(es, h, n, kind, id);
    assert CarefulFrom(r, |es| + 1);
  }

  lemma CommandsNamed(s: Sys)
    requires Inv(s)
    ensures forall cmd {:trigger CommandOk(s, cmd)} :: CommandOk(s, cmd)
  {
  }

  lemma Obstacle(s: Sys, n: ContainerName) returns (h: ServerId, kind: Kind)
    requires AgentDone(s, n) && !NameFree(s, n)
    requires forall cmd {:trigger CommandOk(s, cmd)} :: CommandOk(s, cmd)
    ensures Up(s, n) || s.commands[Command(h, n, kind)] > 0
  {
    h :| h in s.names && s.names[h] == n && (Owner(s, h) || Up(s, n));
    kind := Start;
    if !Up(s, n) {
      var cmd: Command :| cmd.id == h && s.commands[cmd] > 0;
      assert CommandOk(s, cmd);
      kind := cmd.kind;
    }
  }
}
