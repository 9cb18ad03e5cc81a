/** What happens when one command runs from its arrival at the agent to its answer, with nothing else
    moving and nothing failing, from any state. */
module LifecycleMoves {
  import opened Columns
  import opened Options
  import opened Lifecycle
  import opened LifecycleAgreement

  /** From its k-th event on, the run is careful. */
  ghost predicate CarefulFrom(es: seq<Event>, k: nat) {
    forall i :: k <= i < |es| ==> Careful(Exec(es[..i]), es[i])
  }

  lemma Then(es: seq<Event>, e: Event, k: nat) returns (r: seq<Event>)
    ensures r == es + [e] && Exec(r) == Step(Exec(es), e)
    ensures CarefulFrom(es, k) && (Careful(Exec(es), e) || k > |es|) ==> CarefulFrom(r, k)
  {
    r := es + [e];
    assert r[..|es|] == es;
    if CarefulFrom(es, k) && (Careful(Exec(es), e) || k > |es|) {
      forall i | k <= i < |r|
        ensures Careful(Exec(r[..i]), r[i])
      {
        assert i < |es| ==> r[..i] == es[..i] && r[i] == es[i];
      }
    }
  }

  /** Nothing is created or commanded. */
  predicate Plain(e: Event) {
    e.Master? ==> !e.m.CreateServer? && !e.m.Send?
  }

  /** r goes on from es with plain events, and carefully if es was careful. */
  ghost predicate Follows(es: seq<Event>, r: seq<Event>, k: nat) {
    && es <= r && (CarefulFrom(es, k) ==> CarefulFrom(r, k))
    && forall i :: |es| <= i < |r| ==> Plain(r[i])
  }

  // ---- Pieces

  /** The state with one more goroutine. */
  function At(s: Sys, g: nat, id: ServerId, n: ContainerName, pc: Pc): Sys {
    s.(goroutines := s.goroutines[g := Goroutine(id, n, pc)])
  }

  function Taken(s: Sys, cmd: Command): Sys {
    s.(commands := s.commands - multiset{cmd})
  }

  function Answered(s: Sys, r: Reply): Sys {
    s.(replies := s.replies + multiset{r})
  }

  lemma Arrives(es: seq<Event>, g: nat, cmd: Command, k: nat) returns (r: seq<Event>)
    requires Exec(es).commands[cmd] > 0 && g !in Exec(es).goroutines
    ensures Follows(es, r, k) && Exec(r) == At(Taken(Exec(es), cmd), g, cmd.id, cmd.name, FirstCall(cmd.kind))
  {
    r := Then(es, Mail(Receive(g, cmd)), k);
  }

  lemma Reports(es: seq<Event>, s: Sys, g: nat, id: ServerId, n: ContainerName, reply: Reply, k: nat)
    returns (r: seq<Event>)
    requires Exec(es) == At(s, g, id, n, Report(reply)) && g !in s.goroutines
    ensures Follows(es, r, k) && Exec(r) == Answered(s, reply)
  {
    assert At(s, g, id, n, Report(reply)).goroutines - {g} == s.goroutines;
    r := Then(es, Mail(Reported(g, true)), k);
  }

  lemma Finds(es: seq<Event>, s: Sys, g: nat, id: ServerId, n: ContainerName, pc: Pc, c: nat, k: nat)
    returns (r: seq<Event>)
    requires Finding(pc) && Exec(es) == At(s, g, id, n, pc) && c in s.docker && s.docker[c].name == n
    ensures Follows(es, r, k)
    ensures Exec(r) == At(s, g, id, n,
        match pc case FindOld => StopOld(c) case FindRunning => StopRunning(c) case _ => StopAny(c))
  {
    r := Then(es, Docker(g, Found(Some(c))), k);
  }

  lemma Stops(es: seq<Event>, s: Sys, g: nat, id: ServerId, n: ContainerName, pc: Pc, k: nat) returns (r: seq<Event>)
    requires StopsAt(pc) && Exec(es) == At(s, g, id, n, pc) && pc.c in s.docker
    ensures Follows(es, r, k)
    ensures Exec(r) == At(s.SetRunning(pc.c, false), g, id, n,
                          match pc
                          case StopOld(c) => RemoveOld(c)
                          case StopRunning(_) => Report(Reply(id, Stopped, None))
                          case _ => RemoveAny(pc.c))
  {
    r := Then(es, Docker(g, StopReturned(true, false)), k);
  }

  lemma Removes(es: seq<Event>, s: Sys, g: nat, id: ServerId, n: ContainerName, pc: Pc, k: nat) returns (r: seq<Event>)
    requires Removing(pc) && Exec(es) == At(s, g, id, n, pc)
    ensures Follows(es, r, k)
    ensures Exec(r) == At(s.(docker := s.docker - {pc.c}), g, id, n,
                          if pc.RemoveOld? then CreateNew else Report(Reply(id, Deleted, None)))
  {
    r := Then(es, Docker(g, RemoveReturned(true)), k);
  }

  // ---- Whole commands

  /** A container of a new id is up under the name, and only that one is left of the name. */
  function Launched(s: Sys, id: ServerId, n: ContainerName): Sys {
    var c := s.nextContainer;
    s.(docker := s.docker[c := Container(n, true)], nextContainer := c + 1,
       created := s.created + {(id, c)}, started := s.started + {(id, c)})
  }

  function Created(s: Sys, id: ServerId, n: ContainerName): Sys {
    var c := s.nextContainer;
    s.(docker := s.docker[c := Container(n, false)], nextContainer := c + 1, created := s.created + {(id, c)})
  }

  lemma Creates(es: seq<Event>, s: Sys, g: nat, id: ServerId, n: ContainerName, k: nat) returns (r: seq<Event>)
    requires Exec(es) == At(s, g, id, n, CreateNew) && !NameInUse(s.docker, n)
    ensures Follows(es, r, k) && Exec(r) == At(Created(s, id, n), g, id, n, StartNew(s.nextContainer))
  {
    r := Then(es, Docker(g, CreateReturned(true)), k);
  }

  lemma StartsNew(es: seq<Event>, s: Sys, g: nat, id: ServerId, n: ContainerName, k: nat) returns (r: seq<Event>)
    requires Exec(es) == At(Created(s, id, n), g, id, n, StartNew(s.nextContainer))
    ensures Follows(es, r, k)
    ensures Exec(r) == At(Launched(s, id, n), g, id, n, Report(Reply(id, Running, Some(s.nextContainer))))
  {
    StartReturns(s, g, id, n);
    r := Then(es, Docker(g, StartReturned(true, true)), k);
  }

  lemma StartReturns(s: Sys, g: nat, id: ServerId, n: ContainerName)
    ensures var s1 := At(Created(s, id, n), g, id, n, StartNew(s.nextContainer));
      && DockerEnabled(s1, g, StartReturned(true, true))
      && DockerStep(s1, g, StartReturned(true, true))
         == At(Launched(s, id, n), g, id, n, Report(Reply(id, Running, Some(s.nextContainer))))
  {
    assert Created(s, id, n).docker[s.nextContainer := Container(n, true)] == Launched(s, id, n).docker;
  }

  lemma Launches(es: seq<Event>, s: Sys, g: nat, id: ServerId, n: ContainerName, k: nat) returns (r: seq<Event>)
    requires Exec(es) == At(s, g, id, n, CreateNew) && g !in s.goroutines && !NameInUse(s.docker, n)
    ensures Follows(es, r, k)
    ensures Exec(r) == Answered(Launched(s, id, n), Reply(id, Running, Some(s.nextContainer)))
  {
    r := Creates(es, s, g, id, n, k);
    r := StartsNew(r, s, g, id, n, k);
    r := Reports(r, Launched(s, id, n), g, id, n, Reply(id, Running, Some(s.nextContainer)), k);
  }

  /** The containers without those of a name. */
  function Without(docker: map<nat, Container>, n: ContainerName): map<nat, Container> {
    map c | c in docker && docker[c].name != n :: docker[c]
  }

  ghost predicate OneOfAName(docker: map<nat, Container>) {
    forall c, d :: c in docker && d in docker && docker[c].name == docker[d].name ==> c == d
  }

  lemma WithoutOne(s: Sys, c: nat, n: ContainerName)
    requires OneOfAName(s.docker) && c in s.docker && s.docker[c].name == n
    ensures s.SetRunning(c, false).(docker := s.SetRunning(c, false).docker - {c}) == s.(docker := Without(s.docker, n))
  {
    assert s.SetRunning(c, false).docker - {c} == Without(s.docker, n);
  }

  lemma ClearsOne(es: seq<Event>, s: Sys, g: nat, id: ServerId, n: ContainerName, c: nat, k: nat)
    returns (r: seq<Event>)
    requires Exec(es) == At(s, g, id, n, FindOld) && OneOfAName(s.docker) && c in s.docker && s.docker[c].name == n
    ensures Follows(es, r, k)
    ensures Exec(r) == At(s.(docker := Without(s.docker, n)), g, id, n, CreateNew)
  {
    r := Finds(es, s, g, id, n, FindOld, c, k);
    r := Stops(r, s, g, id, n, StopOld(c), k);
    r := Removes(r, s.SetRunning(c, false), g, id, n, RemoveOld(c), k);
    WithoutOne(s, c, n);
  }

  lemma Clears(es: seq<Event>, s: Sys, g: nat, id: ServerId, n: ContainerName, k: nat) returns (r: seq<Event>)
    requires Exec(es) == At(s, g, id, n, FindOld) && OneOfAName(s.docker)
    ensures Follows(es, r, k)
    ensures Exec(r) == At(s.(docker := Without(s.docker, n)), g, id, n, CreateNew)
  {
    if c :| c in s.docker && s.docker[c].name == n {
      r := ClearsOne(es, s, g, id, n, c, k);
    } else {
      r := Then(es, Docker(g, Found(None)), k);
      assert Without(s.docker, n) == s.docker;
    }
  }

  lemma Pulls(es: seq<Event>, s: Sys, g: nat, id: ServerId, n: ContainerName, k: nat) returns (r: seq<Event>)
    requires Exec(es) == At(s, g, id, n, PullImage)
    ensures Follows(es, r, k) && Exec(r) == At(s, g, id, n, FindOld)
  {
    r := Then(es, Docker(g, Pulled(true)), k);
  }

  /** A start command replaces whatever container has the name. */
  lemma Starts(es: seq<Event>, id: ServerId, n: ContainerName, k: nat) returns (r: seq<Event>)
    requires var s := Exec(es); s.commands[Command(id, n, Start)] > 0 && OneOfAName(s.docker)
    ensures Follows(es, r, k)
    ensures var s := Exec(es);
      var s1 := Taken(s, Command(id, n, Start)).(docker := Without(s.docker, n));
      Exec(r) == Answered(Launched(s1, id, n), Reply(id, Running, Some(s.nextContainer)))
  {
    var s := Taken(Exec(es), Command(id, n, Start));
    var g := FreeKey(s.goroutines);
    r := Arrives(es, g, Command(id, n, Start), k);
    r := Pulls(r, s, g, id, n, k);
    r := Clears(r, s, g, id, n, k);
    r := Launches(r, s.(docker := Without(s.docker, n)), g, id, n, k);
  }

  /** A stop or delete command finds container c. */
  lemma StopsRunning(es: seq<Event>, id: ServerId, n: ContainerName, c: nat, k: nat) returns (r: seq<Event>)
    requires var s := Exec(es); s.commands[Command(id, n, Stop)] > 0 && c in s.docker && s.docker[c].name == n
    ensures Follows(es, r, k)
    ensures Exec(r) == Answered(Taken(Exec(es), Command(id, n, Stop)).SetRunning(c, false), Reply(id, Stopped, None))
  {
    var s := Taken(Exec(es), Command(id, n, Stop));
    var g := FreeKey(s.goroutines);
    r := Arrives(es, g, Command(id, n, Stop), k);
    r := Finds(r, s, g, id, n, FindRunning, c, k);
    r := Stops(r, s, g, id, n, StopRunning(c), k);
    r := Reports(r, s.SetRunning(c, false), g, id, n, Reply(id, Stopped, None), k);
  }

  lemma DeletesOne(es: seq<Event>, s: Sys, g: nat, id: ServerId, n: ContainerName, c: nat, k: nat)
    returns (r: seq<Event>)
    requires Exec(es) == At(s, g, id, n, FindAny) && c in s.docker && s.docker[c].name == n && OneOfAName(s.docker)
    ensures Follows(es, r, k)
    ensures Exec(r) == At(s.(docker := Without(s.docker, n)), g, id, n, Report(Reply(id, Deleted, None)))
  {
    r := Finds(es, s, g, id, n, FindAny, c, k);
    r := Stops(r, s, g, id, n, StopAny(c), k);
    r := Removes(r, s.SetRunning(c, false), g, id, n, RemoveAny(c), k);
    WithoutOne(s, c, n);
  }

  lemma Deletes(es: seq<Event>, id: ServerId, n: ContainerName, c: nat, k: nat) returns (r: seq<Event>)
    requires var s := Exec(es);
      s.commands[Command(id, n, Delete)] > 0 && c in s.docker && s.docker[c].name == n && OneOfAName(s.docker)
    ensures Follows(es, r, k)
    ensures var s := Taken(Exec(es), Command(id, n, Delete));
      Exec(r) == Answered(s.(docker := Without(s.docker, n)), Reply(id, Deleted, None))
  {
    var s := Taken(Exec(es), Command(id, n, Delete));
    var g := FreeKey(s.goroutines);
    r := Arrives(es, g, Command(id, n, Delete), k);
    r := DeletesOne(r, s, g, id, n, c, k);
    r := Reports(r, s.(docker := Without(s.docker, n)), g, id, n, Reply(id, Deleted, None), k);
  }

  // ---- The master

  function Written(rows: map<ServerId, Row>, id: ServerId, kind: Kind): map<ServerId, Row> {
    if id !in rows then rows
    else
      match kind
      case Start => rows[id := rows[id].(status := Starting)]
      case Stop => rows[id := rows[id].(status := Stopping)]
      case Delete => rows - {id}
  }

  lemma Writes(es: seq<Event>, w: Write, k: nat) returns (r: seq<Event>)
    requires Exec(es).writes[w] > 0
    ensures Follows(es, r, k)
    ensures var s := Exec(es);
      Exec(r) == s.(rows := Written(s.rows, w.id, w.kind), writes := s.writes - multiset{w})
  {
    r := Then(es, Master(DoWrite(w)), k);
  }

  /** The row after an answer. */
  function Settled(row: Row, reply: Reply): Row {
    row.(status := reply.status, containerId := if reply.containerId.Some? then reply.containerId else row.containerId)
  }

  lemma Handles(es: seq<Event>, reply: Reply, k: nat) returns (r: seq<Event>)
    requires Exec(es).replies[reply] > 0 && reply.id in Exec(es).rows
    ensures Follows(es, r, k)
    ensures var s := Exec(es);
      Exec(r) == s.(rows := s.rows[reply.id := Settled(s.rows[reply.id], reply)],
        replies := s.replies - multiset{reply})
  {
    r := Then(es, Master(HandleReply(reply)), k);
  }

  /** A command is queued, and the row is written right away. */
  lemma Commands(es: seq<Event>, id: ServerId, kind: Kind, k: nat) returns (r: seq<Event>)
    requires id in Exec(es).names
    ensures es <= r
    ensures var s := Exec(es);
      Exec(r) == s.(commands := s.commands + multiset{Command(id, s.names[id], kind)},
        rows := Written(s.rows, id, kind))
    ensures CarefulFrom(es, k) && (Careful(Exec(es), Master(Send(id, kind, true))) || k > |es|) ==> CarefulFrom(r, k)
  {
    var s := Exec(es);
    r := Then(es, Master(Send(id, kind, true)), k);
    r := Writes(r, Write(id, kind), k);
    assert s.writes + multiset{Write(id, kind)} - multiset{Write(id, kind)} == s.writes;
  }

  // ---- Containers and goroutines

  lemma FreeKey<T>(m: map<nat, T>) returns (g: nat)
    ensures g !in m
  {
    g := Above(m.Keys);
  }

  lemma Above(ks: set<nat>) returns (g: nat)
    ensures forall k :: k in ks ==> k < g
  {
    if ks == {} {
      g := 0;
    } else {
      var k :| k in ks;
      var h := Above(ks - {k});
      g := if h > k then h else k + 1;
      forall j | j in ks
        ensures j < g
      {
        assert j == k || j in ks - {k};
      }
    }
  }
}
