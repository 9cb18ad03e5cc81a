/** The registry and the closed channels as exact functions of what happened. */
module HubHistory {
  import opened Options
  import opened Hub
  import opened HubSystem

  /** The connection a name stands for after a history. */
  function Current(h: seq<RegEvent>, n: Name): Option<ConnId> {
    if h == [] then None
    else
      var e := h[|h| - 1];
      if e.name != n then Current(h[..|h| - 1], n)
      else if e.Reg? then Some(e.c)
      else None
  }

  /** The channels closed by a history: an unregistration closes its own channel, and only when the
      name stands for some connection. */
  function ClosedBy(h: seq<RegEvent>): set<ConnId> {
    if h == [] then {}
    else
      var e, front := h[|h| - 1], h[..|h| - 1];
      if e.Unreg? && Current(front, e.name).Some? then ClosedBy(front) + {e.c} else ClosedBy(front)
  }

  ghost predicate Recorded(s: Sys) {
    && s.hub.closed == ClosedBy(s.history)
    && forall n {:trigger Current(s.history, n)} :: Lookup(s.hub.agents, n) == Current(s.history, n)
  }

  ghost predicate SameRecord(s: Sys, s': Sys) {
    s'.hub.agents == s.hub.agents && s'.hub.closed == s.hub.closed && s'.history == s.history
  }

  lemma JoinKeepsRecord(s: Sys, j: JoinEvent)
    requires JoinEnabled(s, j)
    ensures SameRecord(s, JoinStep(s, j))
  {
  }

  lemma LifeKeepsRecord(s: Sys, l: LifeEvent)
    requires LifeEnabled(s, l) && !l.DoRegister? && !l.DoUnregister?
    ensures SameRecord(s, LifeStep(s, l))
  {
  }

  lemma TrafficKeepsRecord(s: Sys, m: TrafficEvent)
    requires TrafficEnabled(s, m)
    ensures SameRecord(s, TrafficStep(s, m))
  {
  }

  lemma CurrentSnoc(h: seq<RegEvent>, e: RegEvent, n: Name)
    ensures Current(h + [e], n) == if e.name != n then Current(h, n) else if e.Reg? then Some(e.c) else None
    ensures ClosedBy(h + [e]) == if e.Unreg? && Current(h, e.name).Some? then ClosedBy(h) + {e.c} else ClosedBy(h)
  {
    assert (h + [e])[..|h|] == h;
  }

  lemma RegistryRecorded(s: Sys, s': Sys, e: RegEvent)
    requires Recorded(s) && s'.history == s.history + [e]
    requires s'.hub == (if e.Reg? then s.hub.Register(e.name, e.c) else s.hub.Unregister(e.name, e.c))
    ensures Recorded(s')
  {
    assert Lookup(s.hub.agents, e.name) == Current(s.history, e.name);
    CurrentSnoc(s.history, e, e.name);
    forall m
      ensures Lookup(s'.hub.agents, m) == Current(s'.history, m)
    {
      assert Lookup(s.hub.agents, m) == Current(s.history, m);
      CurrentSnoc(s.history, e, m);
    }
  }

  lemma DoRegisterRecorded(s: Sys, l: LifeEvent)
    requires Recorded(s) && LifeEnabled(s, l) && (l.DoRegister? || l.DoUnregister?)
    ensures Recorded(LifeStep(s, l))
  {
    var n := s.conns[s.run.c].name;
    RegistryRecorded(s, LifeStep(s, l), if l.DoRegister? then Reg(n, s.run.c) else Unreg(n, s.run.c));
  }

  lemma {:induction false} ExecRecorded(es: seq<Event>)
    ensures Recorded(Exec(es))
  {
    if es == [] {
    } else {
      var s, e := Exec(es[..|es| - 1]), es[|es| - 1];
      ExecRecorded(es[..|es| - 1]);
      if Enabled(s, e) {
        match e
        case Join(j) => JoinKeepsRecord(s, j);
        case Life(l) =>
          if l.DoRegister? || l.DoUnregister? { DoRegisterRecorded(s, l); } else { LifeKeepsRecord(s, l); }
        case Traffic(m) => TrafficKeepsRecord(s, m);
        case Restart =>
      }
    }
  }

  // ---- By position

  ghost predicate LastOfName(h: seq<RegEvent>, n: Name, i: int) {
    0 <= i < |h| && h[i].name == n && forall j :: i < j < |h| ==> h[j].name != n
  }

  lemma {:induction false} CurrentMeaning(h: seq<RegEvent>, n: Name, c: ConnId)
    ensures Current(h, n) == Some(c) <==> exists i :: LastOfName(h, n, i) && h[i] == Reg(n, c)
  {
    if h == [] {
    } else {
      var k := |h| - 1;
      var front := h[..k];
      CurrentMeaning(front, n, c);
      if h[k].name == n {
        assert LastOfName(h, n, k);
      } else {
        forall i
          ensures LastOfName(h, n, i) <==> LastOfName(front, n, i)
        {
        }
        forall i | LastOfName(front, n, i)
          ensures h[i] == front[i]
        {
        }
      }
    }
  }

  ghost predicate Closes(h: seq<RegEvent>, i: nat, c: ConnId) {
    i < |h| && h[i].Unreg? && h[i].c == c && Current(h[..i], h[i].name).Some?
  }

  lemma {:induction false} ClosedMeaning(h: seq<RegEvent>, c: ConnId)
    ensures c in ClosedBy(h) <==> exists i :: Closes(h, i, c)
  {
    if h == [] {
    } else {
      var k := |h| - 1;
      var front := h[..k];
      ClosedMeaning(front, c);
      forall i: nat | i < k
        ensures Closes(h, i, c) <==> Closes(front, i, c)
      {
        assert h[..i] == front[..i];
      }
      if c in ClosedBy(front) {
        var i: nat :| Closes(front, i, c);
        assert Closes(h, i, c);
      }
      assert c in ClosedBy(h) && c !in ClosedBy(front) ==> Closes(h, k, c);
    }
  }

  /** In every run, agents[n] is c exactly when c was the last connection registered under n and no
      connection of that name, c or another, has unregistered since. */
  lemma RegistryIsExact(es: seq<Event>, n: Name, c: ConnId)
    ensures var s := Exec(es);
      (n in s.hub.agents && s.hub.agents[n] == c) <==>
        exists i :: LastOfName(s.history, n, i) && s.history[i] == Reg(n, c)
  {
    ExecRecorded(es);
    var s := Exec(es);
    CurrentMeaning(s.history, n, c);
    assert Lookup(s.hub.agents, n) == Current(s.history, n);
  }

  /** In every run, a channel is closed exactly when its connection unregistered while its name stood
      for some connection. */
  lemma ClosingIsExact(es: seq<Event>, c: ConnId)
    ensures var s := Exec(es);
      c in s.hub.closed <==> exists i :: Closes(s.history, i, c)
  {
    ExecRecorded(es);
    ClosedMeaning(Exec(es).history, c);
  }

  /** From a history that leaves a name without a connection, only later events of the name count. */
  lemma {:induction false} CurrentAfter(h: seq<RegEvent>, more: seq<RegEvent>, n: Name)
    requires Current(h, n).None?
    ensures Current(h + more, n) == Current(more, n)
  {
    if more == [] {
      assert h + more == h;
    } else {
      var k := |more| - 1;
      assert (h + more)[..|h| + k] == h + more[..k];
      CurrentAfter(h, more[..k], n);
    }
  }

  lemma {:induction false} ClosedAfter(h: seq<RegEvent>, more: seq<RegEvent>, c: ConnId)
    requires c !in ClosedBy(h) && forall i :: 0 <= i < |more| ==> !(more[i].Unreg? && more[i].c == c)
    ensures c !in ClosedBy(h + more)
  {
    if more == [] {
      assert h + more == h;
    } else {
      var k := |more| - 1;
      assert (h + more)[..|h| + k] == h + more[..k];
      ClosedAfter(h, more[..k], c);
    }
  }

  /** A connection that was replaced takes its successor out of the registry when it unregisters.  When
      the successor unregisters later, its channel is closed if and only if some other connection has
      registered the name since and is still there. */
  lemma StaleUnregistration(h: seq<RegEvent>, n: Name, c1: ConnId, c2: ConnId, more: seq<RegEvent>)
    requires c1 != c2 && c2 !in ClosedBy(h)
    requires forall i :: 0 <= i < |more| ==> !(more[i].Unreg? && more[i].c == c2)
    ensures var h1 := h + [Reg(n, c1)] + [Reg(n, c2)] + [Unreg(n, c1)];
      && Current(h1, n).None? && c2 !in ClosedBy(h1 + more)
      && (c2 in ClosedBy(h1 + more + [Unreg(n, c2)]) <==> exists i :: LastOfName(more, n, i) && more[i].Reg?)
  {
    CurrentSnoc(h, Reg(n, c1), n);
    CurrentSnoc(h + [Reg(n, c1)], Reg(n, c2), n);
    CurrentSnoc(h + [Reg(n, c1)] + [Reg(n, c2)], Unreg(n, c1), n);
    var h1 := h + [Reg(n, c1)] + [Reg(n, c2)] + [Unreg(n, c1)];
    CurrentAfter(h1, more, n);
    ClosedAfter(h1, more, c2);
    CurrentSnoc(h1 + more, Unreg(n, c2), n);
    CurrentIsRegistered(more, n);
  }

  lemma CurrentIsRegistered(h: seq<RegEvent>, n: Name)
    ensures Current(h, n).Some? <==> exists i :: LastOfName(h, n, i) && h[i].Reg?
  {
    if i :| LastOfName(h, n, i) && h[i].Reg? {
      CurrentMeaning(h, n, h[i].c);
      assert LastOfName(h, n, i) && h[i] == Reg(n, h[i].c);
    }
    if Current(h, n).Some? {
      CurrentMeaning(h, n, Current(h, n).value);
    }
  }
}
