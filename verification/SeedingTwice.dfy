/** Exactly when the second boot changes nothing (master/gamedefs.go).  Several registered games may
    share a slug, and a game is turned away when another one has its name: what a boot makes of the
    registry follows from the slugs and names alone. */
module SeedingTwice {
  import opened Options
  import opened Environment
  import opened Seeding

  // ---- Who gets in

  function Names(t: Tables): map<string, string> {
    map s | s in t.games :: t.games[s].name
  }

  /** The slugs and names in the table after a boot. */
  function Entered(names: map<string, string>, games: seq<GameDef>): map<string, string> {
    if games == [] then names
    else
      var e, g := Entered(names, games[..|games| - 1]), games[|games| - 1];
      if GameFits(g) && g.slug !in e && g.name !in e.Values then e[g.slug := g.name] else e
  }

  predicate TurnsAway(e: map<string, string>, g: GameDef) {
    g.slug !in e && g.name in e.Values
  }

  function AdmittedOf(names: map<string, string>, games: seq<GameDef>, s: string): seq<GameDef> {
    if games == [] then []
    else
      var front, g := games[..|games| - 1], games[|games| - 1];
      var e := Entered(names, front);
      AdmittedOf(names, front, s) + if g.slug == s && GameFits(g) && !TurnsAway(e, g) then [g] else []
  }

  /** The games of a slug that fit their columns and were turned away. */
  function TurnedAwayOf(names: map<string, string>, games: seq<GameDef>, s: string): seq<GameDef> {
    if games == [] then []
    else
      var front, g := games[..|games| - 1], games[|games| - 1];
      var e := Entered(names, front);
      TurnedAwayOf(names, front, s) + if g.slug == s && GameFits(g) && TurnsAway(e, g) then [g] else []
  }

  function FittingOf(games: seq<GameDef>, s: string): seq<GameDef> {
    if games == [] then []
    else
      var g := games[|games| - 1];
      FittingOf(games[..|games| - 1], s) + if g.slug == s && GameFits(g) then [g] else []
  }

  function AllModes(games: seq<GameDef>): seq<ModeDef> {
    if games == [] then [] else AllModes(games[..|games| - 1]) + games[|games| - 1].modes
  }

  function ModeSlugs(games: seq<GameDef>): set<string> {
    set m | m in AllModes(games) && ModeFits(m) :: m.slug
  }

  /** Whatever mode a game that was turned away has, a game of its slug that got in has too. */
  ghost predicate Restored(t: Tables, games: seq<GameDef>) {
    forall s {:trigger AdmittedOf(Names(t), games, s)} :: AdmittedOf(Names(t), games, s) != [] ==>
      ModeSlugs(TurnedAwayOf(Names(t), games, s)) <= ModeSlugs(AdmittedOf(Names(t), games, s))
  }

  /** No mode belongs to a game that is still to come; the foreign key sees to that. */
  ghost predicate ModesDrawn(t: Tables) {
    forall k :: k in t.modes ==> k.gameId < t.nextGame
  }

  // ---- Slugs and names

  lemma RefusedByName(t: Tables, g: GameDef)
    ensures Refused(t, g) <==> !GameFits(g) || TurnsAway(Names(t), g)
  {
    if g.name in Names(t).Values {
      var s :| s in Names(t) && Names(t)[s] == g.name;
      assert s in t.games && t.games[s].name == g.name;
    }
    if NameTaken(t, g.name) {
      var s :| s in t.games && t.games[s].name == g.name;
      assert Names(t)[s] == g.name;
    }
  }

  lemma {:induction false} NamesEntered(t: Tables, games: seq<GameDef>)
    ensures Names(SeedAll(t, games)) == Entered(Names(t), games)
  {
    if games == [] {
    } else {
      var n := |games| - 1;
      var t1, g := SeedAll(t, games[..n]), games[n];
      NamesEntered(t, games[..n]);
      RefusedByName(t1, g);
      if !Refused(t1, g) { SeedGameMeaning(t1, g, 0, ModeKey(0, "")); }
    }
  }

  lemma {:induction false} EnteredGrows(names: map<string, string>, games: seq<GameDef>, s: string)
    ensures s in names ==> s in Entered(names, games) && Entered(names, games)[s] == names[s]
    ensures names.Values <= Entered(names, games).Values
    ensures AdmittedOf(names, games, s) != [] ==> s in Entered(names, games)
    ensures s in Entered(names, games) && s !in names ==> AdmittedOf(names, games, s) != []
    ensures s in names ==> TurnedAwayOf(names, games, s) == []
  {
    if games == [] {
    } else {
      var e := Entered(names, games[..|games| - 1]);
      EnteredGrows(names, games[..|games| - 1], s);
      var g := games[|games| - 1];
      forall v | v in e.Values
        ensures v in Entered(names, games).Values
      {
        var k :| k in e && e[k] == v;
        assert Entered(names, games)[k] == v;
      }
    }
  }

  lemma {:induction false} EnteredCovers(names: map<string, string>, games: seq<GameDef>, i: nat)
    requires i < |games| && GameFits(games[i])
    ensures var e := Entered(names, games); games[i].slug in e || games[i].name in e.Values
  {
    var n := |games| - 1;
    if i < n {
      EnteredCovers(names, games[..n], i);
      var e, e' := Entered(names, games[..n]), Entered(names, games);
      assert games[..n][i] == games[i];
      if games[i].name in e.Values {
        var k :| k in e && e[k] == games[i].name;
        assert e'[k] == games[i].name;
      }
    }
  }

  ghost predicate Covers(e: map<string, string>, games: seq<GameDef>) {
    forall i :: 0 <= i < |games| && GameFits(games[i]) ==> games[i].slug in e || games[i].name in e.Values
  }

  /** The second boot lets in every fitting game whose slug is there, and no other. */
  lemma {:induction false} SecondBoot(e: map<string, string>, games: seq<GameDef>, s: string)
    requires Covers(e, games)
    ensures Entered(e, games) == e
    ensures AdmittedOf(e, games, s) == if s in e then FittingOf(games, s) else []
  {
    if games == [] {
    } else {
      var n := |games| - 1;
      assert Covers(e, games[..n]);
      SecondBoot(e, games[..n], s);
    }
  }

  /** At the first boot, the games of a slug that are turned away come before those that get in. */
  lemma {:induction false} FirstBoot(names: map<string, string>, games: seq<GameDef>, s: string)
    ensures FittingOf(games, s) == TurnedAwayOf(names, games, s) + AdmittedOf(names, games, s)
  {
    if games == [] {
    } else {
      var front, g := games[..|games| - 1], games[|games| - 1];
      FirstBoot(names, front, s);
      EnteredGrows(names, front, s);
      var away, c := TurnedAwayOf(names, front, s), AdmittedOf(names, front, s);
      if g.slug == s && GameFits(g) && TurnsAway(Entered(names, front), g) {
        assert c == [] && away + c + [g] == (away + [g]) + c;
      } else if g.slug == s && GameFits(g) {
        assert away + c + [g] == away + (c + [g]);
      }
    }
  }

  // ---- Modes

  lemma {:induction false} LastConfigConcat(a: seq<ModeDef>, b: seq<ModeDef>, s: string)
    ensures LastConfig(a + b, s) == if LastConfig(b, s).Some? then LastConfig(b, s) else LastConfig(a, s)
  {
    if b == [] {
      assert a + b == a;
    } else {
      assert (a + b)[..|a + b| - 1] == a + b[..|b| - 1];
      LastConfigConcat(a, b[..|b| - 1], s);
    }
  }

  lemma {:induction false} AllModesConcat(a: seq<GameDef>, b: seq<GameDef>)
    ensures AllModes(a + b) == AllModes(a) + AllModes(b)
  {
    if b == [] {
      assert a + b == a;
    } else {
      assert (a + b)[..|a + b| - 1] == a + b[..|b| - 1];
      AllModesConcat(a, b[..|b| - 1]);
    }
  }

  lemma {:induction false} LastConfigExists(ms: seq<ModeDef>, s: string)
    ensures LastConfig(ms, s).Some? <==> exists m :: m in ms && ModeFits(m) && m.slug == s
  {
    if ms == [] {
    } else {
      var n := |ms| - 1;
      LastConfigExists(ms[..n], s);
      assert ms == ms[..n] + [ms[n]];
    }
  }

  lemma ModeSlugsMeaning(games: seq<GameDef>, s: string)
    ensures s in ModeSlugs(games) <==> LastConfig(AllModes(games), s).Some?
  {
    LastConfigExists(AllModes(games), s);
  }

  // ---- What a boot makes of one slug

  lemma {:induction false} CounterGrows(t: Tables, games: seq<GameDef>)
    ensures SeedAll(t, games).nextGame >= t.nextGame
  {
    if games == [] {
    } else {
      var t1, g := SeedAll(t, games[..|games| - 1]), games[|games| - 1];
      CounterGrows(t, games[..|games| - 1]);
      if !Refused(t1, g) { SeedGameMeaning(t1, g, 0, ModeKey(0, "")); }
    }
  }

  ghost predicate Owned(t: Tables, id: nat) {
    exists s :: s in t.games && t.games[s].id == id
  }

  lemma OwnedStays(t: Tables, g: GameDef, id: nat)
    requires IdsDistinct(t)
    ensures Owned(t, id) ==> Owned(SeedGame(t, g), id)
  {
    SeedGameIds(t, g);
    if s :| s in t.games && t.games[s].id == id {
      assert SeedGame(t, g).games[s].id == id;
    }
  }

  /** Ids that no game has keep their ports and modes. */
  lemma {:induction false} UnownedStays(t: Tables, games: seq<GameDef>, id: nat, m: string)
    requires IdsDistinct(t) && !Owned(SeedAll(t, games), id)
    ensures PortsOf(SeedAll(t, games).ports, id) == PortsOf(t.ports, id)
    ensures Lookup(SeedAll(t, games).modes, ModeKey(id, m)) == Lookup(t.modes, ModeKey(id, m))
  {
    if games == [] {
    } else {
      var n := |games| - 1;
      var t1, g := SeedAll(t, games[..n]), games[n];
      SeedAllKeepsIds(t, games[..n]);
      OwnedStays(t1, g, id);
      UnownedStays(t, games[..n], id, m);
      if !Refused(t1, g) {
        SeedGameMeaning(t1, g, id, ModeKey(id, m));
        assert SeedAll(t, games).games[g.slug].id != id;
      }
    }
  }

  /** u is what a boot leaves of slug s, given the games of the slug that got in. */
  ghost predicate Left(t: Tables, u: Tables, c: seq<GameDef>, s: string, m: string)
    requires s in u.games
  {
    var id := u.games[s].id;
    && (s !in t.games ==> c != [] && id >= t.nextGame)
    && (c == [] ==> s in t.games && u.games[s] == t.games[s] && PortsOf(u.ports, id) == PortsOf(t.ports, id))
    && (c != [] ==>
          && u.games[s].fields == c[|c| - 1].fields
          && PortsOf(u.ports, id) == FittingPorts(c[|c| - 1].ports))
    && var config := LastConfig(AllModes(c), m);
       if config.Some? then ModeKey(id, m) in u.modes && u.modes[ModeKey(id, m)].config == config.value
       else Lookup(u.modes, ModeKey(id, m)) == Lookup(t.modes, ModeKey(id, m))
  }

  lemma {:induction false} BootOfSlug(t: Tables, games: seq<GameDef>, s: string, m: string)
    requires IdsDistinct(t) && s in SeedAll(t, games).games
    ensures Left(t, SeedAll(t, games), AdmittedOf(Names(t), games, s), s, m)
  {
    if games == [] {
    } else {
      var n := |games| - 1;
      var t1, g := SeedAll(t, games[..n]), games[n];
      NamesEntered(t, games[..n]);
      RefusedByName(t1, g);
      SeedAllKeepsIds(t, games[..n]);
      if g.slug == s && !Refused(t1, g) {
        if s in t1.games { BootOfSlug(t, games[..n], s, m); }
        BootOfAdmitted(t, games, m);
      } else {
        BootOfOther(t1, g, s, m);
        BootOfSlug(t, games[..n], s, m);
        var k := ModeKey(t1.games[s].id, m);
        assert Lookup(SeedAll(t, games).modes, k) == Lookup(t1.modes, k);
        assert AdmittedOf(Names(t), games, s) == AdmittedOf(Names(t), games[..n], s);
      }
    }
  }

  /** A game leaves the other slugs alone. */
  lemma BootOfOther(t1: Tables, g: GameDef, s: string, m: string)
    requires IdsDistinct(t1) && s in SeedGame(t1, g).games && (g.slug != s || Refused(t1, g))
    ensures var u := SeedGame(t1, g);
      && s in t1.games && u.games[s] == t1.games[s]
        && PortsOf(u.ports, u.games[s].id) == PortsOf(t1.ports, u.games[s].id)
      && Lookup(u.modes, ModeKey(u.games[s].id, m)) == Lookup(t1.modes, ModeKey(u.games[s].id, m))
  {
    if !Refused(t1, g) {
      var u := SeedGame(t1, g);
      SeedGameMeaning(t1, g, u.games[s].id, ModeKey(u.games[s].id, m));
      SeedGameIds(t1, g);
      assert u.games[g.slug].id != u.games[s].id;
    }
  }

  /** The last game of the list got in. */
  lemma BootOfAdmitted(t: Tables, games: seq<GameDef>, m: string)
    requires IdsDistinct(t) && games != []
    requires var n := |games| - 1; !Refused(SeedAll(t, games[..n]), games[n])
    requires var n := |games| - 1; games[n].slug in SeedAll(t, games[..n]).games ==>
      Left(t, SeedAll(t, games[..n]), AdmittedOf(Names(t), games[..n], games[n].slug), games[n].slug, m)
    ensures games[|games| - 1].slug in SeedAll(t, games).games
    ensures Left(t, SeedAll(t, games), AdmittedOf(Names(t), games, games[|games| - 1].slug), games[|games| - 1].slug, m)
  {
    var n := |games| - 1;
    var t1, g := SeedAll(t, games[..n]), games[n];
    var c1, c := AdmittedOf(Names(t), games[..n], g.slug), AdmittedOf(Names(t), games, g.slug);
    NamesEntered(t, games[..n]);
    RefusedByName(t1, g);
    assert c == c1 + [g] && c[..|c| - 1] == c1;
    assert AllModes(c) == AllModes(c1) + g.modes;
    LastConfigConcat(AllModes(c1), g.modes, m);
    var id := UpsertGame(t1, g).games[g.slug].id;
    SeedGameMeaning(t1, g, id, ModeKey(id, m));
    CounterGrows(t, games[..n]);
    SeedAllKeepsIds(t, games[..n]);
    if g.slug !in t1.games {
      EnteredGrows(Names(t), games[..n], g.slug);
      assert c1 == [];
      assert !Owned(t1, id);
      UnownedStays(t, games[..n], id, m);
    }
  }

  // ---- What the second boot makes of it

  ghost predicate Same(u: Tables, v: Tables, s: string, m: string)
    requires s in u.games && s in v.games
  {
    Lookup(v.modes, ModeKey(u.games[s].id, m)) == Lookup(u.modes, ModeKey(u.games[s].id, m))
  }

  lemma BootCovers(t: Tables, games: seq<GameDef>)
    ensures Covers(Names(SeedAll(t, games)), games)
  {
    NamesEntered(t, games);
    forall i | 0 <= i < |games| && GameFits(games[i])
      ensures games[i].slug in Entered(Names(t), games) || games[i].name in Entered(Names(t), games).Values
    {
      EnteredCovers(Names(t), games, i);
    }
  }

  lemma SecondNames(t: Tables, games: seq<GameDef>)
    ensures Names(SeedAll(SeedAll(t, games), games)) == Names(SeedAll(t, games))
  {
    BootCovers(t, games);
    NamesEntered(SeedAll(t, games), games);
    SecondBoot(Names(SeedAll(t, games)), games, "");
  }

  /** The games of a slug that got in are, at the second boot, preceded by those turned away before. */
  lemma SecondAdmitted(t: Tables, games: seq<GameDef>, s: string)
    requires s in SeedAll(t, games).games
    ensures var u := SeedAll(t, games);
      var c1, away := AdmittedOf(Names(t), games, s), TurnedAwayOf(Names(t), games, s);
      && AdmittedOf(Names(u), games, s) == away + c1
      && (c1 == [] ==> away == [])
      && (s in t.games ==> away == [])
  {
    var u := SeedAll(t, games);
    NamesEntered(t, games);
    BootCovers(t, games);
    SecondBoot(Names(u), games, s);
    FirstBoot(Names(t), games, s);
    EnteredGrows(Names(t), games, s);
  }

  /** The second boot leaves a slug's game and ports as they are. */
  lemma SecondBootOfSlug(t: Tables, games: seq<GameDef>, s: string)
    requires IdsDistinct(t) && s in SeedAll(t, games).games
    ensures var u, v := SeedAll(t, games), SeedAll(SeedAll(t, games), games);
      s in v.games && v.games[s] == u.games[s] && PortsOf(v.ports, u.games[s].id) == PortsOf(u.ports, u.games[s].id)
  {
    var u := SeedAll(t, games);
    SeedAllKeepsIds(t, games);
    SeedAllKeepsIds(u, games);
    SecondAdmitted(t, games, s);
    BootOfSlug(t, games, s, "");
    BootOfSlug(u, games, s, "");
  }

  /** It leaves a mode as it is unless only games that were turned away have it. */
  lemma SecondBootOfMode(t: Tables, games: seq<GameDef>, s: string, m: string)
    requires IdsDistinct(t) && ModesDrawn(t) && s in SeedAll(t, games).games
    requires s in SeedAll(SeedAll(t, games), games).games
    ensures var u, v := SeedAll(t, games), SeedAll(SeedAll(t, games), games);
      Same(u, v, s, m) <==>
        (m in ModeSlugs(TurnedAwayOf(Names(t), games, s)) ==> m in ModeSlugs(AdmittedOf(Names(t), games, s)))
  {
    var u, v := SeedAll(t, games), SeedAll(SeedAll(t, games), games);
    var c1, away := AdmittedOf(Names(t), games, s), TurnedAwayOf(Names(t), games, s);
    var k := ModeKey(u.games[s].id, m);
    SeedAllKeepsIds(t, games);
    SeedAllKeepsIds(u, games);
    SecondAdmitted(t, games, s);
    SecondBootOfSlug(t, games, s);
    BootOfSlug(t, games, s, m);
    BootOfSlug(u, games, s, m);
    AllModesConcat(away, c1);
    LastConfigConcat(AllModes(away), AllModes(c1), m);
    ModeSlugsMeaning(away, m);
    ModeSlugsMeaning(c1, m);
    if k in u.modes { assert ModeKept(u, v, k); }
  }

  /** Seeding twice equals seeding once, up to the ids of port rows, if and only if every mode of a game
      that was turned away is also a mode of a game of the same slug that got in.  The condition is
      about the registry and the slugs and names in the table before the boot. */
  lemma IdempotentIffRestored(t: Tables, games: seq<GameDef>)
    requires IdsDistinct(t) && ModesDrawn(t)
    ensures SameCore(SeedAll(SeedAll(t, games), games), SeedAll(t, games)) <==> Restored(t, games)
  {
    if Restored(t, games) { RestoredIsIdempotent(t, games); }
    if SameCore(SeedAll(SeedAll(t, games), games), SeedAll(t, games)) { IdempotentIsRestored(t, games); }
  }

  lemma IdempotentIsRestored(t: Tables, games: seq<GameDef>)
    requires IdsDistinct(t) && ModesDrawn(t)
    requires SameCore(SeedAll(SeedAll(t, games), games), SeedAll(t, games))
    ensures Restored(t, games)
  {
    forall s, m | AdmittedOf(Names(t), games, s) != [] && m in ModeSlugs(TurnedAwayOf(Names(t), games, s))
      ensures m in ModeSlugs(AdmittedOf(Names(t), games, s))
    {
      EnteredGrows(Names(t), games, s);
      NamesEntered(t, games);
      SecondBootOfMode(t, games, s, m);
    }
  }

  lemma RestoredIsIdempotent(t: Tables, games: seq<GameDef>)
    requires IdsDistinct(t) && ModesDrawn(t) && Restored(t, games)
    ensures SameCore(SeedAll(SeedAll(t, games), games), SeedAll(t, games))
  {
    var u, v := SeedAll(t, games), SeedAll(SeedAll(t, games), games);
    SeedAllKeepsIds(t, games);
    GamesSame(t, games);
    forall id: nat
      ensures PortsOf(v.ports, id) == PortsOf(u.ports, id)
    {
      if s :| s in u.games && u.games[s].id == id {
        SecondBootOfSlug(t, games, s);
      } else {
        UnownedStays(u, games, id, "");
      }
    }
    forall k
      ensures Lookup(v.modes, k) == Lookup(u.modes, k)
    {
      if s :| s in u.games && u.games[s].id == k.gameId {
        SecondBootOfMode(t, games, s, k.slug);
        SecondAdmitted(t, games, s);
      } else {
        UnownedStays(u, games, k.gameId, k.slug);
      }
    }
    SameLookups(v.modes, u.modes);
  }

  lemma GamesSame(t: Tables, games: seq<GameDef>)
    requires IdsDistinct(t)
    ensures SeedAll(SeedAll(t, games), games).games == SeedAll(t, games).games
  {
    var u, v := SeedAll(t, games), SeedAll(SeedAll(t, games), games);
    SecondNames(t, games);
    forall s
      ensures Lookup(v.games, s) == Lookup(u.games, s)
    {
      assert s in Names(v) <==> s in Names(u);
      if s in u.games { SecondBootOfSlug(t, games, s); }
    }
    SameLookups(v.games, u.games);
  }

  // ---- Distinct and shared slugs

  lemma {:induction false} AtMostOne(games: seq<GameDef>, s: string)
    requires DistinctSlugs(games)
    ensures |FittingOf(games, s)| <= 1
    ensures FittingOf(games, s) != [] ==> exists i :: 0 <= i < |games| && games[i].slug == s
  {
    if games == [] {
    } else {
      var n := |games| - 1;
      AtMostOne(games[..n], s);
      if FittingOf(games[..n], s) != [] {
        var i :| 0 <= i < n && games[..n][i].slug == s;
        assert games[i].slug == s;
      } else if FittingOf(games, s) != [] {
        assert games[n].slug == s;
      }
    }
  }

  /** Registries of distinct slugs meet the condition on any tables. */
  lemma DistinctSlugsAreRestored(t: Tables, games: seq<GameDef>)
    requires DistinctSlugs(games)
    ensures Restored(t, games)
  {
    forall s | AdmittedOf(Names(t), games, s) != []
      ensures TurnedAwayOf(Names(t), games, s) == []
    {
      AtMostOne(games, s);
      FirstBoot(Names(t), games, s);
    }
    assert AllModes([]) == [];
  }

  lemma TwoOfOneSlug(names: map<string, string>, first: GameDef, second: GameDef)
    requires first.slug == second.slug && GameFits(first) && GameFits(second)
    requires TurnsAway(names, first) && !TurnsAway(names, second)
    ensures var games := [first, second];
      AdmittedOf(names, games, first.slug) == [second] && TurnedAwayOf(names, games, first.slug) == [first]
  {
    var games := [first, second];
    assert games[..1] == [first] && [first][..0] == [];
    assert Entered(names, [first]) == names;
    assert AdmittedOf(names, [first], first.slug) == [] && TurnedAwayOf(names, [first], first.slug) == [first];
  }

  /** Of two games of one slug, the first is turned away and the second gets in: then a mode that only the
      first one has is added by the second boot. */
  lemma SharedSlugIsNotIdempotent(t: Tables, first: GameDef, second: GameDef, mode: ModeDef)
    requires IdsDistinct(t) && ModesDrawn(t)
    requires first.slug == second.slug && GameFits(first) && GameFits(second)
    requires TurnsAway(Names(t), first) && !TurnsAway(Names(t), second)
    requires mode in first.modes && ModeFits(mode) && forall m :: m in second.modes ==> m.slug != mode.slug
    ensures !SameCore(SeedAll(SeedAll(t, [first, second]), [first, second]), SeedAll(t, [first, second]))
  {
    var games := [first, second];
    TwoOfOneSlug(Names(t), first, second);
    OneGameModes(first);
    OneGameModes(second);
    assert mode.slug in ModeSlugs([first]) && mode.slug !in ModeSlugs([second]);
    assert AdmittedOf(Names(t), games, first.slug) == [second];
    assert !Restored(t, games);
    IdempotentIffRestored(t, games);
  }

  lemma OneGameModes(g: GameDef)
    ensures AllModes([g]) == g.modes
  {
    assert [g][..0] == [];
  }

  /** There are such tables and games. */
  lemma SharedSlugExample() returns (t: Tables, first: GameDef, second: GameDef)
    ensures IdsDistinct(t)
    ensures !SameCore(SeedAll(SeedAll(t, [first, second]), [first, second]), SeedAll(t, [first, second]))
  {
    var fields := GameFields("", 0, 0, "", map[], FieldMappings("", "", "", map[]), []);
    var mode := ModeDef("M", "m", map[]);
    t := Tables(map["z" := GameRow(0, "X", fields)], [], map[], 1, 0, 0);
    first, second := GameDef("X", "a", fields, [], [mode]), GameDef("Y", "a", fields, [], []);
    assert Names(t) == map["z" := "X"];
    assert map["z" := "X"]["z"] in Names(t).Values;
    SharedSlugIsNotIdempotent(t, first, second, mode);
  }
}
