/** Writing the registered games into the database at every boot (master/gamedefs.go over the tables
    of master/db.go). */
module Seeding {
  import opened Columns
  import opened Options
  import opened Environment
  import opened Ports

  datatype PortDef = PortDef(mapping: PortMapping, description: string)
  datatype ModeDef = ModeDef(name: string, slug: string, config: Env)
  datatype FieldDef = FieldDef(key: string, fieldLabel: string, placeholder: string, fieldType: string)

  /** The columns that an upsert overwrites. */
  datatype GameFields = GameFields(
    dockerImage: string, defaultPort: int, maxPlayers: int, dataPath: string,
    defaultEnv: Env, fieldMappings: FieldMappings, customFields: seq<FieldDef>)

  datatype GameDef = GameDef(name: string, slug: string, fields: GameFields, ports: seq<PortDef>, modes: seq<ModeDef>)

  datatype GameRow = GameRow(id: nat, name: string, fields: GameFields)
  datatype PortRow = PortRow(id: nat, gameId: nat, def: PortDef)
  datatype ModeKey = ModeKey(gameId: nat, slug: string)
  datatype ModeRow = ModeRow(id: nat, name: string, config: Env)

  /** game_definitions by its unique slug, game_modes by its unique (game, slug) pair, and
      game_port_mappings as rows; a counter per id sequence. */
  datatype Tables = Tables(
    games: map<string, GameRow>, ports: seq<PortRow>, modes: map<ModeKey, ModeRow>,
    nextGame: nat, nextPort: nat, nextMode: nat)

  // ---- What fits the columns

  predicate GameFits(g: GameDef) {
    && |g.name| <= 64 && |g.slug| <= 32 && |g.fields.dockerImage| <= 255 && |g.fields.dataPath| <= 255
    && IsInt32(g.fields.defaultPort) && IsInt32(g.fields.maxPlayers)
  }

  predicate PortFits(p: PortDef) {
    && |p.mapping.portLabel| <= 32 && |p.mapping.protocol| <= 4 && |p.description| <= 128
    && IsInt32(p.mapping.containerPort) && IsInt32(p.mapping.hostPortOffset)
  }

  predicate ModeFits(m: ModeDef) {
    |m.name| <= 64 && |m.slug| <= 32
  }

  predicate NameTaken(t: Tables, name: string) {
    exists s :: s in t.games && t.games[s].name == name
  }

  /** The upsert of g fails: a value does not fit, or a new row would repeat another game's name. */
  predicate Refused(t: Tables, g: GameDef) {
    !GameFits(g) || (g.slug !in t.games && NameTaken(t, g.name))
  }

  // ---- The statements

  /** INSERT ... ON CONFLICT (slug) DO UPDATE: an existing row keeps its id and its name. */
  function UpsertGame(t: Tables, g: GameDef): Tables {
    var row := if g.slug in t.games then t.games[g.slug].(fields := g.fields)
        else GameRow(t.nextGame, g.name, g.fields);
    t.(games := t.games[g.slug := row], nextGame := t.nextGame + 1)
  }

  function DeletePorts(rows: seq<PortRow>, gameId: nat): seq<PortRow> {
    if rows == [] then []
    else
      var last := rows[|rows| - 1];
      DeletePorts(rows[..|rows| - 1], gameId) + if last.gameId == gameId then [] else [last]
  }

  function InsertPort(t: Tables, gameId: nat, p: PortDef): Tables {
    if PortFits(p) then t.(ports := t.ports + [PortRow(t.nextPort, gameId, p)], nextPort := t.nextPort + 1) else t
  }

  function InsertPorts(t: Tables, gameId: nat, ps: seq<PortDef>): Tables {
    if ps == [] then t else InsertPort(InsertPorts(t, gameId, ps[..|ps| - 1]), gameId, ps[|ps| - 1])
  }

  /** INSERT ... ON CONFLICT (game_definition_id, slug) DO UPDATE SET config. */
  function UpsertMode(t: Tables, gameId: nat, m: ModeDef): Tables {
    var k := ModeKey(gameId, m.slug);
    if !ModeFits(m) then t
    else if k in t.modes then t.(modes := t.modes[k := t.modes[k].(config := m.config)], nextMode := t.nextMode + 1)
    else t.(modes := t.modes[k := ModeRow(t.nextMode, m.name, m.config)], nextMode := t.nextMode + 1)
  }

  function UpsertModes(t: Tables, gameId: nat, ms: seq<ModeDef>): Tables {
    if ms == [] then t else UpsertMode(UpsertModes(t, gameId, ms[..|ms| - 1]), gameId, ms[|ms| - 1])
  }

  function SeedGame(t: Tables, g: GameDef): Tables {
    if Refused(t, g) then t.(nextGame := t.nextGame + 1)
    else
      var t1 := UpsertGame(t, g);
      var id := t1.games[g.slug].id;
      UpsertModes(InsertPorts(t1.(ports := DeletePorts(t1.ports, id)), id, g.ports), id, g.modes)
  }

  function SeedAll(t: Tables, games: seq<GameDef>): Tables {
    if games == [] then t else SeedGame(SeedAll(t, games[..|games| - 1]), games[|games| - 1])
  }

  // ---- The loops of seedGames

  class GameDb {
    var tables: Tables

    constructor (tables: Tables)
      ensures this.tables == tables
    {
      this.tables := tables;
    }

    method SeedGames(registeredGames: seq<GameDef>)
      modifies this
      ensures tables == SeedAll(old(tables), registeredGames)
    {
      for i := 0 to |registeredGames|
        invariant tables == SeedAll(old(tables), registeredGames[..i])
      {
        var g := registeredGames[i];
        assert registeredGames[..i + 1][..i] == registeredGames[..i];
        if Refused(tables, g) {
          tables := tables.(nextGame := tables.nextGame + 1);
          continue;
        }
        tables := UpsertGame(tables, g);
        SeedParts(tables.games[g.slug].id, g);
      }
      assert registeredGames[..|registeredGames|] == registeredGames;
    }

    method SeedParts(gameId: nat, g: GameDef)
      modifies this
      ensures tables == var t := old(tables);
        UpsertModes(InsertPorts(t.(ports := DeletePorts(t.ports, gameId)), gameId, g.ports), gameId, g.modes)
    {
      tables := tables.(ports := DeletePorts(tables.ports, gameId));
      ghost var t1 := tables;
      for i := 0 to |g.ports|
        invariant tables == InsertPorts(t1, gameId, g.ports[..i])
      {
        assert g.ports[..i + 1][..i] == g.ports[..i];
        tables := InsertPort(tables, gameId, g.ports[i]);
      }
      assert g.ports[..|g.ports|] == g.ports;
      ghost var t2 := tables;
      for i := 0 to |g.modes|
        invariant tables == UpsertModes(t2, gameId, g.modes[..i])
      {
        assert g.modes[..i + 1][..i] == g.modes[..i];
        tables := UpsertMode(tables, gameId, g.modes[i]);
      }
      assert g.modes[..|g.modes|] == g.modes;
    }
  }

  // ---- Meanings

  /** The port mappings of one game, in the order of their rows. */
  function PortsOf(rows: seq<PortRow>, gameId: nat): seq<PortDef> {
    if rows == [] then []
    else
      var last := rows[|rows| - 1];
      PortsOf(rows[..|rows| - 1], gameId) + if last.gameId == gameId then [last.def] else []
  }

  function FittingPorts(ps: seq<PortDef>): seq<PortDef> {
    if ps == [] then []
    else FittingPorts(ps[..|ps| - 1]) + if PortFits(ps[|ps| - 1]) then [ps[|ps| - 1]] else []
  }

  /** The configuration registered last under a slug. */
  function LastConfig(ms: seq<ModeDef>, slug: string): Option<Env> {
    if ms == [] then None
    else
      var m := ms[|ms| - 1];
      if m.slug == slug && ModeFits(m) then Some(m.config) else LastConfig(ms[..|ms| - 1], slug)
  }

  /** Different games have different ids, all of them already drawn. */
  ghost predicate IdsDistinct(t: Tables) {
    && (forall a {:trigger t.games[a]} :: a in t.games ==> t.games[a].id < t.nextGame)
    && (forall a, b {:trigger t.games[a], t.games[b]} :: a in t.games && b in t.games && a != b ==>
        t.games[a].id != t.games[b].id)
  }

  ghost predicate GamesKept(t: Tables, t': Tables) {
    forall s :: s in t.games ==> s in t'.games && t'.games[s].id == t.games[s].id && t'.games[s].name == t.games[s].name
  }

  ghost predicate ModeKept(t: Tables, t': Tables, k: ModeKey) {
    k in t.modes ==> k in t'.modes && t'.modes[k].id == t.modes[k].id && t'.modes[k].name == t.modes[k].name
  }

  ghost predicate ModesKept(t: Tables, t': Tables) {
    forall k :: k in t.modes ==> ModeKept(t, t', k)
  }

  /** Equal up to the ids of the port rows and the counters. */
  ghost predicate SameCore(t: Tables, u: Tables) {
    && t.games == u.games && t.modes == u.modes
    && forall id :: PortsOf(t.ports, id) == PortsOf(u.ports, id)
  }

  /** g is in the tables as registered, or it can never get in. */
  ghost predicate Settled(t: Tables, g: GameDef) {
    Refused(t, g) || Present(t, g)
  }

  ghost predicate Present(t: Tables, g: GameDef) {
    && g.slug in t.games && t.games[g.slug].fields == g.fields
    && PortsOf(t.ports, t.games[g.slug].id) == FittingPorts(g.ports)
    && forall s {:trigger LastConfig(g.modes, s)} :: LastConfig(g.modes, s).Some? ==>
         var k := ModeKey(t.games[g.slug].id, s);
         k in t.modes && t.modes[k].config == LastConfig(g.modes, s).value
  }

  lemma {:induction false} PortsOfConcat(a: seq<PortRow>, b: seq<PortRow>, id: nat)
    ensures PortsOf(a + b, id) == PortsOf(a, id) + PortsOf(b, id)
  {
    if b == [] {
      assert a + b == a;
    } else {
      assert (a + b)[..|a + b| - 1] == a + b[..|b| - 1];
      PortsOfConcat(a, b[..|b| - 1], id);
    }
  }

  lemma {:induction false} DeletePortsOf(rows: seq<PortRow>, gameId: nat, id: nat)
    ensures PortsOf(DeletePorts(rows, gameId), id) == if id == gameId then [] else PortsOf(rows, id)
  {
    if rows == [] {
    } else {
      var front, last := rows[..|rows| - 1], rows[|rows| - 1];
      DeletePortsOf(front, gameId, id);
      PortsOfConcat(DeletePorts(front, gameId), if last.gameId == gameId then [] else [last], id);
      assert [last][..0] == [];
    }
  }

  lemma OnePortOf(t: Tables, gameId: nat, p: PortDef, id: nat)
    ensures PortsOf(InsertPort(t, gameId, p).ports, id) ==
      PortsOf(t.ports, id) + if id == gameId && PortFits(p) then [p] else []
  {
    var row := PortRow(t.nextPort, gameId, p);
    PortsOfConcat(t.ports, [row], id);
    assert [row][..0] == [];
  }

  lemma {:induction false} InsertPortsOf(t: Tables, gameId: nat, ps: seq<PortDef>, id: nat)
    ensures var t' := InsertPorts(t, gameId, ps);
      && t'.games == t.games && t'.modes == t.modes && t'.nextGame == t.nextGame && t'.nextMode == t.nextMode
      && PortsOf(t'.ports, id) == PortsOf(t.ports, id) + if id == gameId then FittingPorts(ps) else []
  {
    if ps == [] {
    } else {
      var k := |ps| - 1;
      InsertPortsOf(t, gameId, ps[..k], id);
      OnePortOf(InsertPorts(t, gameId, ps[..k]), gameId, ps[k], id);
    }
  }

  lemma {:induction false} UpsertModesMeaning(t: Tables, gameId: nat, ms: seq<ModeDef>, k: ModeKey)
    ensures var t' := UpsertModes(t, gameId, ms);
      && t'.games == t.games && t'.ports == t.ports && t'.nextGame == t.nextGame
      && ModeKept(t, t', k)
      && (if k.gameId == gameId && LastConfig(ms, k.slug).Some?
          then k in t'.modes && t'.modes[k].config == LastConfig(ms, k.slug).value
          else Lookup(t'.modes, k) == Lookup(t.modes, k))
  {
    if ms == [] {
    } else {
      UpsertModesMeaning(t, gameId, ms[..|ms| - 1], k);
    }
  }

  /** The first fitting mode of a slug. */
  function FirstMode(ms: seq<ModeDef>, slug: string): Option<ModeDef> {
    if ms == [] then None
    else
      var before := FirstMode(ms[..|ms| - 1], slug);
      if before.Some? then before
      else if ModeFits(ms[|ms| - 1]) && ms[|ms| - 1].slug == slug then Some(ms[|ms| - 1])
      else None
  }

  /** Different modes have different ids, all of them already drawn. */
  ghost predicate ModeIdsDistinct(t: Tables) {
    && (forall k {:trigger t.modes[k]} :: k in t.modes ==> t.modes[k].id < t.nextMode)
    && (forall k, l {:trigger t.modes[k], t.modes[l]} ::
          k in t.modes && l in t.modes && k != l ==> t.modes[k].id != t.modes[l].id)
  }

  /** A mode that is new takes the name of the first fitting one of its slug; ids stay distinct. */
  lemma {:induction false} NewModes(t: Tables, gameId: nat, ms: seq<ModeDef>, k: ModeKey)
    ensures var t' := UpsertModes(t, gameId, ms);
      && t'.nextMode >= t.nextMode
      && (k in t'.modes && k !in t.modes ==>
            && k.gameId == gameId && FirstMode(ms, k.slug).Some?
            && t'.modes[k].name == FirstMode(ms, k.slug).value.name && t'.modes[k].id >= t.nextMode)
      && (k in t'.modes && FirstMode(ms, k.slug).None? ==> k in t.modes)
  {
    if ms == [] {
    } else {
      NewModes(t, gameId, ms[..|ms| - 1], k);
      UpsertModesMeaning(t, gameId, ms[..|ms| - 1], k);
      FirstIsThere(t, gameId, ms[..|ms| - 1], k);
    }
  }

  lemma {:induction false} FirstIsThere(t: Tables, gameId: nat, ms: seq<ModeDef>, k: ModeKey)
    ensures k.gameId == gameId && FirstMode(ms, k.slug).Some? ==> k in UpsertModes(t, gameId, ms).modes
  {
    if ms == [] {
    } else {
      FirstIsThere(t, gameId, ms[..|ms| - 1], k);
    }
  }

  lemma {:induction false} ModeIdsStayDistinct(t: Tables, gameId: nat, ms: seq<ModeDef>)
    requires ModeIdsDistinct(t)
    ensures ModeIdsDistinct(UpsertModes(t, gameId, ms))
  {
    if ms == [] {
    } else {
      ModeIdsStayDistinct(t, gameId, ms[..|ms| - 1]);
      OneModeDistinct(UpsertModes(t, gameId, ms[..|ms| - 1]), gameId, ms[|ms| - 1]);
    }
  }

  lemma OneModeDistinct(t: Tables, gameId: nat, m: ModeDef)
    requires ModeIdsDistinct(t)
    ensures ModeIdsDistinct(UpsertMode(t, gameId, m))
  {
  }

  // ---- One game

  lemma SeedGameMeaning(t: Tables, g: GameDef, id: nat, k: ModeKey)
    requires !Refused(t, g)
    ensures var t' := SeedGame(t, g);
      var gid := UpsertGame(t, g).games[g.slug].id;
      && t'.games == UpsertGame(t, g).games && t'.nextGame == t.nextGame + 1
      && PortsOf(t'.ports, id) == (if id == gid then FittingPorts(g.ports) else PortsOf(t.ports, id))
      && ModeKept(t, t', k)
      && (if k.gameId == gid && LastConfig(g.modes, k.slug).Some?
          then k in t'.modes && t'.modes[k].config == LastConfig(g.modes, k.slug).value
          else Lookup(t'.modes, k) == Lookup(t.modes, k))
  {
    var t1 := UpsertGame(t, g);
    var gid := t1.games[g.slug].id;
    var t2 := t1.(ports := DeletePorts(t1.ports, gid));
    DeletePortsOf(t1.ports, gid, id);
    InsertPortsOf(t2, gid, g.ports, id);
    UpsertModesMeaning(InsertPorts(t2, gid, g.ports), gid, g.modes, k);
  }

  lemma SeedGameIds(t: Tables, g: GameDef)
    requires IdsDistinct(t)
    ensures IdsDistinct(SeedGame(t, g))
    ensures GamesKept(t, SeedGame(t, g))
  {
    if !Refused(t, g) {
      SeedGameMeaning(t, g, 0, ModeKey(0, ""));
    }
  }

  /** A mode that seeding a game adds belongs to that game, has the name it is first registered with and an
      id of its own. */
  lemma SeedGameNewMode(t: Tables, g: GameDef, k: ModeKey)
    requires ModeIdsDistinct(t)
    ensures ModeIdsDistinct(SeedGame(t, g))
    ensures k in SeedGame(t, g).modes && k !in t.modes ==>
      && !Refused(t, g) && g.slug in SeedGame(t, g).games && k.gameId == SeedGame(t, g).games[g.slug].id
      && FirstMode(g.modes, k.slug).Some?
      && SeedGame(t, g).modes[k].name == FirstMode(g.modes, k.slug).value.name
  {
    if !Refused(t, g) {
      var t1 := UpsertGame(t, g);
      var gid := t1.games[g.slug].id;
      var t2 := t1.(ports := DeletePorts(t1.ports, gid));
      InsertPortsOf(t2, gid, g.ports, 0);
      var t3 := InsertPorts(t2, gid, g.ports);
      assert ModeIdsDistinct(t3);
      NewModes(t3, gid, g.modes, k);
      ModeIdsStayDistinct(t3, gid, g.modes);
      SeedGameMeaning(t, g, 0, k);
    }
  }

  lemma {:induction false} SeedAllKeepsModeIds(t: Tables, games: seq<GameDef>)
    requires ModeIdsDistinct(t)
    ensures ModeIdsDistinct(SeedAll(t, games))
  {
    if games == [] {
    } else {
      SeedAllKeepsModeIds(t, games[..|games| - 1]);
      SeedGameNewMode(SeedAll(t, games[..|games| - 1]), games[|games| - 1], ModeKey(0, ""));
    }
  }

  lemma SeedGameSettles(t: Tables, g: GameDef)
    ensures Settled(SeedGame(t, g), g)
  {
    var t' := SeedGame(t, g);
    if Refused(t, g) {
      assert t'.games == t.games;
      assert Refused(t', g);
    } else {
      SeedGameMeaning(t, g, UpsertGame(t, g).games[g.slug].id, ModeKey(0, ""));
      forall s | LastConfig(g.modes, s).Some?
        ensures var k := ModeKey(t'.games[g.slug].id, s);
          k in t'.modes && t'.modes[k].config == LastConfig(g.modes, s).value
      {
        SeedGameMeaning(t, g, 0, ModeKey(t'.games[g.slug].id, s));
      }
    }
  }

  /** Seeding another game unsettles nothing. */
  lemma SeedGameKeepsSettled(t: Tables, g: GameDef, h: GameDef)
    requires IdsDistinct(t) && Settled(t, g) && g.slug != h.slug
    ensures Settled(SeedGame(t, h), g)
  {
    var t' := SeedGame(t, h);
    SeedGameIds(t, h);
    if Refused(t, h) {
    } else if Refused(t, g) {
      SeedGameMeaning(t, h, 0, ModeKey(0, ""));
      if GameFits(g) {
        var s :| s in t.games && t.games[s].name == g.name;
        assert s in t'.games && t'.games[s].name == g.name;
        assert g.slug !in t'.games;
      }
    } else {
      var gid := t.games[g.slug].id;
      SeedGameMeaning(t, h, gid, ModeKey(0, ""));
      assert t'.games[g.slug].id != t'.games[h.slug].id;
      forall s | LastConfig(g.modes, s).Some?
        ensures ModeKey(gid, s) in t'.modes && t'.modes[ModeKey(gid, s)].config == LastConfig(g.modes, s).value
      {
        SeedGameMeaning(t, h, 0, ModeKey(gid, s));
      }
    }
  }

  /** Seeding a settled game changes nothing but port ids and counters. */
  lemma SettledIsFixed(t: Tables, g: GameDef)
    requires Settled(t, g)
    ensures SameCore(SeedGame(t, g), t)
  {
    if !Refused(t, g) {
      var t' := SeedGame(t, g);
      SeedGameMeaning(t, g, 0, ModeKey(0, ""));
      assert t'.games == t.games;
      forall id: nat
        ensures PortsOf(t'.ports, id) == PortsOf(t.ports, id)
      {
        SeedGameMeaning(t, g, id, ModeKey(0, ""));
      }
      forall k
        ensures Lookup(t'.modes, k) == Lookup(t.modes, k)
      {
        SeedGameMeaning(t, g, 0, k);
      }
      SameLookups(t'.modes, t.modes);
    }
  }

  // ---- The whole registry

  ghost predicate DistinctSlugs(games: seq<GameDef>) {
    forall i, j :: 0 <= i < j < |games| ==> games[i].slug != games[j].slug
  }

  lemma {:induction false} SeedAllSettles(t: Tables, games: seq<GameDef>, i: nat)
    requires IdsDistinct(t) && DistinctSlugs(games) && i < |games|
    ensures Settled(SeedAll(t, games), games[i])
    decreases |games|
  {
    var n := |games| - 1;
    if i == n {
      SeedGameSettles(SeedAll(t, games[..n]), games[n]);
    } else {
      SeedAllSettles(t, games[..n], i);
      SeedAllKeepsIds(t, games[..n]);
      SeedGameKeepsSettled(SeedAll(t, games[..n]), games[i], games[n]);
    }
  }

  /** Games and modes that were there keep their ids and names, so every reference to them stays
      valid. */
  lemma {:induction false} SeedAllKeepsIds(t: Tables, games: seq<GameDef>)
    requires IdsDistinct(t)
    ensures IdsDistinct(SeedAll(t, games))
    ensures GamesKept(t, SeedAll(t, games)) && ModesKept(t, SeedAll(t, games))
  {
    if games == [] {
    } else {
      var n := |games| - 1;
      var t1 := SeedAll(t, games[..n]);
      SeedAllKeepsIds(t, games[..n]);
      SeedGameIds(t1, games[n]);
      if !Refused(t1, games[n]) {
        forall k | k in t1.modes
          ensures ModeKept(t1, SeedGame(t1, games[n]), k)
        {
          SeedGameMeaning(t1, games[n], 0, k);
        }
      }
    }
  }

  lemma SettledTransfers(t: Tables, u: Tables, g: GameDef)
    requires SameCore(t, u) && Settled(t, g)
    ensures Settled(u, g)
  {
  }

  lemma {:induction false} AllSettledIsFixed(t: Tables, games: seq<GameDef>)
    requires forall i :: 0 <= i < |games| ==> Settled(t, games[i])
    ensures SameCore(SeedAll(t, games), t)
  {
    if games == [] {
    } else {
      var n := |games| - 1;
      var t1 := SeedAll(t, games[..n]);
      AllSettledIsFixed(t, games[..n]);
      assert Settled(t, games[n]);
      SettledTransfers(t, t1, games[n]);
      SettledIsFixed(t1, games[n]);
    }
  }

  /** Seeding twice is seeding once, for any registry of distinct slugs on any tables; and after it
      every game that could get in has exactly the registered fields, ports and mode settings. */
  lemma SeedingIsIdempotent(t: Tables, games: seq<GameDef>)
    requires IdsDistinct(t) && DistinctSlugs(games)
    ensures SameCore(SeedAll(SeedAll(t, games), games), SeedAll(t, games))
    ensures forall i :: 0 <= i < |games| ==> Settled(SeedAll(t, games), games[i])
  {
    forall i | 0 <= i < |games|
      ensures Settled(SeedAll(t, games), games[i])
    {
      SeedAllSettles(t, games, i);
    }
    AllSettledIsFixed(SeedAll(t, games), games);
  }

  /** The references of a server to its game and its mode survive any boot. */
  lemma ReferencesStayValid(t: Tables, games: seq<GameDef>, gameId: nat, modeId: nat)
    requires IdsDistinct(t)
    ensures (exists s :: s in t.games && t.games[s].id == gameId)
        ==> exists s :: s in SeedAll(t, games).games && SeedAll(t, games).games[s].id == gameId
    ensures (exists k :: k in t.modes && t.modes[k].id == modeId)
        ==> exists k :: k in SeedAll(t, games).modes && SeedAll(t, games).modes[k].id == modeId
  {
    var t' := SeedAll(t, games);
    SeedAllKeepsIds(t, games);
    if exists s :: s in t.games && t.games[s].id == gameId {
      var s :| s in t.games && t.games[s].id == gameId;
      assert s in t'.games && t'.games[s].id == gameId;
    }
    if exists k :: k in t.modes && t.modes[k].id == modeId {
      var k :| k in t.modes && t.modes[k].id == modeId;
      assert ModeKept(t, t', k);
      assert k in t'.modes && t'.modes[k].id == modeId;
    }
  }
}
