/** The server rows and their configuration entries (master/api_servers.go over the tables of
    master/db.go): create, update, delete, and the environment the next start is built from. */
module ServerConfig {
  import opened Columns
  import opened Options
  import opened Decimal
  import opened Environment

  const KEY_LIMIT := 128
  const NAME_LIMIT := 64
  const CONTAINER_NAME_LIMIT := 128
  const PASSWORD_LIMIT := 255

  /** The empty string of a request becomes NULL. */
  function Nullable(s: string): Option<string> {
    if s == "" then None else Some(s)
  }

  datatype ServerRow = ServerRow(
    agentId: int, gameId: int, modeId: Option<int>, name: string, containerName: string,
    port: int, maxPlayers: int, password: Option<string>, rconPassword: Option<string>)

  datatype GameRow = GameRow(defaultEnv: Env, fields: FieldMappings)

  datatype UpdateRequest = UpdateRequest(
    port: int, maxPlayers: int, password: string, rconPassword: string, customConfig: Env)
  {
    predicate Storable() {
      IsInt32(port) && IsInt32(maxPlayers) && |password| <= PASSWORD_LIMIT && |rconPassword| <= PASSWORD_LIMIT
    }

    /** Zero leaves a number as it is; the secrets are replaced either way. */
    function Applied(row: ServerRow): ServerRow {
      row.(port := if port == 0 then row.port else port,
           maxPlayers := if maxPlayers == 0 then row.maxPlayers else maxPlayers,
           password := Nullable(password), rconPassword := Nullable(rconPassword))
    }
  }

  // ---- The server_configs table

  ghost predicate Unique(rows: seq<ConfigRow>) {
    forall i, j :: 0 <= i < j < |rows| ==> rows[i].slot != rows[j].slot
  }

  function IndexOf(rows: seq<ConfigRow>, s: Slot): (i: nat)
    ensures i <= |rows|
    ensures i < |rows| ==> rows[i].slot == s
    ensures i == |rows| ==> forall j :: 0 <= j < |rows| ==> rows[j].slot != s
  {
    if rows == [] then 0
    else if rows[0].slot == s then 0
    else
      assert forall j :: 0 < j < |rows| ==> rows[j] == rows[1..][j - 1];
      1 + IndexOf(rows[1..], s)
  }

  /** The table holds one row per slot, and these are the slots and values of the map. */
  ghost predicate Holds(rows: seq<ConfigRow>, view: map<Slot, string>) {
    && Unique(rows)
    && (forall i {:trigger rows[i]} :: 0 <= i < |rows| ==> rows[i].slot in view && view[rows[i].slot] == rows[i].value)
    && (forall s {:trigger IndexOf(rows, s)} :: s in view ==> IndexOf(rows, s) < |rows|)
  }

  /** INSERT ... ON CONFLICT DO UPDATE; a key that does not fit its column is an error, which the
      code logs and passes over. */
  function Upsert(rows: seq<ConfigRow>, id: int, k: string, v: string): seq<ConfigRow> {
    var i := IndexOf(rows, Slot(id, k));
    if |k| > KEY_LIMIT then rows
    else if i < |rows| then rows[i := ConfigRow(Slot(id, k), v)]
    else rows + [ConfigRow(Slot(id, k), v)]
  }

  /** INSERT ... ON CONFLICT DO NOTHING. */
  function InsertNew(rows: seq<ConfigRow>, id: int, k: string, v: string): seq<ConfigRow> {
    if |k| > KEY_LIMIT || IndexOf(rows, Slot(id, k)) < |rows| then rows else rows + [ConfigRow(Slot(id, k), v)]
  }

  function Delete(rows: seq<ConfigRow>, id: int, k: string): seq<ConfigRow> {
    var i := IndexOf(rows, Slot(id, k));
    if i < |rows| then rows[..i] + rows[i + 1..] else rows
  }

  lemma AppendHolds(rows: seq<ConfigRow>, view: map<Slot, string>, r: ConfigRow)
    requires Holds(rows, view) && r.slot !in view
    ensures Holds(rows + [r], view[r.slot := r.value])
  {
    var rows' := rows + [r];
    forall s | s in view[r.slot := r.value]
      ensures IndexOf(rows', s) < |rows'|
    {
      var j := if s == r.slot then |rows| else IndexOf(rows, s);
      assert rows'[j].slot == s;
    }
  }

  lemma ReplaceHolds(rows: seq<ConfigRow>, view: map<Slot, string>, i: nat, value: string)
    requires Holds(rows, view) && i < |rows|
    ensures Holds(rows[i := ConfigRow(rows[i].slot, value)], view[rows[i].slot := value])
  {
    var rows' := rows[i := ConfigRow(rows[i].slot, value)];
    forall s | s in view[rows[i].slot := value]
      ensures IndexOf(rows', s) < |rows'|
    {
      assert rows'[IndexOf(rows, s)].slot == s;
    }
  }

  lemma RemoveHolds(rows: seq<ConfigRow>, view: map<Slot, string>, i: nat)
    requires Holds(rows, view) && i < |rows|
    ensures Holds(rows[..i] + rows[i + 1..], view - {rows[i].slot})
  {
    var rows' := rows[..i] + rows[i + 1..];
    assert forall j {:trigger rows'[j]} :: 0 <= j < |rows'| ==> rows'[j] == rows[if j < i then j else j + 1];
    forall s | s in view - {rows[i].slot}
      ensures IndexOf(rows', s) < |rows'|
    {
      var j := IndexOf(rows, s);
      assert rows'[if j < i then j else j - 1].slot == s;
    }
  }

  lemma UpsertHolds(rows: seq<ConfigRow>, view: map<Slot, string>, id: int, k: string, v: string)
    requires Holds(rows, view)
    ensures Holds(Upsert(rows, id, k, v), if |k| <= KEY_LIMIT then view[Slot(id, k) := v] else view)
  {
    var i := IndexOf(rows, Slot(id, k));
    if i < |rows| {
      ReplaceHolds(rows, view, i, v);
    } else {
      AppendHolds(rows, view, ConfigRow(Slot(id, k), v));
    }
  }

  lemma InsertNewHolds(rows: seq<ConfigRow>, view: map<Slot, string>, id: int, k: string, v: string)
    requires Holds(rows, view)
    ensures Holds(InsertNew(rows, id, k, v),
                  if |k| <= KEY_LIMIT && Slot(id, k) !in view then view[Slot(id, k) := v] else view)
  {
    if IndexOf(rows, Slot(id, k)) == |rows| {
      AppendHolds(rows, view, ConfigRow(Slot(id, k), v));
    }
  }

  lemma DeleteHolds(rows: seq<ConfigRow>, view: map<Slot, string>, id: int, k: string)
    requires Holds(rows, view)
    ensures Holds(Delete(rows, id, k), view - {Slot(id, k)})
  {
    var i := IndexOf(rows, Slot(id, k));
    if i < |rows| {
      RemoveHolds(rows, view, i);
    } else {
      assert view - {Slot(id, k)} == view;
    }
  }

  /** ON DELETE CASCADE. */
  function Remaining(rows: seq<ConfigRow>, id: int): seq<ConfigRow> {
    if rows == [] then []
    else Remaining(rows[..|rows| - 1], id) + if rows[|rows| - 1].slot.serverId == id then [] else [rows[|rows| - 1]]
  }

  lemma {:induction false} RemainHolds(rows: seq<ConfigRow>, view: map<Slot, string>, id: int)
    requires Holds(rows, view)
    ensures Holds(Remaining(rows, id), map s | s in view && s.serverId != id :: view[s])
  {
    var left := map s | s in view && s.serverId != id :: view[s];
    if rows == [] {
      forall s
        ensures s !in view
      {
        assert s in view ==> IndexOf(rows, s) < |rows|;
      }
    } else {
      var last := rows[|rows| - 1];
      RemoveHolds(rows, view, |rows| - 1);
      assert rows[..|rows| - 1] + rows[|rows|..] == rows[..|rows| - 1];
      var view' := view - {last.slot};
      RemainHolds(rows[..|rows| - 1], view', id);
      var left' := map s | s in view' && s.serverId != id :: view'[s];
      if last.slot.serverId == id {
        assert left == left';
        assert Remaining(rows, id) == Remaining(rows[..|rows| - 1], id);
      } else {
        AppendHolds(Remaining(rows[..|rows| - 1], id), left', last);
        assert left == left'[last.slot := last.value];
      }
    }
  }

  // ---- What an edit does to the entries of one server

  ghost function ConfigOf(view: map<Slot, string>, id: int): Env {
    map s | s in view && s.serverId == id :: s.key := view[s]
  }

  /** An emptied key goes, a nonempty one that fits its column takes its new value, any other stays. */
  function EditedValue(before: Option<string>, edits: Env, k: string): Option<string> {
    if k !in edits || (edits[k] != "" && |k| > KEY_LIMIT) then before else Nullable(edits[k])
  }

  function PatchedValue(view: map<Slot, string>, id: int, edits: Env, s: Slot): Option<string> {
    if s.serverId == id then EditedValue(Lookup(view, s), edits, s.key) else Lookup(view, s)
  }

  ghost predicate Patched(view: map<Slot, string>, id: int, edits: Env, view': map<Slot, string>) {
    forall s {:trigger Lookup(view', s)} :: Lookup(view', s) == PatchedValue(view, id, edits, s)
  }

  /** One statement of the loop. */
  function Edit(view: map<Slot, string>, id: int, k: string, v: string): map<Slot, string> {
    if v == "" then view - {Slot(id, k)} else if |k| <= KEY_LIMIT then view[Slot(id, k) := v] else view
  }

  lemma PatchStep(view: map<Slot, string>, id: int, done: Env, now: map<Slot, string>, k: string, v: string)
    requires Patched(view, id, done, now) && k !in done
    ensures Patched(view, id, done[k := v], Edit(now, id, k, v))
  {
    var now', edits := Edit(now, id, k, v), done[k := v];
    forall s: Slot
      ensures Lookup(now', s) == PatchedValue(view, id, edits, s)
    {
      assert Lookup(now, s) == PatchedValue(view, id, done, s);
      if s.serverId == id && s.key == k {
        assert s == Slot(id, k);
      }
    }
  }

  /** Ranging over a map: the entries still to visit and those already visited. */
  ghost predicate Splits(edits: Env, todo: set<string>, done: Env) {
    forall k {:trigger k in todo} {:trigger k in done} {:trigger k in edits} ::
      && (k in todo <==> k in edits && k !in done)
      && (k in done ==> k in edits && done[k] == edits[k])
  }

  lemma SplitsNext(edits: Env, todo: set<string>, done: Env, k: string)
    requires Splits(edits, todo, done) && k in todo
    ensures Splits(edits, todo - {k}, done[k := edits[k]])
  {
  }

  lemma SplitsEnd(edits: Env, done: Env)
    requires Splits(edits, {}, done)
    ensures done == edits
  {
  }

  /** A key that has not had its turn has no entry if the server had none. */
  lemma NewSlot(view: map<Slot, string>, id: int, done: Env, now: map<Slot, string>, k: string)
    requires Patched(view, id, done, now) && k !in done && Slot(id, k) !in view
    ensures Slot(id, k) !in now
  {
    assert Lookup(now, Slot(id, k)) == Lookup(view, Slot(id, k));
  }

  /** The outcome does not depend on the order of the edits: the patched table is unique. */
  lemma PatchDeterministic(view: map<Slot, string>, id: int, edits: Env, a: map<Slot, string>, b: map<Slot, string>)
    requires Patched(view, id, edits, a) && Patched(view, id, edits, b)
    ensures a == b
  {
    forall s
      ensures Lookup(a, s) == Lookup(b, s)
    {
    }
    SameLookups(a, b);
  }

  /** Saving the same request twice is saving it once. */
  lemma UpdateIdempotent(row: ServerRow, view: map<Slot, string>, id: int, req: UpdateRequest,
                         view': map<Slot, string>, view'': map<Slot, string>)
    requires Patched(view, id, req.customConfig, view') && Patched(view', id, req.customConfig, view'')
    ensures req.Applied(req.Applied(row)) == req.Applied(row)
    ensures view'' == view'
  {
    forall s: Slot
      ensures Lookup(view'', s) == Lookup(view', s)
    {
      assert Lookup(view', s) == PatchedValue(view, id, req.customConfig, s);
    }
    SameLookups(view'', view');
  }

  // ---- From an edit to the next start

  lemma {:induction false} StrongestSplit(low: seq<Env>, high: seq<Env>, k: string)
    ensures Strongest(low + high, k) == if Strongest(high, k).Some? then Strongest(high, k) else Strongest(low, k)
  {
    if high == [] {
      assert low + high == low;
    } else {
      assert (low + high)[..|low + high| - 1] == low + high[..|high| - 1];
      StrongestSplit(low, high[..|high| - 1], k);
    }
  }

  /** After an update, the environment of the next start has each requested key at its new value and
      each emptied key at its mode or default value, unless the server's own fields overwrite it;
      keys the request does not mention keep what they had. */
  lemma EditReachesEnv(view: map<Slot, string>, id: int, edits: Env, view': map<Slot, string>,
                       inp: Inputs, env: Env, k: string)
    requires Patched(view, id, edits, view')
    requires Resolves(env, Layers(inp, ConfigOf(view', id)))
    ensures var above := Strongest(Layers(inp, map[])[3..], k);
      var below := Strongest([inp.defaults, inp.mode], k);
      Lookup(env, k) ==
        if above.Some? then above
        else if k in edits && edits[k] == "" then below
        else if k in edits && |k| <= KEY_LIMIT then Some(edits[k])
        else if Slot(id, k) in view then Some(view[Slot(id, k)])
        else below
  {
    var config := ConfigOf(view', id);
    StrongestAroundConfig(inp, config, k);
    assert Lookup(view', Slot(id, k)) == EditedValue(Lookup(view, Slot(id, k)), edits, k);
    assert k in config <==> Slot(id, k) in view';
    assert Lookup(env, k) == Strongest(Layers(inp, config), k);
  }

  lemma StrongestAroundConfig(inp: Inputs, config: Env, k: string)
    ensures var above := Strongest(Layers(inp, map[])[3..], k);
      Strongest(Layers(inp, config), k) ==
        if above.Some? then above
        else if k in config then Some(config[k])
        else Strongest([inp.defaults, inp.mode], k)
  {
    var layers, low := Layers(inp, config), [inp.defaults, inp.mode];
    assert layers == (low + [config]) + layers[3..];
    assert layers[3..] == Layers(inp, map[])[3..];
    StrongestSplit(low + [config], layers[3..], k);
    assert (low + [config])[..2] == low;
  }

  // ---- The handlers

  /** Spaces, underscores and dots become hyphens, and the rest is lower-cased, on ASCII names. */
  function Sanitized(name: string): string {
    seq(|name|, i requires 0 <= i < |name| =>
      if name[i] in " _." then '-'
      else if 'A' <= name[i] <= 'Z' then name[i] - 'A' + 'a'
      else name[i])
  }

  function ContainerName(name: string): string {
    "lanmaster-" + Sanitized(name)
  }

  predicate Separator(c: char) {
    c in " _.-"
  }

  predicate CaseVariants(c: char, d: char) {
    || c == d
    || ('A' <= c <= 'Z' && d as int == c as int + 32)
    || ('A' <= d <= 'Z' && c as int == d as int + 32)
  }

  /** Container names are not unique: two servers share one exactly when their names have equal length
      and at each place two separators or two characters that differ at most in case. */
  lemma ContainerNamesCollide(a: string, b: string)
    ensures ContainerName(a) == ContainerName(b) <==>
      && |a| == |b|
      && forall i :: 0 <= i < |a| ==> (Separator(a[i]) && Separator(b[i])) || CaseVariants(a[i], b[i])
  {
    assert ContainerName(a)[10..] == Sanitized(a) && ContainerName(b)[10..] == Sanitized(b);
    if |a| == |b| {
      forall i | 0 <= i < |a|
        ensures Sanitized(a)[i] == Sanitized(b)[i] <==>
          (Separator(a[i]) && Separator(b[i])) || CaseVariants(a[i], b[i])
      {
      }
    }
  }

  datatype CreateRequest = CreateRequest(
    agentId: int, gameId: int, modeId: Option<int>, name: string,
    port: int, maxPlayers: int, password: string, rconPassword: string, customConfig: Env)
  {
    predicate Complete() {
      name != "" && port != 0 && agentId != 0 && gameId != 0
    }

    function Row(): ServerRow {
      ServerRow(agentId, gameId, modeId, name, ContainerName(name), port, maxPlayers,
                Nullable(password), Nullable(rconPassword))
    }
  }

  predicate ChangesOnly(before: map<int, ServerRow>, id: int, after: map<int, ServerRow>) {
    id in after && after == before[id := after[id]]
  }

  /** Every column holds what the request says about it. */
  predicate RequestedRow(row: ServerRow, req: CreateRequest) {
    && row.agentId == req.agentId && row.gameId == req.gameId && row.modeId == req.modeId
    && row.name == req.name && row.containerName == ContainerName(req.name)
    && row.port == req.port && row.maxPlayers == req.maxPlayers
    && row.password == (if req.password == "" then None else Some(req.password))
    && row.rconPassword == (if req.rconPassword == "" then None else Some(req.rconPassword))
  }

  /** After an update the secrets are the requested ones, or none; the numbers are the requested ones, or
      kept when those are zero; the rest is kept. */
  predicate UpdatedRow(before: ServerRow, req: UpdateRequest, after: ServerRow) {
    && after.password == (if req.password == "" then None else Some(req.password))
    && after.rconPassword == (if req.rconPassword == "" then None else Some(req.rconPassword))
    && after.port == (if req.port == 0 then before.port else req.port)
    && after.maxPlayers == (if req.maxPlayers == 0 then before.maxPlayers else req.maxPlayers)
    && after.agentId == before.agentId && after.gameId == before.gameId && after.modeId == before.modeId
    && after.name == before.name && after.containerName == before.containerName
  }

  /** The container name spells the server's name after a fixed prefix, place by place. */
  lemma ContainerNameMeaning(name: string, i: nat)
    requires i < |name|
    ensures |ContainerName(name)| == 10 + |name| && ContainerName(name)[..10] == "lanmaster-"
    ensures name[i] in " _." ==> ContainerName(name)[10 + i] == '-'
    ensures 'A' <= name[i] <= 'Z' ==> ContainerName(name)[10 + i] as int == name[i] as int + 32
    ensures name[i] !in " _." && !('A' <= name[i] <= 'Z') ==> ContainerName(name)[10 + i] == name[i]
  {
    assert ContainerName(name)[10 + i] == Sanitized(name)[i];
  }

  /** A start after the update gets each requested field under its variable, unless a stronger field has
      the same variable. */
  ghost predicate RequestReaches(before: ServerRow, f: FieldMappings, req: UpdateRequest, e: Env) {
    && (forall k :: k in f.portDerivedVars ==>
          Lookup(e, k) == Some(Itoa(Add(if req.port == 0 then before.port else req.port, f.portDerivedVars[k]))))
    && (req.rconPassword != "" && f.envRconPassword != "" && f.envRconPassword !in f.portDerivedVars ==>
          Lookup(e, f.envRconPassword) == Some(req.rconPassword))
    && (req.password != "" && f.envPassword != "" && f.envPassword !in f.portDerivedVars
        && !(f.envRconPassword == f.envPassword && req.rconPassword != "") ==>
          Lookup(e, f.envPassword) == Some(req.password))
    && (f.envMaxPlayers != "" && f.envMaxPlayers !in f.portDerivedVars
        && !(f.envRconPassword == f.envMaxPlayers && req.rconPassword != "")
        && !(f.envPassword == f.envMaxPlayers && req.password != "") ==>
          Lookup(e, f.envMaxPlayers) == Some(Itoa(if req.maxPlayers == 0 then before.maxPlayers else req.maxPlayers)))
  }

  lemma ExpectedReaches(before: ServerRow, row: ServerRow, game: GameRow, mode: Env, config: Env,
                        req: UpdateRequest, e: Env)
    requires UpdatedRow(before, req, row)
    requires forall k :: Lookup(e, k) == Expected(game.defaultEnv, mode, config, game.fields, row.port, row.maxPlayers,
                                                  row.password, row.rconPassword, k)
    ensures RequestReaches(before, game.fields, req, e)
  {
  }

  datatype Reply = BadRequest | Failed | NotFound | Created(id: int) | Updated

  class ServerDb {
    var agents: set<int>
    var games: map<int, GameRow>
    var modes: map<int, Env>
    var servers: map<int, ServerRow>
    var configs: seq<ConfigRow>
    var nextId: nat
    ghost var view: map<Slot, string>

    /** The declared constraints, and that no entry is empty. */
    ghost predicate Valid()
      reads this
    {
      && Holds(configs, view)
      && (forall s :: s in view ==> s.serverId in servers && view[s] != "" && |s.key| <= KEY_LIMIT)
      && (forall id :: id in servers ==> id < nextId && Refers(servers[id]))
    }

    predicate Refers(row: ServerRow)
      reads this
    {
      row.agentId in agents && row.gameId in games && (row.modeId.Some? ==> row.modeId.value in modes)
    }

    predicate Accepts(row: ServerRow)
      reads this
    {
      && Refers(row) && IsInt32(row.port) && IsInt32(row.maxPlayers)
      && |row.name| <= NAME_LIMIT && |row.containerName| <= CONTAINER_NAME_LIMIT
      && (row.password.Some? ==> |row.password.value| <= PASSWORD_LIMIT)
      && (row.rconPassword.Some? ==> |row.rconPassword.value| <= PASSWORD_LIMIT)
    }

    constructor (agents: set<int>, games: map<int, GameRow>, modes: map<int, Env>)
      ensures Valid() && servers == map[] && view == map[]
      ensures this.agents == agents && this.games == games && this.modes == modes
    {
      this.agents, this.games, this.modes := agents, games, modes;
      servers, configs, nextId, view := map[], [], 1, map[];
    }

    method CreateServer(req: CreateRequest) returns (r: Reply)
      requires Valid()
      modifies this`servers, this`configs, this`nextId, this`view
      ensures Valid()
      ensures r.BadRequest? <==> req.name == "" || req.port == 0 || req.agentId == 0 || req.gameId == 0
      ensures r.Failed? ==> req.Complete() && !Accepts(req.Row())
      ensures r.Created? <==>
        && req.name != "" && req.port != 0 && req.agentId != 0 && req.gameId != 0
        && req.agentId in agents && req.gameId in games && (req.modeId.Some? ==> req.modeId.value in modes)
        && IsInt32(req.port) && IsInt32(req.maxPlayers)
        && |req.name| <= 64 && |req.name| + 10 <= 128 && |req.password| <= 255 && |req.rconPassword| <= 255
      ensures !r.Created? ==> r.BadRequest? || r.Failed?
      ensures !r.Created? ==> servers == old(servers) && view == old(view)
      ensures r.Created? ==>
        && r.id !in old(servers) && ChangesOnly(old(servers), r.id, servers)
        && RequestedRow(servers[r.id], req)
        && Patched(old(view), r.id, req.customConfig, view)
    {
      if req.name == "" || req.port == 0 || req.agentId == 0 || req.gameId == 0 {
        return BadRequest;
      }
      var id := nextId;
      nextId := nextId + 1;
      if !Accepts(req.Row()) {
        return Failed;
      }
      servers := servers[id := req.Row()];
      InsertEntries(id, req.customConfig);
      return Created(id);
    }

    method InsertEntries(id: int, entries: Env)
      requires Valid() && id in servers
      requires forall s :: s in view ==> s.serverId != id
      modifies this`configs, this`view
      ensures Valid() && Patched(old(view), id, entries, view)
    {
      var todo := entries.Keys;
      ghost var done: Env := map[];
      while todo != {}
        invariant Valid()
        invariant Splits(entries, todo, done) && Patched(old(view), id, done, view)
        decreases |todo|
      {
        var k :| k in todo;
        NewSlot(old(view), id, done, view, k);
        SplitsNext(entries, todo, done, k);
        PatchStep(old(view), id, done, view, k, entries[k]);
        InsertEntry(id, k, entries[k]);
        done := done[k := entries[k]];
        todo := todo - {k};
      }
      SplitsEnd(entries, done);
    }

    method InsertEntry(id: int, k: string, v: string)
      requires Valid() && id in servers && Slot(id, k) !in view
      modifies this`configs, this`view
      ensures Valid() && view == Edit(old(view), id, k, v)
    {
      assert view - {Slot(id, k)} == view;
      if v == "" {
        return;
      }
      InsertNewHolds(configs, view, id, k, v);
      configs := InsertNew(configs, id, k, v);
      view := Edit(view, id, k, v);
    }

    /** A value that does not fit its integer parameter is refused outright; one that does not fit
        its column, only when there is a row to change. */
    method UpdateServer(id: int, req: UpdateRequest) returns (r: Reply)
      requires Valid()
      modifies this`servers, this`configs, this`view
      ensures Valid()
      ensures r.Updated? <==>
        && id in old(servers) && IsInt32(req.port) && IsInt32(req.maxPlayers)
        && |req.password| <= 255 && |req.rconPassword| <= 255
      ensures r.NotFound? <==> id !in old(servers) && IsInt32(req.port) && IsInt32(req.maxPlayers)
      ensures !r.Updated? && !r.NotFound? ==> r.Failed?
      ensures !r.Updated? ==> servers == old(servers) && view == old(view)
      ensures r.Updated? ==>
        && ChangesOnly(old(servers), id, servers) && UpdatedRow(old(servers)[id], req, servers[id])
        && Patched(old(view), id, req.customConfig, view)
    {
      if !IsInt32(req.port) || !IsInt32(req.maxPlayers) {
        return Failed;
      }
      if id !in servers {
        return NotFound;
      }
      if !req.Storable() {
        return Failed;
      }
      servers := servers[id := req.Applied(servers[id])];
      ApplyEdits(id, req.customConfig);
      return Updated;
    }

    method ApplyEdits(id: int, edits: Env)
      requires Valid() && id in servers
      modifies this`configs, this`view
      ensures Valid() && Patched(old(view), id, edits, view)
    {
      var todo := edits.Keys;
      ghost var done: Env := map[];
      while todo != {}
        invariant Valid()
        invariant Splits(edits, todo, done) && Patched(old(view), id, done, view)
        decreases |todo|
      {
        var k :| k in todo;
        SplitsNext(edits, todo, done, k);
        PatchStep(old(view), id, done, view, k, edits[k]);
        ApplyEdit(id, k, edits[k]);
        done := done[k := edits[k]];
        todo := todo - {k};
      }
      SplitsEnd(edits, done);
    }

    method ApplyEdit(id: int, k: string, v: string)
      requires Valid() && id in servers
      modifies this`configs, this`view
      ensures Valid() && view == Edit(old(view), id, k, v)
    {
      if v == "" {
        DeleteHolds(configs, view, id, k);
        configs := Delete(configs, id, k);
      } else {
        UpsertHolds(configs, view, id, k, v);
        configs := Upsert(configs, id, k, v);
      }
      view := Edit(view, id, k, v);
    }

    /** DELETE FROM game_servers: the entries go with their row. */
    method DeleteServer(id: int)
      requires Valid()
      modifies this`servers, this`configs, this`view
      ensures Valid() && servers == old(servers) - {id}
      ensures view == map s | s in old(view) && s.serverId != id :: old(view)[s]
    {
      servers := servers - {id};
      RemainHolds(configs, view, id);
      configs := Remaining(configs, id);
      view := map s | s in view && s.serverId != id :: view[s];
    }

    /** SELECT key, value ... WHERE game_server_id = id, with no ORDER BY: callers may rely on the set
        of rows only. */
    method SelectConfigs(id: int) returns (rows: seq<ConfigRow>)
      requires Valid()
      ensures IsResult(rows, ConfigOf(view, id))
    {
      rows := [];
      ghost var config := ConfigOf(view, id);
      for n := 0 to |configs|
        invariant forall i :: 0 <= i < |rows| ==>
            rows[i].slot.key in config && config[rows[i].slot.key] == rows[i].value
        invariant forall j {:trigger configs[j]} :: 0 <= j < n && configs[j].slot.serverId == id ==> configs[j] in rows
      {
        if configs[n].slot.serverId == id {
          rows := rows + [configs[n]];
        }
      }
      forall k | k in config
        ensures exists i :: 0 <= i < |rows| && rows[i].slot.key == k
      {
        var j := IndexOf(configs, Slot(id, k));
        assert configs[j] in rows;
      }
    }

    ghost function InputsOf(row: ServerRow): Inputs
      requires Refers(row)
      reads this
    {
      Inputs(games[row.gameId].defaultEnv, if row.modeId.Some? then modes[row.modeId.value] else map[],
             games[row.gameId].fields, row.port, row.maxPlayers, row.password, row.rconPassword)
    }

    method BuildServerStartPayload(id: int) returns (env: Option<Env>)
      requires Valid()
      ensures env.Some? <==> id in servers
      ensures env.Some? ==> Resolves(env.value, Layers(InputsOf(servers[id]), ConfigOf(view, id)))
      ensures env.Some? ==> StartsWith(env.value, id)
    {
      if id !in servers {
        return None;
      }
      var row := servers[id];
      var game := games[row.gameId];
      var mode := if row.modeId.Some? then modes[row.modeId.value] else map[];
      var rows := SelectConfigs(id);
      var inp := Inputs(game.defaultEnv, mode, game.fields, row.port, row.maxPlayers, row.password, row.rconPassword);
      var e := BuildEnv(inp, rows, ConfigOf(view, id));
      forall k
        ensures Lookup(e, k) == ExpectedAt(id, k)
      {
        EnvIsExpected(e, inp, ConfigOf(view, id), k);
      }
      return Some(e);
    }

    /** What a start of the server gets for a key, from the columns of its row, its game and its mode. */
    ghost function ExpectedAt(id: int, k: string): Option<string>
      requires id in servers && Refers(servers[id])
      reads this
    {
      var row := servers[id];
      var game := games[row.gameId];
      Expected(game.defaultEnv, if row.modeId.Some? then modes[row.modeId.value] else map[], ConfigOf(view, id),
               game.fields, row.port, row.maxPlayers, row.password, row.rconPassword, k)
    }

    ghost predicate StartsWith(env: Env, id: int)
      requires id in servers && Refers(servers[id])
      reads this
    {
      forall k :: Lookup(env, k) == ExpectedAt(id, k)
    }

    /** An update followed by the next start. */
    method UpdateThenBuild(id: int, req: UpdateRequest) returns (r: Reply, env: Option<Env>)
      requires Valid()
      modifies this`servers, this`configs, this`view
      ensures Valid()
      ensures r.Updated? ==>
        && env.Some? && id in old(servers) && old(Valid())
        && RequestReaches(old(servers)[id], games[old(servers)[id].gameId].fields, req, env.value)
    {
      r := UpdateServer(id, req);
      env := None;
      if r.Updated? {
        env := BuildServerStartPayload(id);
        ghost var row := servers[id];
        ExpectedReaches(old(servers)[id], row, games[row.gameId],
                        if row.modeId.Some? then modes[row.modeId.value] else map[],
                        ConfigOf(view, id), req, env.value);
      }
    }
  }
}
