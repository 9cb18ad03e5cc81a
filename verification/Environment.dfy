/** The environment of a game container (master/api_servers.go, buildServerStartPayload): seven
    sources written one over the other into one map. */
module Environment {
  import opened Options
  import opened Decimal

  type Env = map<string, string>

  datatype FieldMappings = FieldMappings(
    envMaxPlayers: string, envPassword: string, envRconPassword: string, portDerivedVars: map<string, int>)

  datatype Slot = Slot(serverId: int, key: string)
  datatype ConfigRow = ConfigRow(slot: Slot, value: string)

  /** What the queries of one start bring together; the config rows come in no particular order. */
  datatype Inputs = Inputs(
    defaults: Env, mode: Env, fields: FieldMappings,
    port: int, maxPlayers: int, password: Option<string>, rconPassword: Option<string>)

  /** 64-bit addition. */
  function Add(a: int, b: int): int {
    (a + b + 0x8000_0000_0000_0000) % 0x1_0000_0000_0000_0000 - 0x8000_0000_0000_0000
  }

  function MaxPlayersLayer(inp: Inputs): Env {
    if inp.fields.envMaxPlayers != "" then map[inp.fields.envMaxPlayers := Itoa(inp.maxPlayers)] else map[]
  }

  function SecretLayer(name: string, secret: Option<string>): Env {
    if name != "" && secret.Some? && secret.value != "" then map[name := secret.value] else map[]
  }

  /** The layers from the weakest to the strongest. */
  function Layers(inp: Inputs, config: Env): seq<Env> {
    [ inp.defaults,
      inp.mode,
      config,
      MaxPlayersLayer(inp),
      SecretLayer(inp.fields.envPassword, inp.password),
      SecretLayer(inp.fields.envRconPassword, inp.rconPassword),
      map k | k in inp.fields.portDerivedVars :: Itoa(Add(inp.port, inp.fields.portDerivedVars[k])) ]
  }

  /** The value of the strongest layer that defines the key. */
  function Strongest(layers: seq<Env>, k: string): Option<string> {
    if layers == [] then None
    else if k in layers[|layers| - 1] then Some(layers[|layers| - 1][k])
    else Strongest(layers[..|layers| - 1], k)
  }

  /** env holds, for every key, what the priority lookup finds, and nothing else. */
  ghost predicate Resolves(env: Env, layers: seq<Env>) {
    forall k :: Lookup(env, k) == Strongest(layers, k)
  }

  lemma ResolvesOver(env: Env, layers: seq<Env>, top: Env)
    requires Resolves(env, layers)
    ensures Resolves(env + top, layers + [top])
  {
    forall k
      ensures Lookup(env + top, k) == Strongest(layers + [top], k)
    {
      assert (layers + [top])[..|layers|] == layers;
      assert Lookup(env, k) == Strongest(layers, k);
    }
  }

  lemma ResolvesNext(env: Env, layers: seq<Env>, n: nat)
    requires n < |layers| && Resolves(env, layers[..n])
    ensures Resolves(env + layers[n], layers[..n + 1])
  {
    ResolvesOver(env, layers[..n], layers[n]);
    assert layers[..n + 1] == layers[..n] + [layers[n]];
  }

  ghost predicate HighestAt(layers: seq<Env>, k: string, i: int) {
    0 <= i < |layers| && k in layers[i] && forall j :: i < j < |layers| ==> k !in layers[j]
  }

  /** The highest defining layer, by index. */
  lemma {:induction false} StrongestIsHighest(layers: seq<Env>, k: string)
    ensures Strongest(layers, k).None? <==> forall i :: 0 <= i < |layers| ==> k !in layers[i]
    ensures Strongest(layers, k).Some? ==>
      exists i :: HighestAt(layers, k, i) && Strongest(layers, k).value == layers[i][k]
  {
    if layers != [] && k in layers[|layers| - 1] {
      assert HighestAt(layers, k, |layers| - 1);
    } else if layers != [] {
      var front := layers[..|layers| - 1];
      StrongestIsHighest(front, k);
      if Strongest(front, k).Some? {
        var i :| HighestAt(front, k, i) && Strongest(front, k).value == front[i][k];
        assert forall j :: i < j < |front| ==> layers[j] == front[j];
        assert HighestAt(layers, k, i);
      } else {
        assert forall i :: 0 <= i < |front| ==> layers[i] == front[i];
      }
    }
  }

  // ---- Key by key

  lemma AddMeaning(a: int, b: int)
    ensures -0x8000_0000_0000_0000 <= Add(a, b) < 0x8000_0000_0000_0000
    ensures (a + b - Add(a, b)) % 0x1_0000_0000_0000_0000 == 0
    ensures -0x8000_0000_0000_0000 <= a + b < 0x8000_0000_0000_0000 ==> Add(a, b) == a + b
  {
  }

  /** Who decides about a key: the port-derived variables, then the RCON password, the password and the
      player limit, each if it has a variable and, for the secrets, a value; then the server's own
      configuration, its mode, its game. */
  function Expected(defaults: Env, mode: Env, config: Env, f: FieldMappings, port: int, maxPlayers: int,
                    password: Option<string>, rconPassword: Option<string>, k: string): Option<string>
  {
    if k in f.portDerivedVars then Some(Itoa(Add(port, f.portDerivedVars[k])))
    else if k != "" && k == f.envRconPassword && rconPassword != None && rconPassword != Some("") then rconPassword
    else if k != "" && k == f.envPassword && password != None && password != Some("") then password
    else if k != "" && k == f.envMaxPlayers then Some(Itoa(maxPlayers))
    else if k in config then Some(config[k])
    else if k in mode then Some(mode[k])
    else if k in defaults then Some(defaults[k])
    else None
  }

  lemma StrongestOfSeven(a: Env, b: Env, c: Env, d: Env, e: Env, f: Env, g: Env, k: string)
    ensures Strongest([a, b, c, d, e, f, g], k) ==
      if k in g then Some(g[k]) else if k in f then Some(f[k]) else if k in e then Some(e[k])
      else if k in d then Some(d[k]) else if k in c then Some(c[k]) else if k in b then Some(b[k])
      else if k in a then Some(a[k]) else None
  {
    StrongestOverThree([], a, b, c, k);
    StrongestOverThree([a, b, c], d, e, f, k);
    StrongestSnoc([a, b, c, d, e, f], g, k);
    assert [] + [a, b, c] == [a, b, c] && [a, b, c] + [d, e, f] == [a, b, c, d, e, f];
    assert [a, b, c, d, e, f] + [g] == [a, b, c, d, e, f, g];
  }

  lemma StrongestOverThree(low: seq<Env>, a: Env, b: Env, c: Env, k: string)
    ensures Strongest(low + [a, b, c], k) ==
      if k in c then Some(c[k]) else if k in b then Some(b[k]) else if k in a then Some(a[k]) else Strongest(low, k)
  {
    StrongestSnoc(low, a, k);
    StrongestSnoc(low + [a], b, k);
    StrongestSnoc(low + [a] + [b], c, k);
    assert low + [a] + [b] + [c] == low + [a, b, c];
  }

  lemma StrongestSnoc(layers: seq<Env>, top: Env, k: string)
    ensures Strongest(layers + [top], k) == if k in top then Some(top[k]) else Strongest(layers, k)
  {
    assert (layers + [top])[..|layers|] == layers;
  }

  lemma EnvIsExpected(env: Env, inp: Inputs, config: Env, k: string)
    requires Resolves(env, Layers(inp, config))
    ensures Lookup(env, k) == Expected(inp.defaults, inp.mode, config, inp.fields, inp.port, inp.maxPlayers,
                                       inp.password, inp.rconPassword, k)
  {
    var l := Layers(inp, config);
    StrongestOfSeven(l[0], l[1], l[2], l[3], l[4], l[5], l[6], k);
    assert l == [l[0], l[1], l[2], l[3], l[4], l[5], l[6]];
    assert Lookup(env, k) == Strongest(l, k);
  }

  // ---- The loops

  /** `for k, v := range m` visits the entries in an arbitrary order. */
  method Overlay(env: Env, m: Env) returns (r: Env)
    ensures r == env + m
  {
    r := env;
    var todo := m.Keys;
    while todo != {}
      invariant todo <= m.Keys
      invariant r == env + (map k | k in m && k !in todo :: m[k])
    {
      var k :| k in todo;
      r := r[k := m[k]];
      todo := todo - {k};
    }
    assert m == map k | k in m && k !in todo :: m[k];
  }

  method OverlayPorts(env: Env, port: int, vars: map<string, int>) returns (r: Env)
    ensures r == env + map k | k in vars :: Itoa(Add(port, vars[k]))
  {
    r := env;
    var todo := vars.Keys;
    while todo != {}
      invariant todo <= vars.Keys
      invariant r == env + map k | k in vars && k !in todo :: Itoa(Add(port, vars[k]))
    {
      var k :| k in todo;
      r := r[k := Itoa(Add(port, vars[k]))];
      todo := todo - {k};
    }
  }

  /** rows are the result of the query, in the order the database chose. */
  ghost predicate IsResult(rows: seq<ConfigRow>, config: Env) {
    && (forall i :: 0 <= i < |rows| ==> rows[i].slot.key in config && config[rows[i].slot.key] == rows[i].value)
    && (forall k :: k in config ==> exists i :: 0 <= i < |rows| && rows[i].slot.key == k)
  }

  method OverlayRows(env: Env, rows: seq<ConfigRow>, ghost config: Env) returns (r: Env)
    requires IsResult(rows, config)
    ensures r == env + config
  {
    r := env;
    ghost var part: Env := map[];
    for i := 0 to |rows|
      invariant r == env + part
      invariant forall k :: k in part ==> k in config && part[k] == config[k]
      invariant forall j :: 0 <= j < i ==> rows[j].slot.key in part
    {
      r := r[rows[i].slot.key := rows[i].value];
      part := part[rows[i].slot.key := rows[i].value];
    }
    assert part == config;
  }

  /** The environment is the priority lookup over the seven layers, whatever the order in which the
      maps and the rows are visited. */
  method BuildEnv(inp: Inputs, rows: seq<ConfigRow>, ghost config: Env) returns (env: Env)
    requires IsResult(rows, config)
    ensures Resolves(env, Layers(inp, config))
  {
    ghost var layers := Layers(inp, config);
    assert Resolves(map[], layers[..0]);
    env := inp.defaults;
    assert env == map[] + layers[0];
    ResolvesNext(map[], layers, 0);

    ResolvesNext(env, layers, 1);
    env := Overlay(env, inp.mode);

    ResolvesNext(env, layers, 2);
    env := OverlayRows(env, rows, config);

    ResolvesNext(env, layers, 3);
    ResolvesNext(env + layers[3], layers, 4);
    ResolvesNext(env + layers[3] + layers[4], layers, 5);
    env := OverlayFields(env, inp);

    ResolvesNext(env, layers, 6);
    env := OverlayPorts(env, inp.port, inp.fields.portDerivedVars);
    assert layers[..7] == layers;
  }

  method OverlayFields(env: Env, inp: Inputs) returns (r: Env)
    ensures r == env + MaxPlayersLayer(inp) + SecretLayer(inp.fields.envPassword, inp.password)
                 + SecretLayer(inp.fields.envRconPassword, inp.rconPassword)
  {
    r := env;
    if inp.fields.envMaxPlayers != "" {
      r := r[inp.fields.envMaxPlayers := Itoa(inp.maxPlayers)];
    }
    assert r == env + MaxPlayersLayer(inp);
    r := OverlaySecret(r, inp.fields.envPassword, inp.password);
    r := OverlaySecret(r, inp.fields.envRconPassword, inp.rconPassword);
  }

  method OverlaySecret(env: Env, name: string, secret: Option<string>) returns (r: Env)
    ensures r == env + SecretLayer(name, secret)
  {
    r := env;
    if name != "" && secret.Some? && secret.value != "" {
      r := r[name := secret.value];
    }
  }
}
