/** What a run is given: its parameters, and the environment each node is launched with. */
module RunInputs {
  import opened Wrappers
  import opened JobTypes
  import Definition

  type Env = map<string, string>

  // ---- Parameters ----

  datatype ParamError = RequiredMissing(name: string) | UnknownParam(name: string)

  predicate Declared(defs: seq<ParamDefinition>, x: string) {
    exists d :: d in defs && d.name == x
  }

  /** A required parameter without default was not supplied. */
  predicate Lacking(d: ParamDefinition, supplied: Env) {
    d.required && d.default.None? && d.name !in supplied
  }

  /** The value for the last declaration of `x` that has one: the supplied value, else the last default. */
  function Value(defs: seq<ParamDefinition>, supplied: Env, x: string): Option<string> {
    if defs == [] then None
    else
      var d := defs[|defs| - 1];
      if d.name == x && x in supplied then Some(supplied[x])
      else if d.name == x && d.default.Some? then d.default
      else Value(defs[..|defs| - 1], supplied, x)
  }

  /** The resolved parameters: a value for every declared name that has one, and nothing else. */
  ghost predicate ResolvesTo(defs: seq<ParamDefinition>, supplied: Env, r: Env) {
    forall x :: (x in r <==> Value(defs, supplied, x).Some?) && (x in r ==> Value(defs, supplied, x) == Some(r[x]))
  }

  /** A supplied value always wins, even over later declarations with defaults. */
  lemma {:induction false} SuppliedWins(defs: seq<ParamDefinition>, supplied: Env, x: string)
    ensures x in supplied && Declared(defs, x) ==> Value(defs, supplied, x) == Some(supplied[x])
    ensures !Declared(defs, x) ==> Value(defs, supplied, x) == None
  {
    if defs != [] {
      SuppliedWins(defs[..|defs| - 1], supplied, x);
      assert defs == defs[..|defs| - 1] + [defs[|defs| - 1]];
    }
  }

  /**
   The same read off the declarations: every declared name that was supplied or has a default gets a value,
   the supplied one or else the default of its last declaration with one.
   */
  ghost predicate TakesValues(defs: seq<ParamDefinition>, supplied: Env, r: Env) {
    && (forall i :: 0 <= i < |defs| && (defs[i].name in supplied || defs[i].default.Some?) ==> defs[i].name in r)
    && (forall x :: x in r ==> exists i :: TakesFrom(defs, supplied, r, x, i))
  }

  ghost predicate TakesFrom(defs: seq<ParamDefinition>, supplied: Env, r: Env, x: string, i: int) {
    && 0 <= i < |defs| && defs[i].name == x && x in r
    && if x in supplied then r[x] == supplied[x]
       else defs[i].default == Some(r[x]) && forall j :: i < j < |defs| && defs[j].name == x ==> defs[j].default.None?
  }

  lemma {:induction false} ValueFrom(defs: seq<ParamDefinition>, supplied: Env, x: string) returns (i: int)
    requires Value(defs, supplied, x).Some?
    ensures 0 <= i < |defs| && defs[i].name == x
    ensures x in supplied ==> Value(defs, supplied, x) == Some(supplied[x])
    ensures x !in supplied ==> defs[i].default == Value(defs, supplied, x)
    ensures x !in supplied ==> forall j :: i < j < |defs| && defs[j].name == x ==> defs[j].default.None?
  {
    var d := defs[|defs| - 1];
    if d.name == x && (x in supplied || d.default.Some?) {
      i := |defs| - 1;
    } else {
      i := ValueFrom(defs[..|defs| - 1], supplied, x);
    }
  }

  lemma {:induction false} ValueExists(defs: seq<ParamDefinition>, supplied: Env, i: nat)
    requires i < |defs| && (defs[i].name in supplied || defs[i].default.Some?)
    ensures Value(defs, supplied, defs[i].name).Some?
  {
    if i < |defs| - 1 { ValueExists(defs[..|defs| - 1], supplied, i); }
  }

  lemma ResolvedTakes(defs: seq<ParamDefinition>, supplied: Env, r: Env)
    requires ResolvesTo(defs, supplied, r)
    ensures TakesValues(defs, supplied, r)
  {
    hide Value;
    forall i | 0 <= i < |defs| && (defs[i].name in supplied || defs[i].default.Some?) ensures defs[i].name in r {
      ValueExists(defs, supplied, i);
    }
    forall x | x in r ensures exists i :: TakesFrom(defs, supplied, r, x, i) {
      var i := ValueFrom(defs, supplied, x);
      assert TakesFrom(defs, supplied, r, x, i);
    }
  }

  ghost predicate FirstLacking(defs: seq<ParamDefinition>, supplied: Env, i: int) {
    0 <= i < |defs| && Lacking(defs[i], supplied) && forall j :: 0 <= j < i ==> !Lacking(defs[j], supplied)
  }

  /** The loop both ways of starting a run share. */
  method ResolveParams(defs: seq<ParamDefinition>, supplied: Env) returns (r: Result<Env, ParamError>)
    ensures r.Ok? <==> forall d :: d in defs ==> !Lacking(d, supplied)
    ensures r.Ok? <==> forall d :: d in defs && d.required && d.default.None? ==> d.name in supplied
    ensures r.Ok? ==> ResolvesTo(defs, supplied, r.value) && TakesValues(defs, supplied, r.value)
    ensures r.Err? ==> exists i :: FirstLacking(defs, supplied, i) && r.error == RequiredMissing(defs[i].name)
  {
    var resolved: Env := map[];
    for i := 0 to |defs|
      invariant forall j :: 0 <= j < i ==> !Lacking(defs[j], supplied)
      invariant ResolvesTo(defs[..i], supplied, resolved)
    {
      var d := defs[i];
      assert defs[..i + 1][..i] == defs[..i] && defs[..i + 1][i] == d;
      if d.name in supplied {
        resolved := resolved[d.name := supplied[d.name]];
      } else if d.default.Some? {
        resolved := resolved[d.name := d.default.value];
      } else if d.required {
        assert d in defs && FirstLacking(defs, supplied, i);
        return Err(RequiredMissing(d.name));
      }
    }
    assert defs[..|defs|] == defs;
    ResolvedTakes(defs, supplied, resolved);
    return Ok(resolved);
  }

  /** Starting a run by hand: unknown parameters are refused. */
  method StartRunParams(defs: seq<ParamDefinition>, supplied: Env) returns (r: Result<Env, ParamError>)
    ensures r.Ok? <==>
      (forall d :: d in defs ==> !Lacking(d, supplied)) && forall x :: x in supplied ==> Declared(defs, x)
    ensures r.Ok? <==>
      && (forall d :: d in defs && d.required && d.default.None? ==> d.name in supplied)
      && forall x :: x in supplied ==> exists d :: d in defs && d.name == x
    ensures r.Ok? ==> ResolvesTo(defs, supplied, r.value) && TakesValues(defs, supplied, r.value)
    ensures r.Err? && r.error.UnknownParam? ==> r.error.name in supplied && !Declared(defs, r.error.name)
    ensures r.Err? && r.error.RequiredMissing? ==>
      exists i :: FirstLacking(defs, supplied, i) && r.error.name == defs[i].name
    ensures r.Err? && r.error.UnknownParam? ==> forall d :: d in defs ==> !Lacking(d, supplied)
  {
    r := ResolveParams(defs, supplied);
    if r.Err? {
      return;
    }
    var rest := supplied.Keys;
    while rest != {}
      invariant rest <= supplied.Keys
      invariant forall x :: x in supplied && x !in rest ==> Declared(defs, x)
      decreases |rest|
    {
      var x :| x in rest;
      rest := rest - {x};
      if !Declared(defs, x) {
        return Err(UnknownParam(x));
      }
    }
  }

  /** Starting a run by webhook: unknown parameters are ignored. */
  method WebhookParams(defs: seq<ParamDefinition>, supplied: Env) returns (r: Result<Env, ParamError>)
    ensures r.Ok? <==> forall d :: d in defs ==> !Lacking(d, supplied)
    ensures r.Ok? <==> forall d :: d in defs && d.required && d.default.None? ==> d.name in supplied
    ensures r.Ok? ==> ResolvesTo(defs, supplied, r.value) && TakesValues(defs, supplied, r.value)
    ensures r.Err? ==> exists i :: FirstLacking(defs, supplied, i) && r.error == RequiredMissing(defs[i].name)
  {
    r := ResolveParams(defs, supplied);
  }

  function Restrict(defs: seq<ParamDefinition>, supplied: Env): Env {
    map x | x in supplied && Declared(defs, x) :: supplied[x]
  }

  lemma {:induction false} RestrictedValue(defs: seq<ParamDefinition>, all: seq<ParamDefinition>, supplied: Env,
                                  x: string)
    requires forall d :: d in defs ==> d in all
    ensures Value(defs, Restrict(all, supplied), x) == Value(defs, supplied, x)
  {
    if defs != [] {
      assert defs[|defs| - 1] in all;
      RestrictedValue(defs[..|defs| - 1], all, supplied, x);
    }
  }

  /**
   A webhook resolves its parameters exactly as a manual start would on the declared ones:
   the same map is a correct answer, and the restricted start is accepted exactly when the
   webhook is.
   */
  lemma WebhookIsRestrictedStart(defs: seq<ParamDefinition>, supplied: Env, r: Env)
    ensures ResolvesTo(defs, supplied, r) <==> ResolvesTo(defs, Restrict(defs, supplied), r)
    ensures forall d :: d in defs ==> (Lacking(d, supplied) <==> Lacking(d, Restrict(defs, supplied)))
    ensures forall x :: x in Restrict(defs, supplied) ==> Declared(defs, x)
  {
    forall x ensures Value(defs, Restrict(defs, supplied), x) == Value(defs, supplied, x) {
      RestrictedValue(defs, defs, supplied, x);
    }
    hide Value;
  }

  /** There is only one resolved map. */
  lemma ResolvedUnique(defs: seq<ParamDefinition>, supplied: Env, a: Env, b: Env)
    requires ResolvesTo(defs, supplied, a) && ResolvesTo(defs, supplied, b)
    ensures a == b
  {
    hide Value;
    assert forall x :: x in a <==> x in b;
  }

  // ---- Environments ----

  /** Parameters fill the gaps of a node's environment, in whatever order they are visited. */
  method InjectParams(env: Env, params: Env) returns (r: Env)
    ensures forall x :: x in r <==> x in env || x in params
    ensures forall x :: x in r ==> r[x] == if x in env then env[x] else params[x]
  {
    r := env;
    var rest := params.Keys;
    while rest != {}
      invariant rest <= params.Keys
      invariant forall x :: x in r <==> x in env || (x in params && x !in rest)
      invariant forall x :: x in r ==> r[x] == if x in env then env[x] else params[x]
      decreases |rest|
    {
      var x :| x in rest;
      rest := rest - {x};
      if x !in r {
        r := r[x := params[x]];
      }
    }
  }

  datatype SecretError = SecretNotFound(name: string) | DecryptionFailed(name: string)

  predicate Available(store: map<string, Option<string>>, x: string) { x in store && store[x].Some? }

  /** The complaint is about the first secret of the list that cannot be had. */
  ghost predicate FirstBadSecret(names: seq<string>, store: map<string, Option<string>>, e: SecretError) {
    exists i :: 0 <= i < |names| && !Available(store, names[i])
      && (forall j :: 0 <= j < i ==> Available(store, names[j]))
      && e == if names[i] in store then DecryptionFailed(names[i]) else SecretNotFound(names[i])
  }

  /** Look up and decrypt the secrets; `store` holds `None` for a secret that does not decrypt. */
  method ResolveSecrets(names: seq<string>, store: map<string, Option<string>>) returns (r: Result<Env, SecretError>)
    ensures r.Ok? <==> forall x :: x in names ==> Available(store, x)
    ensures r.Ok? ==> forall x :: (x in r.value <==> x in names) && (x in names ==> Some(r.value[x]) == store[x])
    ensures r.Err? ==> FirstBadSecret(names, store, r.error)
  {
    var resolved: Env := map[];
    for i := 0 to |names|
      invariant forall j :: 0 <= j < i ==> Available(store, names[j])
      invariant forall x :: x in resolved <==> x in names[..i]
      invariant forall x :: x in resolved ==> x in store && store[x] == Some(resolved[x])
    {
      var name := names[i];
      assert name in names && names[..i + 1] == names[..i] + [name];
      if name !in store {
        return Err(SecretNotFound(name));
      }
      if store[name].None? {
        return Err(DecryptionFailed(name));
      }
      resolved := resolved[name := store[name].value];
    }
    assert names[..|names|] == names;
    return Ok(resolved);
  }

  /** Secrets override, in whatever order they are visited. */
  method InjectSecrets(env: Env, secrets: Env) returns (r: Env)
    ensures forall x :: x in r <==> x in env || x in secrets
    ensures forall x :: x in r ==> r[x] == if x in secrets then secrets[x] else env[x]
  {
    r := env;
    var rest := secrets.Keys;
    while rest != {}
      invariant rest <= secrets.Keys
      invariant forall x :: x in r <==> x in env || (x in secrets && x !in rest)
      invariant forall x :: x in r ==> r[x] == if x in secrets && x !in rest then secrets[x] else env[x]
      decreases |rest|
    {
      var x :| x in rest;
      rest := rest - {x};
      r := r[x := secrets[x]];
    }
  }

  /** The value of `x` in the first of the layers that has one. */
  function FirstHit(secrets: Env, node: Env, defaults: Env, params: Env, x: string): Option<string> {
    if x in secrets then Some(secrets[x])
    else if x in node then Some(node[x])
    else if x in defaults then Some(defaults[x])
    else if x in params then Some(params[x])
    else None
  }

  /** The secrets a node gets: those it names, when the server has a key. */
  function SecretsOf(names: seq<string>, haveKey: bool, store: map<string, Option<string>>): Env {
    map x | x in names && haveKey && Available(store, x) :: store[x].value
  }

  ghost predicate Layered(env: Env, secrets: Env, node: Env, defaults: Env, params: Env) {
    forall x :: FirstHit(secrets, node, defaults, params, x) == if x in env then Some(env[x]) else None
  }

  /**
   The launch environment read off the definition: each variable has the value of the secret of that name that
   the node lists, if the server has a key; else of the node's own setting; else of its job's; else of the run's
   parameter; and there are no other variables.
   */
  ghost predicate LaunchedWith(env: Env, n: NodeDefinition, d: JobDefaults, params: Env, haveKey: bool,
                               store: map<string, Option<string>>)
  {
    forall x ::
      if haveKey && n.secrets.Some? && x in n.secrets.value then x in env && x in store && store[x] == Some(env[x])
      else if n.env.Some? && x in n.env.value then x in env && env[x] == n.env.value[x]
      else if d.env.Some? && x in d.env.value then x in env && env[x] == d.env.value[x]
      else if x in params then x in env && env[x] == params[x]
      else x !in env
  }

  lemma LayersLaunch(env: Env, n: NodeDefinition, d: JobDefaults, params: Env, haveKey: bool,
                     store: map<string, Option<string>>)
    requires var names := n.secrets.GetOr([]);
      && (haveKey ==> forall x :: x in names ==> Available(store, x))
      && Layered(env, SecretsOf(names, haveKey, store), n.env.GetOr(map[]), d.env.GetOr(map[]), params)
    ensures LaunchedWith(env, n, d, params, haveKey, store)
  {
    var secrets := SecretsOf(n.secrets.GetOr([]), haveKey, store);
    forall x ensures x in env <==> FirstHit(secrets, n.env.GetOr(map[]), d.env.GetOr(map[]), params, x).Some? {}
  }

  /** A resolved node's environment is its definition's layer on top of its job's. */
  lemma LayersOfResolved(env: Env, secrets: Env, node: ResolvedNode, params: Env, n: NodeDefinition,
                         defaults: JobDefaults)
    requires Definition.Resolves(n, defaults, node) && Layered(env, secrets, node.env, map[], params)
    ensures Layered(env, secrets, n.env.GetOr(map[]), defaults.env.GetOr(map[]), params)
  {
    forall x
      ensures FirstHit(secrets, node.env, map[], params, x)
        == FirstHit(secrets, n.env.GetOr(map[]), defaults.env.GetOr(map[]), params, x)
    {}
    hide FirstHit, Definition.Resolves;
  }

  /**
   The environment a resolved node is launched with.  Whatever definition and defaults it was
   resolved from: secrets before the node's own settings before the job's defaults before the
   run's parameters.  Without a server key secrets are left out; with one, a secret that cannot
   be had fails the run.
   */
  method LaunchEnv(node: ResolvedNode, params: Env, haveKey: bool, store: map<string, Option<string>>)
    returns (r: Result<Env, SecretError>)
    ensures r.Ok? <==> !haveKey || forall x :: x in node.secrets ==> Available(store, x)
    ensures r.Err? ==> haveKey && FirstBadSecret(node.secrets, store, r.error)
    ensures r.Ok? ==> Layered(r.value, SecretsOf(node.secrets, haveKey, store), node.env, map[], params)
    ensures r.Ok? ==> forall n, d :: Definition.Resolves(n, d, node) ==>
      Layered(r.value, SecretsOf(n.secrets.GetOr([]), haveKey, store), n.env.GetOr(map[]), d.env.GetOr(map[]), params)
    ensures r.Ok? ==> forall n, d :: Definition.Resolves(n, d, node) ==>
      LaunchedWith(r.value, n, d, params, haveKey, store)
  {
    var env := InjectParams(node.env, params);
    ghost var secrets := SecretsOf(node.secrets, haveKey, store);
    if haveKey && node.secrets != [] {
      var found := ResolveSecrets(node.secrets, store);
      if found.Err? {
        return Err(found.error);
      }
      assert found.value == secrets;
      env := InjectSecrets(env, found.value);
    }
    assert Layered(env, secrets, node.env, map[], params);
    forall n, d | Definition.Resolves(n, d, node)
      ensures Layered(env, SecretsOf(n.secrets.GetOr([]), haveKey, store), n.env.GetOr(map[]),
                      d.env.GetOr(map[]), params)
      ensures LaunchedWith(env, n, d, params, haveKey, store)
    {
      LayersOfResolved(env, secrets, node, params, n, d);
      LayersLaunch(env, n, d, params, haveKey, store);
    }
    hide Layered, SecretsOf, LaunchedWith;
    return Ok(env);
  }
}
