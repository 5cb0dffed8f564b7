/** Cold start of a container: the environment secret, the secrets that variables refer to,
    and Django's set-up; as often as it takes. */
module ColdStart {
  import opened Wrappers
  import opened References
  import opened Secrets

  /** What a process remembers between attempts, with the calls of GetSecretValue made by
      the secret loader and by the environment loader. */
  datatype Memory = Memory(
    env: Env,
    cache: map<Key, Json>,
    loaded: bool,
    environmentLoaded: bool,
    appsReady: bool,
    done: bool,
    calls: seq<Call>,
    environmentCalls: seq<Call>)

  /** The cache agrees with the store and holds exactly the secrets fetched so far, each of
      which was fetched and decoded once. */
  ghost predicate CacheOk(vault: Key -> Stored, cache: map<Key, Json>, calls: seq<Call>) {
    && (forall k | k in cache :: vault(k) == Parsed(cache[k]))
    && (forall k: Key :: k in cache <==> Call(k, true) in calls)
    && (forall i, j | 0 <= i < j < |calls| && calls[i].ok && calls[j].ok :: calls[i].key != calls[j].key)
  }

  /** An environment secret that could be set completely was fetched by the last call of
      all, and is loaded. */
  ghost predicate EnvironmentCallsOk(vault: Key -> Stored, environmentLoaded: bool, calls: seq<Call>) {
    forall i | 0 <= i < |calls| && calls[i].ok && Usable(vault(calls[i].key)) ::
      environmentLoaded && i == |calls| - 1
  }

  ghost predicate MemoryOk(vault: Key -> Stored, m: Memory) {
    CacheOk(vault, m.cache, m.calls) && EnvironmentCallsOk(vault, m.environmentLoaded, m.environmentCalls)
  }

  // ---- what one attempt does to the memory ----

  /** The environment loader's calls: it has no cache. */
  function EnvironmentFetch(vault: Key -> Stored, w: Weather, raw: string): seq<Call> {
    var key := ParseEnvironmentReference(raw);
    if key.Err? || !w.client then [] else [Call(key.value, w.reachable(key.value) && vault(key.value).Parsed?)]
  }

  ghost predicate EnvironmentStep(vault: Key -> Stored, w: Weather, m: Memory, ok: bool, content: Env, m': Memory) {
    var raw := RawReference(m.env);
    if raw == "" || m.environmentLoaded then ok && m' == m && content == map[]
    else
      var found := Content(vault, w, raw);
      && m' == m.(env := m.env + content, environmentLoaded := ok,
                  environmentCalls := m.environmentCalls + EnvironmentFetch(vault, w, raw))
      && (ok <==> found.Some? && forall name | name in found.value :: Settable(name, found.value[name]))
      && (found.None? ==> content == map[])
      && (found.Some? ==> content == Restricted(found.value, content.Keys))
      && (forall name | name in content :: Settable(name, content[name]))
      && (ok ==> content == found.value)
  }

  /** While references are resolved, the environment, the cache and the calls may change. */
  predicate Resolving(m: Memory, ok: bool, m': Memory) {
    && m'.loaded == ok
    && m'.environmentLoaded == m.environmentLoaded && m'.environmentCalls == m.environmentCalls
    && m'.appsReady == m.appsReady && m'.done == m.done
  }

  /** How a call of the secret loader goes: the references it found, the order they are in,
      and the targets it set. */
  datatype Resolution = Resolution(refs: map<string, Reference>, order: seq<string>, resolved: set<string>)

  const NOTHING: Resolution := Resolution(map[], [], {})

  /** The loader has something to do, and nothing to refuse. */
  predicate HasWork(m: Memory) {
    !m.loaded && WellFormed(m.env) && Targets(m.env) != {} && Conflicts(m.env) == {}
  }

  function Begun(m: Memory): Loading {
    Loading(m.env, m.cache, m.calls, {})
  }

  ghost predicate WorkStep(vault: Key -> Stored, w: Weather, m: Memory, ok: bool, x: Resolution, m': Memory) {
    && Resolving(m, ok, m') && Lists(x.order, x.refs.Keys)
    && Work(vault, w, x.refs, x.order, Begun(m)) == (Loading(m'.env, m'.cache, m'.calls, x.resolved), ok)
  }

  /** A finished loader, or an environment without references, changes nothing; neither does
      a malformed reference or a target that is also set directly, which are errors.
      Otherwise the references are resolved, in the order the environment lists them. */
  ghost predicate SecretsStep(vault: Key -> Stored, w: Weather, m: Memory, ok: bool, x: Resolution, m': Memory) {
    if HasWork(m) then
      AreReferences(m.env, x.refs) && WorkStep(vault, w, m, ok, x, m')
    else
      && m' == m && x == NOTHING
      && (ok <==> m.loaded || (WellFormed(m.env) && Targets(m.env) == {}))
  }

  /** The course of one attempt: how far it came, and what each loader did. */
  datatype Course = Course(
    environmentOk: bool, content: Env, middle: Memory,
    secretsOk: bool, resolution: Resolution, last: Memory)

  /** The variables the secret loader set. */
  function SecretsOf(vault: Key -> Stored, c: Course): Env {
    LookedUp(vault, c.resolution.refs, c.resolution.resolved)
  }

  predicate NeedsSetup(m: Memory) {
    SETTINGS_MODULE in m.env && m.env[SETTINGS_MODULE] != "" && !m.appsReady
  }

  /** Both loaders, the second only after the first. */
  ghost predicate Loaded(vault: Key -> Stored, w: Weather, m: Memory, c: Course) {
    && EnvironmentStep(vault, w, m, c.environmentOk, c.content, c.middle)
    && if c.environmentOk then SecretsStep(vault, w, c.middle, c.secretsOk, c.resolution, c.last)
       else !c.secretsOk && c.resolution == NOTHING && c.last == c.middle
  }

  ghost predicate Started(vault: Key -> Stored, w: Weather, m: Memory, ok: bool, c: Course, m': Memory) {
    if m.done then ok && m' == m && c.content == map[] && c.resolution == NOTHING
    else
      && Loaded(vault, w, m, c)
      && (ok <==> c.secretsOk && (NeedsSetup(c.last) ==> w.setup))
      && m' == if ok then c.last.(done := true, appsReady := c.last.appsReady || NeedsSetup(c.last)) else c.last
  }

  /** One process, with the module state of the loaders and of the handler. */
  class Container {
    const vault: Key -> Stored
    var env: Env
    var cache: map<Key, Json>         // `_secret_cache`
    var loaded: bool                  // `secret_loader._loaded`
    var environmentLoaded: bool       // `environment_loader._loaded`
    var appsReady: bool
    var done: bool                    // `_cold_start_done`
    ghost var calls: seq<Call>        // GetSecretValue, by the secret loader

    ghost var environmentCalls: seq<Call>   // GetSecretValue, by the environment loader

    ghost function View(): Memory
      reads this
    {
      Memory(env, cache, loaded, environmentLoaded, appsReady, done, calls, environmentCalls)
    }

    ghost predicate Cached()
      reads this`cache, this`calls
    {
      CacheOk(vault, cache, calls)
    }

    ghost predicate Accounted()
      reads this`environmentLoaded, this`environmentCalls
    {
      EnvironmentCallsOk(vault, environmentLoaded, environmentCalls)
    }

    ghost predicate Valid()
      reads this`cache, this`calls, this`environmentLoaded, this`environmentCalls
    {
      Cached() && Accounted()
    }

    constructor (vault: Key -> Stored, env: Env)
      ensures Valid() && this.vault == vault
      ensures View() == Memory(env, map[], false, false, false, false, [], [])
    {
      this.vault, this.env, this.cache, this.calls, this.environmentCalls := vault, env, map[], [], [];
      this.loaded, this.environmentLoaded, this.appsReady, this.done := false, false, false, false;
    }

    /** `_fetch_secret` */
    method FetchSecret(key: Key, w: Weather) returns (r: Result<Json, LoadError>)
      requires Cached()
      modifies this`cache, this`calls
      ensures Cached()
      ensures key in old(cache) ==> r == Ok(old(cache)[key]) && cache == old(cache) && calls == old(calls)
      ensures key !in old(cache) ==> calls == old(calls) + [Call(key, r.Ok?)]
      ensures key !in old(cache) ==> (r.Ok? <==> w.reachable(key) && vault(key).Parsed?)
      ensures r.Ok? ==> vault(key) == Parsed(r.value) && cache == old(cache)[key := r.value]
      ensures r.Err? ==> cache == old(cache)
      ensures r.Err? ==> r.error == if w.reachable(key) && vault(key).NotJson? then NotDecodable else FetchFailed(key)
    {
      if key in cache {
        return Ok(cache[key]);
      }
      if !w.reachable(key) || vault(key).Absent? {
        calls := calls + [Call(key, false)];
        return Err(FetchFailed(key));
      }
      match vault(key)
      case NotJson =>
        calls := calls + [Call(key, false)];
        r := Err(NotDecodable);
      case Parsed(secret) =>
        calls := calls + [Call(key, true)];
        cache := cache[key := secret];
        r := Ok(secret);
    }

    /** The scan of the environment: every pointer is parsed before anything else is done. */
    method ScanReferences() returns (r: Result<map<string, Reference>, LoadError>, order: seq<string>)
      ensures r.Ok? <==> WellFormed(env)
      ensures r.Ok? ==> AreReferences(env, r.value) && Lists(order, r.value.Keys)
      ensures r.Err? ==>
                && r.error.Malformed? && r.error.name in env && IsPointer(r.error.name)
                && ParseReference(env[r.error.name]).Err?
    {
      var references: map<string, Reference> := map[];
      order := [];
      var todo := env.Keys;
      while todo != {}
        invariant todo <= env.Keys
        invariant forall name | name in env && name !in todo && IsPointer(name) :: ParseReference(env[name]).Ok?
        invariant forall t :: t in references <==> PREFIX + t in env && PREFIX + t !in todo
        invariant forall t | t in references :: RefersTo(env, t, references[t])
        invariant Lists(order, references.Keys)
        decreases |todo|
      {
        var name :| name in todo;
        if IsPointer(name) {
          var target := name[|PREFIX|..];
          var parsed := ParseReference(env[name]);
          if parsed.Err? {
            return Err(Malformed(name)), order;
          }
          assert name == PREFIX + target;
          references, order := references[target := parsed.value], order + [target];
        }
        todo := todo - {name};
      }
      forall t: string
        ensures t in references <==> t in Targets(env)
      {
        TargetHasPointer(env, t);
      }
      return Ok(references), order;
    }

    ghost function Now(resolved: set<string>): Loading
      reads this`env, this`cache, this`calls
    {
      Loading(env, cache, calls, resolved)
    }

    /** The body of the resolving loop, for one target. */
    method LoadOne(target: string, ref: Reference, w: Weather, ghost resolved: set<string>)
      returns (r: Result<(), LoadError>)
      requires Cached()
      modifies this`env, this`cache, this`calls
      ensures Cached()
      ensures (Now(if r.Ok? then resolved + {target} else resolved), r.Ok?) ==
              Visit(vault, w, target, ref, old(Now(resolved)))
      ensures r.Ok? ==> target in env && HoldsText(vault, ref, env[target])
      ensures r == Err(NoSuchField(target)) <==> ref.key in cache && forall text :: !HoldsText(vault, ref, text)
      ensures r == Err(NotSettable(target)) ==> ref.key in cache && exists text :: HoldsText(vault, ref, text)
      ensures ref.key !in cache ==>
                r == Err(if w.reachable(ref.key) && vault(ref.key).NotJson? then NotDecodable else FetchFailed(ref.key))
    {
      HeldIsLookedUp(vault, target, ref);
      var secret := FetchSecret(ref.key, w);
      if secret.Err? {
        return Err(secret.error);
      }
      var field := FieldOf(secret.value, ref.jsonKey);
      if field.None? {
        return Err(NoSuchField(target));
      }
      if !Settable(target, field.value) {
        return Err(NotSettable(target));
      }
      env := env[target := field.value];
      return Ok(());
    }

    /** The resolving loop. */
    method LoadAll(references: map<string, Reference>, order: seq<string>, w: Weather)
      returns (r: Result<(), LoadError>, ghost resolved: set<string>)
      requires Cached() && forall t | t in order :: t in references
      modifies this`env, this`cache, this`calls
      ensures Cached()
      ensures (Now(resolved), r.Ok?) == LoadInOrder(vault, w, references, order, old(Now({})))
    {
      resolved := {};
      for i := 0 to |order|
        invariant Cached()
        invariant LoadInOrder(vault, w, references, order, old(Now({}))) ==
                  LoadInOrder(vault, w, references, order[i..], Now(resolved))
      {
        assert order[i..][1..] == order[i + 1..];
        r := LoadOne(order[i], references[order[i]], w, resolved);
        if r.Err? {
          return;
        }
        resolved := resolved + {order[i]};
      }
      r := Ok(());
    }

    /** The checks before the loop: conflicts, and a client if one is needed. */
    method Refuse(references: map<string, Reference>, w: Weather) returns (error: Option<LoadError>)
      requires references.Keys == Targets(env)
      ensures Conflicts(env) != {} ==> error == Some(Conflict(Conflicts(env)))
      ensures Conflicts(env) == {} ==> error == if Reached(w, cache.Keys, references) then None else Some(NoClient)
    {
      var conflicts := set t | t in references && t in env;
      assert conflicts == Conflicts(env);
      if conflicts != {} {
        return Some(Conflict(conflicts));
      }
      var uncached := KeysOf(references, references.Keys) - cache.Keys;
      if uncached != {} && !w.client {
        return Some(NoClient);
      }
      if uncached == {} {
        NoDifference(KeysOf(references, references.Keys), cache.Keys);
      }
      return None;
    }

    /** The rest of the secret loader, once the references are known. */
    method ResolveReferences(references: map<string, Reference>, order: seq<string>, w: Weather)
      returns (r: Result<(), LoadError>, ghost resolved: set<string>)
      requires Cached() && references.Keys == Targets(env) && Lists(order, references.Keys) && !loaded
      modifies this`env, this`cache, this`calls, this`loaded
      ensures Cached() && loaded == r.Ok?
      ensures Conflicts(old(env)) != {} ==>
                && r == Err(Conflict(Conflicts(old(env))))
                && env == old(env) && cache == old(cache) && calls == old(calls)
      ensures Conflicts(old(env)) == {} ==>
                (Now(resolved), r.Ok?) == Work(vault, w, references, order, old(Now({})))
    {
      var refusal := Refuse(references, w);
      if refusal.Some? {
        return Err(refusal.value), {};
      }
      r, resolved := LoadAll(references, order, w);
      loaded := r.Ok?;
    }

    /** `resolve_secrets_into_env`. */
    method ResolveSecretsIntoEnv(w: Weather) returns (r: Result<(), LoadError>, ghost x: Resolution)
      requires Cached()
      modifies this`env, this`cache, this`calls, this`loaded
      ensures Cached()
      // A finished loader, or an environment without references: nothing to do. A malformed
      // reference, or a target that is also set directly: nothing is done.
      ensures !old(HasWork(View())) ==>
                && x == NOTHING && View() == old(View())
                && (r.Ok? <==> old(loaded) || (WellFormed(old(env)) && Targets(old(env)) == {}))
      ensures !old(loaded) && !WellFormed(old(env)) ==>
                && r.Err? && r.error.Malformed? && r.error.name in old(env) && IsPointer(r.error.name)
                && ParseReference(old(env)[r.error.name]).Err?
      ensures !old(loaded) && WellFormed(old(env)) && Conflicts(old(env)) != {} ==>
                r == Err(Conflict(Conflicts(old(env))))
      // Otherwise the references are resolved, in the order the environment lists them.
      ensures old(HasWork(View())) ==>
                && AreReferences(old(env), x.refs) && Lists(x.order, x.refs.Keys) && loaded == r.Ok?
                && (Now(x.resolved), r.Ok?) == Work(vault, w, x.refs, x.order, old(Now({})))
      // That succeeds if and only if nothing is in the way, and brings what the store holds.
      ensures old(HasWork(View())) ==>
                && (r.Ok? <==> NothingInTheWay(vault, w, old(cache).Keys, x.refs))
                && (r.Ok? ==> forall t | t in x.refs :: t in env && HoldsText(vault, x.refs[t], env[t]))
      // A success makes one call for each distinct secret that was not cached.
      ensures r.Ok? ==> |calls| == |old(calls)| + |KeysOf(x.refs, x.refs.Keys) - old(cache).Keys|
    {
      x := NOTHING;
      assert KeysOf(x.refs, x.refs.Keys) - cache.Keys == {};
      if loaded {
        return Ok(()), x;
      }
      var references, order := ScanReferences();
      if references.Err? {
        return Err(references.error), x;
      }
      assert (references.value == map[]) == (references.value.Keys == {});
      if references.value == map[] {
        return Ok(()), x;
      }
      ghost var clash, start := Conflicts(env) != {}, Now({});
      ghost var resolved;
      r, resolved := ResolveReferences(references.value, order, w);
      if !clash {
        x := Resolution(references.value, order, resolved);
        WorkFinishes(vault, w, x.refs, x.order, start);
        LoadsIffNothingInTheWay(vault, w, x.refs, x.order, start);
      }
    }

    /** The same, as a step of the memory. */
    method LoadSecrets(w: Weather) returns (r: Result<(), LoadError>, ghost x: Resolution)
      requires Valid()
      modifies this`env, this`cache, this`calls, this`loaded
      ensures Valid()
      ensures SecretsStep(vault, w, old(View()), r.Ok?, x, View())
    {
      r, x := ResolveSecretsIntoEnv(w);
    }

    /** `resolve_environment`. */
    method ResolveEnvironment(w: Weather) returns (r: Result<(), LoadError>, ghost content: Env)
      requires Valid()
      modifies this`env, this`environmentLoaded, this`environmentCalls
      ensures Valid()
      ensures EnvironmentStep(vault, w, old(View()), r.Ok?, content, View())
      // What it raises.
      ensures r.Err? ==>
                var key := ParseEnvironmentReference(RawReference(old(env)));
                if key.Err? then r.error == Malformed(ENVIRONMENT_SECRET)
                else if !w.client then r.error == NoClient
                else if !w.reachable(key.value) || vault(key.value).Absent? then r.error == FetchFailed(key.value)
                else if ValidateAndParse(vault(key.value)).Err? then r.error == ValidateAndParse(vault(key.value)).error
                else
                  && r.error.NotSettable? && r.error.name in vault(key.value).json.fields
                  && !Settable(r.error.name, vault(key.value).json.fields[r.error.name].text)
    {
      content := map[];
      var raw := RawReference(env);
      if raw == "" || environmentLoaded {
        return Ok(()), content;
      }
      var key := ParseEnvironmentReference(raw);
      if key.Err? {
        return Err(Malformed(ENVIRONMENT_SECRET)), content;
      }
      if !w.client {
        return Err(NoClient), content;
      }
      environmentCalls := environmentCalls + [Call(key.value, w.reachable(key.value) && vault(key.value).Parsed?)];
      if !w.reachable(key.value) || vault(key.value).Absent? {
        return Err(FetchFailed(key.value)), content;
      }
      var parsed := ValidateAndParse(vault(key.value));
      if parsed.Err? {
        return Err(parsed.error), content;
      }
      r, content := SetAll(parsed.value);
      environmentLoaded := r.Ok?;
    }

    /** Sets the variables one by one, until one cannot be. */
    method SetAll(variables: Env) returns (r: Result<(), LoadError>, ghost done: Env)
      modifies this`env
      ensures r.Ok? <==> forall name | name in variables :: Settable(name, variables[name])
      ensures env == old(env) + done && done == Restricted(variables, done.Keys)
      ensures forall name | name in done :: Settable(name, done[name])
      ensures r.Ok? ==> done == variables
      ensures r.Err? ==>
                r.error.NotSettable? && r.error.name in variables && !Settable(r.error.name, variables[r.error.name])
    {
      ghost var named: set<string> := {};
      assert env == env + Restricted(variables, {});
      var todo := variables.Keys;
      while todo != {}
        invariant todo !! named && todo + named == variables.Keys
        invariant env == old(env) + Restricted(variables, named)
        invariant forall name | name in named :: Settable(name, variables[name])
        decreases todo
      {
        var name :| name in todo;
        if !Settable(name, variables[name]) {
          return Err(NotSettable(name)), Restricted(variables, named);
        }
        SetAfterMerge(old(env), Restricted(variables, named), name, variables[name]);
        assert Restricted(variables, named + {name}) == Restricted(variables, named)[name := variables[name]];
        env := env[name := variables[name]];
        todo, named := todo - {name}, named + {name};
      }
      RestrictedToAll(variables);
      return Ok(()), Restricted(variables, named);
    }

    /** Both loaders, one after the other. */
    method LoadBoth(w: Weather) returns (r: Result<(), LoadError>, ghost c: Course)
      requires Valid()
      modifies this`env, this`cache, this`calls, this`loaded, this`environmentLoaded, this`environmentCalls
      ensures Valid()
      ensures Loaded(vault, w, old(View()), c) && c.last == View() && c.secretsOk == r.Ok?
    {
      ghost var content, x;
      r, content := ResolveEnvironment(w);
      ghost var middle := View();
      if r.Err? {
        return r, Course(false, content, middle, false, NOTHING, middle);
      }
      r, x := LoadSecrets(w);
      c := Course(true, content, middle, r.Ok?, x, View());
    }

    /** `_perform_cold_start`. */
    method PerformColdStart(w: Weather) returns (r: Result<(), LoadError>, ghost c: Course)
      requires Valid()
      modifies this
      ensures Valid()
      ensures Started(vault, w, old(View()), r.Ok?, c, View())
      ensures r.Err? && c.secretsOk ==> r == Err(SetupFailed)
    {
      if done {
        return Ok(()), Course(true, map[], View(), true, NOTHING, View());
      }
      r, c := LoadBoth(w);
      if r.Err? {
        return;
      }
      if SETTINGS_MODULE in env && env[SETTINGS_MODULE] != "" && !appsReady {
        if !w.setup {
          return Err(SetupFailed), c;
        }
        appsReady := true;
      }
      done := true;
    }
  }

  // ---- attempt after attempt ----

  /** The `i`-th of some attempts, with the memory before and after each, is one. */
  ghost predicate At(vault: Key -> Stored, ws: seq<Weather>, oks: seq<bool>, cs: seq<Course>, ms: seq<Memory>, i: nat)
    requires |oks| == |cs| == |ws| && |ms| == |ws| + 1 && i < |ws|
  {
    Started(vault, ws[i], ms[i], oks[i], cs[i], ms[i + 1])
  }

  /** A run of attempts. */
  ghost predicate Runs(vault: Key -> Stored, ws: seq<Weather>, oks: seq<bool>, cs: seq<Course>, ms: seq<Memory>) {
    && |oks| == |cs| == |ws| && |ms| == |ws| + 1
    && forall i {:trigger At(vault, ws, oks, cs, ms, i)} | 0 <= i < |ws| :: At(vault, ws, oks, cs, ms, i)
  }

  lemma RunsExtend(vault: Key -> Stored, ws: seq<Weather>, oks: seq<bool>, cs: seq<Course>, ms: seq<Memory>,
                   w: Weather, ok: bool, c: Course, m: Memory)
    requires Runs(vault, ws, oks, cs, ms) && Started(vault, w, ms[|ws|], ok, c, m)
    ensures Runs(vault, ws + [w], oks + [ok], cs + [c], ms + [m])
  {
    forall i | 0 <= i < |ws| + 1
      ensures At(vault, ws + [w], oks + [ok], cs + [c], ms + [m], i)
    {
      if i < |ws| {
        assert At(vault, ws, oks, cs, ms, i);
      }
    }
  }

  /** Every invocation of a container tries the cold start again until it succeeds. */
  method Invocations(c: Container, ws: seq<Weather>)
    returns (rs: seq<bool>, ghost cs: seq<Course>, ghost ms: seq<Memory>)
    requires c.Valid()
    modifies c
    ensures c.Valid()
    ensures Runs(c.vault, ws, rs, cs, ms)
    ensures ms[0] == old(c.View()) && ms[|ws|] == c.View()
    ensures forall m | m in ms :: MemoryOk(c.vault, m)
  {
    rs, cs, ms := [], [], [c.View()];
    while |rs| < |ws|
      invariant |rs| <= |ws| && c.Valid()
      invariant Runs(c.vault, ws[..|rs|], rs, cs, ms)
      invariant ms[0] == old(c.View()) && ms[|rs|] == c.View()
      invariant forall m | m in ms :: MemoryOk(c.vault, m)
    {
      var w := ws[|rs|];
      var r, course := c.PerformColdStart(w);
      assert ws[..|rs| + 1] == ws[..|rs|] + [w];
      RunsExtend(c.vault, ws[..|rs|], rs, cs, ms, w, r.Ok?, course, c.View());
      rs, cs, ms := rs + [r.Ok?], cs + [course], ms + [c.View()];
    }
    assert ws[..|rs|] == ws;
  }
}
