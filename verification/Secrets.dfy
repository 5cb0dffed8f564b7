/** Environment variables that refer to secrets: what they mean, and how a resolution of all
    of them goes. */
module Secrets {
  import opened Wrappers
  import opened References

  const PREFIX := "LAMBDA_TASKS_SECRET_"
  const ENVIRONMENT_SECRET := "LAMBDA_TASKS_ENVIRONMENT_SECRETS_MANAGER_ARN"
  const SETTINGS_MODULE := "DJANGO_SETTINGS_MODULE"

  type Env = map<string, string>

  datatype Json = Object(fields: map<string, Json>) | Text(text: string) | OtherJson

  /** What Secrets Manager holds for a version of a secret; it never changes. */
  datatype Stored = Absent | NotJson | Parsed(json: Json)

  /** What may go wrong in one attempt: no client, a call that fails, a failing set-up. */
  datatype Weather = Weather(client: bool, reachable: Key -> bool, setup: bool)

  /** A call of GetSecretValue, and whether it brought a decodable secret. */
  datatype Call = Call(key: Key, ok: bool)

  datatype LoadError =
    | Malformed(name: string)
    | Conflict(targets: set<string>)
    | NoClient
    | FetchFailed(key: Key)
    | NotDecodable
    | NotAnObject
    | NonStrings(names: set<string>)
    | EmptyName
    | NoSuchField(target: string)
    | NotSettable(name: string)
    | SetupFailed

  /** `os.environ[name] = text` does not raise. */
  predicate Settable(name: string, text: string) {
    name != "" && '=' !in name && '\0' !in name && '\0' !in text
  }

  // ---- what the variables of an environment refer to ----

  predicate IsPointer(name: string) {
    PREFIX <= name
  }

  function Targets(env: Env): set<string> {
    set name | name in env && IsPointer(name) :: name[|PREFIX|..]
  }

  lemma TargetHasPointer(env: Env, target: string)
    ensures target in Targets(env) <==> PREFIX + target in env
  {
    if target in Targets(env) {
      var name :| name in env && IsPointer(name) && name[|PREFIX|..] == target;
      assert name == PREFIX + target;
    }
    if PREFIX + target in env {
      assert IsPointer(PREFIX + target) && (PREFIX + target)[|PREFIX|..] == target;
    }
  }

  predicate WellFormed(env: Env) {
    forall name | name in env && IsPointer(name) :: ParseReference(env[name]).Ok?
  }

  predicate RefersTo(env: Env, target: string, r: Reference) {
    PREFIX + target in env && ParseReference(env[PREFIX + target]) == Ok(r)
  }

  /** Every target, with the reference its variable holds. */
  ghost predicate AreReferences(env: Env, refs: map<string, Reference>) {
    refs.Keys == Targets(env) && forall t | t in refs :: RefersTo(env, t, refs[t])
  }

  /** Targets that are set directly as well. */
  function Conflicts(env: Env): set<string> {
    set t | t in Targets(env) && t in env
  }

  lemma ConflictsAreSetTwice(env: Env)
    ensures forall t :: t in Conflicts(env) <==> PREFIX + t in env && t in env
  {
    forall t: string
      ensures t in Conflicts(env) <==> PREFIX + t in env && t in env
    {
      TargetHasPointer(env, t);
    }
  }

  function KeysOf(refs: map<string, Reference>, ts: set<string>): set<Key> {
    set t | t in ts && t in refs :: refs[t].key
  }

  function FieldOf(json: Json, name: string): Option<string> {
    if json.Object? && name in json.fields && json.fields[name].Text? then Some(json.fields[name].text) else None
  }

  function StoredValue(vault: Key -> Stored, r: Reference): Option<string> {
    if vault(r.key).Parsed? then FieldOf(vault(r.key).json, r.jsonKey) else None
  }

  predicate Obtainable(vault: Key -> Stored, target: string, r: Reference) {
    StoredValue(vault, r).Some? && Settable(target, StoredValue(vault, r).value)
  }

  /** The stored values of the references of some targets, looked up one by one. */
  function LookedUp(vault: Key -> Stored, refs: map<string, Reference>, ts: set<string>): Env {
    map t | t in ts && t in refs && StoredValue(vault, refs[t]).Some? :: StoredValue(vault, refs[t]).value
  }

  /** Whether nothing keeps the loader from the values of all references. */
  ghost predicate CanLoad(vault: Key -> Stored, w: Weather, cached: set<Key>, refs: map<string, Reference>) {
    && Reached(w, cached, refs)
    && AllGood(vault, w, cached, refs, refs.Keys)
  }

  /** An environment in which the loader raises before doing anything. */
  ghost predicate Stuck(env: Env) {
    exists t :: t in Targets(env) && t in env
  }

  lemma StuckStays(env: Env, more: Env)
    requires Stuck(env)
    ensures Stuck(env + more)
  {
    var t :| t in Targets(env) && t in env;
    TargetHasPointer(env, t);
    TargetHasPointer(env + more, t);
  }

  /** The content of an environment secret, if it is a flat object of strings. */
  function ValidateAndParse(stored: Stored): (r: Result<Env, LoadError>)
    ensures r.Ok? <==>
            && stored.Parsed? && stored.json.Object?
            && "" !in stored.json.fields
            && forall k | k in stored.json.fields :: stored.json.fields[k].Text?
    ensures r.Ok? ==>
              && r.value.Keys == stored.json.fields.Keys
              && forall k | k in r.value :: stored.json.fields[k] == Text(r.value[k])
    ensures r == Err(NotDecodable) <==> !stored.Parsed?
    ensures r == Err(NotAnObject) <==> stored.Parsed? && !stored.json.Object?
    ensures r == Err(EmptyName) <==>
            && stored.Parsed? && stored.json.Object? && "" in stored.json.fields
            && forall k | k in stored.json.fields :: stored.json.fields[k].Text?
    ensures r.Err? && stored.Parsed? && stored.json.Object? && r.error != EmptyName ==>
              && r.error.NonStrings?
              && forall k :: k in r.error.names <==> k in stored.json.fields && !stored.json.fields[k].Text?
  {
    if !stored.Parsed? then Err(NotDecodable)
    else if !stored.json.Object? then Err(NotAnObject)
    else
      var fields := stored.json.fields;
      var wrong := set k | k in fields && !fields[k].Text?;
      if wrong != {} then Err(NonStrings(wrong))
      else
        assert forall k | k in fields :: fields[k].Text? by {
          forall k | k in fields ensures fields[k].Text? {
            assert k !in wrong;
          }
        }
        if "" in fields then Err(EmptyName) else Ok(map k | k in fields :: fields[k].text)
  }

  function Restricted(env: Env, names: set<string>): Env {
    map name | name in env && name in names :: env[name]
  }

  lemma RestrictedToAll(env: Env)
    ensures Restricted(env, env.Keys) == env
  {
  }

  /** A secret whose content the environment loader can set completely. */
  predicate Usable(stored: Stored) {
    var parsed := ValidateAndParse(stored);
    parsed.Ok? && forall name | name in parsed.value :: Settable(name, parsed.value[name])
  }

  // ---- what the loaders bring ----

  function RawReference(env: Env): string {
    if ENVIRONMENT_SECRET in env then env[ENVIRONMENT_SECRET] else ""
  }

  /** The variables the environment secret brings; none if it is not asked for. */
  ghost predicate BringsEnvironment(vault: Key -> Stored, env: Env, content: Env) {
    if RawReference(env) == "" then content == map[]
    else
      && ParseEnvironmentReference(RawReference(env)).Ok?
      && ValidateAndParse(vault(ParseEnvironmentReference(RawReference(env)).value)) == Ok(content)
  }

  /** The store holds this text in the field the reference names. */
  predicate HoldsText(vault: Key -> Stored, r: Reference, text: string) {
    && vault(r.key).Parsed? && vault(r.key).json.Object?
    && r.jsonKey in vault(r.key).json.fields && vault(r.key).json.fields[r.jsonKey] == Text(text)
  }

  /** The variables the references bring: each target, with the text of the field it refers
      to. */
  ghost predicate BringsSecrets(vault: Key -> Stored, env: Env, secrets: Env) {
    && WellFormed(env)
    && secrets.Keys == Targets(env) && secrets.Keys !! env.Keys
    && forall t | t in secrets ::
         && PREFIX + t in env && ParseReference(env[PREFIX + t]).Ok?
         && HoldsText(vault, ParseReference(env[PREFIX + t]).value, secrets[t])
  }

  lemma LookedUpBrings(vault: Key -> Stored, env: Env, refs: map<string, Reference>)
    requires AreReferences(env, refs) && Conflicts(env) == {} && WellFormed(env)
    requires forall t | t in refs :: Obtainable(vault, t, refs[t])
    ensures BringsSecrets(vault, env, LookedUp(vault, refs, refs.Keys))
  {
    forall t | t in Targets(env)
      ensures t !in env
    {
      assert t !in Conflicts(env);
    }
    forall t | t in refs
      ensures RefersTo(env, t, refs[t])
    {
    }
  }

  /** Nothing keeps one reference from being resolved, with some secrets cached already. */
  ghost predicate Good(vault: Key -> Stored, w: Weather, cached: set<Key>, target: string, r: Reference) {
    Obtainable(vault, target, r) && (r.key in cached || w.reachable(r.key))
  }

  ghost predicate AllGood(vault: Key -> Stored, w: Weather, cached: set<Key>,
                          refs: map<string, Reference>, ts: set<string>)
  {
    forall t | t in ts && t in refs :: Good(vault, w, cached, t, refs[t])
  }

  /** What was fetched for earlier targets is no help to a target that could not be fetched
      itself: being in the grown cache means the same as being good at the start. */
  lemma GoodFromTheStart(vault: Key -> Stored, w: Weather, cached: set<Key>, refs: map<string, Reference>,
                         ts: set<string>, target: string, r: Reference)
    requires AllGood(vault, w, cached, refs, ts)
    ensures Good(vault, w, cached + KeysOf(refs, ts), target, r) <==> Good(vault, w, cached, target, r)
  {
    if r.key in KeysOf(refs, ts) {
      var t :| t in ts && t in refs && refs[t].key == r.key;
      assert Good(vault, w, cached, t, refs[t]);
    }
  }

  lemma OneMoreGood(vault: Key -> Stored, w: Weather, cached: set<Key>, refs: map<string, Reference>,
                    ts: set<string>, target: string)
    requires target in refs && AllGood(vault, w, cached, refs, ts)
    ensures AllGood(vault, w, cached, refs, ts + {target}) <==> Good(vault, w, cached, target, refs[target])
    ensures !Good(vault, w, cached, target, refs[target]) ==> !AllGood(vault, w, cached, refs, refs.Keys)
  {
    assert target in ts + {target};
  }

  lemma OneMore(vault: Key -> Stored, refs: map<string, Reference>, ts: set<string>, target: string)
    requires target in refs && ts <= refs.Keys
    ensures KeysOf(refs, ts + {target}) == KeysOf(refs, ts) + {refs[target].key}
    ensures KeysOf(refs, ts + {target}) <= KeysOf(refs, refs.Keys)
    ensures StoredValue(vault, refs[target]).Some? ==>
              LookedUp(vault, refs, ts + {target}) ==
              LookedUp(vault, refs, ts)[target := StoredValue(vault, refs[target]).value]
  {
  }

  /** The calls made after some earlier ones are for some keys only, and none twice. */
  ghost predicate FreshCalls(before: seq<Call>, calls: seq<Call>, keys: set<Key>) {
    && before <= calls
    && (forall i | |before| <= i < |calls| :: calls[i].key in keys)
    && (forall i, j | |before| <= i < j < |calls| :: calls[i].key != calls[j].key)
  }

  /** Where the resolving loop has come to: the variables, the cache, the calls made and the
      targets set. */
  datatype Loading = Loading(env: Env, cache: map<Key, Json>, calls: seq<Call>, resolved: set<string>)

  /** A secret is fetched unless it is cached, and cached if it can be decoded. */
  function Fetched(vault: Key -> Stored, w: Weather, key: Key, l: Loading): Loading {
    if key in l.cache then l
    else if w.reachable(key) && vault(key).Parsed? then
      l.(cache := l.cache[key := vault(key).json], calls := l.calls + [Call(key, true)])
    else l.(calls := l.calls + [Call(key, false)])
  }

  /** One turn of the loop, and whether it raises nothing. */
  function Visit(vault: Key -> Stored, w: Weather, target: string, ref: Reference, l: Loading): (Loading, bool) {
    var fetched := Fetched(vault, w, ref.key, l);
    if ref.key in fetched.cache && Obtainable(vault, target, ref) then
      (fetched.(env := fetched.env[target := StoredValue(vault, ref).value], resolved := l.resolved + {target}), true)
    else (fetched, false)
  }

  /** The loop over the targets in a given order; it ends with the first that raises. */
  function LoadInOrder(vault: Key -> Stored, w: Weather, refs: map<string, Reference>, order: seq<string>, l: Loading)
    : (Loading, bool)
    requires forall t | t in order :: t in refs
    decreases |order|
  {
    if order == [] then (l, true)
    else
      var (next, ok) := Visit(vault, w, order[0], refs[order[0]], l);
      if ok then LoadInOrder(vault, w, refs, order[1..], next) else (next, false)
  }

  /** A client is there, or none is needed. */
  predicate Reached(w: Weather, cached: set<Key>, refs: map<string, Reference>) {
    w.client || KeysOf(refs, refs.Keys) <= cached
  }

  /** What the loader does with references that are in order: the loop, if it is reached. */
  function Work(vault: Key -> Stored, w: Weather, refs: map<string, Reference>, order: seq<string>, l: Loading)
    : (Loading, bool)
    requires forall t | t in order :: t in refs
  {
    if Reached(w, l.cache.Keys, refs) then LoadInOrder(vault, w, refs, order, l) else (l, false)
  }

  /** Every target of a set, once. */
  ghost predicate Lists(order: seq<string>, ts: set<string>) {
    && (forall t :: t in order <==> t in ts)
    && forall i, j | 0 <= i < j < |order| :: order[i] != order[j]
  }

  lemma {:induction false} Listing(ts: set<string>) returns (order: seq<string>)
    ensures Lists(order, ts)
    decreases ts
  {
    if ts == {} {
      order := [];
    } else {
      var t :| t in ts;
      var rest := Listing(ts - {t});
      order := ListedFirst(rest, ts, t);
    }
  }

  lemma ListedFirst(rest: seq<string>, ts: set<string>, t: string) returns (order: seq<string>)
    requires t in ts && Lists(rest, ts - {t})
    ensures Lists(order, ts) && order == [t] + rest
  {
    order := [t] + rest;
    assert t !in rest;
  }

  lemma ListedRest(order: seq<string>, ts: set<string>, done: set<string>)
    requires Lists(order, ts - done) && order != []
    ensures order[0] in ts && order[0] !in done && Lists(order[1..], ts - (done + {order[0]}))
  {
    assert order[0] in order && order == [order[0]] + order[1..];
    forall t: string
      ensures t in order[1..] <==> t in ts - (done + {order[0]})
    {
      assert t in order <==> t == order[0] || t in order[1..];
    }
  }

  /** The state the loop starts from. */
  datatype Start = Start(env: Env, cached: set<Key>, calls: seq<Call>)

  function Starting(l: Loading): Start {
    Start(l.env, l.cache.Keys, l.calls)
  }

  /** The loop has dealt with some targets, and all went well: with one call for each of their
      secrets that was not cached. */
  ghost predicate Progress(vault: Key -> Stored, w: Weather, refs: map<string, Reference>, start: Start, l: Loading) {
    && l.resolved <= refs.Keys
    && l.env == start.env + LookedUp(vault, refs, l.resolved)
    && l.cache.Keys == start.cached + KeysOf(refs, l.resolved)
    && AllGood(vault, w, start.cached, refs, l.resolved)
    && FreshCalls(start.calls, l.calls, l.cache.Keys - start.cached)
    && |l.calls| == |start.calls| + |l.cache.Keys - start.cached|
  }

  lemma Begins(vault: Key -> Stored, w: Weather, refs: map<string, Reference>, l: Loading)
    requires l.resolved == {}
    ensures Progress(vault, w, refs, Starting(l), l)
  {
    assert LookedUp(vault, refs, {}) == map[];
    assert KeysOf(refs, {}) == {};
    assert l.cache.Keys - l.cache.Keys == {};
  }

  lemma OneMoreCall(before: seq<Call>, calls: seq<Call>, keys: set<Key>, key: Key, ok: bool)
    requires FreshCalls(before, calls, keys) && key !in keys
    ensures FreshCalls(before, calls + [Call(key, ok)], keys + {key})
  {
  }

  lemma CallsAdvance(before: seq<Call>, calls: seq<Call>, cached: set<Key>, held: set<Key>, key: Key)
    requires FreshCalls(before, calls, held - cached) && cached <= held
    requires |calls| == |before| + |held - cached|
    ensures
      var more := if key in held then calls else calls + [Call(key, true)];
      && FreshCalls(before, more, held + {key} - cached)
      && |more| == |before| + |held + {key} - cached|
  {
    if key in held {
      assert held + {key} == held;
    } else {
      OneMoreCall(before, calls, held - cached, key, true);
      assert held - cached + {key} == held + {key} - cached;
    }
  }

  lemma SetAfterMerge(env: Env, more: Env, name: string, text: string)
    ensures (env + more)[name := text] == env + more[name := text]
  {
  }

  lemma GoodAdvances(vault: Key -> Stored, w: Weather, cached: set<Key>, refs: map<string, Reference>,
                     ts: set<string>, target: string)
    requires AllGood(vault, w, cached, refs, ts)
    requires target in refs && Good(vault, w, cached + KeysOf(refs, ts), target, refs[target])
    ensures AllGood(vault, w, cached, refs, ts + {target})
  {
    GoodFromTheStart(vault, w, cached, refs, ts, target, refs[target]);
    OneMoreGood(vault, w, cached, refs, ts, target);
  }

  lemma GoodVisit(vault: Key -> Stored, w: Weather, target: string, ref: Reference, l: Loading)
    requires Good(vault, w, l.cache.Keys, target, ref)
    ensures
      var (next, ok) := Visit(vault, w, target, ref, l);
      && ok && next.resolved == l.resolved + {target}
      && StoredValue(vault, ref).Some? && next.env == l.env[target := StoredValue(vault, ref).value]
      && next.cache.Keys == l.cache.Keys + {ref.key}
      && next.calls == if ref.key in l.cache.Keys then l.calls else l.calls + [Call(ref.key, true)]
  {
  }

  lemma BadVisit(vault: Key -> Stored, w: Weather, target: string, ref: Reference, l: Loading)
    requires !Good(vault, w, l.cache.Keys, target, ref)
    ensures
      var (next, ok) := Visit(vault, w, target, ref, l);
      && !ok && next.resolved == l.resolved && next.env == l.env
      && next.calls == if ref.key in l.cache.Keys then l.calls
                       else l.calls + [Call(ref.key, w.reachable(ref.key) && vault(ref.key).Parsed?)]
  {
  }

  lemma EnvAdvances(vault: Key -> Stored, refs: map<string, Reference>, before: Env, env: Env, ts: set<string>,
                    target: string)
    requires target in refs && ts <= refs.Keys && StoredValue(vault, refs[target]).Some?
    requires env == before + LookedUp(vault, refs, ts)
    ensures env[target := StoredValue(vault, refs[target]).value] == before + LookedUp(vault, refs, ts + {target})
  {
    OneMore(vault, refs, ts, target);
    SetAfterMerge(before, LookedUp(vault, refs, ts), target, StoredValue(vault, refs[target]).value);
  }

  lemma KeysAdvance(vault: Key -> Stored, refs: map<string, Reference>, cached: set<Key>, ts: set<string>,
                    target: string)
    requires target in refs && ts <= refs.Keys
    ensures cached + KeysOf(refs, ts) + {refs[target].key} == cached + KeysOf(refs, ts + {target})
  {
    OneMore(vault, refs, ts, target);
  }

  /** A turn of the loop that goes well, in terms of the variables and calls it leaves. */
  lemma Advances(vault: Key -> Stored, w: Weather, refs: map<string, Reference>, start: Start, l: Loading,
                 target: string, next: Loading)
    requires Progress(vault, w, refs, start, l)
    requires target in refs && Good(vault, w, l.cache.Keys, target, refs[target])
    requires StoredValue(vault, refs[target]).Some?
    requires next.resolved == l.resolved + {target}
    requires next.env == l.env[target := StoredValue(vault, refs[target]).value]
    requires
      var key := refs[target].key;
      && next.cache.Keys == l.cache.Keys + {key}
      && next.calls == if key in l.cache.Keys then l.calls else l.calls + [Call(key, true)]
    ensures Progress(vault, w, refs, start, next)
  {
    EnvAdvances(vault, refs, start.env, l.env, l.resolved, target);
    KeysAdvance(vault, refs, start.cached, l.resolved, target);
    GoodAdvances(vault, w, start.cached, refs, l.resolved, target);
    CallsAdvance(start.calls, l.calls, start.cached, l.cache.Keys, refs[target].key);
  }

  /** The loop has given up: some targets are set, and not all could be. */
  ghost predicate Stopped(vault: Key -> Stored, w: Weather, refs: map<string, Reference>, start: Start, l: Loading) {
    && l.resolved < refs.Keys
    && l.env == start.env + LookedUp(vault, refs, l.resolved)
    && (forall t | t in l.resolved :: Obtainable(vault, t, refs[t]))
    && !AllGood(vault, w, start.cached, refs, refs.Keys)
    && FreshCalls(start.calls, l.calls, KeysOf(refs, refs.Keys) - start.cached)
  }

  /** It gives up only at a target that was hopeless from the start. */
  lemma Stops(vault: Key -> Stored, w: Weather, refs: map<string, Reference>, start: Start, l: Loading, target: string,
              next: Loading)
    requires Progress(vault, w, refs, start, l)
    requires target in refs && target !in l.resolved && !Good(vault, w, l.cache.Keys, target, refs[target])
    requires next.resolved == l.resolved && next.env == l.env
    requires next.calls == if refs[target].key in l.cache.Keys then l.calls
                           else l.calls + [Call(refs[target].key,
                                                w.reachable(refs[target].key) && vault(refs[target].key).Parsed?)]
    ensures Stopped(vault, w, refs, start, next)
  {
    var key := refs[target].key;
    OneMore(vault, refs, l.resolved, target);
    GoodFromTheStart(vault, w, start.cached, refs, l.resolved, target, refs[target]);
    OneMoreGood(vault, w, start.cached, refs, l.resolved, target);
    if key !in l.cache.Keys {
      OneMoreCall(start.calls, l.calls, l.cache.Keys - start.cached, key, w.reachable(key) && vault(key).Parsed?);
    }
  }

  /** One turn of the loop, either way. */
  lemma Turns(vault: Key -> Stored, w: Weather, refs: map<string, Reference>, start: Start, l: Loading, target: string)
    requires Progress(vault, w, refs, start, l) && target in refs && target !in l.resolved
    ensures
      var (next, ok) := Visit(vault, w, target, refs[target], l);
      && (ok <==> Good(vault, w, start.cached, target, refs[target]))
      && next.resolved == (if ok then l.resolved + {target} else l.resolved)
      && (if ok then Progress(vault, w, refs, start, next) else Stopped(vault, w, refs, start, next))
  {
    var next := Visit(vault, w, target, refs[target], l).0;
    GoodFromTheStart(vault, w, start.cached, refs, l.resolved, target, refs[target]);
    if Good(vault, w, l.cache.Keys, target, refs[target]) {
      GoodVisit(vault, w, target, refs[target], l);
      Advances(vault, w, refs, start, l, target, next);
    } else {
      BadVisit(vault, w, target, refs[target], l);
      Stops(vault, w, refs, start, l, target, next);
    }
  }

  /** How the loop has come on from one state to another. */
  ghost predicate CameOn(vault: Key -> Stored, w: Weather, refs: map<string, Reference>, start: Start, l: Loading,
                         last: Loading, ok: bool)
  {
    && l.resolved <= last.resolved
    && (ok ==> Progress(vault, w, refs, start, last) && last.resolved == refs.Keys)
    && (!ok ==> Stopped(vault, w, refs, start, last))
  }

  /** Whatever the order, the loop deals with all targets, or stops at one that is hopeless;
      it gets past the first of them if and only if that one can be resolved. */
  lemma {:induction false} LoadProgresses(vault: Key -> Stored, w: Weather, refs: map<string, Reference>, start: Start,
                                          order: seq<string>, l: Loading)
    requires Progress(vault, w, refs, start, l) && Lists(order, refs.Keys - l.resolved)
    ensures
      var (last, ok) := LoadInOrder(vault, w, refs, order, l);
      && CameOn(vault, w, refs, start, l, last, ok)
      && (order != [] ==>
            && order[0] in refs
            && if Good(vault, w, start.cached, order[0], refs[order[0]]) then order[0] in last.resolved
               else last.resolved == l.resolved)
    decreases |order|
  {
    if order == [] {
      NoDifference(refs.Keys, l.resolved);
    } else {
      ListedRest(order, refs.Keys, l.resolved);
      Turns(vault, w, refs, start, l, order[0]);
      var (next, ok) := Visit(vault, w, order[0], refs[order[0]], l);
      if ok {
        LoadProgresses(vault, w, refs, start, order[1..], next);
      }
    }
  }

  /** The loop is reached, and the target it visits first can be resolved. */
  ghost predicate FirstIsGood(vault: Key -> Stored, w: Weather, refs: map<string, Reference>, cached: set<Key>,
                              order: seq<string>)
  {
    && Reached(w, cached, refs) && order != []
    && order[0] in refs && Good(vault, w, cached, order[0], refs[order[0]])
  }

  /** How a resolution ends that had references to resolve: with all of them, after one call
      for each secret that was not cached; or with an error. Some of the targets are then
      set if and only if the first one visited could be. */
  ghost predicate Finished(vault: Key -> Stored, w: Weather, refs: map<string, Reference>, start: Start, ok: bool,
                           order: seq<string>, l: Loading)
  {
    var uncached := KeysOf(refs, refs.Keys) - start.cached;
    && (ok <==> CanLoad(vault, w, start.cached, refs))
    && l.env == start.env + LookedUp(vault, refs, l.resolved)
    && (if ok then l.resolved == refs.Keys else l.resolved < refs.Keys)
    && (forall t | t in l.resolved :: Obtainable(vault, t, refs[t]))
    && (!ok ==> (l.resolved != {} <==> FirstIsGood(vault, w, refs, start.cached, order)))
    && FreshCalls(start.calls, l.calls, uncached)
    && (ok ==> l.cache.Keys == start.cached + KeysOf(refs, refs.Keys) && |l.calls| == |start.calls| + |uncached|)
  }

  lemma ProgressFinishes(vault: Key -> Stored, w: Weather, refs: map<string, Reference>, start: Start,
                         order: seq<string>, l: Loading)
    requires Progress(vault, w, refs, start, l) && l.resolved == refs.Keys
    requires Reached(w, start.cached, refs)
    ensures Finished(vault, w, refs, start, true, order, l)
  {
    assert l.cache.Keys - start.cached == KeysOf(refs, refs.Keys) - start.cached;
  }

  /** How the loader fares with references that are in order, whatever the order they are in
      and whatever fails: so it is for every order, and the same for every order if it
      succeeds. */
  lemma WorkFinishes(vault: Key -> Stored, w: Weather, refs: map<string, Reference>, order: seq<string>, l: Loading)
    requires Lists(order, refs.Keys) && refs.Keys != {} && l.resolved == {}
    ensures
      var (last, ok) := Work(vault, w, refs, order, l);
      Finished(vault, w, refs, Starting(l), ok, order, last)
  {
    assert order != [] by {
      var t :| t in refs.Keys;
      assert t in order;
    }
    if Reached(w, l.cache.Keys, refs) {
      ReachedFinishes(vault, w, refs, order, l);
    } else {
      assert LookedUp(vault, refs, {}) == map[];
    }
  }

  lemma ReachedFinishes(vault: Key -> Stored, w: Weather, refs: map<string, Reference>, order: seq<string>, l: Loading)
    requires Lists(order, refs.Keys) && order != [] && l.resolved == {} && Reached(w, l.cache.Keys, refs)
    ensures
      var (last, ok) := LoadInOrder(vault, w, refs, order, l);
      Finished(vault, w, refs, Starting(l), ok, order, last)
  {
    Begins(vault, w, refs, l);
    assert refs.Keys - l.resolved == refs.Keys;
    LoadProgresses(vault, w, refs, Starting(l), order, l);
    var (last, ok) := LoadInOrder(vault, w, refs, order, l);
    if ok {
      ProgressFinishes(vault, w, refs, Starting(l), order, last);
    } else {
      StoppedFinishes(vault, w, refs, Starting(l), order, last);
    }
  }

  lemma StoppedFinishes(vault: Key -> Stored, w: Weather, refs: map<string, Reference>, start: Start,
                        order: seq<string>, l: Loading)
    requires Stopped(vault, w, refs, start, l) && Reached(w, start.cached, refs) && order != [] && order[0] in refs
    requires if Good(vault, w, start.cached, order[0], refs[order[0]]) then order[0] in l.resolved else l.resolved == {}
    ensures Finished(vault, w, refs, start, false, order, l)
  {
  }

  lemma NoDifference<T>(xs: set<T>, ys: set<T>)
    requires xs - ys == {}
    ensures xs <= ys
  {
    forall x | x in xs
      ensures x in ys
    {
      assert x !in xs - ys;
    }
  }

  lemma NoConflictNotStuck(env: Env)
    requires Conflicts(env) == {}
    ensures !Stuck(env)
  {
    forall t | t in Targets(env)
      ensures t !in env
    {
      assert t !in Conflicts(env);
    }
  }

  /** In an environment that is stuck, the loader has something to refuse. */
  lemma StuckConflicts(env: Env)
    requires Stuck(env)
    ensures Targets(env) != {} && Conflicts(env) != {}
  {
    var t :| t in Targets(env) && t in env;
    assert t in Conflicts(env);
  }

  /** An attempt that fails on the way through its references leaves an environment in which
      every later one fails at once, if and only if it set some target, that is, if the
      first target it visited could be resolved. */
  lemma PartWayIsStuckIff(vault: Key -> Stored, w: Weather, refs: map<string, Reference>, start: Start,
                          order: seq<string>, l: Loading)
    requires AreReferences(start.env, refs) && Conflicts(start.env) == {}
    requires Finished(vault, w, refs, start, false, order, l)
    ensures Stuck(l.env) <==> FirstIsGood(vault, w, refs, start.cached, order)
  {
    if l.resolved != {} {
      var t :| t in l.resolved;
      assert Obtainable(vault, t, refs[t]) && t in LookedUp(vault, refs, l.resolved);
      TargetHasPointer(start.env, t);
      TargetHasPointer(l.env, t);
    } else {
      assert LookedUp(vault, refs, {}) == map[];
      NoConflictNotStuck(start.env);
    }
  }

  /** What a resolution that succeeds leaves, in terms of the store alone. */
  lemma FinishedBrings(vault: Key -> Stored, w: Weather, refs: map<string, Reference>, start: Start,
                       order: seq<string>, l: Loading)
    requires AreReferences(start.env, refs) && Conflicts(start.env) == {} && WellFormed(start.env)
    requires Finished(vault, w, refs, start, true, order, l)
    ensures BringsSecrets(vault, start.env, LookedUp(vault, refs, refs.Keys))
    ensures l.env == start.env + LookedUp(vault, refs, refs.Keys)
  {
    LookedUpBrings(vault, start.env, refs);
  }

  /** Nothing in the loader's way, spelled out: a client is there or nothing is to be fetched,
      and each secret is cached or can be reached, is an object, and has under the name asked
      for a text that can be set under the target's. */
  ghost predicate NothingInTheWay(vault: Key -> Stored, w: Weather, cached: set<Key>, refs: map<string, Reference>) {
    && (w.client || forall t | t in refs :: refs[t].key in cached)
    && forall t | t in refs ::
         && (refs[t].key in cached || w.reachable(refs[t].key))
         && (exists text :: HoldsText(vault, refs[t], text) && '\0' !in text)
         && t != "" && '=' !in t && '\0' !in t
  }

  lemma HeldIsLookedUp(vault: Key -> Stored, target: string, r: Reference)
    ensures forall text :: HoldsText(vault, r, text) <==> StoredValue(vault, r) == Some(text)
    ensures Obtainable(vault, target, r) <==>
            && (exists text :: HoldsText(vault, r, text) && '\0' !in text)
            && target != "" && '=' !in target && '\0' !in target
  {
    if StoredValue(vault, r).Some? {
      assert HoldsText(vault, r, StoredValue(vault, r).value);
    }
  }

  /** In whatever order: the loader succeeds if and only if nothing is in its way, and then
      each target is set to the text the store holds for it, and nothing else is changed. */
  lemma LoadsIffNothingInTheWay(vault: Key -> Stored, w: Weather, refs: map<string, Reference>, order: seq<string>,
                                l: Loading)
    requires Lists(order, refs.Keys) && refs.Keys != {} && l.resolved == {}
    ensures
      var (last, ok) := Work(vault, w, refs, order, l);
      && (ok <==> NothingInTheWay(vault, w, l.cache.Keys, refs))
      && (ok ==>
            && (forall t | t in refs :: t in last.env && HoldsText(vault, refs[t], last.env[t]))
            && forall n | n !in refs :: (n in last.env <==> n in l.env) && (n in l.env ==> last.env[n] == l.env[n]))
  {
    WorkFinishes(vault, w, refs, order, l);
    CanLoadIff(vault, w, l.cache.Keys, refs);
    if Work(vault, w, refs, order, l).1 {
      LookedUpHolds(vault, refs, l.env);
    }
  }

  lemma CanLoadIff(vault: Key -> Stored, w: Weather, cached: set<Key>, refs: map<string, Reference>)
    ensures CanLoad(vault, w, cached, refs) <==> NothingInTheWay(vault, w, cached, refs)
  {
    ReachedIff(w, cached, refs);
    forall t | t in refs
      ensures Obtainable(vault, t, refs[t]) <==>
              && (exists text :: HoldsText(vault, refs[t], text) && '\0' !in text)
              && t != "" && '=' !in t && '\0' !in t
    {
      HeldIsLookedUp(vault, t, refs[t]);
    }
  }

  lemma LookedUpHolds(vault: Key -> Stored, refs: map<string, Reference>, env: Env)
    requires forall t | t in refs :: Obtainable(vault, t, refs[t])
    ensures
      var last := env + LookedUp(vault, refs, refs.Keys);
      && (forall t | t in refs :: t in last && HoldsText(vault, refs[t], last[t]))
      && forall n | n !in refs :: (n in last <==> n in env) && (n in env ==> last[n] == env[n])
  {
    forall t | t in refs
      ensures HoldsText(vault, refs[t], StoredValue(vault, refs[t]).value)
    {
      HeldIsLookedUp(vault, t, refs[t]);
    }
  }

  lemma ReachedIff(w: Weather, cached: set<Key>, refs: map<string, Reference>)
    ensures Reached(w, cached, refs) <==> w.client || forall t | t in refs :: refs[t].key in cached
  {
    if KeysOf(refs, refs.Keys) <= cached {
      forall t | t in refs
        ensures refs[t].key in cached
      {
        assert refs[t].key in KeysOf(refs, refs.Keys);
      }
    }
  }

  lemma NothingBrings(vault: Key -> Stored, env: Env)
    requires Targets(env) == {}
    ensures BringsSecrets(vault, env, map[])
  {
    forall name | name in env && IsPointer(name)
      ensures name[|PREFIX|..] in Targets(env)
    {
    }
  }

  /** What the environment loader finds under a given reference. */
  function Content(vault: Key -> Stored, w: Weather, raw: string): Option<Env> {
    var key := ParseEnvironmentReference(raw);
    if key.Err? || !w.client || !w.reachable(key.value) then None
    else
      var parsed := ValidateAndParse(vault(key.value));
      if parsed.Ok? then Some(parsed.value) else None
  }
}
