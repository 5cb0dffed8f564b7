/** What repeated cold starts of one container come to. */
module Restarts {
  import opened Wrappers
  import opened References
  import opened Secrets
  import opened ColdStart

  // ---- part-way failures ----

  /** Every further attempt fails. */
  ghost predicate IsStuck(m: Memory) {
    !m.done && !m.loaded && Stuck(m.env)
  }

  lemma StuckFails(vault: Key -> Stored, w: Weather, m: Memory, ok: bool, c: Course, m': Memory)
    requires IsStuck(m) && Started(vault, w, m, ok, c, m')
    ensures !ok && IsStuck(m') && m'.calls == m.calls
  {
    StuckStays(m.env, c.content);
    assert m.env + map[] == m.env;
    StuckConflicts(c.middle.env);
  }

  /** How the secret loader fares, in terms of the references and the weather. */
  lemma StepFinishes(vault: Key -> Stored, w: Weather, m: Memory, ok: bool, x: Resolution, m': Memory)
    requires x.refs.Keys != {} && WorkStep(vault, w, m, ok, x, m')
    ensures Finished(vault, w, x.refs, Start(m.env, m.cache.Keys, m.calls), ok, x.order,
                     Loading(m'.env, m'.cache, m'.calls, x.resolved))
  {
    WorkFinishes(vault, w, x.refs, x.order, Begun(m));
  }

  /** Whether or not it succeeds, the secret loader asks for no secret twice, for none that is
      cached, and for none that no reference names; after a success, for each that was not
      cached. */
  lemma CallsAreFresh(vault: Key -> Stored, w: Weather, m: Memory, ok: bool, x: Resolution, m': Memory)
    requires HasWork(m) && SecretsStep(vault, w, m, ok, x, m')
    ensures m.calls <= m'.calls
    ensures forall i, j | |m.calls| <= i < j < |m'.calls| :: m'.calls[i].key != m'.calls[j].key
    ensures forall i | |m.calls| <= i < |m'.calls| ::
              m'.calls[i].key !in m.cache && exists t | t in x.refs :: x.refs[t].key == m'.calls[i].key
    ensures ok ==> |m'.calls| == |m.calls| + |KeysOf(x.refs, x.refs.Keys) - m.cache.Keys|
  {
    StepFinishes(vault, w, m, ok, x, m');
    forall i | |m.calls| <= i < |m'.calls|
      ensures m'.calls[i].key in KeysOf(x.refs, x.refs.Keys) - m.cache.Keys
    {
    }
  }

  lemma StepSticksIff(vault: Key -> Stored, w: Weather, m: Memory, ok: bool, x: Resolution, m': Memory)
    requires AreReferences(m.env, x.refs) && x.refs.Keys != {} && Conflicts(m.env) == {}
    requires WorkStep(vault, w, m, ok, x, m')
    ensures !m'.loaded && Stuck(m'.env) <==> !ok && FirstIsGood(vault, w, x.refs, m.cache.Keys, x.order)
  {
    StepFinishes(vault, w, m, ok, x, m');
    if !ok {
      PartWayIsStuckIff(vault, w, x.refs, Start(m.env, m.cache.Keys, m.calls), x.order,
                        Loading(m'.env, m'.cache, m'.calls, x.resolved));
    }
  }

  /** An attempt leaves a container stuck if and only if its variables were in conflict when
      the secret loader was reached, or the loader failed after setting the first target it
      visited. */
  lemma BecomesStuckIff(vault: Key -> Stored, w: Weather, m: Memory, ok: bool, c: Course, m': Memory)
    requires !m.done && !m.loaded && Started(vault, w, m, ok, c, m')
    ensures
      IsStuck(m') <==>
      || Stuck(c.middle.env)
      || (c.environmentOk && !c.secretsOk && HasWork(c.middle) &&
          FirstIsGood(vault, w, c.resolution.refs, c.middle.cache.Keys, c.resolution.order))
  {
    if c.environmentOk {
      if HasWork(c.middle) {
        NoConflictNotStuck(c.middle.env);
        StepSticksIff(vault, w, c.middle, c.secretsOk, c.resolution, c.last);
      } else if Stuck(c.middle.env) {
        StuckConflicts(c.middle.env);
      }
    }
  }

  lemma SameReferences(env: Env, refs: map<string, Reference>, refs': map<string, Reference>)
    requires AreReferences(env, refs) && AreReferences(env, refs')
    ensures refs == refs'
  {
    forall t | t in refs
      ensures refs[t] == refs'[t]
    {
      assert RefersTo(env, t, refs[t]) && RefersTo(env, t, refs'[t]);
    }
  }

  /** With the references in this order the loader fails, and leaves the container stuck. */
  ghost predicate SticksInOrder(vault: Key -> Stored, w: Weather, m: Memory, refs: map<string, Reference>,
                                order: seq<string>)
  {
    Lists(order, refs.Keys) &&
    var (l, ok) := Work(vault, w, refs, order, Begun(m));
    !ok && Stuck(l.env)
  }

  /** That is what the loader does with the references of its environment. */
  lemma StepSticksInOrder(vault: Key -> Stored, w: Weather, m: Memory, ok: bool, x: Resolution, m': Memory)
    requires WorkStep(vault, w, m, ok, x, m')
    ensures !m'.loaded && Stuck(m'.env) <==> SticksInOrder(vault, w, m, x.refs, x.order)
  {
  }

  /** For each order, it is decided by the first reference. */
  lemma SticksInOrderIff(vault: Key -> Stored, w: Weather, m: Memory, refs: map<string, Reference>, order: seq<string>)
    requires AreReferences(m.env, refs) && refs.Keys != {} && Conflicts(m.env) == {} && Lists(order, refs.Keys)
    ensures SticksInOrder(vault, w, m, refs, order) <==>
            FirstIsGood(vault, w, refs, m.cache.Keys, order) && !AllGood(vault, w, m.cache.Keys, refs, refs.Keys)
  {
    var (l, ok) := Work(vault, w, refs, order, Begun(m));
    WorkFinishes(vault, w, refs, order, Begun(m));
    if !ok {
      PartWayIsStuckIff(vault, w, refs, Starting(Begun(m)), order, l);
    }
  }

  /** The environment may list its variables so that the loader fails and leaves the container
      stuck. */
  ghost predicate CanStick(vault: Key -> Stored, w: Weather, m: Memory, refs: map<string, Reference>) {
    exists order: seq<string> :: SticksInOrder(vault, w, m, refs, order)
  }

  /** Seen before the call: it may, if and only if the loop is reached, some reference can be
      resolved and some cannot. Which of them the loop begins with then decides. */
  lemma StickingIsPossibleIff(vault: Key -> Stored, w: Weather, m: Memory, refs: map<string, Reference>)
    requires HasWork(m) && AreReferences(m.env, refs)
    ensures
      CanStick(vault, w, m, refs) <==>
      && Reached(w, m.cache.Keys, refs)
      && (exists t | t in refs :: Good(vault, w, m.cache.Keys, t, refs[t]))
      && (exists t | t in refs :: !Good(vault, w, m.cache.Keys, t, refs[t]))
  {
    if order: seq<string> :| SticksInOrder(vault, w, m, refs, order) {
      SticksInOrderIff(vault, w, m, refs, order);
      assert Good(vault, w, m.cache.Keys, order[0], refs[order[0]]);
    }
    if t, u :| t in refs && u in refs && Reached(w, m.cache.Keys, refs) &&
               Good(vault, w, m.cache.Keys, t, refs[t]) && !Good(vault, w, m.cache.Keys, u, refs[u]) {
      SticksIfFirst(vault, w, m, refs, t, u);
    }
  }

  lemma SticksIfFirst(vault: Key -> Stored, w: Weather, m: Memory, refs: map<string, Reference>, t: string, u: string)
    requires AreReferences(m.env, refs) && Conflicts(m.env) == {} && Reached(w, m.cache.Keys, refs)
    requires t in refs && Good(vault, w, m.cache.Keys, t, refs[t])
    requires u in refs && !Good(vault, w, m.cache.Keys, u, refs[u])
    ensures CanStick(vault, w, m, refs)
  {
    var rest := Listing(refs.Keys - {t});
    var order := ListedFirst(rest, refs.Keys, t);
    SticksInOrderIff(vault, w, m, refs, order);
  }

  /** Two variables that refer to two fields of one secret. */
  function TwoPointers(key: Key, t: string, u: string): Env {
    map[PREFIX + t := PrintReference(Reference(key, t)), PREFIX + u := PrintReference(Reference(key, u))]
  }

  /** A store in which every secret has the first of the fields only. */
  function OneField(t: string, text: string): Key -> Stored {
    key => Parsed(Object(map[t := Text(text)]))
  }

  lemma PrefixHolds(t: string)
    ensures |PREFIX + t| >= |PREFIX| && (PREFIX + t)[|PREFIX|..] == t && IsPointer(PREFIX + t)
  {
  }

  lemma TwoTargets(key: Key, t: string, u: string)
    requires t != u
    ensures Targets(TwoPointers(key, t, u)) == {t, u} && PREFIX + t != PREFIX + u
  {
    PrefixHolds(t);
    PrefixHolds(u);
    forall x: string
      ensures x in Targets(TwoPointers(key, t, u)) <==> x == t || x == u
    {
      PrefixHolds(x);
      TargetHasPointer(TwoPointers(key, t, u), x);
    }
  }

  lemma PrintedParses(r: Reference)
    requires IsArn(r.key.arn) && IsField(r.key.versionId) && IsField(r.jsonKey)
    ensures ParseReference(PrintReference(r)) == Ok(r)
  {
    ParsingInvertsPrinting(PrintReference(r), r);
  }

  lemma TwoReferences(key: Key, t: string, u: string)
    requires t != u && IsArn(key.arn) && IsField(key.versionId) && IsField(t) && IsField(u)
    ensures WellFormed(TwoPointers(key, t, u))
    ensures AreReferences(TwoPointers(key, t, u), map[t := Reference(key, t), u := Reference(key, u)])
  {
    PrintedParses(Reference(key, t));
    PrintedParses(Reference(key, u));
    TwoTargets(key, t, u);
    var env := TwoPointers(key, t, u);
    var refs := map[t := Reference(key, t), u := Reference(key, u)];
    assert RefersTo(env, t, refs[t]) && RefersTo(env, u, refs[u]);
  }

  /** Fresh memory with given variables. */
  function Fresh(env: Env): Memory {
    Memory(env, map[], false, false, false, false, [], [])
  }

  /** Starts that fail part-way, for any names and text: of two fields that variables refer
      to, the secret has only one, and the weather is fair. The container is then left stuck
      if and only if the loop begins with the field that is there. */
  lemma PartWayInput(key: Key, t: string, u: string, text: string, w: Weather, ok: bool, x: Resolution, m': Memory)
    requires t != u && IsArn(key.arn) && IsField(key.versionId) && IsField(t) && IsField(u) && Settable(t, text)
    requires !(PREFIX <= t) && !(PREFIX <= u)
    requires w.client && w.reachable(key)
    requires SecretsStep(OneField(t, text), w, Fresh(TwoPointers(key, t, u)), ok, x, m')
    ensures !ok && x.order != [] && (x.order[0] == t || x.order[0] == u)
    ensures Stuck(m'.env) <==> x.order[0] == t
  {
    var m := Fresh(TwoPointers(key, t, u));
    var refs := map[t := Reference(key, t), u := Reference(key, u)];
    TwoReferences(key, t, u);
    TwoTargets(key, t, u);
    NoTargetSet(key, t, u);
    SameReferences(m.env, refs, x.refs);
    OnlyOneObtainable(key, t, u, text, w);
    OneGoodOneNot(OneField(t, text), w, m, ok, x, m', t, u);
    StepSticksIff(OneField(t, text), w, m, ok, x, m');
  }

  lemma OneGoodOneNot(vault: Key -> Stored, w: Weather, m: Memory, ok: bool, x: Resolution, m': Memory,
                      t: string, u: string)
    requires x.refs.Keys == {t, u} && w.client && WorkStep(vault, w, m, ok, x, m')
    requires Good(vault, w, m.cache.Keys, t, x.refs[t]) && !Good(vault, w, m.cache.Keys, u, x.refs[u])
    ensures !ok && x.order != [] && (x.order[0] == t || x.order[0] == u)
    ensures FirstIsGood(vault, w, x.refs, m.cache.Keys, x.order) <==> x.order[0] == t
  {
    StepFinishes(vault, w, m, ok, x, m');
    FinishedDecides(vault, w, x.refs, Start(m.env, m.cache.Keys, m.calls), ok, x.order,
                    Loading(m'.env, m'.cache, m'.calls, x.resolved), t, u);
  }

  lemma FinishedDecides(vault: Key -> Stored, w: Weather, refs: map<string, Reference>, start: Start, ok: bool,
                        order: seq<string>, l: Loading, t: string, u: string)
    requires refs.Keys == {t, u} && w.client && Lists(order, refs.Keys)
    requires Finished(vault, w, refs, start, ok, order, l)
    requires Good(vault, w, start.cached, t, refs[t]) && !Good(vault, w, start.cached, u, refs[u])
    ensures !ok && order != [] && (order[0] == t || order[0] == u)
    ensures FirstIsGood(vault, w, refs, start.cached, order) <==> order[0] == t
  {
    assert t in order;
    assert order[0] in order;
    assert !AllGood(vault, w, start.cached, refs, refs.Keys);
  }

  lemma NoTargetSet(key: Key, t: string, u: string)
    requires t != u && !(PREFIX <= t) && !(PREFIX <= u)
    ensures Conflicts(TwoPointers(key, t, u)) == {}
  {
    TwoTargets(key, t, u);
    PrefixHolds(t);
    PrefixHolds(u);
  }

  lemma OnlyOneObtainable(key: Key, t: string, u: string, text: string, w: Weather)
    requires t != u && Settable(t, text) && w.reachable(key)
    ensures Good(OneField(t, text), w, {}, t, Reference(key, t))
    ensures !Good(OneField(t, text), w, {}, u, Reference(key, u))
  {
  }

  /** There are such names. */
  lemma NamesExist() returns (key: Key, t: string, u: string)
    ensures t != u && IsArn(key.arn) && IsField(key.versionId) && IsField(t) && IsField(u) && Settable(t, "x")
    ensures !(PREFIX <= t) && !(PREFIX <= u)
  {
    var parts := seq(7, i => "a");
    assert forall p | p in parts :: p == "a";
    SplitUndoesJoin(parts);
    PartsCountColons(Join(parts));
    key, t, u := Key(Join(parts), "v"), "U", "T";
    assert |PREFIX| > 1;
  }

  // ---- success ----

  /** A start that succeeds, at the first attempt or later: what was missing of the
      environment secret's variables, then the values of all references in the result. */
  lemma SuccessBrings(vault: Key -> Stored, w: Weather, m: Memory, c: Course, m': Memory)
    requires !m.done && Started(vault, w, m, true, c, m')
    ensures m'.done && m'.env == m.env + c.content + SecretsOf(vault, c)
    ensures if m.environmentLoaded then c.content == map[] else BringsEnvironment(vault, m.env, c.content)
    ensures if m.loaded then SecretsOf(vault, c) == map[]
            else BringsSecrets(vault, m.env + c.content, SecretsOf(vault, c))
  {
    EnvironmentBrings(vault, w, m, c.content, c.middle);
    StepBrings(vault, w, c.middle, c.resolution, c.last);
  }

  lemma EnvironmentBrings(vault: Key -> Stored, w: Weather, m: Memory, content: Env, m': Memory)
    requires EnvironmentStep(vault, w, m, true, content, m')
    ensures m'.env == m.env + content && m'.loaded == m.loaded
    ensures if m.environmentLoaded then content == map[] else BringsEnvironment(vault, m.env, content)
  {
    assert m.env + map[] == m.env;
  }

  lemma StepBrings(vault: Key -> Stored, w: Weather, m: Memory, x: Resolution, m': Memory)
    requires SecretsStep(vault, w, m, true, x, m')
    ensures
      var secrets := LookedUp(vault, x.refs, x.resolved);
      && m'.env == m.env + secrets
      && if m.loaded then secrets == map[] else BringsSecrets(vault, m.env, secrets)
  {
    if HasWork(m) {
      StepFinishes(vault, w, m, true, x, m');
      FinishedBrings(vault, w, x.refs, Start(m.env, m.cache.Keys, m.calls), x.order,
                     Loading(m'.env, m'.cache, m'.calls, x.resolved));
    } else {
      assert LookedUp(vault, x.refs, x.resolved) == map[];
      if !m.loaded {
        NothingBrings(vault, m.env);
      }
    }
  }

  /** Whether the environment an attempt comes to names a settings module. */
  predicate NamesSettings(env: Env) {
    "DJANGO_SETTINGS_MODULE" in env && env["DJANGO_SETTINGS_MODULE"] != ""
  }

  /** Django is set up by the attempt that succeeds, if its environment then names a settings
      module and the apps were not ready; an attempt that comes that far fails if and only if
      the set-up does, and one that fails leaves the apps as they were. */
  lemma SetupIsRun(vault: Key -> Stored, w: Weather, m: Memory, ok: bool, c: Course, m': Memory)
    requires !m.done && Started(vault, w, m, ok, c, m')
    ensures c.secretsOk ==> (ok <==> (NamesSettings(m'.env) && !m.appsReady ==> w.setup))
    ensures ok ==> c.secretsOk && (m'.appsReady <==> m.appsReady || NamesSettings(m'.env))
    ensures !ok ==> m'.appsReady == m.appsReady && !m'.done
  {
    EnvironmentReady(vault, w, m, c.environmentOk, c.content, c.middle);
    if c.environmentOk {
      SecretsReady(vault, w, c.middle, c.secretsOk, c.resolution, c.last);
    }
  }

  lemma EnvironmentReady(vault: Key -> Stored, w: Weather, m: Memory, ok: bool, content: Env, m': Memory)
    requires EnvironmentStep(vault, w, m, ok, content, m')
    ensures m'.appsReady == m.appsReady && m'.done == m.done
  {
  }

  lemma SecretsReady(vault: Key -> Stored, w: Weather, m: Memory, ok: bool, x: Resolution, m': Memory)
    requires SecretsStep(vault, w, m, ok, x, m')
    ensures m'.appsReady == m.appsReady && m'.done == m.done
  {
  }

  /** An attempt, without the details of its environment loader. */
  ghost predicate Outline(vault: Key -> Stored, w: Weather, m: Memory, ok: bool, c: Course, m': Memory) {
    && c.middle.env == m.env + c.content && c.middle.loaded == m.loaded && c.middle.done == m.done
    && (if c.environmentOk then SecretsStep(vault, w, c.middle, c.secretsOk, c.resolution, c.last)
        else !c.secretsOk && c.resolution == NOTHING && c.last == c.middle)
    && (ok ==> c.secretsOk)
    && m'.env == c.last.env && m'.loaded == c.last.loaded && m'.done == ok
  }

  lemma EnvironmentOnly(vault: Key -> Stored, w: Weather, m: Memory, ok: bool, content: Env, m': Memory)
    requires EnvironmentStep(vault, w, m, ok, content, m')
    ensures m'.env == m.env + content && m'.loaded == m.loaded && m'.done == m.done
  {
    assert m.env + map[] == m.env;
  }

  lemma HasOutline(vault: Key -> Stored, w: Weather, m: Memory, ok: bool, c: Course, m': Memory)
    requires !m.done && Started(vault, w, m, ok, c, m')
    ensures Outline(vault, w, m, ok, c, m')
  {
    EnvironmentOnly(vault, w, m, c.environmentOk, c.content, c.middle);
    if c.environmentOk {
      SecretsKeepDone(vault, w, c.middle, c.secretsOk, c.resolution, c.last);
    }
  }

  lemma SecretsKeepDone(vault: Key -> Stored, w: Weather, m: Memory, ok: bool, x: Resolution, m': Memory)
    requires SecretsStep(vault, w, m, ok, x, m')
    ensures m'.done == m.done
    ensures m'.loaded == if HasWork(m) then ok else m.loaded
  {
  }

  // ---- runs of attempts ----

  /** Once an attempt has succeeded nothing changes any more. */
  lemma {:induction false} OnceUpAlwaysUp(vault: Key -> Stored, ws: seq<Weather>, oks: seq<bool>, cs: seq<Course>,
                                          ms: seq<Memory>, i: nat, j: nat)
    requires Runs(vault, ws, oks, cs, ms) && i <= j < |ws| && oks[i]
    ensures oks[j] && ms[j + 1] == ms[i + 1] && ms[j + 1].done
    decreases j
  {
    assert At(vault, ws, oks, cs, ms, j);
    if i < j {
      OnceUpAlwaysUp(vault, ws, oks, cs, ms, i, j - 1);
    }
  }

  /** In a container that has come up, the apps are ready exactly if its environment names a
      settings module: nothing else ever sets Django up. */
  lemma {:induction false} ReadyIffNamed(vault: Key -> Stored, ws: seq<Weather>, oks: seq<bool>, cs: seq<Course>,
                                         ms: seq<Memory>, i: nat)
    requires Runs(vault, ws, oks, cs, ms) && i <= |ws| && !ms[0].done && !ms[0].appsReady
    ensures ms[i].appsReady <==> ms[i].done && NamesSettings(ms[i].env)
    decreases i
  {
    if i > 0 {
      ReadyIffNamed(vault, ws, oks, cs, ms, i - 1);
      assert At(vault, ws, oks, cs, ms, i - 1);
      if !ms[i - 1].done {
        SetupIsRun(vault, ws[i - 1], ms[i - 1], oks[i - 1], cs[i - 1], ms[i]);
      }
    }
  }

  lemma StuckFailsAt(vault: Key -> Stored, ws: seq<Weather>, oks: seq<bool>, cs: seq<Course>, ms: seq<Memory>, i: nat)
    requires Runs(vault, ws, oks, cs, ms) && i < |ws| && IsStuck(ms[i])
    ensures !oks[i] && IsStuck(ms[i + 1]) && ms[i + 1].calls == ms[i].calls
  {
    assert At(vault, ws, oks, cs, ms, i);
    StuckFails(vault, ws[i], ms[i], oks[i], cs[i], ms[i + 1]);
  }

  lemma {:induction false} OnceStuckAlwaysFails(vault: Key -> Stored, ws: seq<Weather>, oks: seq<bool>, cs: seq<Course>,
                                                ms: seq<Memory>, i: nat, j: nat)
    requires Runs(vault, ws, oks, cs, ms) && i <= j < |ws| && IsStuck(ms[i])
    ensures !oks[j] && IsStuck(ms[j + 1]) && ms[j + 1].calls == ms[i].calls
    decreases j
  {
    if i < j {
      OnceStuckAlwaysFails(vault, ws, oks, cs, ms, i, j - 1);
    }
    StuckFailsAt(vault, ws, oks, cs, ms, j);
  }

  /** The secret loader failed in this attempt after setting a target. */
  ghost predicate FailedPartWay(m: Memory, c: Course) {
    !m.done && !m.loaded && c.environmentOk && !c.secretsOk && c.resolution.resolved != {}
  }

  lemma PartWaySticks(vault: Key -> Stored, ws: seq<Weather>, oks: seq<bool>, cs: seq<Course>, ms: seq<Memory>, i: nat)
    requires Runs(vault, ws, oks, cs, ms) && i < |ws| && FailedPartWay(ms[i], cs[i])
    ensures !oks[i] && IsStuck(ms[i + 1])
  {
    assert At(vault, ws, oks, cs, ms, i);
    PartWayStepSticks(vault, ws[i], ms[i], oks[i], cs[i], ms[i + 1]);
  }

  lemma PartWayStepSticks(vault: Key -> Stored, w: Weather, m: Memory, ok: bool, c: Course, m': Memory)
    requires Started(vault, w, m, ok, c, m') && FailedPartWay(m, c)
    ensures !ok && IsStuck(m')
  {
    assert HasWork(c.middle);
    StepFinishes(vault, w, c.middle, false, c.resolution, c.last);
    BecomesStuckIff(vault, w, m, ok, c, m');
  }

  /** After an attempt that resolved its references part-way, every later attempt fails, and
      fetches no secret. */
  lemma PartWayNeverRecovers(vault: Key -> Stored, ws: seq<Weather>, oks: seq<bool>, cs: seq<Course>,
                             ms: seq<Memory>, i: nat, j: nat)
    requires Runs(vault, ws, oks, cs, ms) && i < j < |ws| && FailedPartWay(ms[i], cs[i])
    ensures !oks[i] && !oks[j] && ms[j + 1].calls == ms[i + 1].calls
  {
    PartWaySticks(vault, ws, oks, cs, ms, i);
    OnceStuckAlwaysFails(vault, ws, oks, cs, ms, i + 1, j);
  }

  /** An environment with the contents that some attempts' environment loaders added. */
  function WithContents(env: Env, cs: seq<Course>): Env
    decreases |cs|
  {
    if cs == [] then env else WithContents(env, cs[..|cs| - 1]) + cs[|cs| - 1].content
  }

  lemma FailingStep(vault: Key -> Stored, w: Weather, m: Memory, ok: bool, x: Resolution, m': Memory)
    requires SecretsStep(vault, w, m, ok, x, m') && !m'.loaded && !Stuck(m'.env)
    ensures m'.env == m.env
  {
    if HasWork(m) {
      VainWork(vault, w, m, ok, x, m');
    }
  }

  lemma VainWork(vault: Key -> Stored, w: Weather, m: Memory, ok: bool, x: Resolution, m': Memory)
    requires AreReferences(m.env, x.refs) && x.refs.Keys != {} && Conflicts(m.env) == {}
    requires WorkStep(vault, w, m, ok, x, m') && !m'.loaded && !Stuck(m'.env)
    ensures m'.env == m.env
  {
    StepFinishes(vault, w, m, ok, x, m');
    VainFinish(vault, w, x.refs, Start(m.env, m.cache.Keys, m.calls), x.order,
               Loading(m'.env, m'.cache, m'.calls, x.resolved));
  }

  lemma VainFinish(vault: Key -> Stored, w: Weather, refs: map<string, Reference>, start: Start,
                   order: seq<string>, l: Loading)
    requires AreReferences(start.env, refs) && Conflicts(start.env) == {}
    requires Finished(vault, w, refs, start, false, order, l) && !Stuck(l.env)
    ensures l.env == start.env
  {
    PartWayIsStuckIff(vault, w, refs, start, order, l);
    NothingLookedUp(vault, refs);
  }

  lemma NothingLookedUp(vault: Key -> Stored, refs: map<string, Reference>)
    ensures LookedUp(vault, refs, {}) == map[]
  {
  }

  /** An attempt that neither succeeds, nor loads the secrets, nor gets stuck adds only what
      its environment loader brought. */
  lemma VainAttempt(vault: Key -> Stored, w: Weather, m: Memory, c: Course, m': Memory)
    requires Outline(vault, w, m, false, c, m') && !m'.loaded && !IsStuck(m')
    ensures m'.env == m.env + c.content
  {
    if c.environmentOk {
      FailingStep(vault, w, c.middle, c.secretsOk, c.resolution, c.last);
    }
  }

  lemma LoadedAttempt(vault: Key -> Stored, ws: seq<Weather>, oks: seq<bool>, cs: seq<Course>,
                      ms: seq<Memory>, i: nat)
    requires Runs(vault, ws, oks, cs, ms) && i < |ws| && !ms[i].done && ms[i].loaded
    ensures ms[i + 1].loaded && ms[i + 1].env == ms[i].env + cs[i].content && ms[i + 1].done == oks[i]
  {
    assert At(vault, ws, oks, cs, ms, i);
    HasOutline(vault, ws[i], ms[i], oks[i], cs[i], ms[i + 1]);
  }

  lemma {:induction false} VainAttempts(vault: Key -> Stored, ws: seq<Weather>, oks: seq<bool>, cs: seq<Course>,
                                        ms: seq<Memory>, i: nat)
    requires Runs(vault, ws, oks, cs, ms) && i <= |ws| && !ms[0].done
    requires forall h | 0 <= h < i :: !oks[h]
    requires forall h | 0 <= h <= i :: !ms[h].loaded && !IsStuck(ms[h])
    ensures !ms[i].done && ms[i].env == WithContents(ms[0].env, cs[..i])
    decreases i
  {
    if i > 0 {
      VainAttempts(vault, ws, oks, cs, ms, i - 1);
      assert At(vault, ws, oks, cs, ms, i - 1);
      HasOutline(vault, ws[i - 1], ms[i - 1], oks[i - 1], cs[i - 1], ms[i]);
      VainAttempt(vault, ws[i - 1], ms[i - 1], cs[i - 1], ms[i]);
      assert cs[..i][..i - 1] == cs[..i - 1];
    }
  }

  lemma {:induction false} LoadedAttempts(vault: Key -> Stored, ws: seq<Weather>, oks: seq<bool>, cs: seq<Course>,
                                          ms: seq<Memory>, k: nat, i: nat)
    requires Runs(vault, ws, oks, cs, ms) && k <= i <= |ws| && !ms[k].done && ms[k].loaded
    requires forall h | k <= h < i - 1 :: !oks[h]
    ensures ms[i].loaded && ms[i].env == WithContents(ms[k].env, cs[k..i])
    ensures i == k || !oks[i - 1] ==> !ms[i].done
    decreases i - k
  {
    if i > k {
      LoadedAttempts(vault, ws, oks, cs, ms, k, i - 1);
      LoadedAttempt(vault, ws, oks, cs, ms, i - 1);
      assert cs[k..i][..i - 1 - k] == cs[k..i - 1];
    } else {
      assert cs[k..i] == [];
    }
  }

  /** The last memory up to some attempt in which the secrets were not loaded. */
  lemma {:induction false} LastUnloaded(ms: seq<Memory>, j: nat) returns (k: nat)
    requires j < |ms| && !ms[0].loaded
    ensures k <= j && !ms[k].loaded && (k == j || ms[k + 1].loaded)
    decreases j
  {
    if !ms[j].loaded {
      k := j;
    } else {
      k := LastUnloaded(ms, j - 1);
    }
  }

  lemma {:induction false} LoadedStays(vault: Key -> Stored, ws: seq<Weather>, oks: seq<bool>, cs: seq<Course>,
                                       ms: seq<Memory>, i: nat, j: nat)
    requires Runs(vault, ws, oks, cs, ms) && i <= j <= |ws| && ms[i].loaded
    ensures ms[j].loaded
    decreases j
  {
    if i < j {
      LoadedStays(vault, ws, oks, cs, ms, i, j - 1);
      assert At(vault, ws, oks, cs, ms, j - 1);
    }
  }

  /** The environment after the first success, however many attempts it took: what the
      environment secret brought, then, in one of the attempts, the values of all references
      of the variables there were; and what the environment loader brought after that. */
  lemma FinalEnvironment(vault: Key -> Stored, ws: seq<Weather>, oks: seq<bool>, cs: seq<Course>,
                         ms: seq<Memory>, j: nat) returns (k: nat)
    requires Runs(vault, ws, oks, cs, ms) && !ms[0].done && !ms[0].loaded
    requires j < |ws| && oks[j] && forall i | 0 <= i < j :: !oks[i]
    ensures k <= j
    ensures cs[k].middle.env == WithContents(ms[0].env, cs[..k + 1])
    ensures BringsSecrets(vault, cs[k].middle.env, SecretsOf(vault, cs[k]))
    ensures ms[j + 1].env == WithContents(cs[k].middle.env + SecretsOf(vault, cs[k]), cs[k + 1..j + 1])
  {
    k := LastUnloaded(ms, j);
    forall h | 0 <= h <= k
      ensures !ms[h].loaded && !IsStuck(ms[h])
    {
      if ms[h].loaded {
        LoadedStays(vault, ws, oks, cs, ms, h, k);
      }
      if IsStuck(ms[h]) {
        OnceStuckAlwaysFails(vault, ws, oks, cs, ms, h, j);
      }
    }
    VainAttempts(vault, ws, oks, cs, ms, k);
    LoadingAttemptAt(vault, ws, oks, cs, ms, k);
    assert cs[..k + 1][..k] == cs[..k];
    if k < j {
      LoadedAttempts(vault, ws, oks, cs, ms, k + 1, j + 1);
    } else {
      assert cs[k + 1..j + 1] == [];
    }
  }

  lemma LoadingAttempt(vault: Key -> Stored, w: Weather, m: Memory, ok: bool, c: Course, m': Memory)
    requires Outline(vault, w, m, ok, c, m') && !m.loaded && (ok || m'.loaded)
    ensures BringsSecrets(vault, c.middle.env, SecretsOf(vault, c))
    ensures m'.env == c.middle.env + SecretsOf(vault, c)
  {
    if c.environmentOk {
      SecretsKeepDone(vault, w, c.middle, c.secretsOk, c.resolution, c.last);
      LoadingStep(vault, w, c.middle, c.secretsOk, c.resolution, c.last);
    }
  }

  lemma LoadingAttemptAt(vault: Key -> Stored, ws: seq<Weather>, oks: seq<bool>, cs: seq<Course>,
                         ms: seq<Memory>, k: nat)
    requires Runs(vault, ws, oks, cs, ms) && k < |ws| && !ms[k].done && !ms[k].loaded
    requires oks[k] || ms[k + 1].loaded
    ensures cs[k].middle.env == ms[k].env + cs[k].content && ms[k + 1].done == oks[k]
    ensures BringsSecrets(vault, cs[k].middle.env, SecretsOf(vault, cs[k]))
    ensures ms[k + 1].env == cs[k].middle.env + SecretsOf(vault, cs[k])
  {
    assert At(vault, ws, oks, cs, ms, k);
    HasOutline(vault, ws[k], ms[k], oks[k], cs[k], ms[k + 1]);
    LoadingAttempt(vault, ws[k], ms[k], oks[k], cs[k], ms[k + 1]);
  }

  lemma LoadingStep(vault: Key -> Stored, w: Weather, m: Memory, ok: bool, x: Resolution, m': Memory)
    requires SecretsStep(vault, w, m, ok, x, m') && !m.loaded && (ok || m'.loaded)
    ensures BringsSecrets(vault, m.env, LookedUp(vault, x.refs, x.resolved))
    ensures m'.env == m.env + LookedUp(vault, x.refs, x.resolved)
  {
    SecretsKeepDone(vault, w, m, ok, x, m');
    StepBrings(vault, w, m, x, m');
  }

  // ---- the environment secret ----

  /** An attempt fetched and decoded the environment secret `key`. */
  ghost predicate Fetches(vault: Key -> Stored, w: Weather, m: Memory, key: Key) {
    && !m.environmentLoaded && RawReference(m.env) != ""
    && ParseEnvironmentReference(RawReference(m.env)) == Ok(key)
    && w.client && w.reachable(key) && vault(key).Parsed?
  }

  /** The environment loader succeeds if and only if it has nothing to do, or its reference is
      well-formed, a client is there, and the secret can be fetched and is a flat object of
      texts, all of which can be set under their names. */
  lemma EnvironmentLoadsIff(vault: Key -> Stored, w: Weather, m: Memory, ok: bool, content: Env, m': Memory)
    requires EnvironmentStep(vault, w, m, ok, content, m')
    ensures
      var name := "LAMBDA_TASKS_ENVIRONMENT_SECRETS_MANAGER_ARN";
      if m.environmentLoaded || name !in m.env || m.env[name] == "" then ok && m' == m
      else
        var key := ParseEnvironmentReference(m.env[name]);
        && (ok <==>
            && key.Ok? && w.client && w.reachable(key.value)
            && vault(key.value).Parsed? && vault(key.value).json.Object?
            && forall n | n in vault(key.value).json.fields ::
                 && vault(key.value).json.fields[n].Text?
                 && n != "" && '=' !in n && '\0' !in n && '\0' !in vault(key.value).json.fields[n].text)
        && (ok ==> forall n | n in vault(key.value).json.fields ::
                     n in m'.env && vault(key.value).json.fields[n] == Text(m'.env[n]))
        && (forall n | n in m.env && (key.Err? || !vault(key.value).Parsed? || !vault(key.value).json.Object? ||
                                      n !in vault(key.value).json.fields) ::
              n in m'.env && m'.env[n] == m.env[n])
        && (forall n | n in m'.env && n !in m.env ::
              n != "" && '=' !in n && '\0' !in n && '\0' !in m'.env[n])
        && m'.environmentLoaded == ok
  {
  }

  /** The environment loader has no cache: an environment secret that was fetched and decoded
      is fetched again by the next attempt, if and only if its content was refused or names a
      variable that cannot be set, and the variable still refers to it. */
  lemma EnvironmentFetchedAgainIff(vault: Key -> Stored, w: Weather, m: Memory, ok: bool, content: Env, m': Memory,
                                   w': Weather, ok': bool, content': Env, m'': Memory, key: Key)
    requires Fetches(vault, w, m, key) && EnvironmentStep(vault, w, m, ok, content, m')
    requires w'.client && w'.reachable(key) && EnvironmentStep(vault, w', m', ok', content', m'')
    ensures m'.environmentCalls == m.environmentCalls + [Call(key, true)]
    ensures
      m''.environmentCalls == m'.environmentCalls + [Call(key, true)] <==>
      && !Usable(vault(key))
      && RawReference(m'.env) != "" && ParseEnvironmentReference(RawReference(m'.env)) == Ok(key)
  {
    assert ok <==> Usable(vault(key));
    var more := if ok || RawReference(m'.env) == "" then [] else EnvironmentFetch(vault, w', RawReference(m'.env));
    assert m''.environmentCalls == m'.environmentCalls + more;
    assert |m''.environmentCalls| == |m'.environmentCalls| + |more|;
    if more != [] {
      assert m''.environmentCalls[|m'.environmentCalls|] == more[0];
    }
  }

  /** The variable still refers to it unless the content itself names that variable. */
  lemma ReferenceStays(vault: Key -> Stored, w: Weather, m: Memory, ok: bool, content: Env, m': Memory, key: Key)
    requires Fetches(vault, w, m, key) && EnvironmentStep(vault, w, m, ok, content, m')
    requires ValidateAndParse(vault(key)).Ok? ==> ENVIRONMENT_SECRET !in ValidateAndParse(vault(key)).value
    ensures RawReference(m'.env) == RawReference(m.env)
  {
  }

  /** A store in which every secret is one variable, of a given name. */
  function OneVariable(name: string, text: string): Key -> Stored {
    key => Parsed(Object(map[name := Text(text)]))
  }

  lemma OneVariableParses(key: Key, name: string, text: string)
    requires name != ""
    ensures ValidateAndParse(OneVariable(name, text)(key)) == Ok(map[name := text])
  {
    var r := ValidateAndParse(OneVariable(name, text)(key));
    assert r.Ok?;
    assert r.value == map[name := text];
  }

  /** Containers that fetch and decode the same environment secret twice, for any secret with
      a variable whose name no environment can hold, such as `A=B`. */
  lemma EnvironmentInput(key: Key, name: string, text: string, w: Weather, w': Weather,
                         ok: bool, content: Env, m': Memory, ok': bool, content': Env, m'': Memory)
    requires IsArn(key.arn) && IsField(key.versionId) && '=' in name && name != ENVIRONMENT_SECRET
    requires w.client && w.reachable(key) && w'.client && w'.reachable(key)
    requires
      var vault := OneVariable(name, text);
      && EnvironmentStep(vault, w, Fresh(map[ENVIRONMENT_SECRET := PrintEnvironmentReference(key)]), ok, content, m')
      && EnvironmentStep(vault, w', m', ok', content', m'')
    ensures m''.environmentCalls == [Call(key, true), Call(key, true)]
  {
    var vault, m := OneVariable(name, text), Fresh(map[ENVIRONMENT_SECRET := PrintEnvironmentReference(key)]);
    ParsingInvertsPrintingForEnvironment(PrintEnvironmentReference(key), key);
    OneVariableParses(key, name, text);
    assert !Usable(vault(key)) by {
      assert name in map[name := text];
    }
    assert Fetches(vault, w, m, key);
    ReferenceStays(vault, w, m, ok, content, m', key);
    EnvironmentFetchedAgainIff(vault, w, m, ok, content, m', w', ok', content', m'', key);
  }

  // ---- what is fetched in all ----

  lemma FetchKeepsCacheOk(vault: Key -> Stored, w: Weather, key: Key, l: Loading)
    requires CacheOk(vault, l.cache, l.calls)
    ensures CacheOk(vault, Fetched(vault, w, key, l).cache, Fetched(vault, w, key, l).calls)
  {
  }

  lemma {:induction false} LoadKeepsCacheOk(vault: Key -> Stored, w: Weather, refs: map<string, Reference>,
                                            order: seq<string>, l: Loading)
    requires CacheOk(vault, l.cache, l.calls) && forall t | t in order :: t in refs
    ensures
      var last := LoadInOrder(vault, w, refs, order, l).0;
      CacheOk(vault, last.cache, last.calls)
    decreases |order|
  {
    if order != [] {
      var (next, ok) := Visit(vault, w, order[0], refs[order[0]], l);
      FetchKeepsCacheOk(vault, w, refs[order[0]].key, l);
      if ok {
        LoadKeepsCacheOk(vault, w, refs, order[1..], next);
      }
    }
  }

  lemma SecretsStepKeepsOk(vault: Key -> Stored, w: Weather, m: Memory, ok: bool, x: Resolution, m': Memory)
    requires MemoryOk(vault, m) && SecretsStep(vault, w, m, ok, x, m')
    ensures MemoryOk(vault, m')
  {
    if HasWork(m) {
      LoadKeepsCacheOk(vault, w, x.refs, x.order, Begun(m));
    }
  }

  /** A secret that could be set completely is the last one the environment loader fetches. */
  lemma EnvironmentStepKeepsOk(vault: Key -> Stored, w: Weather, m: Memory, ok: bool, content: Env, m': Memory)
    requires MemoryOk(vault, m) && EnvironmentStep(vault, w, m, ok, content, m')
    ensures MemoryOk(vault, m')
  {
    if RawReference(m.env) != "" && !m.environmentLoaded {
      var more := EnvironmentFetch(vault, w, RawReference(m.env));
      assert m'.environmentCalls == m.environmentCalls + more;
      assert forall i | 0 <= i < |more| && more[i].ok && Usable(vault(more[i].key)) :: ok;
    }
  }

  lemma StartKeepsOk(vault: Key -> Stored, w: Weather, m: Memory, ok: bool, c: Course, m': Memory)
    requires MemoryOk(vault, m) && Started(vault, w, m, ok, c, m')
    ensures MemoryOk(vault, m')
  {
    if !m.done {
      EnvironmentStepKeepsOk(vault, w, m, c.environmentOk, c.content, c.middle);
      if c.environmentOk {
        SecretsStepKeepsOk(vault, w, c.middle, c.secretsOk, c.resolution, c.last);
      }
    }
  }

  lemma {:induction false} RunKeepsOk(vault: Key -> Stored, ws: seq<Weather>, oks: seq<bool>, cs: seq<Course>,
                                      ms: seq<Memory>, i: nat)
    requires Runs(vault, ws, oks, cs, ms) && i <= |ws| && MemoryOk(vault, ms[0])
    ensures MemoryOk(vault, ms[i])
    decreases i
  {
    if i > 0 {
      RunKeepsOk(vault, ws, oks, cs, ms, i - 1);
      assert At(vault, ws, oks, cs, ms, i - 1);
      StartKeepsOk(vault, ws[i - 1], ms[i - 1], oks[i - 1], cs[i - 1], ms[i]);
    }
  }

  /** Over all attempts of a container, however many fail: every secret that references name
      is fetched and decoded at most once; and of the environment secrets, one that can be
      set is fetched by the last of the calls only. */
  lemma FetchesOverARun(vault: Key -> Stored, ws: seq<Weather>, oks: seq<bool>, cs: seq<Course>, ms: seq<Memory>,
                        env: Env)
    requires Runs(vault, ws, oks, cs, ms) && ms[0] == Fresh(env)
    ensures
      var calls := ms[|ws|].calls;
      forall i, j | 0 <= i < |calls| && 0 <= j < |calls| && calls[i].ok && calls[j].ok &&
                    calls[i].key == calls[j].key :: i == j
    ensures
      var calls := ms[|ws|].environmentCalls;
      forall i | 0 <= i < |calls| - 1 && calls[i].ok :: !Usable(vault(calls[i].key))
  {
    RunKeepsOk(vault, ws, oks, cs, ms, |ws|);
  }
}
