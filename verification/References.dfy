/** The colon-separated references to secrets, their parsers and printers. */
module References {
  import opened Wrappers

  const COLON := ':'

  /** `s.split(":")` */
  function Split(s: string): (parts: seq<string>)
    ensures parts != [] && forall p | p in parts :: COLON !in p
  {
    if s == "" then [""]
    else if s[0] == COLON then [""] + Split(s[1..])
    else
      var rest := Split(s[1..]);
      [[s[0]] + rest[0]] + rest[1..]
  }

  /** `":".join(parts)` */
  function Join(parts: seq<string>): string
    requires parts != []
  {
    if |parts| == 1 then parts[0] else parts[0] + [COLON] + Join(parts[1..])
  }

  predicate ColonFree(parts: seq<string>) {
    forall p | p in parts :: COLON !in p
  }

  lemma {:induction false} JoinUndoesSplit(s: string)
    ensures Join(Split(s)) == s
    decreases |s|
  {
    if s != "" {
      JoinUndoesSplit(s[1..]);
      var rest := Split(s[1..]);
      if s[0] == COLON {
        assert ([""] + rest)[1..] == rest;
      } else {
        var parts := [[s[0]] + rest[0]] + rest[1..];
        assert parts[1..] == rest[1..];
        assert Join(parts) == [s[0]] + Join(rest);
      }
    }
  }

  lemma {:induction false} SplitPrefix(p: string, s: string)
    requires COLON !in p
    ensures
      var rest := Split(s);
      Split(p + s) == [p + rest[0]] + rest[1..]
    decreases |p|
  {
    if p == "" {
      assert p + s == s && p + Split(s)[0] == Split(s)[0];
    } else {
      assert p[0] in p && p[0] != COLON;
      SplitPrefix(p[1..], s);
      assert (p + s)[1..] == p[1..] + s;
      assert [p[0]] + (p[1..] + Split(s)[0]) == p + Split(s)[0];
    }
  }

  lemma {:induction false} SplitUndoesJoin(parts: seq<string>)
    requires parts != [] && ColonFree(parts)
    ensures Split(Join(parts)) == parts
    decreases |parts|
  {
    var p := parts[0];
    assert p in parts;
    if |parts| == 1 {
      SplitPrefix(p, "");
      assert p + "" == p;
    } else {
      var rest := Join(parts[1..]);
      SplitUndoesJoin(parts[1..]);
      assert ([COLON] + rest)[1..] == rest;
      assert Split([COLON] + rest) == [""] + parts[1..];
      SplitPrefix(p, [COLON] + rest);
      assert p + [COLON] + rest == p + ([COLON] + rest);
      assert p + "" == p && [p] + parts[1..] == parts;
    }
  }

  lemma {:induction false} JoinAppends(xs: seq<string>, ys: seq<string>)
    requires xs != [] && ys != []
    ensures Join(xs + ys) == Join(xs) + [COLON] + Join(ys)
    decreases |xs|
  {
    if |xs| == 1 {
      assert (xs + ys)[1..] == ys;
    } else {
      assert (xs + ys)[1..] == xs[1..] + ys;
      JoinAppends(xs[1..], ys);
    }
  }

  /** A string splits into one part more than it has colons. */
  lemma {:induction false} PartsCountColons(s: string)
    ensures |Split(s)| == multiset(s)[COLON] + 1
    decreases |s|
  {
    if s != "" {
      PartsCountColons(s[1..]);
      assert s == [s[0]] + s[1..];
    }
  }

  // ---- references to one field of a secret ----

  /** A secret in one version. */
  datatype Key = Key(arn: string, versionId: string)

  datatype Reference = Reference(key: Key, jsonKey: string)

  datatype FormatError = WrongSegmentCount(n: nat) | NoJsonKey | HasVersionStage | NoVersionId

  function ParseReference(value: string): Result<Reference, FormatError> {
    var parts := Split(value);
    if |parts| != 10 then Err(WrongSegmentCount(|parts|))
    else if parts[7] == "" then Err(NoJsonKey)
    else if parts[8] != "" then Err(HasVersionStage)
    else if parts[9] == "" then Err(NoVersionId)
    else Ok(Reference(Key(Join(parts[..7]), parts[9]), parts[7]))
  }

  /** An ARN has exactly six colons; a field has none and is not empty. */
  predicate IsArn(arn: string) {
    multiset(arn)[COLON] == 6
  }

  predicate IsField(field: string) {
    field != "" && COLON !in field
  }

  function PrintReference(r: Reference): string {
    r.key.arn + ":" + r.jsonKey + "::" + r.key.versionId
  }

  lemma JoinThree(a: string, b: string, c: string)
    ensures Join([a, b, c]) == a + ":" + b + ":" + c
  {
    assert [a, b, c][1..] == [b, c] && [b, c][1..] == [c];
    assert Join([b, c]) == b + [COLON] + c;
    assert Join([a, b, c]) == a + [COLON] + (b + [COLON] + c);
    assert a + ":" + b + ":" + c == a + [COLON] + (b + [COLON] + c);
  }

  predicate Printable(r: Reference) {
    IsArn(r.key.arn) && IsField(r.jsonKey) && IsField(r.key.versionId)
  }

  lemma PrintIsJoin(r: Reference)
    ensures PrintReference(r) == r.key.arn + [COLON] + Join([r.jsonKey, "", r.key.versionId])
  {
    JoinThree(r.jsonKey, "", r.key.versionId);
    var suffix := r.jsonKey + ":" + "" + ":" + r.key.versionId;
    assert suffix == r.jsonKey + "::" + r.key.versionId;
    assert PrintReference(r) == r.key.arn + [COLON] + suffix;
  }

  lemma PrintedParts(r: Reference)
    requires Printable(r)
    ensures Split(PrintReference(r)) == Split(r.key.arn) + [r.jsonKey, "", r.key.versionId]
    ensures |Split(r.key.arn)| == 7 && Join(Split(r.key.arn)) == r.key.arn
  {
    PartsCountColons(r.key.arn);
    var arnParts, suffix := Split(r.key.arn), [r.jsonKey, "", r.key.versionId];
    JoinUndoesSplit(r.key.arn);
    JoinAppends(arnParts, suffix);
    PrintIsJoin(r);
    SplitUndoesJoin(arnParts + suffix);
  }

  lemma ParsedPrints(value: string, r: Reference)
    requires ParseReference(value) == Ok(r)
    ensures Printable(r) && value == PrintReference(r)
  {
    var parts := Split(value);
    assert parts[7] in parts && parts[9] in parts;
    assert parts == parts[..7] + [r.jsonKey, "", r.key.versionId];
    JoinUndoesSplit(value);
    JoinAppends(parts[..7], [r.jsonKey, "", r.key.versionId]);
    PrintIsJoin(r);
    SplitUndoesJoin(parts[..7]);
    PartsCountColons(r.key.arn);
  }

  /** The parser accepts exactly what the printer writes for a well-formed reference, and
      reads back that reference. */
  lemma ParsingInvertsPrinting(value: string, r: Reference)
    ensures ParseReference(value) == Ok(r) <==> Printable(r) && value == PrintReference(r)
  {
    if ParseReference(value) == Ok(r) {
      ParsedPrints(value, r);
    }
    if Printable(r) && value == PrintReference(r) {
      PrintedParts(r);
      assert Split(value)[..7] == Split(r.key.arn);
    }
  }

  /** A reference says where its field is: no two references print alike. */
  lemma PrintingIsInjective(r: Reference, q: Reference)
    requires Printable(r) && Printable(q)
    requires PrintReference(r) == PrintReference(q)
    ensures r == q
  {
    ParsingInvertsPrinting(PrintReference(r), r);
    ParsingInvertsPrinting(PrintReference(q), q);
  }

  // ---- references to a whole secret ----

  function ParseEnvironmentReference(value: string): Result<Key, FormatError> {
    var parts := Split(value);
    if |parts| != 8 then Err(WrongSegmentCount(|parts|))
    else if parts[7] == "" then Err(NoVersionId)
    else Ok(Key(Join(parts[..7]), parts[7]))
  }

  function PrintEnvironmentReference(k: Key): string {
    k.arn + ":" + k.versionId
  }

  lemma ParsingInvertsPrintingForEnvironment(value: string, k: Key)
    ensures ParseEnvironmentReference(value) == Ok(k) <==>
            IsArn(k.arn) && IsField(k.versionId) && value == PrintEnvironmentReference(k)
  {
    if ParseEnvironmentReference(value) == Ok(k) {
      var parts := Split(value);
      assert parts == parts[..7] + [k.versionId];
      JoinUndoesSplit(value);
      JoinAppends(parts[..7], [k.versionId]);
      SplitUndoesJoin(parts[..7]);
      PartsCountColons(k.arn);
      assert parts[7] in parts;
    }
    if IsArn(k.arn) && IsField(k.versionId) && value == PrintEnvironmentReference(k) {
      PartsCountColons(k.arn);
      var arnParts := Split(k.arn);
      JoinUndoesSplit(k.arn);
      JoinAppends(arnParts, [k.versionId]);
      SplitUndoesJoin(arnParts + [k.versionId]);
      assert (arnParts + [k.versionId])[..7] == arnParts;
    }
  }
}
