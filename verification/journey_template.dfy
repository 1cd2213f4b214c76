/** Request templates of the journey runner and what resolving them depends on. */
module JourneyTemplate {
  import opened Wrappers

  datatype Json =
    | Null
    | Bool(b: bool)
    | Num(n: int)
    | Str(s: string)
    | Arr(items: seq<Json>)
    | Obj(fields: map<string, Json>)

  datatype Error = JourneyError | ResumeConflict | Killed

  type Result<+T> = Fallible<T, Error>

  /** The digest of a delivery record: record type, schema version and resolved value. */
  type DeliveryDigest = (string, int, Json) -> string

  predicate DigestDomain(s: string) {
    1 <= |s| <= 96 && forall c <- s :: 'a' <= c <= 'z' || '0' <= c <= '9' || c == '-'
  }

  predicate ValidDomain(recordType: Json, version: Json) {
    recordType.Str? && DigestDomain(recordType.s) && version.Num? && 1 <= version.n <= 0xFFFF
  }

  /** True and 1 are equal in the source language. */
  predicate IsTrue(j: Json) {
    j == Bool(true) || j == Num(1)
  }

  const SENSITIVE_WORDS := ["authorization", "cookie", "credential", "password", "prompt", "secret", "token"]

  function LowerChar(c: char): char {
    if 'A' <= c <= 'Z' then (c as int + 32) as char else c
  }

  predicate ContainsAt(s: string, word: string, i: nat) {
    i + |word| <= |s| && forall k | 0 <= k < |word| :: LowerChar(s[i + k]) == word[k]
  }

  /** A key that names secret material, in any mixture of cases. */
  predicate Sensitive(key: string) {
    exists w <- SENSITIVE_WORDS :: exists i | 0 <= i <= |key| :: ContainsAt(key, w, i)
  }

  predicate PlainText(s: string) {
    forall c <- s :: ' ' <= c <= '\U{7F}'
  }

  predicate PublicStructure(j: Json) {
    match j
    case Obj(fields) => forall k <- fields :: !Sensitive(k) && PublicStructure(fields[k])
    case Arr(items) => forall x <- items :: PublicStructure(x)
    case Str(s) => PlainText(s)
    case _ => true
  }

  predicate ValidSpecification(j: Json) {
    && j.Obj? && j.fields.Keys == {"record_type", "schema_version", "value"}
    && ValidDomain(j.fields["record_type"], j.fields["schema_version"])
  }

  /** A template that only refers to captures in `available`. */
  predicate ValidTemplate(j: Json, available: set<string>) {
    match j
    case Arr(items) => forall x <- items :: ValidTemplate(x, available)
    case Obj(fields) =>
      if "$operation_id" in fields then fields.Keys == {"$operation_id"} && IsTrue(fields["$operation_id"])
      else if "$ref" in fields then
        fields.Keys == {"$ref"} && fields["$ref"].Str? && fields["$ref"].s in available
      else if "$delivery_digest" in fields then
        && fields.Keys == {"$delivery_digest"}
        && ValidSpecification(fields["$delivery_digest"])
        && ValidTemplate(fields["$delivery_digest"].fields["value"], available)
        && PublicStructure(fields["$delivery_digest"].fields["value"])
      else forall k <- fields :: ValidTemplate(fields[k], available)
    case _ => true
  }

  /** What is sent: references are replaced by captures, markers by the operation id or a delivery digest. */
  function Resolve(j: Json, refs: map<string, Json>, operationId: string, digest: DeliveryDigest): Result<Json>
    decreases j, 1
  {
    match j
    case Arr(items) => ResolveAll(items, refs, operationId, digest)
    case Obj(fields) =>
      if fields.Keys == {"$operation_id"} && fields["$operation_id"] == Bool(true) then Ok(Str(operationId))
      else if fields.Keys == {"$ref"} then
        if fields["$ref"].Str? && fields["$ref"].s in refs then Ok(refs[fields["$ref"].s]) else Err(JourneyError)
      else if fields.Keys == {"$delivery_digest"} then
        var spec := fields["$delivery_digest"];
        if !spec.Obj? then Err(JourneyError)
        else
          var recordType := if "record_type" in spec.fields then spec.fields["record_type"] else Null;
          var version := if "schema_version" in spec.fields then spec.fields["schema_version"] else Null;
          var resolved :- if "value" in spec.fields then Resolve(spec.fields["value"], refs, operationId, digest)
                          else Ok(Null);
          if ValidDomain(recordType, version) then Ok(Str(digest(recordType.s, version.n, resolved)))
          else Err(JourneyError)
      else ResolveFields(j, refs, operationId, digest)
    case _ => Ok(j)
  }

  function ResolveFields(j: Json, refs: map<string, Json>, operationId: string, digest: DeliveryDigest): Result<Json>
    requires j.Obj?
    decreases j, 0
  {
    if forall k <- j.fields :: Resolve(j.fields[k], refs, operationId, digest).Ok? then
      Ok(Obj(map k | k in j.fields :: Resolve(j.fields[k], refs, operationId, digest).value))
    else Err(JourneyError)
  }

  function ResolveAll(
    items: seq<Json>, refs: map<string, Json>, operationId: string, digest: DeliveryDigest): Result<Json>
    decreases items, 0
  {
    if forall x <- items :: Resolve(x, refs, operationId, digest).Ok? then
      Ok(Arr(seq(|items|, i requires 0 <= i < |items| => Resolve(items[i], refs, operationId, digest).value)))
    else Err(JourneyError)
  }

  /** Whether resolving the template looks up `k`. */
  predicate Uses(j: Json, k: string) {
    match j
    case Arr(items) => exists x <- items :: Uses(x, k)
    case Obj(fields) =>
      if "$operation_id" in fields then false
      else if "$ref" in fields then fields["$ref"] == Str(k)
      else if "$delivery_digest" in fields then
        var spec := fields["$delivery_digest"];
        spec.Obj? && "value" in spec.fields && Uses(spec.fields["value"], k)
      else exists f <- fields :: Uses(fields[f], k)
    case _ => false
  }

  predicate AgreeOn(j: Json, refs: map<string, Json>, refs': map<string, Json>) {
    forall k | k in refs && k in refs' && Uses(j, k) :: refs'[k] == refs[k]
  }

  /** A valid template resolves, and to the same value under any references that agree on what it looks up. */
  lemma {:induction false} ResolveAgrees(
    j: Json, available: set<string>, refs: map<string, Json>, refs': map<string, Json>, operationId: string,
    digest: DeliveryDigest)
    requires ValidTemplate(j, available) && available <= refs.Keys && available <= refs'.Keys && AgreeOn(j, refs, refs')
    ensures Resolve(j, refs, operationId, digest).Ok?
    ensures Resolve(j, refs', operationId, digest) == Resolve(j, refs, operationId, digest)
    decreases j, 1
  {
    match j
    case Arr(items) =>
      forall x | x in items
        ensures Resolve(x, refs, operationId, digest).Ok?
        ensures Resolve(x, refs', operationId, digest) == Resolve(x, refs, operationId, digest)
      {
        ResolveAgrees(x, available, refs, refs', operationId, digest);
      }
      assert ResolveAll(items, refs', operationId, digest).value.items
          == ResolveAll(items, refs, operationId, digest).value.items;
    case Obj(fields) =>
      if "$ref" in fields {
        assert Uses(j, fields["$ref"].s);
      } else if "$delivery_digest" in fields {
        ResolveAgrees(fields["$delivery_digest"].fields["value"], available, refs, refs', operationId, digest);
      } else {
        FieldsAgree(j, available, refs, refs', operationId, digest);
      }
    case _ =>
  }

  lemma {:induction false} FieldsAgree(
    j: Json, available: set<string>, refs: map<string, Json>, refs': map<string, Json>, operationId: string,
    digest: DeliveryDigest)
    requires j.Obj? && "$ref" !in j.fields && "$delivery_digest" !in j.fields
    requires ValidTemplate(j, available) && available <= refs.Keys && available <= refs'.Keys && AgreeOn(j, refs, refs')
    ensures ResolveFields(j, refs, operationId, digest).Ok?
    ensures ResolveFields(j, refs', operationId, digest) == ResolveFields(j, refs, operationId, digest)
    decreases j, 0
  {
    forall f | f in j.fields
      ensures Resolve(j.fields[f], refs, operationId, digest).Ok?
      ensures Resolve(j.fields[f], refs', operationId, digest) == Resolve(j.fields[f], refs, operationId, digest)
    {
      ResolveAgrees(j.fields[f], available, refs, refs', operationId, digest);
    }
    assert ResolveFields(j, refs', operationId, digest).value.fields
        == ResolveFields(j, refs, operationId, digest).value.fields;
  }

  /** Different values never share a delivery digest. */
  ghost predicate InjectiveDigest(digest: DeliveryDigest) {
    forall t, v, a, b | digest(t, v, a) == digest(t, v, b) :: a == b
  }

  /** A template that resolves to the same value looked up the same captures. */
  lemma {:induction false} ResolveTells(
    j: Json, available: set<string>, refs: map<string, Json>, refs': map<string, Json>, operationId: string,
    digest: DeliveryDigest)
    requires ValidTemplate(j, available) && available <= refs.Keys && available <= refs'.Keys
    requires InjectiveDigest(digest) && Resolve(j, refs, operationId, digest).Ok?
    requires Resolve(j, refs', operationId, digest) == Resolve(j, refs, operationId, digest)
    ensures AgreeOn(j, refs, refs')
  {
    forall k | k in refs && k in refs' && Uses(j, k)
      ensures refs'[k] == refs[k]
    {
      match j
      case Arr(items) =>
        var i :| 0 <= i < |items| && Uses(items[i], k);
        var a, a' := ResolveAll(items, refs, operationId, digest), ResolveAll(items, refs', operationId, digest);
        assert a.value.items[i] == a'.value.items[i];
        ResolveTells(items[i], available, refs, refs', operationId, digest);
      case Obj(fields) =>
        if "$ref" in fields {
        } else if "$delivery_digest" in fields {
          var spec := fields["$delivery_digest"].fields;
          ResolveTells(spec["value"], available, refs, refs', operationId, digest);
        } else {
          var f :| f in fields && Uses(fields[f], k);
          var a, a' := ResolveFields(j, refs, operationId, digest), ResolveFields(j, refs', operationId, digest);
          assert a.value.fields[f] == a'.value.fields[f];
          ResolveTells(fields[f], available, refs, refs', operationId, digest);
        }
      case _ =>
    }
  }

  /** A valid template resolves to the same value if and only if no capture that it looks up has changed. */
  lemma ResolvesSameIff(
    j: Json, available: set<string>, refs: map<string, Json>, refs': map<string, Json>, operationId: string,
    digest: DeliveryDigest)
    requires ValidTemplate(j, available) && available <= refs.Keys && available <= refs'.Keys && InjectiveDigest(digest)
    ensures Resolve(j, refs', operationId, digest) == Resolve(j, refs, operationId, digest) <==> AgreeOn(j, refs, refs')
  {
    hide ValidTemplate, Uses, Resolve, InjectiveDigest;
    ResolveAgrees(j, available, refs, refs, operationId, digest);
    if AgreeOn(j, refs, refs') {
      ResolveAgrees(j, available, refs, refs', operationId, digest);
    } else if Resolve(j, refs', operationId, digest) == Resolve(j, refs, operationId, digest) {
      ResolveTells(j, available, refs, refs', operationId, digest);
    }
  }
}
