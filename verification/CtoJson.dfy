/** CTO documents: export, normalisation and what adoption makes of an import (cto_json.py). */
module CtoJson {
  import opened Wrappers
  import opened Json
  import opened Ctos
  import Text

  const SCHEMA := "ttt.cto"
  const PROVENANCE := "turnturnturn.provenance"

  datatype Normalized = Normalized(
    document: Dict, profile: ProfileRef, content: Dict, observations: Observations, identity: Dict, metadata: Dict)

  datatype Problem = BadSchema | BadVersion | NoCto | NoProfile | BadProfileId | BadProfileVersion | NoContent
                   | BadObservations | BadNamespace | NotList | NotObject | BadMetadata

  // ---------------------------------------------------------------- export

  function Uuid(n: nat): Value {
    Str(Text.Decimal(n))
  }

  function EntryValues(es: Entries): seq<Value> {
    seq(|es|, i requires 0 <= i < |es| => Obj(es[i]))
  }

  function ObservationsValue(obs: Observations): Dict {
    map name | name in obs :: List(EntryValues(obs[name]))
  }

  function ProfileValue(p: ProfileRef): Dict {
    map["id" := Str(p.id), "version" := p.version]
  }

  /** `CTO.to_dict`. */
  function ToDict(c: CTO): Dict {
    map["turn_id" := Uuid(c.turn), "session_id" := Uuid(c.session), "created_at_ms" := Int(c.createdAt),
        "content_profile" := Obj(ProfileValue(c.profile)), "content" := Obj(c.content),
        "observations" := Obj(ObservationsValue(c.observations)),
        "last_event_id" := if c.lastEvent.Some? then Uuid(c.lastEvent.value) else Null]
  }

  /** `cto_json_document`. */
  function Document(c: CTO, code: Option<string>, metadata: Dict): Dict {
    map["schema" := Str(SCHEMA), "version" := Int(1), "cto" := Obj(ToDict(c)),
        "metadata" := Obj(if code.Some? then metadata["session_code" := Str(code.value)] else metadata)]
  }

  // ---------------------------------------------------------------- normalisation

  function GetOr(d: Dict, key: string, default: Value): Value {
    if key in d then d[key] else default
  }

  predicate IsEntryList(v: Value) {
    v.List? && forall i | 0 <= i < |v.items| :: v.items[i].Obj?
  }

  /** Namespaces are non-empty and hold lists of objects. */
  predicate ProperObservations(raw: Dict) {
    forall name | name in raw :: name != "" && IsEntryList(raw[name])
  }

  function EntriesIn(v: Value): Entries
    requires IsEntryList(v)
  {
    seq(|v.items|, i requires 0 <= i < |v.items| => v.items[i].fields)
  }

  function ObservationsIn(raw: Dict): Observations
    requires ProperObservations(raw)
  {
    map name | name in raw :: EntriesIn(raw[name])
  }

  /** `1 == True` in Python. */
  predicate IsOne(v: Value) {
    v == Int(1) || v == Bool(true)
  }

  predicate IsInt(v: Value) {
    v.Int? || v.Bool?
  }

  function IdentityOf(cto: Dict): Dict {
    map["turn_id" := Get(cto, "turn_id"), "session_id" := Get(cto, "session_id"),
        "created_at_ms" := Get(cto, "created_at_ms"), "last_event_id" := Get(cto, "last_event_id")]
  }

  function NormalDocument(cto: Dict, profile: ProfileRef, content: Dict, obs: Observations, metadata: Dict): Dict {
    map["schema" := Str(SCHEMA), "version" := Int(1),
        "cto" := Obj(map["turn_id" := Get(cto, "turn_id"), "session_id" := Get(cto, "session_id"),
                         "created_at_ms" := Get(cto, "created_at_ms"),
                         "content_profile" := Obj(ProfileValue(profile)), "content" := Obj(content),
                         "observations" := Obj(ObservationsValue(obs)),
                         "last_event_id" := Get(cto, "last_event_id")]),
        "metadata" := Obj(metadata)]
  }

  /** The first thing wrong with a document apart from its observations' entries, in the order they are checked. */
  function Complaint(doc: Dict): Option<Problem> {
    if Get(doc, "schema") != Str(SCHEMA) then Some(BadSchema)
    else if !IsOne(Get(doc, "version")) then Some(BadVersion)
    else if !Get(doc, "cto").Obj? then Some(NoCto)
    else
      var cto := Get(doc, "cto").fields;
      if !Get(cto, "content_profile").Obj? then Some(NoProfile)
      else
        var p := Get(cto, "content_profile").fields;
        if !Get(p, "id").Str? || Get(p, "id").s == "" then Some(BadProfileId)
        else if !IsInt(Get(p, "version")) then Some(BadProfileVersion)
        else if !Get(cto, "content").Obj? then Some(NoContent)
        else if !GetOr(cto, "observations", Obj(map[])).Obj? then Some(BadObservations)
        else None
  }

  /** `normalize_cto_json_document`; only that a document is rejected matters, not which entry was met first. */
  function Normalize(doc: Dict): Result<Normalized, Problem> {
    if Complaint(doc).Some? then Failure(Complaint(doc).value)
    else
      var cto := Get(doc, "cto").fields;
      var p := Get(cto, "content_profile").fields;
      var raw := GetOr(cto, "observations", Obj(map[])).fields;
      if !ProperObservations(raw) then Failure(NotObject)
      else if !GetOr(doc, "metadata", Obj(map[])).Obj? then Failure(BadMetadata)
      else
        var profile := ProfileRef(Get(p, "id").s, Get(p, "version"));
        var content := Get(cto, "content").fields;
        var obs := ObservationsIn(raw);
        var metadata := GetOr(doc, "metadata", Obj(map[])).fields;
        Success(Normalized(NormalDocument(cto, profile, content, obs, metadata), profile, content, obs,
                           IdentityOf(cto), metadata))
  }

  // ---------------------------------------------------------------- properties

  /** What makes a JSON object a CTO document, told by its own fields: schema and version, a CTO with a profile and a
      content, and proper observations and metadata if it has any. Further fields do not matter. */
  ghost predicate IsCtoDocument(doc: Dict) {
    && "schema" in doc && doc["schema"] == Str("ttt.cto")
    && "version" in doc && (doc["version"] == Int(1) || doc["version"] == Bool(true))
    && "cto" in doc && doc["cto"].Obj? && IsCto(doc["cto"].fields)
    && ("metadata" in doc ==> doc["metadata"].Obj?)
  }

  ghost predicate IsCto(cto: Dict) {
    && "content_profile" in cto && cto["content_profile"].Obj?
    && var p := cto["content_profile"].fields;
    && "id" in p && p["id"].Str? && p["id"].s != ""
    && "version" in p && (p["version"].Int? || p["version"].Bool?)
    && "content" in cto && cto["content"].Obj?
    && ("observations" in cto ==>
          cto["observations"].Obj? && forall name | name in cto["observations"].fields ::
              name != "" && IsListOfObjects(cto["observations"].fields[name]))
  }

  ghost predicate IsListOfObjects(v: Value) {
    v.List? && forall item | item in v.items :: item.Obj?
  }

  /** The observations are those of the document, entry by entry. */
  ghost predicate ReadsObservations(cto: Dict, obs: Observations)
    requires IsCto(cto)
  {
    if "observations" !in cto then obs == map[]
    else
      var raw := cto["observations"].fields;
      && obs.Keys == raw.Keys
      && forall name | name in raw ::
           && |obs[name]| == |raw[name].items|
           && forall i | 0 <= i < |obs[name]| :: Obj(obs[name][i]) == raw[name].items[i]
  }

  /** A field of the document, or null. */
  ghost predicate ReadsField(d: Dict, key: string, v: Value) {
    v == if key in d then d[key] else Null
  }

  /** Every part of the result is the field it comes from; the identity has the four fields that tell a CTO apart. */
  ghost predicate ReadsDocument(doc: Dict, n: Normalized)
    requires IsCtoDocument(doc)
  {
    var cto := doc["cto"].fields;
    var p := cto["content_profile"].fields;
    && n.profile == ProfileRef(p["id"].s, p["version"]) && n.content == cto["content"].fields
    && ReadsObservations(cto, n.observations)
    && n.metadata == (if "metadata" in doc then doc["metadata"].fields else map[])
    && n.identity.Keys == {"turn_id", "session_id", "created_at_ms", "last_event_id"}
    && forall key | key in n.identity :: ReadsField(cto, key, n.identity[key])
  }

  lemma ListsOfObjects(v: Value)
    ensures IsListOfObjects(v) <==> IsEntryList(v)
  {
    if v.List? {
      assert forall i | 0 <= i < |v.items| :: v.items[i] in v.items;
    }
  }

  lemma CtosAreRead(cto: Dict)
    requires Get(cto, "content_profile").Obj? && Get(cto, "content").Obj?
    ensures IsCto(cto) <==>
              var p := Get(cto, "content_profile").fields;
              && Get(p, "id").Str? && Get(p, "id").s != "" && IsInt(Get(p, "version"))
              && GetOr(cto, "observations", Obj(map[])).Obj?
              && ProperObservations(GetOr(cto, "observations", Obj(map[])).fields)
    ensures IsCto(cto) ==>
              ReadsObservations(cto, ObservationsIn(GetOr(cto, "observations", Obj(map[])).fields))
  {
    if "observations" in cto && cto["observations"].Obj? {
      var raw := cto["observations"].fields;
      forall name | name in raw
        ensures IsListOfObjects(raw[name]) <==> IsEntryList(raw[name])
      {
        ListsOfObjects(raw[name]);
      }
    }
  }

  /** The document of the result has the declared fields and no others. */
  ghost predicate InNormalForm(doc: Dict) {
    && doc.Keys == {"schema", "version", "cto", "metadata"} && doc["version"] == Int(1) && doc["cto"].Obj?
    && doc["cto"].fields.Keys == {"turn_id", "session_id", "created_at_ms", "content_profile", "content",
                                  "observations", "last_event_id"}
  }

  lemma NormalDocumentsAreSo(cto: Dict, profile: ProfileRef, content: Dict, obs: Observations, metadata: Dict)
    ensures InNormalForm(NormalDocument(cto, profile, content, obs, metadata))
  {
  }

  /** Exactly what normalisation takes, and what it makes of it. */
  lemma NormalizesExactly(doc: Dict)
    ensures Normalize(doc).Success? <==> IsCtoDocument(doc)
    ensures Normalize(doc).Success? ==>
              ReadsDocument(doc, Normalize(doc).value) && InNormalForm(Normalize(doc).value.document)
  {
    hide ProperObservations, ObservationsIn, ReadsObservations, NormalDocument, InNormalForm;
    if Normalize(doc).Success? {
      var n := Normalize(doc).value;
      NormalDocumentsAreSo(Get(doc, "cto").fields, n.profile, n.content, n.observations, n.metadata);
    }
    if Get(doc, "cto").Obj? {
      var cto := Get(doc, "cto").fields;
      if Get(cto, "content_profile").Obj? && Get(cto, "content").Obj? { CtosAreRead(cto); }
      else { assert !IsCto(cto); }
    }
  }

  lemma ObservationsRoundTrip(obs: Observations)
    ensures ProperObservations(ObservationsValue(obs)) <==> "" !in obs
    ensures "" !in obs ==> ObservationsIn(ObservationsValue(obs)) == obs
  {
    var raw := ObservationsValue(obs);
    assert "" in obs ==> "" in raw;
    forall name | name in obs
      ensures IsEntryList(raw[name]) && EntriesIn(raw[name]) == obs[name]
    {
      assert |EntriesIn(raw[name])| == |obs[name]|;
    }
    assert raw.Keys == obs.Keys;
  }

  /** Exporting a CTO and normalising the document succeeds exactly when its profile id and its namespaces are non-empty
      and its version is an int; then profile, content and observations come back and the identity is the CTO's own. */
  lemma ExportNormalizes(c: CTO, code: Option<string>, metadata: Dict)
    ensures Normalize(Document(c, code, metadata)).Success? <==>
              c.profile.id != "" && IsInt(c.profile.version) && "" !in c.observations
    ensures var r := Normalize(Document(c, code, metadata));
            r.Success? ==>
              && r.value.profile == c.profile
              && r.value.content == c.content
              && r.value.observations == c.observations
              && r.value.identity
                   == map["turn_id" := Str(Text.Decimal(c.turn)), "session_id" := Str(Text.Decimal(c.session)),
                          "created_at_ms" := Int(c.createdAt),
                          "last_event_id" := if c.lastEvent.Some? then Str(Text.Decimal(c.lastEvent.value)) else Null]
              && r.value.metadata == (if code.Some? then metadata["session_code" := Str(code.value)] else metadata)
              && r.value.document == Document(c, code, metadata)
  {
    ObservationsRoundTrip(c.observations);
    var doc := Document(c, code, metadata);
    var cto := doc["cto"].fields;
    assert Get(cto, "content_profile").fields == ProfileValue(c.profile);
    assert GetOr(cto, "observations", Obj(map[])).fields == ObservationsValue(c.observations);
  }

  /** What normalising a document in normal form gives. */
  lemma NormalFormNormalizes(cto: Dict, profile: ProfileRef, content: Dict, obs: Observations, metadata: Dict)
    requires profile.id != "" && IsInt(profile.version) && "" !in obs
    ensures var doc := NormalDocument(cto, profile, content, obs, metadata);
            Normalize(doc) == Success(Normalized(doc, profile, content, obs, IdentityOf(cto), metadata))
  {
    hide ObservationsIn, ProperObservations, ObservationsValue;
    ObservationsRoundTrip(obs);
    var doc := NormalDocument(cto, profile, content, obs, metadata);
    var inner := doc["cto"].fields;
    assert Get(inner, "content_profile").fields == ProfileValue(profile);
    assert GetOr(inner, "observations", Obj(map[])).fields == ObservationsValue(obs);
    assert Get(inner, "content").fields == content;
    assert IdentityOf(inner) == IdentityOf(cto);
    assert NormalDocument(inner, profile, content, obs, metadata) == doc;
  }

  /** Normalising the document of a normalised result changes nothing. */
  lemma NormalizeIdempotent(doc: Dict)
    requires Normalize(doc).Success?
    ensures Normalize(Normalize(doc).value.document) == Normalize(doc)
  {
    hide NormalDocument, IdentityOf, ObservationsIn, IsEntryList;
    var n := Normalize(doc).value;
    assert "" !in n.observations by { NoEmptyNames(doc); }
    NormalFormNormalizes(Get(doc, "cto").fields, n.profile, n.content, n.observations, n.metadata);
  }

  lemma NoEmptyNames(doc: Dict)
    requires Normalize(doc).Success?
    ensures "" !in Normalize(doc).value.observations
  {
  }

  // ---------------------------------------------------------------- adoption

  /** Where an import came from and who asked for it. */
  datatype ImportSource = ImportSource(kind: string, locator: string, hash: string, request: string,
                                       requester: PurposeId, requesterName: string)

  /** The provenance entry `_handle_cto_imported` adds. */
  function ImportEntry(n: Normalized, s: ImportSource): Dict {
    map["key" := Str("import"),
        "value" := Obj(map[
          "source" := Obj(map["kind" := Str(s.kind), "locator" := Str(s.locator), "content_hash" := Str(s.hash)]),
          "request" := Obj(map["request_id" := Str(s.request), "requested_by_purpose_id" := Uuid(s.requester),
                               "requested_by_purpose_name" := Str(s.requesterName)]),
          "historical" := Obj(map["identity" := Obj(n.identity), "metadata" := Obj(n.metadata)])])]
  }

  /** The observations an adopted CTO starts with. */
  function Adopted(n: Normalized, s: ImportSource): Observations {
    n.observations[PROVENANCE := Namespace(n.observations, PROVENANCE) + [ImportEntry(n, s)]]
  }

  lemma AdoptedIsNotEmpty(n: Normalized, s: ImportSource)
    ensures PROVENANCE in Adopted(n, s) && Adopted(n, s)[PROVENANCE] != []
  {
  }

  lemma AdoptedIsNamed(doc: Dict, s: ImportSource)
    ensures Normalize(doc).Success? ==> "" !in Adopted(Normalize(doc).value, s)
  {
  }

  // ---------------------------------------------------------------- the loops

  /** The inner loop: copies the entries of one namespace, stopping at the first that is not an object. */
  method CopyEntries(items: seq<Value>) returns (ok: bool, entries: Entries)
    ensures ok <==> IsEntryList(List(items))
    ensures ok ==> entries == EntriesIn(List(items))
  {
    ok, entries := true, [];
    var i := 0;
    while i < |items| && ok
      invariant 0 <= i <= |items|
      invariant ok ==> |entries| == i && forall j | 0 <= j < i :: items[j].Obj? && entries[j] == items[j].fields
      invariant !ok ==> !IsEntryList(List(items))
    {
      if items[i].Obj? {
        entries := entries + [items[i].fields];
      } else {
        ok := false;
        assert !List(items).items[i].Obj?;
      }
      i := i + 1;
    }
  }

  /** The outer loop over the namespaces. */
  method CopyObservations(raw: Dict) returns (ok: bool, obs: Observations)
    ensures ok <==> ProperObservations(raw)
    ensures ok ==> obs == ObservationsIn(raw)
  {
    ok, obs := true, map[];
    var left := raw.Keys;
    while left != {} && ok
      invariant left <= raw.Keys
      invariant ok ==> obs.Keys == raw.Keys - left
      invariant ok ==> forall name | name in obs ::
                  name != "" && IsEntryList(raw[name]) && obs[name] == EntriesIn(raw[name])
      invariant !ok ==> !ProperObservations(raw)
      decreases left
    {
      var name :| name in left;
      left := left - {name};
      if name == "" || !raw[name].List? {
        ok := false;
      } else {
        var entries;
        ok, entries := CopyEntries(raw[name].items);
        if ok {
          obs := obs[name := entries];
        }
      }
    }
  }

  /** `normalize_cto_json_document`. */
  method NormalizeDocument(doc: Dict) returns (r: Result<Normalized, Problem>)
    ensures r == Normalize(doc)
    ensures r.Success? <==> IsCtoDocument(doc)
    ensures r.Success? ==> ReadsDocument(doc, r.value) && InNormalForm(r.value.document)
  {
    NormalizesExactly(doc);
    hide ProperObservations, ObservationsIn, NormalDocument, IdentityOf, IsCtoDocument, ReadsDocument, InNormalForm;
    if Complaint(doc).Some? { return Failure(Complaint(doc).value); }
    var cto := Get(doc, "cto").fields;
    var p := Get(cto, "content_profile").fields;
    var ok, obs := CopyObservations(GetOr(cto, "observations", Obj(map[])).fields);
    if !ok { return Failure(NotObject); }
    if !GetOr(doc, "metadata", Obj(map[])).Obj? { return Failure(BadMetadata); }
    var profile := ProfileRef(Get(p, "id").s, Get(p, "version"));
    var content := Get(cto, "content").fields;
    var metadata := GetOr(doc, "metadata", Obj(map[])).fields;
    return Success(Normalized(NormalDocument(cto, profile, content, obs, metadata), profile, content, obs,
                              IdentityOf(cto), metadata));
  }
}
