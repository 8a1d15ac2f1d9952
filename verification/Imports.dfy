/** CTO import over whole runs: at most once per request, and every reachable CTO can be exported and adopted again. */
module Imports {
  import opened Wrappers
  import opened Json
  import opened Profiles
  import opened Ctos
  import opened Events
  import opened World
  import opened Invariants
  import opened CtoJson
  import Text

  // ---------------------------------------------------------------- at most once

  predicate SubmitsImport(a: Act) {
    a.WriteOwn? && a.payload.CtoImported?
  }

  /** The keys submitted so far are remembered as handled, and no two submissions share one. */
  ghost predicate KeysOnce(w: World) {
    && (forall i | 0 <= i < |w.hist| && SubmitsImport(w.hist[i]) :: w.hist[i].payload.key in w.persister.handled)
    && (forall i, j | 0 <= i < j < |w.hist| && SubmitsImport(w.hist[i]) && SubmitsImport(w.hist[j]) ::
          w.hist[i].payload.key != w.hist[j].payload.key)
  }

  lemma HandledAfter(cfg: Config, w: World, a: Act)
    ensures Apply(cfg, w, a).hist == w.hist + [a]
    ensures Apply(cfg, w, a).persister.handled ==
              if SubmitsImport(a) then w.persister.handled + {a.payload.key} else w.persister.handled
    ensures Enabled(cfg, w, a) && SubmitsImport(a) ==> a.payload.key !in w.persister.handled
  {
  }

  /** Over any run, re-entrant requests included, at most one cto_imported is submitted per request key. */
  lemma {:induction false} ImportedAtMostOnce(cfg: Config, w: World)
    requires Legal(cfg, w)
    ensures KeysOnce(w)
    decreases |w.hist|
  {
    hide Legal, Enabled, Apply;
    if w.hist != [] {
      var p, a := Before(cfg, w);
      ImportedAtMostOnce(cfg, p);
      HandledAfter(cfg, p, a);
      forall i | 0 <= i < |w.hist| && SubmitsImport(w.hist[i])
        ensures w.hist[i].payload.key in w.persister.handled
      {
        assert i < |p.hist| ==> w.hist[i] == p.hist[i];
      }
    }
  }

  // ---------------------------------------------------------------- export and import again

  /** The profile of a stored turn is registered, and accepts its content if it is well behaved. */
  ghost predicate Acceptable(cfg: Config, c: CTO) {
    && ProfileFor(cfg, c.profile).Some?
    && (WellBehaved(ProfileFor(cfg, c.profile).value) ==>
          Validates(ProfileFor(cfg, c.profile).value, c.content, cfg.strict))
  }

  /** A delta merged into turn t under this namespace. */
  predicate MergesInto(a: Act, t: TurnId, name: string) {
    a.Merge? && a.delta.turn == t && a.delta.name == name
  }

  /** The namespaces are those seeded by an import and those named by a merged delta. */
  ghost predicate Named(w: World, t: TurnId)
    requires t in w.hub.ctos && t in w.seeds
  {
    forall name :: name in w.hub.ctos[t].observations <==>
      name in w.seeds[t] || exists i :: 0 <= i < |w.hist| && MergesInto(w.hist[i], t, name)
  }

  ghost predicate TurnsSound(cfg: Config, w: World) {
    && w.seeds.Keys == w.hub.ctos.Keys
    && (forall t | t in w.hub.ctos :: Acceptable(cfg, w.hub.ctos[t]) && "" !in w.seeds[t] && Named(w, t))
    && (forall i | 0 <= i < |w.hist| && w.hist[i].Merge? :: w.hist[i].delta.turn < w.next)
    && (forall t | t in w.hub.ctos :: t < w.next)
  }

  /** An action stores a new turn with the observations it is seeded with, or adds the namespace its delta names. */
  lemma NamesAfter(cfg: Config, w: World, a: Act, t: TurnId)
    requires t in w.hub.ctos ==> t in w.seeds
    requires t in w.hub.ctos ==> t < w.next
    requires Enabled(cfg, w, a) && t in Apply(cfg, w, a).hub.ctos
    ensures var w' := Apply(cfg, w, a);
            && w'.hist == w.hist + [a] && t in w'.seeds
            && if t in w.hub.ctos
               then && w'.seeds[t] == w.seeds[t]
                    && w'.hub.ctos[t].observations.Keys
                         == w.hub.ctos[t].observations.Keys
                            + (if a.Merge? && a.delta.turn == t then {a.delta.name} else {})
               else && a.StoreTurn? && w'.seeds[t] == w'.hub.ctos[t].observations && t == w.next + 1
  {
    hide RegsAfter, PurposesAfter, PersisterAfter, PendingAfter, WellBehaved, Validates;
  }

  lemma NamedStep(cfg: Config, w: World, a: Act, t: TurnId)
    requires TurnsSound(cfg, w) && Enabled(cfg, w, a) && t in Apply(cfg, w, a).hub.ctos
    ensures t in Apply(cfg, w, a).seeds && Named(Apply(cfg, w, a), t)
  {
    hide Apply, Enabled, Acceptable;
    NamesAfter(cfg, w, a, t);
    var w' := Apply(cfg, w, a);
    forall name
      ensures name in w'.hub.ctos[t].observations <==>
                name in w'.seeds[t] || exists i :: 0 <= i < |w'.hist| && MergesInto(w'.hist[i], t, name)
    {
      MergesAfter(w.hist, a, t, name);
      if t in w.hub.ctos {
        assert Named(w, t);
      } else {
        assert forall i | 0 <= i < |w.hist| :: !MergesInto(w.hist[i], t, name);
      }
    }
  }

  lemma MergesAfter(hist: seq<Act>, a: Act, t: TurnId, name: string)
    ensures (exists i :: 0 <= i < |hist + [a]| && MergesInto((hist + [a])[i], t, name)) <==>
              MergesInto(a, t, name) || exists i :: 0 <= i < |hist| && MergesInto(hist[i], t, name)
  {
    assert (hist + [a])[|hist|] == a;
    if i :| 0 <= i < |hist| && MergesInto(hist[i], t, name) { assert (hist + [a])[i] == hist[i]; }
  }

  /** What an action leaves of a stored turn. */
  lemma AcceptableAfter(cfg: Config, w: World, a: Act, t: TurnId)
    requires TurnsSound(cfg, w) && Enabled(cfg, w, a) && t in Apply(cfg, w, a).hub.ctos
    ensures var w' := Apply(cfg, w, a);
            && Acceptable(cfg, w'.hub.ctos[t]) && t in w'.seeds && "" !in w'.seeds[t] && t < w'.next
  {
    hide RegsAfter, PurposesAfter, PersisterAfter, PendingAfter, WellBehaved, Validates, Named;
  }

  lemma SeedKeysAfter(cfg: Config, w: World, a: Act)
    requires w.seeds.Keys == w.hub.ctos.Keys && Enabled(cfg, w, a)
    ensures Apply(cfg, w, a).seeds.Keys == Apply(cfg, w, a).hub.ctos.Keys
    ensures Apply(cfg, w, a).hist == w.hist + [a] && w.next <= Apply(cfg, w, a).next
    ensures a.Merge? ==> a.delta.turn in w.hub.ctos
  {
    hide RegsAfter, PurposesAfter, PersisterAfter, PendingAfter, WellBehaved, Validates;
  }

  lemma TurnsSoundStep(cfg: Config, w: World, a: Act)
    requires TurnsSound(cfg, w) && Enabled(cfg, w, a)
    ensures TurnsSound(cfg, Apply(cfg, w, a))
  {
    hide Apply, Enabled, Acceptable, Named;
    SeedKeysAfter(cfg, w, a);
    forall t | t in Apply(cfg, w, a).hub.ctos
      ensures t in Apply(cfg, w, a).seeds && Named(Apply(cfg, w, a), t)
      ensures Acceptable(cfg, Apply(cfg, w, a).hub.ctos[t]) && "" !in Apply(cfg, w, a).seeds[t]
              && t < Apply(cfg, w, a).next
    {
      NamedStep(cfg, w, a, t);
      AcceptableAfter(cfg, w, a, t);
    }
  }

  lemma {:induction false} TurnsAreSound(cfg: Config, w: World)
    requires Legal(cfg, w)
    ensures TurnsSound(cfg, w)
    decreases |w.hist|
  {
    hide Legal, Enabled, Apply, TurnsSound;
    if w.hist == [] {
      Beginning(cfg, w);
      NoTurnsYet(cfg);
    } else {
      var p, a := Before(cfg, w);
      TurnsAreSound(cfg, p);
      TurnsSoundStep(cfg, p, a);
    }
  }

  lemma NoTurnsYet(cfg: Config)
    ensures TurnsSound(cfg, Init(cfg))
  {
  }

  /** What an import of a document makes of it: the hub's own checks, then the adopted CTO. */
  function Adopt(cfg: Config, doc: Dict, s: ImportSource, turn: TurnId, session: SessionId, now: int, id: EventId):
    Option<CTO>
  {
    if Normalize(doc).Failure? then None
    else
      var n := Normalize(doc).value;
      if ProfileFor(cfg, n.profile).None? then None
      else if !Validates(ProfileFor(cfg, n.profile).value, n.content, cfg.strict) then None
      else Some(CTO(turn, session, now, n.profile, n.content, Adopted(n, s), Some(id)))
  }

  /** An adopted CTO is the exported one in profile and content, and in observations but for one provenance entry at the
      end, which holds the identity it had and where it came from. */
  ghost predicate SameButProvenance(c: CTO, r: CTO, s: ImportSource) {
    && r.profile == c.profile && r.content == c.content
    && r.observations.Keys == c.observations.Keys + {PROVENANCE}
    && (forall name | name in c.observations && name != PROVENANCE :: r.observations[name] == c.observations[name])
    && (exists entry: Dict ::
        r.observations[PROVENANCE] == Namespace(c.observations, PROVENANCE) + [entry] && Recalls(entry, c, s))
  }

  ghost predicate Recalls(entry: Dict, c: CTO, s: ImportSource) {
    && GetPath(Obj(entry), ["value", "historical", "identity", "turn_id"]) == Str(Text.Decimal(c.turn))
    && GetPath(Obj(entry), ["value", "historical", "identity", "session_id"]) == Str(Text.Decimal(c.session))
    && GetPath(Obj(entry), ["value", "historical", "identity", "created_at_ms"]) == Int(c.createdAt)
    && TellsSource(entry, s)
  }

  /** The entry says that it is of an import, which file it came from, and who asked for it. */
  ghost predicate TellsSource(entry: Dict, s: ImportSource) {
    && GetPath(Obj(entry), ["key"]) == Str("import")
    && GetPath(Obj(entry), ["value", "source", "kind"]) == Str(s.kind)
    && GetPath(Obj(entry), ["value", "source", "locator"]) == Str(s.locator)
    && GetPath(Obj(entry), ["value", "source", "content_hash"]) == Str(s.hash)
    && GetPath(Obj(entry), ["value", "request", "request_id"]) == Str(s.request)
    && GetPath(Obj(entry), ["value", "request", "requested_by_purpose_id"]) == Str(Text.Decimal(s.requester))
    && GetPath(Obj(entry), ["value", "request", "requested_by_purpose_name"]) == Str(s.requesterName)
  }

  /** It holds identity and metadata of the document. */
  ghost predicate TellsHistory(entry: Dict, n: Normalized) {
    && GetPath(Obj(entry), ["value", "historical", "identity"]) == Obj(n.identity)
    && GetPath(Obj(entry), ["value", "historical", "metadata"]) == Obj(n.metadata)
  }

  /** A registered profile of that id and version; a bool counts as the int it equals. */
  ghost predicate IsProfileFor(cfg: Config, ref: ProfileRef, p: Profile) {
    exists version: int ::
      && (ref.version == Int(version) || (ref.version == Bool(true) && version == 1)
          || (ref.version == Bool(false) && version == 0))
      && (ref.id, version) in cfg.registry && cfg.registry[(ref.id, version)] == p
  }

  lemma ProfileForExactly(cfg: Config, ref: ProfileRef)
    ensures forall p :: ProfileFor(cfg, ref) == Some(p) <==> IsProfileFor(cfg, ref, p)
  {
    forall p
      ensures ProfileFor(cfg, ref) == Some(p) <==> IsProfileFor(cfg, ref, p)
    {
      match ref.version
      case Int(i) => assert ProfileFor(cfg, ref) == Some(p) ==> (ref.id, i) in cfg.registry;
      case Bool(b) => assert ProfileFor(cfg, ref) == Some(p) ==> (ref.id, if b then 1 else 0) in cfg.registry;
      case _ =>
    }
  }

  /** The document is a CTO document whose profile is registered and takes its content. */
  ghost predicate IsAdoptable(cfg: Config, doc: Dict) {
    && IsCtoDocument(doc)
    && var cto := doc["cto"].fields;
    var profile := cto["content_profile"].fields;
    exists p :: IsProfileFor(cfg, ProfileRef(profile["id"].s, profile["version"]), p)
                && Conforms(p, cto["content"].fields, cfg.strict)
  }

  /** The adopted CTO has profile, content and observations of the document, and at the end of the provenance one entry
      more, which tells where the document came from, who asked for it, and what it said of itself. */
  ghost predicate IsAdoption(doc: Dict, s: ImportSource, r: CTO, n: Normalized)
    requires IsCtoDocument(doc)
  {
    && ReadsDocument(doc, n) && r.profile == n.profile && r.content == n.content
    && r.observations.Keys == n.observations.Keys + {"turnturnturn.provenance"}
    && (forall name | name in n.observations && name != "turnturnturn.provenance" ::
          r.observations[name] == n.observations[name])
    && exists entry: Dict ::
         && r.observations["turnturnturn.provenance"]
              == (if "turnturnturn.provenance" in n.observations then n.observations["turnturnturn.provenance"] else [])
                 + [entry]
         && TellsSource(entry, s) && TellsHistory(entry, n)
  }

  /** Exactly which documents the hub adopts, and as what. */
  lemma AdoptsExactly(cfg: Config, doc: Dict, s: ImportSource, turn: TurnId, session: SessionId, now: int, id: EventId)
    ensures var r := Adopt(cfg, doc, s, turn, session, now, id);
            && (r.Some? <==> IsAdoptable(cfg, doc))
            && (r.Some? ==>
                  && r.value.turn == turn && r.value.session == session && r.value.createdAt == now
                  && r.value.lastEvent == Some(id)
                  && exists n :: IsAdoption(doc, s, r.value, n))
  {
    hide Normalize, Validates, Conforms, ProfileFor, IsProfileFor, IsCtoDocument, TellsSource, TellsHistory;
    hide ImportEntry;
    NormalizesExactly(doc);
    if Normalize(doc).Success? {
      var n := Normalize(doc).value;
      ProfileForExactly(cfg, n.profile);
      if ProfileFor(cfg, n.profile).Some? {
        ValidatesExactly(ProfileFor(cfg, n.profile).value, n.content, cfg.strict);
      }
      EntryTells(n, s);
      assert Adopted(n, s)[PROVENANCE] == Namespace(n.observations, PROVENANCE) + [ImportEntry(n, s)];
      if Adopt(cfg, doc, s, turn, session, now, id).Some? {
        assert IsAdoption(doc, s, Adopt(cfg, doc, s, turn, session, now, id).value, n);
      }
    }
  }

  /** What the hub asks of a CTO it is to adopt: its profile is registered under an id that is not empty, and accepts
      the content. */
  predicate Admissible(cfg: Config, c: CTO) {
    && ProfileFor(cfg, c.profile).Some? && c.profile.id != ""
    && Validates(ProfileFor(cfg, c.profile).value, c.content, cfg.strict)
  }

  lemma AdoptExported(cfg: Config, c: CTO, code: Option<string>, metadata: Dict, s: ImportSource,
                      turn: TurnId, session: SessionId, now: int, id: EventId)
    ensures var r := Adopt(cfg, Document(c, code, metadata), s, turn, session, now, id);
            && (r.Some? <==> Admissible(cfg, c) && "" !in c.observations)
            && (r.Some? ==> SameButProvenance(c, r.value, s))
  {
    hide Document, Normalize, Validates, Recalls, ImportEntry, IdentityOf;
    ExportNormalizes(c, code, metadata);
    if Admissible(cfg, c) && "" !in c.observations {
      var n := Normalize(Document(c, code, metadata)).value;
      EntryHoldsIdentity(c, n, s);
      assert Adopted(n, s)[PROVENANCE] == Namespace(c.observations, PROVENANCE) + [ImportEntry(n, s)];
    }
  }

  /** Every CTO a hub can reach can be exported and imported again exactly when its profile's id is not empty, that
      profile accepts its content, which a well-behaved profile always does, and no delta was merged into it under an
      empty namespace; what is adopted is then the same turn plus provenance. */
  lemma ExportImportRoundTrip(cfg: Config, w: World, t: TurnId, code: Option<string>, metadata: Dict, s: ImportSource,
                              turn: TurnId, session: SessionId, now: int, id: EventId)
    requires Legal(cfg, w) && t in w.hub.ctos
    ensures var c, r := w.hub.ctos[t], Adopt(cfg, Document(w.hub.ctos[t], code, metadata), s, turn, session, now, id);
            && ProfileFor(cfg, c.profile).Some?
            && (r.Some? <==>
                  && c.profile.id != "" && Validates(ProfileFor(cfg, c.profile).value, c.content, cfg.strict)
                  && forall i | 0 <= i < |w.hist| :: !MergesInto(w.hist[i], t, ""))
            && (WellBehaved(ProfileFor(cfg, c.profile).value) ==>
                  Validates(ProfileFor(cfg, c.profile).value, c.content, cfg.strict))
            && (r.Some? ==> SameButProvenance(c, r.value, s))
  {
    hide Legal, WellBehaved, Adopt, SameButProvenance, Validates;
    TurnsAreSound(cfg, w);
    var c := w.hub.ctos[t];
    assert "" in c.observations <==> exists i :: 0 <= i < |w.hist| && MergesInto(w.hist[i], t, "") by {
      assert Named(w, t);
    }
    AdoptExported(cfg, c, code, metadata, s, turn, session, now, id);
  }

  lemma EntryHoldsIdentity(c: CTO, n: Normalized, s: ImportSource)
    requires "turn_id" in n.identity && n.identity["turn_id"] == Str(Text.Decimal(c.turn))
    requires "session_id" in n.identity && n.identity["session_id"] == Str(Text.Decimal(c.session))
    requires "created_at_ms" in n.identity && n.identity["created_at_ms"] == Int(c.createdAt)
    ensures Recalls(ImportEntry(n, s), c, s)
  {
    hide ImportEntry, TellsSource;
    EntryTells(n, s);
    var e := Obj(ImportEntry(n, s));
    GetPathSplit(e, ["value", "historical", "identity"], ["turn_id"]);
    GetPathSplit(e, ["value", "historical", "identity"], ["session_id"]);
    GetPathSplit(e, ["value", "historical", "identity"], ["created_at_ms"]);
    assert ["value", "historical", "identity"] + ["turn_id"] == ["value", "historical", "identity", "turn_id"];
    assert ["value", "historical", "identity"] + ["session_id"] == ["value", "historical", "identity", "session_id"];
    assert ["value", "historical", "identity"] + ["created_at_ms"]
        == ["value", "historical", "identity", "created_at_ms"];
    GetPathStep(Obj(n.identity), ["turn_id"]);
    GetPathStep(Obj(n.identity), ["session_id"]);
    GetPathStep(Obj(n.identity), ["created_at_ms"]);
  }

  lemma {:induction false} GetPathSplit(v: Value, path: seq<string>, rest: seq<string>)
    requires rest != []
    ensures GetPath(v, path + rest) == GetPath(GetPath(v, path), rest)
    decreases path
  {
    if path == [] {
      assert path + rest == rest;
    } else {
      assert (path + rest)[0] == path[0] && (path + rest)[1..] == path[1..] + rest;
      if v.Obj? { GetPathSplit(Get(v.fields, path[0]), path[1..], rest); }
    }
  }

  lemma TwoKeys(v: Value, a: string, b: string)
    ensures GetPath(v, [a, b]) == if v.Obj? && Get(v.fields, a).Obj? then Get(Get(v.fields, a).fields, b) else Null
  {
    assert [a, b][1..] == [b];
    if v.Obj? { OneKey(Get(v.fields, a), b); }
  }

  lemma ThreeKeys(v: Value, a: string, b: string, c: string)
    ensures GetPath(v, [a, b, c]) == GetPath(GetPath(v, [a]), [b, c])
  {
    assert [a] + [b, c] == [a, b, c];
    GetPathSplit(v, [a], [b, c]);
  }

  lemma OneKey(v: Value, a: string)
    ensures GetPath(v, [a]) == if v.Obj? then Get(v.fields, a) else Null
  {
    assert [a][1..] == [];
  }

  lemma EntryTells(n: Normalized, s: ImportSource)
    ensures TellsSource(ImportEntry(n, s), s) && TellsHistory(ImportEntry(n, s), n)
  {
    hide GetPath;
    var entry := ImportEntry(n, s);
    var e, value := Obj(entry), entry["value"];
    OneKey(e, "key");
    OneKey(e, "value");
    ThreeKeys(e, "value", "source", "kind");
    ThreeKeys(e, "value", "source", "locator");
    ThreeKeys(e, "value", "source", "content_hash");
    ThreeKeys(e, "value", "request", "request_id");
    ThreeKeys(e, "value", "request", "requested_by_purpose_id");
    ThreeKeys(e, "value", "request", "requested_by_purpose_name");
    ThreeKeys(e, "value", "historical", "identity");
    ThreeKeys(e, "value", "historical", "metadata");
    TwoKeys(value, "source", "kind");
    TwoKeys(value, "source", "locator");
    TwoKeys(value, "source", "content_hash");
    TwoKeys(value, "request", "request_id");
    TwoKeys(value, "request", "requested_by_purpose_id");
    TwoKeys(value, "request", "requested_by_purpose_name");
    TwoKeys(value, "historical", "identity");
    TwoKeys(value, "historical", "metadata");
  }

  lemma GetPathStep(v: Value, path: Path)
    requires v.Obj?
    ensures GetPath(v, path) == GetPath(Get(v.fields, path[0]), path[1..])
  {
  }
}
