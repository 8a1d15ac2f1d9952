/** What becomes of a request for a CTO, told field by field: the persister's cto_imported and the adopted turn. */
module Answers {
  import opened Wrappers
  import opened Json
  import opened Profiles
  import opened Ctos
  import opened Events
  import opened World
  import opened Invariants
  import opened Hub
  import opened History
  import opened Codes
  import opened Operations
  import opened Imports
  import opened Adoption
  import opened Starts
  import CtoJson

  // ---------------------------------------------------------------- the persister's answer

  /** What a request is remembered by: the id it brings, or else kind, file and hash. */
  predicate IsKeyOf(p: Payload, f: File, key: string)
    requires p.RequestCto?
  {
    p.request == Some(key) || (p.request.None? && key == "cto_json:" + p.locator + ":" + f.hash)
  }

  predicate HandledBefore(w: World, p: Payload, f: File)
    requires p.RequestCto?
  {
    exists key :: key in w.persister.handled && IsKeyOf(p, f, key)
  }

  /** cto_imported as it answers a request. */
  ghost predicate AnswersIt(p: Payload, f: File, q: Payload)
    requires p.RequestCto?
  {
    && q.CtoImported? && q.session == p.session && q.kind == "cto_json" && q.locator == p.locator && q.hash == f.hash
    && q.requester == p.requester && q.requesterName == p.requesterName && q.code == p.code && IsKeyOf(p, f, q.key)
    && CtoJson.Normalize(f.document).Success? && q.document == CtoJson.Normalize(f.document).value.document
  }

  /** The persister's next record, in its own name. */
  ghost predicate PersisterWrites(cfg: Config, w: World, v: World, sid: SessionId, q: Payload) {
    && |w.persister.log| < |v.persister.log|
    && v.persister.log[|w.persister.log|]
         == Record(FromPurpose(cfg.persister, cfg.persisterName), w.next, Some(sid), None, q)
  }

  /** A request is answered exactly if the persister is an Archivist, the file is there and is a CTO document, and
      nothing has been imported under the request's key before; the last case is passed over in silence, the others are
      errors, and none of them leaves a trace. */
  lemma RequestAnswered(cfg: Config, w: World, p: Payload, outside: Outside)
    requires Good(cfg, w) && Open(w) && p.RequestCto? && p.session.Spelled? && WriteOk(w)
    ensures var r := PersisterImports(cfg, w, p, outside);
            if !cfg.imports || p.kind != "cto_json" then r == Res(w, Raised(NotSupported))
            else if outside.file.None? then r == Res(w, Raised(NoFile))
            else if HandledBefore(w, p, outside.file.value) then r == Res(w, Ok)
            else if !CtoJson.IsCtoDocument(outside.file.value.document) then r == Res(w, Raised(BadValue))
            else exists q :: AnswersIt(p, outside.file.value, q) && PersisterWrites(cfg, w, r.w, p.session.sid, q)
  {
    hide Legal, Apply, Enabled, SubmitImport, CtoJson.Normalize, CtoJson.IsCtoDocument;
    if cfg.imports && p.kind == "cto_json" && outside.file.Some? {
      var f := outside.file.value;
      KeyIsKey(p, f);
      CtoJson.NormalizesExactly(f.document);
      RequestImportOutcome(cfg, w, p, outside);
      if Importable(cfg, w, p, outside) { assert AnswersIt(p, f, ImportedPayload(p, f)); }
    }
  }

  lemma KeyIsKey(p: Payload, f: File)
    requires p.RequestCto? && p.kind == "cto_json"
    ensures forall key :: IsKeyOf(p, f, key) <==> key == RequestKey(p, f)
  {
    assert "cto_json" + ":" == "cto_json:";
  }

  // ---------------------------------------------------------------- the hub's adoption

  /** The turn adopted from the document, in the requester's name, as it was when everyone was told. */
  ghost predicate IsAdopted(v: World, p: Payload, now: int, c: CTO, n: CtoJson.Normalized)
    requires p.CtoImported? && p.session.Spelled? && CtoJson.IsCtoDocument(p.document)
  {
    && c.turn == v.next + 1 && c.session == p.session.sid && c.createdAt == now && c.lastEvent == Some(v.next)
    && IsAdoption(p.document,
                  CtoJson.ImportSource(p.kind, p.locator, p.hash, p.key, p.requester, p.requesterName), c, n)
  }

  /** It is stored and told of, from the world the import's relay has led to. */
  ghost predicate Stored(v: World, p: Payload, now: int, c: CTO, r: Res)
    requires p.CtoImported? && p.session.Spelled?
  {
    var t, sid := v.next + 1, p.session.sid;
    && t !in v.hub.ctos && t in r.w.hub.ctos && TurnGrows(c, r.w.hub.ctos[t])
    && (WriteOk(v) ==>
          && |v.persister.log| < |r.w.persister.log|
          && r.w.persister.log[|v.persister.log|]
               == Record(FromHub, v.next, Some(sid), Some(t),
                         CtoStarted(CTOIndex(t, sid, c.profile, now, Some(v.next)), p.requester, p.requesterName)))
    && (p.code.Some? ==> Coded(v, r.w, sid, p.code))
  }

  /** Adopted, or refused without a trace. */
  ghost predicate AdoptedOrNot(cfg: Config, v: World, p: Payload, now: int, r: Res)
    requires p.CtoImported? && p.session.Spelled?
  {
    if IsAdoptable(cfg, p.document) && (p.session.sid in v.hub.owners || p.requester == cfg.owner)
    then exists c, n :: IsAdopted(v, p, now, c, n) && Stored(v, p, now, c, r)
    else r.out.Raised? && r.w.hub.ctos == v.hub.ctos && r.w.persister.log == v.persister.log
  }

  lemma AdoptionIsCoded(cfg: Config, v: World, ev: PurposeEvent, now: int)
    requires Good(cfg, v) && Innermost(v, ev) && AdoptedFrom(cfg, v, ev, now).Some? && ev.payload.code.Some?
    requires ev.payload.session.sid in v.hub.owners || ev.payload.requester == cfg.owner
    ensures Coded(v, SettleImport(cfg, v, ev, now).w, ev.payload.session.sid, ev.payload.code)
  {
    hide Legal, Apply, Enabled, EnsureOwner, Abandon, Validates, CtoJson.Normalize, CtoJson.Adopted, Coded;
    hide WriteAndMulticast;
    var p := ev.payload;
    OwnerEnsured(cfg, v, p.session.sid, p.requester, Some(ev));
    var u, s := EnsureOwner(cfg, v, p.session.sid, p.requester, Some(ev)).w, AdoptedSeed(ev, now);
    assert SettleImport(cfg, v, ev, now) == AcceptNewCto(cfg, u, s);
    assert AcceptNewCto(cfg, u, s) == WriteAndMulticast(cfg, u, StoreTurn(s), Some(u.next + 1));
    StoredNext(cfg, u, s);
    var x := SettleImport(cfg, v, ev, now).w;
    assert x.hist[|u.hist|] == StoreTurn(s);
    CodeStands(cfg, v, x, |u.hist|, p.session.sid, p.code);
  }

  /** `_handle_cto_imported`: everyone hears of the import first; then it is adopted exactly if its document is a CTO
      document of a registered profile that takes its content, in a session that has an owner or that the requester may
      own. The turn has what the document says, the session has the request's code, and cto_started is in the
      requester's name. */
  lemma ImportExactly(cfg: Config, w: World, ev: PurposeEvent, now: int)
    requires Good(cfg, w) && ImportDue(cfg, w, ev) && Relay(cfg, w, ev).out.Done?
    ensures var v := Relay(cfg, w, ev).w;
            && |w.deliveries| <= |v.deliveries|
            && Reached(v.deliveries[|w.deliveries|..], HubEvent(ev.id, ev.session, None, ev.payload),
                       Recipients(w.hub.regs))
            && AdoptedOrNot(cfg, v, ev.payload, now, HandleCtoImported(cfg, w, cfg.persister, ev, now))
  {
    hide Legal, Apply, Enabled, Multicast, Reached, Grows, SettleImport, AdoptedOrRefused, Relay, AdoptedOrNot;
    ImportOutcome(cfg, w, ev, now);
    RelayedImport(cfg, w, ev, now);
    SettledExactly(cfg, Relay(cfg, w, ev).w, ev, now);
  }

  lemma RelayedImport(cfg: Config, w: World, ev: PurposeEvent, now: int)
    requires Good(cfg, w) && ImportDue(cfg, w, ev) && Relay(cfg, w, ev).out.Done?
    ensures var v := Relay(cfg, w, ev).w;
            && HandleCtoImported(cfg, w, cfg.persister, ev, now) == SettleImport(cfg, v, ev, now)
            && Good(cfg, v) && Innermost(v, ev) && Relayed(ev) == HubEvent(ev.id, ev.session, None, ev.payload)
  {
    hide Legal, Apply, Enabled, Multicast, SettleImport;
    BeginImportIsEnabled(cfg, w, ev);
    HasInExtension(w.persister.log, Do(cfg, w, BeginImport(ev)).persister.log, ev.id);
  }

  lemma SettledExactly(cfg: Config, v: World, ev: PurposeEvent, now: int)
    requires Good(cfg, v) && Innermost(v, ev)
    ensures AdoptedOrNot(cfg, v, ev.payload, now, SettleImport(cfg, v, ev, now))
  {
    hide Legal, Apply, Enabled, SettleImport, IsAdoption, IsAdoptable, Adopt, Coded, TurnGrows, CtoJson.IsCtoDocument;
    var p := ev.payload;
    SettleOutcome(cfg, v, ev, now);
    AdoptsExactly(cfg, p.document, SourceOf(p), v.next + 1, p.session.sid, now, v.next);
    var c := AdoptedFrom(cfg, v, ev, now);
    if c.Some? && (p.session.sid in v.hub.owners || p.requester == cfg.owner) {
      assert CtoJson.IsCtoDocument(p.document) by { AdoptableIsDocument(cfg, p.document); }
      var n :| IsAdoption(p.document, SourceOf(p), c.value, n);
      assert IsAdopted(v, p, now, c.value, n);
      if p.code.Some? { AdoptionIsCoded(cfg, v, ev, now); }
      assert Stored(v, p, now, c.value, SettleImport(cfg, v, ev, now));
    }
  }

  lemma AdoptableIsDocument(cfg: Config, doc: Dict)
    requires IsAdoptable(cfg, doc)
    ensures CtoJson.IsCtoDocument(doc)
  {
  }
}
