/** A turn exported from one hub and asked for in another: the request, its import and the adoption in one call. */
module Transfers {
  import opened Wrappers
  import opened Json
  import opened Profiles
  import opened Ctos
  import opened Events
  import opened World
  import opened Invariants
  import opened Hub
  import opened History
  import opened Replay
  import opened Credentials
  import opened Operations
  import opened Adoption
  import opened Submissions
  import opened Imports
  import opened ShutdownOutcome
  import CtoJson

  /** A request for an export of this CTO that the hub lets in and the Archivist can serve. */
  ghost predicate Requests(cfg: Config, w: World, ev: PurposeEvent, outside: Outside, c: CTO, code: Option<string>,
                           metadata: Dict) {
    && Open(w) && cfg.imports && ev.payload.RequestCto? && ev.payload.session.Spelled? && ev.payload.kind == "cto_json"
    && ProperId(cfg, w, ev.id, true) && ev.token != PERSISTER_TOKEN && LetIn(cfg, w, ev)
    && outside.file.Some? && outside.file.value.document == CtoJson.Document(c, code, metadata)
    && RequestKey(ev.payload, outside.file.value) !in w.persister.handled
    && ProfileFor(cfg, c.profile).Some? && c.profile.id != ""
    && Validates(ProfileFor(cfg, c.profile).value, c.content, cfg.strict)
  }

  /** The request as the hub relays it. */
  function RelayedRequest(cfg: Config, w: World, ev: PurposeEvent): Payload
    requires ev.payload.RequestCto?
  {
    var p := ev.payload;
    RequestCto(p.session, p.kind, p.locator, ev.who, NameOf(cfg, w, ev.who), p.code, p.request)
  }

  /** The world in which the request has been recorded and the Archivist is asked. */
  function Asked(cfg: Config, w: World, ev: PurposeEvent): World {
    Do(cfg, Recorded(cfg, w, ev), Mint)
  }

  /** The Archivist's cto_imported, and the world in which it has been submitted. */
  function ImportEvent(cfg: Config, w: World, ev: PurposeEvent, outside: Outside): PurposeEvent
    requires ev.payload.RequestCto? && ev.payload.session.Spelled? && outside.file.Some?
    requires CtoJson.Normalize(outside.file.value.document).Success?
  {
    OwnEvent(cfg, Asked(cfg, w, ev), Some(ev.payload.session.sid),
             ImportedPayload(RelayedRequest(cfg, w, ev), outside.file.value))
  }

  function AfterSubmission(cfg: Config, w: World, ev: PurposeEvent, outside: Outside): World
    requires ev.payload.RequestCto? && ev.payload.session.Spelled? && outside.file.Some?
    requires CtoJson.Normalize(outside.file.value.document).Success?
  {
    SubmitOwn(cfg, Asked(cfg, w, ev), Some(ev.payload.session.sid),
              ImportedPayload(RelayedRequest(cfg, w, ev), outside.file.value)).w
  }

  /** The request is recorded and goes to the Archivist. */
  lemma ArchivistIsAsked(cfg: Config, w: World, ev: PurposeEvent, outside: Outside)
    requires Good(cfg, w) && NoFailedWrite(cfg) && Open(w) && ev.payload.RequestCto? && ev.payload.session.Spelled?
    requires ProperId(cfg, w, ev.id, true) && ev.token != PERSISTER_TOKEN && LetIn(cfg, w, ev)
    ensures var a := Asked(cfg, w, ev);
            && Good(cfg, a) && a.hub == w.hub && a.persister.handled == w.persister.handled
            && a.persister.log == w.persister.log + [PurposeRecord(ev)] && a.next == w.next + 1 && a.script == w.script
            && Receive(cfg, w, ev, true, outside) == PersisterImports(cfg, a, RelayedRequest(cfg, w, ev), outside)
  {
    hide Legal, Apply, Enabled, Resolve, NameOf, PersisterImports, Recorded, Handle;
    WritesSucceed(cfg, w);
    LetInIsRecorded(cfg, w, ev, outside);
    RecordedKeeps(cfg, w, ev);
    var u := Recorded(cfg, w, ev);
    MintIsEnabled(cfg, u);
    MintKeeps(cfg, u);
    RequestHandled(cfg, u, ev, outside);
  }

  /** The request is recorded, then the import; the hub is as it was. */
  lemma ImportIsSubmitted(cfg: Config, w: World, ev: PurposeEvent, outside: Outside, c: CTO, code: Option<string>,
                          metadata: Dict)
    requires Good(cfg, w) && NoFailedWrite(cfg) && Requests(cfg, w, ev, outside, c, code, metadata)
    requires CtoJson.Normalize(outside.file.value.document).Success?
    ensures var v, imported := AfterSubmission(cfg, w, ev, outside), ImportEvent(cfg, w, ev, outside);
            && Good(cfg, v) && v.hub == w.hub && ImportDue(cfg, v, imported)
            && v.next == w.next + 2 && v.script == w.script && imported.id == w.next + 1
            && v.persister.log == w.persister.log + [PurposeRecord(ev), PurposeRecord(imported)]
            && Receive(cfg, w, ev, true, outside) == HandleCtoImported(cfg, v, cfg.persister, imported, outside.now)
  {
    hide Legal, Apply, Enabled, LetIn, NameOf, SubmitOwn, HandleCtoImported, Receive, Asked, ImportDue;
    hide CtoJson.Normalize, CtoJson.Document, Validates;
    ArchivistIsAsked(cfg, w, ev, outside);
    var a, p := Asked(cfg, w, ev), RelayedRequest(cfg, w, ev);
    var imported := ImportedPayload(p, outside.file.value);
    ImportIsEnabled(cfg, a, Some(p.session.sid), imported);
    OwnEventAdmitted(cfg, a, Some(p.session.sid), imported);
    SubmittedIsDue(cfg, a, Some(p.session.sid), imported);
  }

  lemma RequestHandled(cfg: Config, u: World, ev: PurposeEvent, outside: Outside)
    requires ev.payload.RequestCto? && ev.payload.session.Spelled?
    ensures Handle(cfg, u, ev.who, ev, outside)
            == PersisterImports(cfg, Do(cfg, u, Mint), RelayedRequest(cfg, u, ev), outside)
  {
    hide Legal, Good, Apply, Enabled, PersisterImports, NameOf;
  }

  /** The turn is the one exported, with one provenance entry more, and whatever has been merged into it since. */
  ghost predicate Transferred(c: CTO, now: CTO, s: CtoJson.ImportSource) {
    exists first: CTO :: SameButProvenance(c, first, s) && TurnGrows(first, now)
  }

  /** What the hub holds at the end of the call, when the import's relay has led to `v`. */
  ghost predicate Arrived(cfg: Config, w: World, v: World, r: World, imported: PurposeEvent, c: CTO)
    requires imported.payload.CtoImported? && imported.payload.session.Spelled?
  {
    if imported.payload.session.sid in v.hub.owners || imported.payload.requester == cfg.owner
    then exists t :: t in r.hub.ctos && t !in w.hub.ctos && Transferred(c, r.hub.ctos[t], SourceOf(imported.payload))
    else r.hub.ctos == v.hub.ctos
  }

  /** A turn exported from any hub and asked for in another by a Purpose that may have its session is there when
      the call returns, provided that everyone takes the relay: the same profile and content, and the same
      observations plus one entry that remembers where it came from. If the requester may not have the session
      nothing is stored. */
  lemma TurnTravels(cfg: Config, w: World, ev: PurposeEvent, outside: Outside, c: CTO, code: Option<string>,
                    metadata: Dict)
    requires Good(cfg, w) && NoFailedWrite(cfg) && Requests(cfg, w, ev, outside, c, code, metadata)
    requires CtoJson.Normalize(outside.file.value.document).Success?
    requires Relay(cfg, AfterSubmission(cfg, w, ev, outside), ImportEvent(cfg, w, ev, outside)).out.Done?
    ensures var v := Relay(cfg, AfterSubmission(cfg, w, ev, outside), ImportEvent(cfg, w, ev, outside)).w;
            && Arrived(cfg, w, v, Receive(cfg, w, ev, true, outside).w, ImportEvent(cfg, w, ev, outside), c)
            && w.persister.log + [PurposeRecord(ev), PurposeRecord(ImportEvent(cfg, w, ev, outside))]
                 <= Receive(cfg, w, ev, true, outside).w.persister.log
  {
    hide Legal, Apply, Enabled, Receive, HandleCtoImported, Relay, AfterSubmission, LetIn, Resolve, NameOf;
    hide CtoJson.Normalize;
    hide CtoJson.Document, TurnGrows, SameButProvenance, Adopt, Grows, Reached;
    ImportIsSubmitted(cfg, w, ev, outside, c, code, metadata);
    var u, imported := AfterSubmission(cfg, w, ev, outside), ImportEvent(cfg, w, ev, outside);
    var v := Relay(cfg, u, imported).w;
    ImportOutcome(cfg, u, imported, outside.now);
    RelayKeepsTurns(cfg, u, imported);
    AdoptsExport(cfg, v, imported, outside.now, c, code, metadata, ev, outside, w);
  }

  lemma RelayKeepsTurns(cfg: Config, u: World, imported: PurposeEvent)
    requires Good(cfg, u) && ImportDue(cfg, u, imported)
    ensures forall t | t in u.hub.ctos :: t in Relay(cfg, u, imported).w.hub.ctos
  {
    hide Legal, Apply, Enabled, Multicast;
    BeginImportIsEnabled(cfg, u, imported);
    var u0 := Do(cfg, u, BeginImport(imported));
    HasInExtension(u.persister.log, u0.persister.log, imported.id);
    HistoryGrows(cfg, u, Relay(cfg, u, imported).w);
  }

  /** What is adopted from the import is the exported turn. */
  lemma AdoptsExport(cfg: Config, v: World, imported: PurposeEvent, now: int, c: CTO, code: Option<string>,
                     metadata: Dict,
                     ev: PurposeEvent, outside: Outside, w: World)
    requires Requests(cfg, w, ev, outside, c, code, metadata)
    requires CtoJson.Normalize(outside.file.value.document).Success? && imported == ImportEvent(cfg, w, ev, outside)
    ensures var r := AdoptedFrom(cfg, v, imported, now);
            r.Some? && SameButProvenance(c, r.value, SourceOf(imported.payload))
  {
    hide Legal, Apply, Enabled, LetIn, NameOf, CtoJson.Normalize, CtoJson.Document, SameButProvenance, Adopt, Validates;
    CtoJson.ExportNormalizes(c, code, metadata);
    AdoptExported(cfg, c, code, metadata, SourceOf(imported.payload), v.next + 1, imported.payload.session.sid, now,
                  v.next);
  }

  /** An export can be served if and only if nothing was merged into the turn under an empty namespace; if not, the
      request is recorded and refused, and the hub is as it was. */
  lemma EmptyNamespaceStays(cfg: Config, w: World, ev: PurposeEvent, outside: Outside, c: CTO, code: Option<string>,
                            metadata: Dict)
    requires Good(cfg, w) && NoFailedWrite(cfg) && Requests(cfg, w, ev, outside, c, code, metadata)
    ensures CtoJson.Normalize(outside.file.value.document).Success? <==> "" !in c.observations
    ensures var r := Receive(cfg, w, ev, true, outside);
            "" in c.observations ==>
              r.out == Raised(BadValue) && r.w.hub == w.hub
                && r.w.persister.log == w.persister.log + [PurposeRecord(ev)]
  {
    hide Legal, Apply, Enabled, LetIn, NameOf, CtoJson.Normalize, CtoJson.Document, Validates, Receive, Asked;
    CtoJson.ExportNormalizes(c, code, metadata);
    ArchivistIsAsked(cfg, w, ev, outside);
  }
}
