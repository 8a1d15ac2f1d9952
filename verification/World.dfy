/**
 The state of one hub with its Purposes and persister, and the atomic actions that change it.

 Between two callbacks the runtime never suspends, so what happens there is one action: storing a CTO and writing its
 event, for instance. `Enabled` says when an action may happen; a `Legal` world is one reached from the bootstrapped
 hub by enabled actions, all of which its history lists. Everything proved of every legal world holds at every point of
 every run, also in the middle of nested calls.
 */
module World {
  import opened Wrappers
  import opened Json
  import opened Profiles
  import opened Ctos
  import opened Events
  import CtoJson

  // ---------------------------------------------------------------- what callers and handlers do

  /** What a file request finds: no file, or a JSON object with its content hash. */
  datatype File = File(hash: string, document: Dict)

  /** The outside facts one call may need: the clock and the file a request names. */
  datatype Outside = Outside(now: int, file: Option<File>)

  /** An event id is minted for the event, or one already seen is presented again. */
  datatype IdRef = New | Seen(id: EventId)

  datatype Call =
    | StartTurn(profile: string, version: int, content: Dict, token: Token, session: Option<SessionId>,
                code: Option<string>)
    | TakeTurn(id: IdRef, who: PurposeId, name: string, token: Token, session: Option<SessionId>, payload: Payload)
    | StartPurpose(who: PurposeId)
    | Close(why: string)
    | CompleteClosing(who: PurposeId, sid: SidText, why: string)
    | RequestEnd(who: PurposeId, sid: SidText, why: string)
    | AskForCto(who: PurposeId, sid: SidText, kind: string, locator: string, code: Option<string>,
                request: Option<string>)
    | Announce(who: PurposeId)

  /** One call a handler makes, and whether it catches what that call raises. */
  datatype Step = Step(call: Call, outside: Outside, catches: bool)

  /** What a Purpose does with one delivered event: the base-class default, or calls of its own and possibly an
      error. */
  datatype Reaction = ByDefault | ByHandler(steps: seq<Step>, raises: bool)

  // ---------------------------------------------------------------- configuration

  /** Fixed facts of a run: the startup Purposes, the persister's kind, the registries, and what the environment will
      do. `script` lists the reactions to successive deliveries and `writes` the outcomes of successive log writes;
      past their ends, reactions are the default and writes succeed. `freshIds` says that callers never present an
      event id twice. */
  datatype Config = Config(
    owner: PurposeId, persister: PurposeId, persisterName: string, names: map<PurposeId, string>,
    durable: bool, dedupes: bool, imports: bool, strict: bool, freshIds: bool,
    registry: map<(string, int), Profile>, custom: map<string, bool>,
    script: seq<Reaction>, writes: seq<bool>)

  predicate ValidConfig(cfg: Config) {
    cfg.owner in cfg.names && cfg.persister !in cfg.names
  }

  const PERSISTER_TOKEN: Token := 0

  /** `ProfileRegistry.get`: a bool version finds the profile of the equal int. */
  function ProfileFor(cfg: Config, p: ProfileRef): Option<Profile> {
    var version := match p.version case Int(i) => i case Bool(b) => (if b then 1 else 0) case _ => -1;
    if (p.version.Int? || p.version.Bool?) && (p.id, version) in cfg.registry then Some(cfg.registry[(p.id, version)])
    else None
  }

  // ---------------------------------------------------------------- state

  /** The downlink signature is a keyed digest of token and id. */
  datatype Signature = Digest(token: Token, who: PurposeId)

  datatype Credentials = Credentials(token: Token, signature: Signature)

  function Issue(token: Token, who: PurposeId): Credentials {
    Credentials(token, Digest(token, who))
  }

  datatype PurposeState = PurposeState(
    name: string, creds: Option<Credentials>, acked: set<SidText>, requested: set<SidText>, announced: bool)

  datatype Registration = Registration(who: PurposeId, creds: Credentials)

  datatype HubState = HubState(
    regs: seq<Registration>, ctos: map<TurnId, CTO>, contexts: map<SessionId, Dict>,
    owners: map<SessionId, PurposeId>, codes: map<SessionId, string>, pending: map<SessionId, set<PurposeId>>,
    closing: bool, closingId: Option<SessionId>, closed: bool, closedId: Option<SessionId>)

  datatype PersisterState = PersisterState(log: seq<Record>, acked: set<SidText>, handled: set<string>)

  /** A delivered envelope, and how long the log was when it was delivered. */
  datatype Delivery = Delivery(to: PurposeId, creds: Credentials, event: HubEvent, logged: nat)

  /** History of a shutdown: who was registered when it began, whose acknowledgement has been admitted and written
      since, how often the all-clear was attempted and written, and the completions written. */
  datatype Closure = Closure(
    sid: SessionId, at: set<PurposeId>, acknowledged: set<PurposeId>, pendings: nat, announced: bool, completions: nat)

  /** `deliveries`, `accepted`, `closure`, `seeds`, `importing`, `owed` and `hist` only record what happened; no
      operation branches on them. `importing` lists the imports whose relay has begun and that are not settled yet,
      innermost last. `owed` is the step that follows from the last one without a callback in between. */
  datatype World = World(
    hub: HubState, purposes: map<PurposeId, PurposeState>, persister: PersisterState, next: nat,
    script: seq<Reaction>, writes: seq<bool>,
    deliveries: seq<Delivery>, accepted: seq<EventId>, closure: Option<Closure>, seeds: map<TurnId, Observations>,
    importing: seq<PurposeEvent>, owed: Option<Act>, hist: seq<Act>)

  /** A hub after `TTT.start` has bound the persister and registered the owner, who has yet to announce itself. */
  function Init(cfg: Config): World {
    var started := Record(FromPurpose(cfg.persister, cfg.persisterName), 2, None, None, SessionStarted);
    var joined := Record(FromPurpose(cfg.persister, cfg.persisterName), 3, None, None,
                         PurposeStarted(cfg.persister, cfg.persisterName, true));
    var creds := Issue(1, cfg.owner);
    World(
      HubState([Registration(cfg.owner, creds)], map[], map[], map[], map[], map[], false, None, false, None),
      map p | p in cfg.names ::
        PurposeState(cfg.names[p], if p == cfg.owner then Some(creds) else None, {}, {}, false),
      PersisterState((if cfg.durable then [started] else []) + [joined], {}, {}),
      4, cfg.script, cfg.writes, [], [], None, map[], [], None, [])
  }

  // ---------------------------------------------------------------- reading the state

  predicate Open(w: World) {
    !w.hub.closing && !w.hub.closed
  }

  /** `_ensure_accepting_event`: while closing only shutdown events pass, once closed none. */
  predicate Accepts(w: World, p: Payload) {
    && !w.hub.closed
    && (w.hub.closing ==> p.RequestSessionEnd? || p.PurposeCompleted? || p.SessionCompleted?)
  }

  /** The registrations holding a token, by the linear scan the hub makes. */
  function Matches(regs: seq<Registration>, token: Token): seq<PurposeId> {
    if regs == [] then []
    else (if regs[0].creds.token == token then [regs[0].who] else []) + Matches(regs[1..], token)
  }

  /** `_resolve_registration_for_token_all`: exactly one match among registrations and persister. */
  function Resolve(cfg: Config, w: World, token: Token): Option<PurposeId> {
    var ms := Matches(w.hub.regs, token) + (if token == PERSISTER_TOKEN then [cfg.persister] else []);
    if |ms| == 1 then Some(ms[0]) else None
  }

  function NameOf(cfg: Config, w: World, who: PurposeId): string {
    if who == cfg.persister then cfg.persisterName
    else if who in w.purposes then w.purposes[who].name
    else ""
  }

  /** `_session_context`. */
  function ContextOf(w: World, sid: SessionId): Dict {
    if sid in w.hub.contexts then w.hub.contexts[sid] else map[]
  }

  function CodeOf(w: World, sid: SessionId): Option<string> {
    if sid in w.hub.codes then Some(w.hub.codes[sid]) else None
  }

  /** The last record is the persister's session_completed. */
  predicate EndsWithCompletion(cfg: Config, log: seq<Record>) {
    |log| > 0 && IsCompletion(cfg, log[|log| - 1])
  }

  predicate IsCompletion(cfg: Config, r: Record) {
    r.payload.SessionCompleted? && r.origin == FromPurpose(cfg.persister, cfg.persisterName)
  }

  predicate WriteOk(w: World) {
    |w.writes| == 0 || w.writes[0]
  }

  /** `write_event`: an in-memory persister drops an id it already has. */
  function Append(cfg: Config, log: seq<Record>, r: Record): seq<Record> {
    if cfg.dedupes && Has(log, r.id) then log else log + [r]
  }

  function PositionOf(regs: seq<Registration>, who: PurposeId): (i: nat)
    ensures i <= |regs|
    ensures i < |regs| ==> regs[i].who == who
    ensures forall j | 0 <= j < i :: regs[j].who != who
  {
    if regs == [] || regs[0].who == who then 0 else 1 + PositionOf(regs[1..], who)
  }

  /** `registrations[purpose.id] = reg`: a key keeps its place when it is set again. */
  function Upsert(regs: seq<Registration>, r: Registration): seq<Registration> {
    var i := PositionOf(regs, r.who);
    if i < |regs| then regs[i := r] else regs + [r]
  }

  function Registered(w: World): set<PurposeId> {
    set i | 0 <= i < |w.hub.regs| :: w.hub.regs[i].who
  }

  // ---------------------------------------------------------------- actions

  /** The parts of a new CTO, and the import it is adopted from, if it is. */
  datatype Seed = Seed(
    session: SessionId, code: Option<string>, profile: ProfileRef, content: Dict, observations: Observations,
    byId: PurposeId, byName: string, now: int, source: Option<PurposeEvent>)

  datatype Act =
    | Mint
    | Register(who: PurposeId)
    | MarkAnnounced(who: PurposeId)
    | MarkAcked(who: PurposeId, text: SidText)
    | MarkRequested(who: PurposeId, text: SidText)
    | SetContext(sid: SessionId, ctx: Dict, used: ProfileRef, given: Dict)
    | Own(sid: SessionId, who: PurposeId, source: Option<PurposeEvent>)
    | StoreTurn(seed: Seed)
    | Ingest(event: PurposeEvent, minted: bool)
    | AcceptOwn(id: EventId)
    | Merge(delta: Delta)
    | Reject(delta: Delta, reason: Reason)
    | RelayCustom(event: PurposeEvent, minted: bool)
    | BeginImport(event: PurposeEvent)
    | EndImport
    | LegacyClose(why: string)
    | BeginClose(sid: SessionId, why: string)
    | Discard(sid: SessionId, who: PurposeId)
    | LogPending(sid: SessionId)
    | MarkPersisterAcked(text: SidText)
    | WriteOwn(session: Option<SessionId>, payload: Payload)
    | Finish(session: Option<SessionId>)
    | Deliver(i: nat, downlink: HubEvent)

  /** `_accept_new_cto`: the event id is drawn before the turn id. */
  function NewCto(w: World, s: Seed): CTO {
    CTO(w.next + 1, s.session, s.now, s.profile, s.content, s.observations, Some(w.next))
  }

  function StartedEvent(w: World, s: Seed): HubEvent {
    HubEvent(w.next, Some(s.session), Some(w.next + 1), CtoStarted(ToIndex(NewCto(w, s)), s.byId, s.byName))
  }

  function MergedCto(w: World, d: Delta): CTO
    requires d.turn in w.hub.ctos
  {
    var c := w.hub.ctos[d.turn];
    c.(observations := MergeObs(c.observations, d), lastEvent := Some(w.next))
  }

  function MergedEvent(w: World, d: Delta): HubEvent
    requires d.turn in w.hub.ctos
  {
    var c := MergedCto(w, d);
    HubEvent(w.next, Some(c.session), Some(c.turn), DeltaMerged(d, ToIndex(c)))
  }

  function RejectedEvent(w: World, d: Delta, reason: Reason): HubEvent {
    HubEvent(w.next, None, Some(d.turn), DeltaRejected(d, reason))
  }

  function LegacyClosingEvent(w: World, why: string): HubEvent {
    HubEvent(w.next, None, None, SessionClosing(why, None))
  }

  function ClosingEvent(w: World, sid: SessionId, why: string): HubEvent {
    HubEvent(w.next, Some(sid), None, SessionClosing(why, CodeOf(w, sid)))
  }

  function PendingEvent(w: World, sid: SessionId): HubEvent {
    HubEvent(w.next, Some(sid), None, SessionClosePending(CodeOf(w, sid)))
  }

  function OwnEvent(cfg: Config, w: World, session: Option<SessionId>, p: Payload): PurposeEvent {
    PurposeEvent(w.next, cfg.persister, cfg.persisterName, PERSISTER_TOKEN, session, p)
  }

  /** A Purpose event wrapped for the downlink; a custom one carries no session. */
  function Relayed(ev: PurposeEvent): HubEvent {
    HubEvent(ev.id, if ev.payload.Custom? then None else ev.session, None, ev.payload)
  }

  // The effect of an action, field by field; an action changes only what is listed for it.

  /** How many ids an action draws. */
  function Draws(a: Act): nat {
    match a
    case StoreTurn(_) => 2
    case Mint | Register(_) | Merge(_) | Reject(_, _) | LegacyClose(_) | BeginClose(_, _) | LogPending(_)
       | WriteOwn(_, _) => 1
    case _ => 0
  }

  /** The event an action authors in the hub's name. */
  function Authored(w: World, a: Act): Option<HubEvent> {
    match a
    case StoreTurn(s) => Some(StartedEvent(w, s))
    case Merge(d) => if d.turn in w.hub.ctos then Some(MergedEvent(w, d)) else None
    case Reject(d, reason) => Some(RejectedEvent(w, d, reason))
    case RelayCustom(ev, _) => Some(Relayed(ev))
    case LegacyClose(why) => Some(LegacyClosingEvent(w, why))
    case BeginClose(sid, why) => Some(ClosingEvent(w, sid, why))
    case LogPending(sid) => Some(PendingEvent(w, sid))
    case _ => None
  }

  /** The record an action tries to write. */
  function RecordOf(cfg: Config, w: World, a: Act): Option<Record> {
    match a
    case Ingest(ev, _) => Some(PurposeRecord(ev))
    case WriteOwn(session, p) => Some(PurposeRecord(OwnEvent(cfg, w, session, p)))
    case _ => if Authored(w, a).Some? then Some(HubRecord(Authored(w, a).value)) else None
  }

  function LogAfter(cfg: Config, w: World, a: Act): seq<Record> {
    var r := RecordOf(cfg, w, a);
    if r.Some? && WriteOk(w) then Append(cfg, w.persister.log, r.value) else w.persister.log
  }

  function AckedAfter(w: World, a: Act): set<SidText> {
    if a.MarkPersisterAcked? then w.persister.acked + {a.text} else w.persister.acked
  }

  function PersisterAfter(cfg: Config, w: World, a: Act): PersisterState {
    PersisterState(
      LogAfter(cfg, w, a),
      AckedAfter(w, a),
      if a.WriteOwn? && a.payload.CtoImported? then w.persister.handled + {a.payload.key} else w.persister.handled)
  }

  function AcceptedAfter(w: World, a: Act): seq<EventId> {
    match a
    case Ingest(ev, _) => w.accepted + [ev.id]
    case AcceptOwn(id) => w.accepted + [id]
    case _ => if Authored(w, a).Some? then w.accepted + [Authored(w, a).value.id] else w.accepted
  }

  function RegsAfter(w: World, a: Act): seq<Registration> {
    if a.Register? && a.who in w.purposes then Upsert(w.hub.regs, Registration(a.who, Issue(w.next, a.who)))
    else w.hub.regs
  }

  function PurposesAfter(w: World, a: Act): map<PurposeId, PurposeState> {
    match a
    case Register(p) =>
      if p in w.purposes then w.purposes[p := w.purposes[p].(creds := Some(Issue(w.next, p)))] else w.purposes
    case MarkAnnounced(p) =>
      if p in w.purposes then w.purposes[p := w.purposes[p].(announced := true)] else w.purposes
    case MarkAcked(p, text) =>
      if p in w.purposes then w.purposes[p := w.purposes[p].(acked := w.purposes[p].acked + {text})] else w.purposes
    case MarkRequested(p, text) =>
      if p in w.purposes then w.purposes[p := w.purposes[p].(requested := w.purposes[p].requested + {text})]
      else w.purposes
    case _ => w.purposes
  }

  function CtosAfter(w: World, a: Act): map<TurnId, CTO> {
    match a
    case StoreTurn(s) => w.hub.ctos[w.next + 1 := NewCto(w, s)]
    case Merge(d) => if d.turn in w.hub.ctos then w.hub.ctos[d.turn := MergedCto(w, d)] else w.hub.ctos
    case _ => w.hub.ctos
  }

  function PendingAfter(w: World, a: Act): map<SessionId, set<PurposeId>> {
    match a
    case BeginClose(sid, _) => w.hub.pending[sid := Registered(w)]
    case Discard(sid, who) =>
      if sid !in w.hub.pending then w.hub.pending
      else if w.hub.pending[sid] - {who} == {} then w.hub.pending - {sid}
      else w.hub.pending[sid := w.hub.pending[sid] - {who}]
    case _ => w.hub.pending
  }

  function HubAfter(w: World, a: Act): HubState {
    HubState(
      RegsAfter(w, a),
      CtosAfter(w, a),
      if a.SetContext? then w.hub.contexts[a.sid := a.ctx] else w.hub.contexts,
      if a.Own? then w.hub.owners[a.sid := a.who] else w.hub.owners,
      if a.StoreTurn? && a.seed.code.Some? then w.hub.codes[a.seed.session := a.seed.code.value] else w.hub.codes,
      PendingAfter(w, a),
      if a.BeginClose? then true else if a.Finish? then false else w.hub.closing,
      if a.BeginClose? then Some(a.sid) else if a.Finish? then None else w.hub.closingId,
      a.Finish? || w.hub.closed,
      if a.Finish? then a.session else w.hub.closedId)
  }

  function ClosureAfter(w: World, a: Act): Option<Closure> {
    if a.BeginClose? then Some(Closure(a.sid, Registered(w), {}, 0, false, 0))
    else if w.closure.None? then None
    else
      var c := w.closure.value;
      match a
      case Ingest(ev, _) =>
        Some(if WriteOk(w) && Acknowledges(a, c.sid, ev.who) then c.(acknowledged := c.acknowledged + {ev.who}) else c)
      case LogPending(sid) => Some(c.(pendings := c.pendings + 1, announced := WriteOk(w)))
      case WriteOwn(_, p) => Some(if p.SessionCompleted? then c.(completions := c.completions + 1) else c)
      case _ => Some(c)
  }

  function ImportingAfter(w: World, a: Act): seq<PurposeEvent> {
    if a.BeginImport? then w.importing + [a.event]
    else if Settles(a) && |w.importing| > 0 then w.importing[..|w.importing| - 1]
    else w.importing
  }

  /** The innermost import ends, with a turn or without. */
  predicate Settles(a: Act) {
    a.EndImport? || (a.StoreTurn? && a.seed.source.Some?)
  }

  /** An acknowledgement admitted and written is followed by taking its Purpose off the pending set, and the last of
      these by the all-clear. */
  function OwedAfter(w: World, a: Act): Option<Act> {
    match a
    case Ingest(ev, _) => if WriteOk(w) then OwedBy(w, ev) else None
    case Discard(sid, who) =>
      if sid in w.hub.pending && w.hub.pending[sid] - {who} == {} then Some(LogPending(sid)) else None
    case _ => None
  }

  /** What follows from an event let in. */
  function OwedBy(w: World, ev: PurposeEvent): Option<Act> {
    if ev.payload.PurposeCompleted? then DiscardOwed(w, ev.who, ev.payload.session) else None
  }

  function DiscardOwed(w: World, who: PurposeId, text: SidText): Option<Act> {
    if text.Spelled? && text.sid in w.hub.pending
      && who in w.hub.pending[text.sid] then Some(Discard(text.sid, who)) else None
  }

  function DeliveriesAfter(w: World, a: Act): seq<Delivery> {
    if a.Deliver? && a.i < |w.hub.regs|
    then w.deliveries + [Delivery(w.hub.regs[a.i].who, w.hub.regs[a.i].creds, a.downlink, |w.persister.log|)]
    else w.deliveries
  }

  /** A delivery uses up one reaction. */
  function ScriptAfter(w: World, a: Act): seq<Reaction> {
    if a.Deliver? && |w.script| > 0 then w.script[1..] else w.script
  }

  /** The effect of an action. */
  function Apply(cfg: Config, w: World, a: Act): World {
    World(
      HubAfter(w, a), PurposesAfter(w, a), PersisterAfter(cfg, w, a), w.next + Draws(a),
      ScriptAfter(w, a),
      if RecordOf(cfg, w, a).Some? && |w.writes| > 0 then w.writes[1..] else w.writes,
      DeliveriesAfter(w, a), AcceptedAfter(w, a), ClosureAfter(w, a),
      if a.StoreTurn? then w.seeds[w.next + 1 := a.seed.observations] else w.seeds,
      ImportingAfter(w, a), OwedAfter(w, a), w.hist + [a])
  }

  /** A caller-supplied event id: minted just now when it is called minted. */
  predicate ProperId(cfg: Config, w: World, id: EventId, minted: bool) {
    && id < w.next
    && (cfg.freshIds ==> minted)
    && (minted ==> !Has(w.persister.log, id) && id !in w.accepted)
  }

  /** The action admits this Purpose's purpose_completed for the session. */
  predicate Acknowledges(a: Act, sid: SessionId, who: PurposeId) {
    && a.Ingest? && a.event.who == who && a.event.payload.PurposeCompleted?
    && a.event.payload.session.Spelled? && a.event.payload.session.sid == sid
  }

  /** Where an import came from and who asked for it. */
  function SourceOf(p: Payload): CtoJson.ImportSource
    requires p.CtoImported?
  {
    CtoJson.ImportSource(p.kind, p.locator, p.hash, p.key, p.requester, p.requesterName)
  }

  /** What the hub adopts from a cto_imported event whose document normalises. */
  function AdoptedSeed(ev: PurposeEvent, now: int): Seed
    requires ev.payload.CtoImported? && ev.payload.session.Spelled?
    requires CtoJson.Normalize(ev.payload.document).Success?
  {
    var p := ev.payload;
    var n := CtoJson.Normalize(p.document).value;
    Seed(p.session.sid, p.code, n.profile, n.content, CtoJson.Adopted(n, SourceOf(p)), p.requester, p.requesterName,
         now, Some(ev))
  }

  /** The import being settled is the innermost one. */
  predicate Innermost(w: World, ev: PurposeEvent) {
    |w.importing| > 0 && w.importing[|w.importing| - 1] == ev && ev.payload.CtoImported? && ev.payload.session.Spelled?
  }

  /** An action comes in its turn: nothing is owed, or this is. */
  predicate InTurn(w: World, a: Act) {
    w.owed.None? || w.owed == Some(a)
  }

  /** When an action may happen. */
  ghost predicate Enabled(cfg: Config, w: World, a: Act) {
    InTurn(w, a) && Allowed(cfg, w, a)
  }

  ghost predicate Allowed(cfg: Config, w: World, a: Act) {
    match a
    case Mint => true
    case Register(who) => Open(w) && who in w.purposes
    case MarkAnnounced(who) => who in w.purposes
    case MarkAcked(who, text) => who in w.purposes
    case MarkRequested(who, text) => who in w.purposes
    case SetContext(sid, ctx, used, given) =>
      && Open(w) && ProfileFor(cfg, used).Some? && Validates(ProfileFor(cfg, used).value, given, cfg.strict)
      && ctx == ApplyDefaults(ProfileFor(cfg, used).value, given, ContextOf(w, sid)).1
    case Own(sid, who, source) =>
      && sid !in w.hub.owners && who == cfg.owner
      && (source.None? ==> Open(w))
      && (source.Some? ==> Innermost(w, source.value) && source.value.payload.session.sid == sid
                           && source.value.payload.requester == who)
    case StoreTurn(s) =>
      && s.session in w.hub.owners
      && (s.source.None? ==> Open(w) && s.observations == map[])
      && (s.source.Some? ==> Innermost(w, s.source.value)
                             && CtoJson.Normalize(s.source.value.payload.document).Success?
                             && s == AdoptedSeed(s.source.value, s.now))
      && ProfileFor(cfg, s.profile).Some?
      && (s.source.Some? || WellBehaved(ProfileFor(cfg, s.profile).value) ==>
            Validates(ProfileFor(cfg, s.profile).value, s.content, cfg.strict))
    case Ingest(ev, minted) =>
      && Accepts(w, ev.payload) && ProperId(cfg, w, ev.id, minted)
      && Resolve(cfg, w, ev.token) == Some(ev.who) && ev.who != cfg.persister && ev.name == NameOf(cfg, w, ev.who)
      && BuiltIn(ev.payload)
    case AcceptOwn(id) => !w.hub.closed && Has(w.persister.log, id) && id !in w.accepted
    case Merge(d) => Open(w) && d.turn in w.hub.ctos && IsListPatch(d.patch)
    case Reject(d, reason) => Open(w)
    case RelayCustom(ev, minted) => Open(w) && ev.payload.Custom? && ProperId(cfg, w, ev.id, minted)
    case BeginImport(ev) =>
      && Open(w) && cfg.imports && ev.who == cfg.persister && ev.payload.CtoImported? && ev.payload.session.Spelled?
      && PurposeRecord(ev) in w.persister.log
    case EndImport => |w.importing| > 0
    case LegacyClose(why) => Open(w)
    case BeginClose(sid, why) => Open(w) && sid in w.hub.owners
    case Discard(sid, who) =>
      !w.hub.closed && sid in w.hub.pending && (who in w.hub.pending[sid] ==> w.owed == Some(Discard(sid, who)))
    case LogPending(sid) => !w.hub.closed && w.owed == Some(LogPending(sid))
    case MarkPersisterAcked(text) => w.closure.Some? && w.closure.value.pendings > 0
    case WriteOwn(session, p) =>
      && !w.hub.closed
      && (p.PurposeCompleted? || p.SessionCompleted? || p.CtoImported?)
      && (p.SessionCompleted? ==>
            && cfg.durable && w.closure.Some? && session == Some(w.closure.value.sid)
            && w.closure.value.announced && w.closure.value.completions == 0
            && w.closure.value.sid !in w.hub.pending)
      && (p.CtoImported? ==> p.key !in w.persister.handled)
    case Finish(session) =>
      && !w.hub.closed && cfg.durable
      && w.closure.Some? && session == Some(w.closure.value.sid) && w.closure.value.completions == 1
      && EndsWithCompletion(cfg, w.persister.log)
    case Deliver(i, ev) =>
      && i < |w.hub.regs|
      && w.hub.regs[i].who in w.purposes && w.purposes[w.hub.regs[i].who].creds == Some(w.hub.regs[i].creds)
      && Has(w.persister.log, ev.id)
  }

  // ---------------------------------------------------------------- runs

  function Run(cfg: Config, acts: seq<Act>): (w: World)
    ensures w.hist == acts
  {
    if acts == [] then Init(cfg)
    else
      var k := |acts| - 1;
      assert acts[..k] + [acts[k]] == acts;
      Apply(cfg, Run(cfg, acts[..k]), acts[k])
  }

  ghost predicate AllEnabled(cfg: Config, acts: seq<Act>) {
    acts == [] ||
    (var k := |acts| - 1; AllEnabled(cfg, acts[..k]) && Enabled(cfg, Run(cfg, acts[..k]), acts[k]))
  }

  /** Reached from the bootstrapped hub by the enabled actions of its history. */
  ghost predicate Legal(cfg: Config, w: World) {
    ValidConfig(cfg) && AllEnabled(cfg, w.hist) && w == Run(cfg, w.hist)
  }

  /** A legal world in which no step is owed: what every callback and every caller finds. */
  ghost predicate Calm(cfg: Config, w: World) {
    Legal(cfg, w) && w.owed.None?
  }

  lemma AppendHas(cfg: Config, log: seq<Record>, r: Record)
    ensures Has(Append(cfg, log, r), r.id)
  {
    var longer := Append(cfg, log, r);
    if longer != log { assert longer[|log|].id == r.id; }
  }

  /** Actions that leave the hub's own fields alone. */
  predicate SparesHub(a: Act) {
    match a
    case Register(_) | SetContext(_, _, _, _) | Own(_, _, _) | StoreTurn(_) | Merge(_) | BeginClose(_, _)
       | Discard(_, _) | Finish(_) => false
    case _ => true
  }

  lemma HubEffect(cfg: Config, w: World, a: Act)
    ensures var r := Apply(cfg, w, a);
            && (SparesHub(a) ==> r.hub == w.hub)
            && r.hub.pending == PendingAfter(w, a) && r.hub.regs == RegsAfter(w, a) && r.hub.ctos == CtosAfter(w, a)
            && r.hub.closed == (a.Finish? || w.hub.closed)
            && r.hub.closing == (a.BeginClose? || (!a.Finish? && w.hub.closing))
  {
  }

  lemma StoreEffect(cfg: Config, w: World, a: Act)
    ensures var r := Apply(cfg, w, a);
            && r.hub.owners == (if a.Own? then w.hub.owners[a.sid := a.who] else w.hub.owners)
            && r.seeds == (if a.StoreTurn? then w.seeds[w.next + 1 := a.seed.observations] else w.seeds)
            && w.deliveries <= r.deliveries
  {
    hide PersisterAfter, PurposesAfter, RegsAfter, CtosAfter, PendingAfter, ClosureAfter, OwedAfter, ImportingAfter;
  }

  /** What the action writes is in the log, unless the write fails. */
  predicate Logged(cfg: Config, w: World, a: Act, log: seq<Record>) {
    RecordOf(cfg, w, a).Some? && WriteOk(w) ==> Has(log, RecordOf(cfg, w, a).value.id)
  }

  lemma LogEffect(cfg: Config, w: World, a: Act)
    ensures var r := Apply(cfg, w, a);
            && w.persister.log <= r.persister.log && r.persister.log == LogAfter(cfg, w, a)
            && r.persister.acked == AckedAfter(w, a) && Logged(cfg, w, a, r.persister.log)
  {
    if RecordOf(cfg, w, a).Some? {
      AppendHas(cfg, w.persister.log, RecordOf(cfg, w, a).value);
    }
  }

  lemma LegalEffect(cfg: Config, w: World, a: Act)
    requires Legal(cfg, w) && Enabled(cfg, w, a)
    ensures Legal(cfg, Apply(cfg, w, a))
  {
    hide Enabled, HubAfter;
    assert (w.hist + [a])[..|w.hist|] == w.hist;
  }

  /** Perform an action: what callers need of its effect, and that an enabled action keeps the world legal. */
  function Do(cfg: Config, w: World, a: Act): (r: World)
    ensures r == Apply(cfg, w, a) && r.hist == w.hist + [a]
    ensures r.next == w.next + Draws(a)
    ensures w.persister.log <= r.persister.log && r.persister.log == LogAfter(cfg, w, a)
    ensures Logged(cfg, w, a, r.persister.log)
    ensures r.accepted == AcceptedAfter(w, a)
    ensures r.script == ScriptAfter(w, a)
    ensures SparesHub(a) ==> r.hub == w.hub
    ensures r.hub.pending == PendingAfter(w, a) && r.hub.regs == RegsAfter(w, a) && r.hub.ctos == CtosAfter(w, a)
    ensures r.hub.closed == (a.Finish? || w.hub.closed)
    ensures r.hub.closing == (a.BeginClose? || (!a.Finish? && w.hub.closing))
    ensures r.purposes == PurposesAfter(w, a) && r.closure == ClosureAfter(w, a)
    ensures r.importing == ImportingAfter(w, a) && r.owed == OwedAfter(w, a)
    ensures !a.Ingest? && !a.Discard? ==> r.owed.None?
    ensures r.persister.acked == AckedAfter(w, a)
    ensures Legal(cfg, w) && Enabled(cfg, w, a) ==> Legal(cfg, r)
  {
    hide Legal, Enabled, HubAfter, PersisterAfter, PendingAfter, RegsAfter, CtosAfter, PurposesAfter, ClosureAfter;
    HubEffect(cfg, w, a);
    LogEffect(cfg, w, a);
    assert Legal(cfg, w) && Enabled(cfg, w, a) ==> Legal(cfg, Apply(cfg, w, a)) by {
      if Legal(cfg, w) && Enabled(cfg, w, a) { LegalEffect(cfg, w, a); }
    }
    Apply(cfg, w, a)
  }

  /** The world one action earlier. */
  lemma Before(cfg: Config, w: World) returns (p: World, a: Act)
    requires Legal(cfg, w) && w.hist != []
    ensures Legal(cfg, p) && Enabled(cfg, p, a) && w == Apply(cfg, p, a) && w.hist == p.hist + [a]
  {
    var k := |w.hist| - 1;
    p, a := Run(cfg, w.hist[..k]), w.hist[k];
  }

  lemma Beginning(cfg: Config, w: World)
    requires Legal(cfg, w)
    ensures ValidConfig(cfg) && (w.hist == [] ==> w == Init(cfg))
  {
  }

  /** A history determines the world. */
  lemma SameHistory(cfg: Config, w: World, w': World)
    requires Legal(cfg, w) && Legal(cfg, w') && w.hist <= w'.hist && |w.hist| == |w'.hist|
    ensures w == w'
  {
    assert w.hist == w'.hist;
  }
}
