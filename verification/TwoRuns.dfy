/** Two programs' runs with one log and different turns: the same calls, made at another moment by the same handler. */
module TwoRuns {
  import opened Wrappers
  import opened Json
  import opened Profiles
  import opened Ctos
  import opened Events
  import opened World
  import opened Invariants
  import opened Hub
  import opened History
  import opened Replay
  import opened Credentials
  import opened Operations
  import opened Adoption
  import opened Submissions
  import opened Stalls
  import Transfers
  import CtoJson

  // ---------------------------------------------------------------- a hub with one Purpose

  /** Only the owner is registered, with its first token. */
  ghost predicate OwnerAlone(cfg: Config, w: World) {
    && Good(cfg, w) && NoFailedWrite(cfg) && Open(w)
    && w.hub.regs == [Registration(cfg.owner, Issue(1, cfg.owner))]
  }

  lemma OwnerListens(cfg: Config, w: World, ev: HubEvent)
    requires OwnerAlone(cfg, w) && Has(w.persister.log, ev.id)
    ensures cfg.owner in w.purposes && w.purposes[cfg.owner].creds == Some(Issue(1, cfg.owner))
    ensures cfg.owner in cfg.names && w.purposes[cfg.owner].name == cfg.names[cfg.owner]
    ensures Enabled(cfg, w, Deliver(0, ev))
  {
    hide Legal, Enabled;
    CredentialsHold(cfg, w);
    Beginning(cfg, w);
    assert RegHolds(w.purposes, w.hub.regs[0]);
    DeliverIsEnabled(cfg, w, ev, 0);
  }

  lemma Heard(cfg: Config, w: World, ev: HubEvent)
    ensures var w1 := Apply(cfg, w, Deliver(0, ev));
            && w1.hub == w.hub && w1.persister == w.persister && w1.next == w.next && w1.purposes == w.purposes
            && w1.importing == w.importing && (w.script != [] ==> w1.script == w.script[1..])
  {
  }

  /** The owner does nothing about an event. */
  lemma OwnerIgnores(cfg: Config, w: World, ev: HubEvent)
    requires OwnerAlone(cfg, w) && Has(w.persister.log, ev.id) && !ev.payload.SessionClosing?
    requires w.script != [] && w.script[0].ByDefault?
    ensures var r := Multicast(cfg, w, ev);
            && r.out == Ok && OwnerAlone(cfg, r.w) && r.w.hub == w.hub && r.w.persister == w.persister
            && r.w.next == w.next && r.w.script == w.script[1..] && r.w.importing == w.importing
  {
    hide Legal, Apply, Enabled, RunSteps, Complete;
    OwnerListens(cfg, w, ev);
    Heard(cfg, w, ev);
    var w1 := Do(cfg, w, Deliver(0, ev));
    assert DeliverTo(cfg, w, ev, 0) == Res(w1, Ok);
    assert Broadcast(cfg, w1, ev, 1, 1) == Res(w1, Ok);
  }

  /** The owner makes one call on hearing of it. */
  lemma OwnerCalls(cfg: Config, w: World, ev: HubEvent, step: Step)
    requires OwnerAlone(cfg, w) && Has(w.persister.log, ev.id)
    requires w.script == [ByHandler([step], false)]
    ensures var w1 := Do(cfg, w, Deliver(0, ev));
            && OwnerAlone(cfg, w1) && w1.hub == w.hub && w1.persister == w.persister && w1.next == w.next
            && w1.script == [] && w1.importing == w.importing
            && var r := Exec(cfg, w1, step.call, step.outside);
               r.out.Done? && r.w.hub.regs == w.hub.regs ==>
                 Multicast(cfg, w, ev).w == r.w && Multicast(cfg, w, ev).out == Ok
  {
    hide Legal, Apply, Enabled, Exec, Complete;
    OwnerListens(cfg, w, ev);
    Heard(cfg, w, ev);
    var w1 := Do(cfg, w, Deliver(0, ev));
    var r := Exec(cfg, w1, step.call, step.outside);
    if r.out.Done? && r.w.hub.regs == w.hub.regs {
      assert [step][1..] == [];
      assert RunSteps(cfg, w1, [step]) == RunSteps(cfg, r.w, []) == Res(r.w, Ok);
      assert DeliverTo(cfg, w, ev, 0).w == r.w && DeliverTo(cfg, w, ev, 0).out == Ok;
      assert Broadcast(cfg, r.w, ev, 1, 1) == Res(r.w, Ok);
    }
  }

  // ---------------------------------------------------------------- start_turn with nobody answering

  /** A start_turn of the owner's in a given session. */
  predicate OwnersStart(cfg: Config, c: Call) {
    && c.StartTurn? && c.token == 1 && c.session.Some? && c.code.None? && Validated(cfg, c)
  }

  /** The record of a turn the owner starts, or asked to have imported. */
  function StartRecord(cfg: Config, sid: SessionId, profile: ProfileRef, now: int, id: EventId): Record
    requires cfg.owner in cfg.names
  {
    Record(FromHub, id, Some(sid), Some(id + 1),
           CtoStarted(CTOIndex(id + 1, sid, profile, now, Some(id)), cfg.owner, cfg.names[cfg.owner]))
  }

  lemma OwnersToken(cfg: Config, w: World)
    requires OwnerAlone(cfg, w)
    ensures Resolve(cfg, w, 1) == Some(cfg.owner) && NameOf(cfg, w, cfg.owner) == cfg.names[cfg.owner]
    ensures cfg.owner in cfg.names
  {
    hide Legal;
    CredentialsHold(cfg, w);
    Beginning(cfg, w);
    assert Matches(w.hub.regs[1..], 1) == [];
  }

  lemma StartIsPrepared(cfg: Config, w: World, c: Call, now: int)
    requires OwnerAlone(cfg, w) && OwnersStart(cfg, c)
    ensures cfg.owner in cfg.names
    ensures var u, s := Prepared(cfg, w, c, c.session.value, cfg.owner),
            SeedFor(cfg, w, c, c.session.value, cfg.owner, now);
            && PreparedEffect(cfg, w, u, s) && s.byName == cfg.names[cfg.owner]
            && StartTurnCall(cfg, w, c, now) == AcceptNewCto(cfg, u, s)
  {
    hide Legal, Good, Apply, Enabled, Validates, ProfileFor, Resolve, NameOf, StartValidated, WriteAndMulticast;
    hide Prepared;
    OwnersToken(cfg, w);
    var sid := c.session.value;
    PreparedHolds(cfg, w, c, sid, cfg.owner, now);
    StartRouted(cfg, w, c, now);
    ValidatedRouted(cfg, w, c, sid, cfg.owner, now);
    assert AcceptNewCto(cfg, Prepared(cfg, w, c, sid, cfg.owner), SeedFor(cfg, w, c, sid, cfg.owner, now))
        == WriteAndMulticast(cfg, Prepared(cfg, w, c, sid, cfg.owner),
                             StoreTurn(SeedFor(cfg, w, c, sid, cfg.owner, now)), Some(w.next + 1));
  }

  lemma PreparedQuietly(cfg: Config, w: World, c: Call)
    requires OwnerAlone(cfg, w) && OwnersStart(cfg, c)
    ensures var u := Prepared(cfg, w, c, c.session.value, cfg.owner);
            && u.script == w.script && u.hub.closing == w.hub.closing && u.hub.closed == w.hub.closed
            && u.importing == w.importing && c.session.value in u.hub.owners
  {
    hide Legal, Enabled, ApplyDefaults, ProfileFor, Validates;
  }

  /** The turn is stored with defaulted content and no observations, and its start recorded. */
  ghost predicate OwnersTurn(cfg: Config, w: World, v: World, c: Call, now: int) {
    && OwnersStart(cfg, c) && cfg.owner in cfg.names && OwnerAlone(cfg, v)
    && var t, sid := w.next + 1, c.session.value;
    && v.script == [] && v.next == w.next + 2 && v.importing == w.importing && sid in v.hub.owners
    && t !in w.hub.ctos && v.hub.ctos.Keys == w.hub.ctos.Keys + {t}
    && (forall q | q in w.hub.ctos && q != t :: v.hub.ctos[q] == w.hub.ctos[q])
    && v.hub.ctos[t].content == ApplyDefaults(ProfileFor(cfg, RefOf(c)).value, c.content, ContextOf(w, sid)).0
    && v.hub.ctos[t].observations == map[]
    && v.persister.log == w.persister.log + [StartRecord(cfg, sid, RefOf(c), now, w.next)]
  }

  ghost predicate OwnersCall(cfg: Config, w: World, c: Call, now: int)
    requires c.StartTurn?
  {
    var r := StartTurnCall(cfg, w, c, now);
    r.out.Done? && OwnersTurn(cfg, w, r.w, c, now)
  }

  /** What the prepared world and the stored seed make of the owner's turn. */
  lemma SeedIsOwnersTurn(cfg: Config, w: World, u: World, s: Seed, v: World, c: Call, now: int)
    requires OwnersStart(cfg, c) && cfg.owner in cfg.names && OwnerAlone(cfg, v) && s.byName == cfg.names[cfg.owner]
    requires s == SeedFor(cfg, w, c, c.session.value, cfg.owner, now)
    requires u.next == w.next && u.persister == w.persister && u.hub.ctos == w.hub.ctos && u.importing == w.importing
    requires w.next + 1 !in w.hub.ctos
    requires v.script == [] && v.next == u.next + 2 && v.importing == u.importing && c.session.value in v.hub.owners
    requires v.hub.ctos == u.hub.ctos[u.next + 1 := NewCto(u, s)]
    requires v.persister.log == u.persister.log + [HubRecord(StartedEvent(u, s))]
    ensures OwnersTurn(cfg, w, v, c, now)
  {
    hide OwnerAlone, ApplyDefaults, ProfileFor, Validates, NameOf;
  }

  lemma OwnerStarts(cfg: Config, w: World, c: Call, now: int)
    requires OwnerAlone(cfg, w) && OwnersStart(cfg, c) && w.script == []
    ensures OwnersCall(cfg, w, c, now)
  {
    hide Legal, Apply, Enabled, Validates, ProfileFor, ApplyDefaults, Prepared, StartTurnCall, AcceptNewCto;
    hide NameOf, ContextOf, SeedFor, OwnersTurn;
    StartIsPrepared(cfg, w, c, now);
    PreparedQuietly(cfg, w, c);
    var u := Prepared(cfg, w, c, c.session.value, cfg.owner);
    var s := SeedFor(cfg, w, c, c.session.value, cfg.owner, now);
    AdoptedQuietly(cfg, u, s);
    SeedIsOwnersTurn(cfg, w, u, s, AcceptNewCto(cfg, u, s).w, c, now);
  }

  // ---------------------------------------------------------------- the same call inside the relay and after it

  /** An import the owner has asked for, which the hub can adopt. */
  predicate OwnersImport(cfg: Config, ev: PurposeEvent) {
    && ev.payload.CtoImported? && ev.payload.session.Spelled? && ev.payload.requester == cfg.owner
    && cfg.owner in cfg.names && ev.payload.requesterName == cfg.names[cfg.owner]
    && CtoJson.Normalize(ev.payload.document).Success?
    && var n := CtoJson.Normalize(ev.payload.document).value;
    && ProfileFor(cfg, n.profile).Some? && Validates(ProfileFor(cfg, n.profile).value, n.content, cfg.strict)
  }

  /** A start of the same session and profile. */
  predicate Resembles(cfg: Config, c: Call, ev: PurposeEvent) {
    && OwnersStart(cfg, c) && OwnersImport(cfg, ev) && c.session == Some(ev.payload.session.sid)
    && RefOf(c) == CtoJson.Normalize(ev.payload.document).value.profile
  }

  function StartStep(c: Call, now: int): Step {
    Step(c, Outside(now, None), false)
  }

  /** Two turns of the import's session and profile have been started, the first under this id. */
  ghost predicate TwoStarted(cfg: Config, w: World, v: World, ev: PurposeEvent, now: int)
    requires OwnersImport(cfg, ev)
  {
    var sid, profile := ev.payload.session.sid, CtoJson.Normalize(ev.payload.document).value.profile;
    && v.persister.log
         == w.persister.log + [StartRecord(cfg, sid, profile, now, w.next),
                               StartRecord(cfg, sid, profile, now, w.next + 2)]
    && w.next + 1 in v.hub.ctos && Good(cfg, v)
  }

  lemma RelayBegins(cfg: Config, w: World, ev: PurposeEvent)
    requires OwnerAlone(cfg, w) && ImportDue(cfg, w, ev)
    ensures var w0 := Do(cfg, w, BeginImport(ev));
            && OwnerAlone(cfg, w0) && w0.hub == w.hub && w0.persister == w.persister && w0.next == w.next
            && w0.script == w.script && w0.importing == w.importing + [ev] && Has(w0.persister.log, ev.id)
  {
    hide Legal, Enabled;
    BeginImportIsEnabled(cfg, w, ev);
  }

  /** Once the session is owned, the import is stored at once. */
  lemma SettledOwned(cfg: Config, v: World, ev: PurposeEvent, now: int)
    requires OwnersImport(cfg, ev) && ev.payload.session.sid in v.hub.owners
    ensures SettleImport(cfg, v, ev, now) == AcceptNewCto(cfg, v, AdoptedSeed(ev, now))
  {
    hide Legal, Good, Enabled, Apply, CtoJson.Normalize, CtoJson.Adopted, Validates, AcceptNewCto;
  }

  lemma AdoptionDue(cfg: Config, v: World, ev: PurposeEvent, now: int)
    requires OwnerAlone(cfg, v) && OwnersImport(cfg, ev) && ev.payload.session.sid in v.hub.owners && Innermost(v, ev)
    ensures Enabled(cfg, v, StoreTurn(AdoptedSeed(ev, now)))
    ensures HubRecord(StartedEvent(v, AdoptedSeed(ev, now)))
         == StartRecord(cfg, ev.payload.session.sid, CtoJson.Normalize(ev.payload.document).value.profile, now, v.next)
  {
    hide Legal, Enabled, CtoJson.Normalize, CtoJson.Adopted, Validates;
    AdoptedSeedIsEnabled(cfg, v, ev, now);
  }

  /** The first of them is the owner's own: empty, with the content of its call. */
  ghost predicate OwnTurnFirst(cfg: Config, w: World, v: World, ev: PurposeEvent, c: Call, now: int) {
    && Resembles(cfg, c, ev) && TwoStarted(cfg, w, v, ev, now)
    && v.hub.ctos[w.next + 1].observations == map[]
    && v.hub.ctos[w.next + 1].content
         == ApplyDefaults(ProfileFor(cfg, RefOf(c)).value, c.content, ContextOf(w, c.session.value)).0
  }

  /** The owner starts a turn while it hears of the import. */
  lemma CalledInRelay(cfg: Config, w: World, ev: PurposeEvent, c: Call, now: int) returns (v: World)
    requires OwnerAlone(cfg, w) && ImportDue(cfg, w, ev) && OwnersStart(cfg, c)
    requires w.script == [ByHandler([StartStep(c, now)], false)]
    ensures v.importing == w.importing + [ev] && v.hub.closed == w.hub.closed
    ensures OwnersTurn(cfg, w.(importing := v.importing), v, c, now)
    ensures HandleCtoImported(cfg, w, cfg.persister, ev, now) == SettleImport(cfg, v, ev, now)
  {
    hide Legal, Apply, Enabled, Multicast, SettleImport, StartTurnCall, ApplyDefaults, ProfileFor, Validates;
    RelayBegins(cfg, w, ev);
    var w0 := Do(cfg, w, BeginImport(ev));
    OwnerCalls(cfg, w0, Relayed(ev), StartStep(c, now));
    var w1 := Do(cfg, w0, Deliver(0, Relayed(ev)));
    OwnerStarts(cfg, w1, c, now);
    v := StartTurnCall(cfg, w1, c, now).w;
    assert Exec(cfg, w1, c, Outside(now, None)) == StartTurnCall(cfg, w1, c, now);
  }

  /** That turn comes first. */
  lemma StartedInRelay(cfg: Config, w: World, ev: PurposeEvent, c: Call, now: int)
    requires OwnerAlone(cfg, w) && ImportDue(cfg, w, ev) && Resembles(cfg, c, ev)
    requires w.script == [ByHandler([StartStep(c, now)], false)]
    ensures OwnTurnFirst(cfg, w, HandleCtoImported(cfg, w, cfg.persister, ev, now).w, ev, c, now)
  {
    hide Legal, Apply, Enabled, HandleCtoImported, SettleImport, AcceptNewCto, ApplyDefaults, ProfileFor, Validates;
    hide CtoJson.Normalize, CtoJson.Adopted;
    var v := CalledInRelay(cfg, w, ev, c, now);
    SettledOwned(cfg, v, ev, now);
    AdoptionDue(cfg, v, ev, now);
    AdoptedQuietly(cfg, v, AdoptedSeed(ev, now));
  }

  /** The session has its owner, if it had none. */
  lemma SettledFirst(cfg: Config, v: World, ev: PurposeEvent, now: int) returns (u: World)
    requires OwnerAlone(cfg, v) && OwnersImport(cfg, ev) && Innermost(v, ev)
    ensures OwnerAlone(cfg, u) && ev.payload.session.sid in u.hub.owners && Innermost(u, ev)
    ensures u.next == v.next && u.script == v.script && u.persister == v.persister && u.hub.ctos == v.hub.ctos
    ensures SettleImport(cfg, v, ev, now) == AcceptNewCto(cfg, u, AdoptedSeed(ev, now))
  {
    hide Legal, Enabled, CtoJson.Normalize, CtoJson.Adopted, Validates, AcceptNewCto, Abandon;
    var sid := ev.payload.session.sid;
    if sid in v.hub.owners {
      u := v;
    } else {
      OwnIsEnabled(cfg, v, sid, Some(ev));
      u := Do(cfg, v, Own(sid, cfg.owner, Some(ev)));
      OwnEffect(cfg, v, sid, cfg.owner, Some(ev));
    }
  }

  /** The first of them is the import's. */
  ghost predicate ImportFirst(cfg: Config, w: World, v: World, ev: PurposeEvent, now: int) {
    && OwnersImport(cfg, ev) && TwoStarted(cfg, w, v, ev, now)
    && v.hub.ctos[w.next + 1].observations == AdoptedSeed(ev, now).observations
    && v.hub.ctos[w.next + 1].content == CtoJson.Normalize(ev.payload.document).value.content
  }

  /** The owner starts it when it hears that the import has been adopted: the import's turn comes first. */
  lemma StartedAfterwards(cfg: Config, w: World, ev: PurposeEvent, c: Call, now: int)
    requires OwnerAlone(cfg, w) && ImportDue(cfg, w, ev) && Resembles(cfg, c, ev)
    requires w.script == [ByDefault, ByHandler([StartStep(c, now)], false)]
    ensures ImportFirst(cfg, w, HandleCtoImported(cfg, w, cfg.persister, ev, now).w, ev, now)
  {
    hide Legal, Apply, Enabled, Multicast, SettleImport, AcceptNewCto, CtoJson.Normalize, CtoJson.Adopted;
    hide Validates, ProfileFor, ApplyDefaults;
    RelayBegins(cfg, w, ev);
    var w0 := Do(cfg, w, BeginImport(ev));
    OwnerIgnores(cfg, w0, Relayed(ev));
    var v := Multicast(cfg, w0, Relayed(ev)).w;
    assert HandleCtoImported(cfg, w, cfg.persister, ev, now) == SettleImport(cfg, v, ev, now);
    var u := SettledFirst(cfg, v, ev, now);
    AdoptionDue(cfg, u, ev, now);
    AdoptedThenStarted(cfg, u, AdoptedSeed(ev, now), c, now);
  }

  ghost predicate StoredAndStarted(cfg: Config, u: World, v: World, s: Seed, c: Call, now: int) {
    && OwnersStart(cfg, c) && cfg.owner in cfg.names && Good(cfg, v)
    && u.next + 1 in v.hub.ctos && v.hub.ctos[u.next + 1] == NewCto(u, s)
    && v.persister.log
         == u.persister.log
            + [HubRecord(StartedEvent(u, s)), StartRecord(cfg, c.session.value, RefOf(c), now, u.next + 2)]
  }

  /** A turn is stored, and the owner starts another when it hears of it. */
  lemma AdoptedThenStarted(cfg: Config, u: World, s: Seed, c: Call, now: int)
    requires OwnerAlone(cfg, u) && Enabled(cfg, u, StoreTurn(s)) && OwnersStart(cfg, c)
    requires u.script == [ByHandler([StartStep(c, now)], false)]
    ensures StoredAndStarted(cfg, u, AcceptNewCto(cfg, u, s).w, s, c, now)
  {
    hide Legal, Apply, Enabled, Multicast, StartTurnCall, ProfileFor, ApplyDefaults, Validates, OwnersTurn;
    hide StoredAndStarted;
    WritesSucceed(cfg, u);
    IdsAreMinted(cfg, u);
    StoreGrowsByOne(cfg, u, s);
    var u1, told := Do(cfg, u, StoreTurn(s)), StartedEvent(u, s);
    OwnerCalls(cfg, u1, told, StartStep(c, now));
    var u2 := Do(cfg, u1, Deliver(0, told));
    OwnerStarts(cfg, u2, c, now);
    StillAlone(cfg, u2, StartTurnCall(cfg, u2, c, now).w, c, now);
    assert Exec(cfg, u2, c, Outside(now, None)) == StartTurnCall(cfg, u2, c, now);
    assert AcceptNewCto(cfg, u, s).w == Multicast(cfg, u1, told).w;
    ThenStarted(cfg, u, u2, StartTurnCall(cfg, u2, c, now).w, s, c, now);
  }

  lemma StillAlone(cfg: Config, w: World, v: World, c: Call, now: int)
    requires OwnersTurn(cfg, w, v, c, now)
    ensures OwnerAlone(cfg, v)
  {
  }

  lemma ThenStarted(cfg: Config, u: World, u2: World, v: World, s: Seed, c: Call, now: int)
    requires OwnersTurn(cfg, u2, v, c, now) && u2.next == u.next + 2
    requires u2.persister.log == u.persister.log + [HubRecord(StartedEvent(u, s))]
    requires u2.hub.ctos == u.hub.ctos[u.next + 1 := NewCto(u, s)]
    ensures StoredAndStarted(cfg, u, v, s, c, now)
  {
    hide Legal, HubRecord, StartedEvent, NewCto, StartRecord, ApplyDefaults, ProfileFor, Validates;
  }

  // ---------------------------------------------------------------- whole programs

  /** An announcement of the owner's is recorded, and the owner takes no notice of it. */
  lemma OwnerAnnounces(cfg: Config, w: World, p: Payload, outside: Outside)
    requires OwnerAlone(cfg, w) && p.PurposeStarted? && w.script != [] && w.script[0].ByDefault?
    ensures cfg.owner in w.purposes && w.purposes[cfg.owner].creds.Some? && cfg.owner in cfg.names
    ensures var v := SubmitAs(cfg, w, cfg.owner, None, p, outside).w;
            && OwnerAlone(cfg, v) && v.hub == w.hub && v.script == w.script[1..] && v.next == w.next + 1
            && v.persister.handled == w.persister.handled
            && v.persister.log
                 == w.persister.log + [Record(FromPurpose(cfg.owner, cfg.names[cfg.owner]), w.next, None, None, p)]
  {
    hide Legal, Apply, Enabled, Resolve, NameOf, Handle, Recorded, Receive;
    OwnerIsBound(cfg, w);
    OwnEventsAreLetIn(cfg, w, cfg.owner, None, p);
    var u, ev := Do(cfg, w, Mint), OwnedBy(w, cfg.owner, None, p);
    MintKeeps(cfg, w);
    WritesSucceed(cfg, u);
    LetInIsRecorded(cfg, u, ev, outside);
    RecordedKeeps(cfg, u, ev);
    var v := Recorded(cfg, u, ev);
    assert v.persister.log[|u.persister.log|].id == ev.id;
    OwnerIgnores(cfg, v, Relayed(ev));
    HandledByRelay(cfg, v, ev, outside);
  }

  lemma OwnerIsBound(cfg: Config, w: World)
    requires OwnerAlone(cfg, w)
    ensures cfg.owner in w.purposes && w.purposes[cfg.owner].creds.Some? && cfg.owner in cfg.names
    ensures w.purposes[cfg.owner].name == cfg.names[cfg.owner] && cfg.owner != cfg.persister
  {
    hide Legal;
    CredentialsHold(cfg, w);
    Beginning(cfg, w);
    assert RegHolds(w.purposes, w.hub.regs[0]);
  }

  lemma HandledByRelay(cfg: Config, v: World, ev: PurposeEvent, outside: Outside)
    requires ev.payload.PurposeStarted?
    ensures Handle(cfg, v, ev.who, ev, outside) == Multicast(cfg, v, Relayed(ev))
  {
    hide Legal, Good, Apply, Enabled, Multicast;
  }

  lemma FirstSteps(cfg: Config)
    requires ValidConfig(cfg) && NoFailedWrite(cfg) && HonestScript(cfg, cfg.script)
    ensures var w, p := Do(cfg, Init(cfg), MarkAnnounced(cfg.owner)),
            PurposeStarted(cfg.owner, cfg.names[cfg.owner], false);
            && OwnerAlone(cfg, w) && w.script == cfg.script && w.next == 4 && w.persister == Init(cfg).persister
            && w.hub == Init(cfg).hub && cfg.owner in w.purposes
            && AnnounceCall(cfg, Init(cfg), cfg.owner, Outside(0, None))
               == SubmitAs(cfg, w, cfg.owner, None, p, Outside(0, None))
  {
    hide Apply, Enabled, SubmitAs;
    assert Legal(cfg, Init(cfg));
    hide Legal;
    FirstAnnouncement(cfg);
  }

  /** The owner's first announcement. */
  lemma OwnerAnnounced(cfg: Config)
    requires ValidConfig(cfg) && NoFailedWrite(cfg) && HonestScript(cfg, cfg.script)
    requires cfg.script != [] && cfg.script[0].ByDefault?
    ensures var w := AnnounceCall(cfg, Init(cfg), cfg.owner, Outside(0, None)).w;
            && OwnerAlone(cfg, w) && w.script == cfg.script[1..] && w.next == 5 && w.persister.handled == {}
            && w.hub.contexts == map[] && w.persister.log == FirstRecords(cfg)
  {
    hide Legal, Good, Apply, Enabled, SubmitAs, AnnounceCall;
    FirstSteps(cfg);
    var w := Do(cfg, Init(cfg), MarkAnnounced(cfg.owner));
    OwnerAnnounces(cfg, w, PurposeStarted(cfg.owner, cfg.names[cfg.owner], false), Outside(0, None));
  }

  /** What the owner asks for: the export of a turn, for a session. */
  datatype Request = Request(sid: SessionId, locator: string, hash: string, exported: CTO, metadata: Dict)

  function FileOf(q: Request): File {
    File(q.hash, CtoJson.Document(q.exported, None, q.metadata))
  }

  function AskStep(cfg: Config, q: Request, now: int): Step {
    Step(AskForCto(cfg.owner, Canonical(q.sid), "cto_json", q.locator, None, None), Outside(now,
                                                                                            Some(FileOf(q))), false)
  }

  /** The hub can adopt it, and accepts a turn of the owner's with the same profile. */
  predicate Serveable(cfg: Config, q: Request, c: Call) {
    && cfg.owner in cfg.names && cfg.imports && q.locator != "" && OwnersStart(cfg, c) && c.session == Some(q.sid)
    && RefOf(c) == q.exported.profile && q.exported.profile.id != "" && "" !in q.exported.observations
    && Validates(ProfileFor(cfg, RefOf(c)).value, q.exported.content, cfg.strict)
  }

  /** The request and the import, as events of a run that begins with them. */
  function RequestEvent(cfg: Config, q: Request): PurposeEvent
    requires cfg.owner in cfg.names
  {
    var name := cfg.names[cfg.owner];
    PurposeEvent(5, cfg.owner, name, 1, Some(q.sid),
                 RequestCto(Canonical(q.sid), "cto_json", q.locator, cfg.owner, name, None, None))
  }

  function ImportedEvent(cfg: Config, q: Request): PurposeEvent
    requires cfg.owner in cfg.names && CtoJson.Normalize(FileOf(q).document).Success?
  {
    PurposeEvent(7, cfg.persister, cfg.persisterName, PERSISTER_TOKEN, Some(q.sid),
                 ImportedPayload(RequestEvent(cfg, q).payload, FileOf(q)))
  }

  lemma ImportIsSound(cfg: Config, q: Request, c: Call)
    requires Serveable(cfg, q, c)
    ensures CtoJson.Normalize(FileOf(q).document).Success? && Resembles(cfg, c, ImportedEvent(cfg, q))
    ensures CtoJson.Normalize(ImportedEvent(cfg, q).payload.document) == CtoJson.Normalize(FileOf(q).document)
    ensures CtoJson.Normalize(FileOf(q).document).value.content == q.exported.content
  {
    hide CtoJson.Normalize, CtoJson.Document, Validates, ProfileFor;
    CtoJson.ExportNormalizes(q.exported, None, q.metadata);
  }

  lemma CallIsReceived(cfg: Config, w: World, q: Request, now: int)
    requires OwnerAlone(cfg, w) && w.next == 5 && q.locator != ""
    ensures cfg.owner in cfg.names
    ensures var u, outside := Do(cfg, w, Mint), Outside(now, Some(FileOf(q)));
            && OwnerAlone(cfg, u) && u.hub == w.hub && u.persister == w.persister && u.next == 6 && u.script == w.script
            && LetIn(cfg, u, RequestEvent(cfg, q)) && ProperId(cfg, u, 5, true)
            && Exec(cfg, w, AskStep(cfg, q, now).call, outside) == Receive(cfg, u, RequestEvent(cfg, q), true, outside)
  {
    hide Legal, Apply, Enabled, Resolve, NameOf, Receive;
    OwnerIsBound(cfg, w);
    OwnerHasItsToken(cfg, w);
    OwnEventsAreLetIn(cfg, w, cfg.owner, Some(q.sid), RequestEvent(cfg, q).payload);
    MintKeeps(cfg, w);
    MintIsEnabled(cfg, w);
    AskIsSubmitted(cfg, w, q, now);
  }

  lemma AskIsSubmitted(cfg: Config, w: World, q: Request, now: int)
    requires cfg.owner in w.purposes && w.purposes[cfg.owner].creds == Some(Issue(1, cfg.owner)) && q.locator != ""
    requires cfg.owner in cfg.names && w.purposes[cfg.owner].name == cfg.names[cfg.owner] && w.next == 5
    ensures var outside := Outside(now, Some(FileOf(q)));
            Exec(cfg, w, AskStep(cfg, q, now).call, outside)
              == Receive(cfg, Do(cfg, w, Mint), RequestEvent(cfg, q), true, outside)
  {
    hide Legal, Good, Apply, Enabled, Receive;
    var c, outside, p := AskStep(cfg, q, now).call, Outside(now, Some(FileOf(q))), RequestEvent(cfg, q).payload;
    assert Exec(cfg, w, c, outside) == AskForCtoCall(cfg, w, c, outside);
    assert AskForCtoCall(cfg, w, c, outside) == SubmitAs(cfg, w, cfg.owner, Some(q.sid), p, outside);
    assert OwnedBy(w, cfg.owner, Some(q.sid), p) == RequestEvent(cfg, q);
  }

  lemma OwnerHasItsToken(cfg: Config, w: World)
    requires OwnerAlone(cfg, w)
    ensures cfg.owner in w.purposes && w.purposes[cfg.owner].creds == Some(Issue(1, cfg.owner))
  {
    hide Legal;
    CredentialsHold(cfg, w);
    assert RegHolds(w.purposes, w.hub.regs[0]);
  }

  /** What has happened when the import's relay is about to begin, whatever the handlers to come. */
  ghost predicate AboutToRelay(cfg: Config, v: World, q: Request) {
    && cfg.owner in cfg.names && CtoJson.Normalize(FileOf(q).document).Success?
    && OwnerAlone(cfg, v) && ImportDue(cfg, v, ImportedEvent(cfg, q)) && v.next == 8 && v.hub.contexts == map[]
    && v.persister.log == FirstRecords(cfg) + [PurposeRecord(RequestEvent(cfg, q)),
                                               PurposeRecord(ImportedEvent(cfg, q))]
  }

  lemma ImportAsServed(cfg: Config, u: World, q: Request, now: int)
    requires OwnerAlone(cfg, u) && u.next == 6 && cfg.owner in cfg.names
             && CtoJson.Normalize(FileOf(q).document).Success?
    requires Transfers.ImportEvent(cfg, u, RequestEvent(cfg, q), Outside(now, Some(FileOf(q)))).id == 7
    ensures Transfers.ImportEvent(cfg, u, RequestEvent(cfg, q), Outside(now, Some(FileOf(q)))) == ImportedEvent(cfg, q)
  {
    hide Legal, Apply, Enabled, CtoJson.Normalize, CtoJson.Document;
    OwnersToken(cfg, u);
  }

  /** The run up to there. */
  lemma RunToRelay(cfg: Config, q: Request, c: Call, now: int) returns (v: World)
    requires ValidConfig(cfg) && NoFailedWrite(cfg) && HonestScript(cfg, cfg.script) && Serveable(cfg, q, c)
    requires cfg.script != [] && cfg.script[0].ByDefault?
    ensures AboutToRelay(cfg, v, q) && v.script == cfg.script[1..]
    ensures Hub.Started(cfg, [AskStep(cfg, q, now)])
            == HandleCtoImported(cfg, v, cfg.persister, ImportedEvent(cfg, q), now).w
  {
    hide Legal, Apply, Enabled, LetIn, NameOf, Receive, HandleCtoImported, AnnounceCall, Exec, ImportDue, FirstRecords;
    hide CtoJson.Normalize, CtoJson.Document, Validates, Transfers.ImportEvent, Transfers.AfterSubmission;
    OwnerAnnounced(cfg);
    var w := AnnounceCall(cfg, Init(cfg), cfg.owner, Outside(0, None)).w;
    CallIsReceived(cfg, w, q, now);
    ImportIsSound(cfg, q, c);
    var u, outside := Do(cfg, w, Mint), Outside(now, Some(FileOf(q)));
    Transfers.ImportIsSubmitted(cfg, u, RequestEvent(cfg, q), outside, q.exported, None, q.metadata);
    ImportAsServed(cfg, u, q, now);
    v := Transfers.AfterSubmission(cfg, u, RequestEvent(cfg, q), outside);
    OneCall(cfg, AskStep(cfg, q, now));
  }

  lemma OneCall(cfg: Config, step: Step)
    ensures Hub.Started(cfg, [step])
         == Exec(cfg, AnnounceCall(cfg, Init(cfg), cfg.owner, Outside(0, None)).w, step.call, step.outside).w
  {
    hide Legal, Good, Apply, Enabled, Exec, AnnounceCall;
    var w := AnnounceCall(cfg, Init(cfg), cfg.owner, Outside(0, None)).w;
    var v := Exec(cfg, w, step.call, step.outside).w;
    assert [step][1..] == [];
    assert Hub.RunCalls(cfg, w, [step]) == Hub.RunCalls(cfg, v, []) == v;
  }

  /** The hub whose owner makes the call while it hears of the import, and the one whose owner makes it when it hears
      of the import's turn. */
  function EarlyCaller(cfg: Config, c: Call, now: int): Config {
    cfg.(script := [ByDefault, ByHandler([StartStep(c, now)], false)])
  }

  function LateCaller(cfg: Config, c: Call, now: int): Config {
    cfg.(script := [ByDefault, ByDefault, ByHandler([StartStep(c, now)], false)])
  }

  /** Nothing but the handlers tells the two hubs apart. */
  lemma OnlyTheScript(cfg: Config, script: seq<Reaction>, q: Request, c: Call)
    requires ValidConfig(cfg) && NoFailedWrite(cfg) && Serveable(cfg, q, c)
    requires CtoJson.Normalize(FileOf(q).document).Success?
    ensures var d := cfg.(script := script);
            && ValidConfig(d) && NoFailedWrite(d) && Serveable(d, q, c) && FirstRecords(d) == FirstRecords(cfg)
            && RequestEvent(d, q) == RequestEvent(cfg, q) && ImportedEvent(d, q) == ImportedEvent(cfg, q)
            && ProfileFor(d, RefOf(c)) == ProfileFor(cfg, RefOf(c))
  {
    hide Legal, CtoJson.Normalize, CtoJson.Document, Validates;
  }

  /** What the log of either run is. */
  function BothLogs(cfg: Config, q: Request, c: Call, now: int): seq<Record>
    requires cfg.owner in cfg.names && c.StartTurn? && CtoJson.Normalize(FileOf(q).document).Success?
  {
    FirstRecords(cfg) + [PurposeRecord(RequestEvent(cfg, q)), PurposeRecord(ImportedEvent(cfg, q))]
    + [StartRecord(cfg, q.sid, RefOf(c), now, 8), StartRecord(cfg, q.sid, RefOf(c), now, 10)]
  }

  ghost predicate EndsEarly(cfg: Config, v: World, q: Request, c: Call, now: int) {
    && Serveable(cfg, q, c) && CtoJson.Normalize(FileOf(q).document).Success?
    && Good(cfg, v) && v.persister.log == BothLogs(cfg, q, c, now) && 9 in v.hub.ctos
    && v.hub.ctos[9].content == ApplyDefaults(ProfileFor(cfg, RefOf(c)).value, c.content, map[]).0
    && v.hub.ctos[9].observations == map[]
  }

  ghost predicate EndsLate(cfg: Config, v: World, q: Request, c: Call, now: int) {
    && Serveable(cfg, q, c) && CtoJson.Normalize(FileOf(q).document).Success?
    && Good(cfg, v) && v.persister.log == BothLogs(cfg, q, c, now) && 9 in v.hub.ctos
    && v.hub.ctos[9].content == q.exported.content && CtoJson.PROVENANCE in v.hub.ctos[9].observations
  }

  lemma RunEarly(cfg: Config, q: Request, c: Call, now: int)
    requires ValidConfig(cfg) && NoFailedWrite(cfg) && Serveable(cfg, q, c)
    requires cfg.script == [ByDefault, ByHandler([StartStep(c, now)], false)]
    ensures EndsEarly(cfg, Hub.Started(cfg, [AskStep(cfg, q, now)]), q, c, now)
  {
    hide Legal, Good, Apply, Enabled, HandleCtoImported, ImportDue, Hub.Started, FirstRecords, StartRecord;
    hide CtoJson.Normalize, CtoJson.Document, Validates, ApplyDefaults, ProfileFor;
    ImportIsSound(cfg, q, c);
    var v := RunToRelay(cfg, q, c, now);
    StartedInRelay(cfg, v, ImportedEvent(cfg, q), c, now);
  }

  lemma RunLate(cfg: Config, q: Request, c: Call, now: int)
    requires ValidConfig(cfg) && NoFailedWrite(cfg) && Serveable(cfg, q, c)
    requires cfg.script == [ByDefault, ByDefault, ByHandler([StartStep(c, now)], false)]
    ensures EndsLate(cfg, Hub.Started(cfg, [AskStep(cfg, q, now)]), q, c, now)
  {
    hide Legal, Good, Apply, Enabled, HandleCtoImported, ImportDue, Hub.Started, FirstRecords, StartRecord;
    hide CtoJson.Normalize, CtoJson.Document, Validates, ApplyDefaults, ProfileFor, CtoJson.Adopted;
    ImportIsSound(cfg, q, c);
    var v := RunToRelay(cfg, q, c, now);
    StartedAfterwards(cfg, v, ImportedEvent(cfg, q), c, now);
    var p := ImportedEvent(cfg, q).payload;
    CtoJson.AdoptedIsNotEmpty(CtoJson.Normalize(p.document).value, SourceOf(p));
  }

  /** The log does not tell a turn that an import fits. For every hub with an Archivist, every exported turn its owner
      asks for and every call by which its owner may start a turn of the same session and profile: whether the owner
      makes that call while it hears of the import or when it hears of the import's turn, no handler raises, no write
      fails, and the two logs are the same record for record. But turn 9 is in one run the owner's own, empty and with
      the call's content, and in the other the import's, with the exported content and provenance. */
  lemma OneLogTwoTurns(cfg: Config, q: Request, c: Call, now: int)
    requires ValidConfig(cfg) && NoFailedWrite(cfg) && Serveable(cfg, q, c)
    ensures var early, late := EarlyCaller(cfg, c, now), LateCaller(cfg, c, now);
            var a, b := Hub.Started(early, [AskStep(cfg, q, now)]), Hub.Started(late, [AskStep(cfg, q, now)]);
            && a.persister.log == b.persister.log && EndsEarly(early, a, q, c, now) && EndsLate(late, b, q, c, now)
  {
    hide Legal, Good, Hub.Started, CtoJson.Normalize, CtoJson.Document, Validates, ApplyDefaults, ProfileFor, Serveable;
    hide FirstRecords;
    ImportIsSound(cfg, q, c);
    OnlyTheScript(cfg, EarlyCaller(cfg, c, now).script, q, c);
    OnlyTheScript(cfg, LateCaller(cfg, c, now).script, q, c);
    RunEarly(EarlyCaller(cfg, c, now), q, c, now);
    RunLate(LateCaller(cfg, c, now), q, c, now);
  }
}
