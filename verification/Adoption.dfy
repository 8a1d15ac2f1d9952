/** Joining, importing and the events only the persister may author: what these operations have done when they
    return. */
module Adoption {
  import opened Wrappers
  import opened Json
  import opened Profiles
  import opened Ctos
  import opened Events
  import opened World
  import opened Invariants
  import opened Hub
  import opened History
  import opened Credentials
  import opened Operations
  import opened Imports
  import CtoJson

  // ---------------------------------------------------------------- imports

  /** What a file request asks for: the Archivist, a cto_json file that is there and normalises, and a key not yet
      handled. */
  predicate Importable(cfg: Config, w: World, p: Payload, outside: Outside)
    requires p.RequestCto?
  {
    && cfg.imports && p.kind == "cto_json" && outside.file.Some?
    && RequestKey(p, outside.file.value) !in w.persister.handled
    && CtoJson.Normalize(outside.file.value.document).Success?
  }

  /** The event an import is submitted as. */
  function ImportedPayload(p: Payload, f: File): Payload
    requires p.RequestCto? && CtoJson.Normalize(f.document).Success?
  {
    CtoImported(p.session, p.kind, p.locator, f.hash, p.requester, p.requesterName,
                CtoJson.Normalize(f.document).value.document, p.code, RequestKey(p, f))
  }

  /** A request makes the persister write one cto_imported, holding the normalised document, exactly when it can be
      imported and its key is new; otherwise nothing happens, without an error only if the key was handled. */
  lemma RequestImportOutcome(cfg: Config, w: World, p: Payload, outside: Outside)
    requires Good(cfg, w) && Open(w) && p.RequestCto? && p.session.Spelled?
    ensures var r := PersisterImports(cfg, w, p, outside);
            if Importable(cfg, w, p, outside)
            then && |w.hist| < |r.w.hist|
                 && r.w.hist[|w.hist|] == WriteOwn(Some(p.session.sid), ImportedPayload(p, outside.file.value))
                 && (WriteOk(w) ==>
                       && |w.persister.log| < |r.w.persister.log|
                       && r.w.persister.log[|w.persister.log|]
                            == PurposeRecord(OwnEvent(cfg, w, Some(p.session.sid),
                                                      ImportedPayload(p, outside.file.value))))
            else && r.w == w
                 && (r.out.Done? ==> outside.file.Some? && RequestKey(p, outside.file.value) in w.persister.handled)
  {
    hide Legal, Apply, Enabled, HandleCtoImported, CtoJson.Normalize, Ingress;
    if Importable(cfg, w, p, outside) {
      var imported := ImportedPayload(p, outside.file.value);
      var w1 := Do(cfg, w, WriteOwn(Some(p.session.sid), imported));
      OwnWriteLogged(cfg, w, Some(p.session.sid), imported);
      var a := SubmitOwn(cfg, w, Some(p.session.sid), imported);
      assert w1.hist <= a.w.hist
             && w1.persister.log <= a.w.persister.log by { OwnSubmission(cfg, w, Some(p.session.sid), imported); }
      assert a.w.hist <= PersisterImports(cfg, w, p, outside).w.hist;
    }
  }

  lemma OwnSubmission(cfg: Config, w: World, session: Option<SessionId>, p: Payload)
    requires BuiltIn(p)
    ensures var w1, a := Do(cfg, w, WriteOwn(session, p)), SubmitOwn(cfg, w, session, p);
            w1.hist <= a.w.hist && w1.persister.log <= a.w.persister.log
  {
    hide Legal, Apply, Enabled, Resolve, NameOf;
  }

  lemma OwnWriteLogged(cfg: Config, w: World, session: Option<SessionId>, p: Payload)
    requires Legal(cfg, w)
    ensures WriteOk(w) ==>
              LogAfter(cfg, w, WriteOwn(session, p)) == w.persister.log + [PurposeRecord(OwnEvent(cfg, w, session, p))]
  {
    hide Legal;
    IdsAreMinted(cfg, w);
  }

  /** The CTO adopted from an import, if it is adopted at all. */
  function AdoptedFrom(cfg: Config, v: World, ev: PurposeEvent, now: int): Option<CTO>
    requires ev.payload.CtoImported? && ev.payload.session.Spelled?
  {
    Adopt(cfg, ev.payload.document, SourceOf(ev.payload), v.next + 1, ev.payload.session.sid, now, v.next)
  }

  /** The cto_started of an adopted CTO, in the requester's name. */
  predicate IsStartOf(r: Record, c: CTO, p: Payload)
    requires p.CtoImported?
  {
    r == Record(FromHub, r.id, Some(c.session), Some(c.turn), CtoStarted(ToIndex(c), p.requester, p.requesterName))
    && c.lastEvent == Some(r.id)
  }

  /** What adopting an import leaves, from the world `v` its relay has led to. */
  ghost predicate AdoptedOrRefused(cfg: Config, v: World, ev: PurposeEvent, now: int, r: Res)
    requires ev.payload.CtoImported? && ev.payload.session.Spelled?
  {
    var c := AdoptedFrom(cfg, v, ev, now);
    if c.Some? && (ev.payload.session.sid in v.hub.owners || ev.payload.requester == cfg.owner)
    then && c.value.turn in r.w.hub.ctos && TurnGrows(c.value, r.w.hub.ctos[c.value.turn])
         && c.value.turn !in v.hub.ctos
         && (WriteOk(v) ==>
               && |v.persister.log| < |r.w.persister.log|
               && IsStartOf(r.w.persister.log[|v.persister.log|], c.value, ev.payload))
    else r.out.Raised? && r.w.hub.ctos == v.hub.ctos && r.w.persister.log == v.persister.log
  }

  /** The relay of an import to everyone. */
  function Relay(cfg: Config, w: World, ev: PurposeEvent): Res {
    Multicast(cfg, Do(cfg, w, BeginImport(ev)), Relayed(ev))
  }

  /** The hub's side: the import is relayed to everyone first; then it is adopted exactly as exporting and
      importing has it, stored as a new turn and announced, provided that the session has an owner or the requester
      may own it. */
  lemma ImportOutcome(cfg: Config, w: World, ev: PurposeEvent, now: int)
    requires Good(cfg, w) && ImportDue(cfg, w, ev) && Relay(cfg, w, ev).out.Done?
    ensures var v := Relay(cfg, w, ev).w;
            && |w.deliveries| <= |v.deliveries|
            && Reached(v.deliveries[|w.deliveries|..], Relayed(ev), Recipients(w.hub.regs))
            && AdoptedOrRefused(cfg, v, ev, now, HandleCtoImported(cfg, w, cfg.persister, ev, now))
  {
    hide Legal, Apply, Enabled, Multicast, Reached, Grows, SettleImport, AdoptedOrRefused;
    BeginImportIsEnabled(cfg, w, ev);
    BeginImportEffect(cfg, w, ev);
    var w0 := Do(cfg, w, BeginImport(ev));
    HasInExtension(w.persister.log, w0.persister.log, ev.id);
    MulticastReachesEveryone(cfg, w0, Relayed(ev));
    var v := Relay(cfg, w, ev).w;
    LogOfGrown(w0, v);
    SettleOutcome(cfg, v, ev, now);
    assert HandleCtoImported(cfg, w, cfg.persister, ev, now) == SettleImport(cfg, v, ev, now);
  }

  lemma BeginImportEffect(cfg: Config, w: World, ev: PurposeEvent)
    ensures var w0 := Apply(cfg, w, BeginImport(ev));
            w0.deliveries == w.deliveries && w0.hub == w.hub && w0.persister.log == w.persister.log
              && w0.script == w.script
  {
  }

  /** What settling an import does, whatever its relay has done before. */
  lemma SettleOutcome(cfg: Config, v: World, ev: PurposeEvent, now: int)
    requires Good(cfg, v) && Innermost(v, ev)
    ensures AdoptedOrRefused(cfg, v, ev, now, SettleImport(cfg, v, ev, now))
  {
    hide Legal, Apply, Enabled, AcceptNewCto, EnsureOwner, Abandon, Validates, CtoJson.Normalize, Grows;
    hide CtoJson.Adopted, TurnGrows;
    var p := ev.payload;
    AbandonedEffect(cfg, v, BadValue);
    if CtoJson.Normalize(p.document).Success? {
      OwnerEnsured(cfg, v, p.session.sid, p.requester, Some(ev));
      var owned := EnsureOwner(cfg, v, p.session.sid, p.requester, Some(ev));
      AbandonedEffect(cfg, owned.w, UnknownKey);
      AbandonedEffect(cfg, owned.w, BadValue);
      if owned.out.Raised? {
        AbandonedEffect(cfg, owned.w, owned.out.error);
      } else if AdoptedFrom(cfg, v, ev, now).Some? {
        CtoJson.AdoptedIsNamed(p.document, SourceOf(p));
        AdoptedSeedIsEnabled(cfg, owned.w, ev, now);
        AdoptionStored(cfg, owned.w, AdoptedSeed(ev, now));
      }
    }
  }

  lemma AbandonedEffect(cfg: Config, w: World, error: Error)
    ensures var r := Abandon(cfg, w, error);
            r.out.Raised? && r.w.hub == w.hub && r.w.persister.log == w.persister.log
  {
    hide Legal, Apply, Enabled;
  }

  lemma OwnerEnsured(cfg: Config, v: World, sid: SessionId, requester: PurposeId, source: Option<PurposeEvent>)
    requires Good(cfg, v) && MayOwn(v, sid, requester, source)
    ensures var r := EnsureOwner(cfg, v, sid, requester, source);
            && (r.out.Done? <==> sid in v.hub.owners || requester == cfg.owner)
            && Good(cfg, r.w) && r.w.hub.ctos == v.hub.ctos && r.w.persister.log == v.persister.log
            && r.w.next == v.next && r.w.writes == v.writes
  {
    hide Legal, Apply;
    OwnEffect(cfg, v, sid, requester, source);
  }

  lemma OwnEffect(cfg: Config, v: World, sid: SessionId, who: PurposeId, source: Option<PurposeEvent>)
    ensures var w1 := Apply(cfg, v, Own(sid, who, source));
            w1.hub.ctos == v.hub.ctos && w1.persister == v.persister && w1.next == v.next && w1.writes == v.writes
            && w1.script == v.script
  {
  }

  lemma AdoptionStored(cfg: Config, w: World, s: Seed)
    requires Good(cfg, w) && Enabled(cfg, w, StoreTurn(s))
    ensures var r, c := AcceptNewCto(cfg, w, s), NewCto(w, s);
            && c.turn !in w.hub.ctos && c.turn in r.w.hub.ctos && TurnGrows(c, r.w.hub.ctos[c.turn])
            && (WriteOk(w) ==>
                  && |w.persister.log| < |r.w.persister.log|
                  && r.w.persister.log[|w.persister.log|] == HubRecord(StartedEvent(w, s)))
  {
    hide Legal, Apply, Enabled, WriteAndMulticast, Reached, Grows;
    AuthoredOutcome(cfg, w, StoreTurn(s), Some(w.next + 1));
    IdsAreMinted(cfg, w);
    StoredGrows(cfg, w, s, AcceptNewCto(cfg, w, s).w);
  }

  lemma StoredGrows(cfg: Config, w: World, s: Seed, w': World)
    requires Grows(Apply(cfg, w, StoreTurn(s)), w')
    ensures w.next + 1 in w'.hub.ctos && TurnGrows(NewCto(w, s), w'.hub.ctos[w.next + 1])
  {
    hide RegsAfter, PurposesAfter, PersisterAfter, PendingAfter, ClosureAfter, TurnGrows;
    assert w.next + 1 in Apply(cfg, w, StoreTurn(s)).hub.ctos;
  }

  // ---------------------------------------------------------------- the persister's own events

  /** A session_started, session_completed or cto_imported event from anyone but the persister is written, as any
      event let in is, and then refused: it starts, ends and adopts nothing. */
  lemma OnlyThePersisterAuthorsLifecycle(cfg: Config, w: World, ev: PurposeEvent, outside: Outside)
    requires Good(cfg, w) && ProperId(cfg, w, ev.id, true) && ev.token != PERSISTER_TOKEN
    requires ev.payload.SessionStarted? || ev.payload.SessionCompleted? || ev.payload.CtoImported?
    ensures var r := Receive(cfg, w, ev, true, outside);
            r.out.Raised? && r.w.hub == w.hub && |r.w.persister.log| <= |w.persister.log| + 1
  {
    hide Legal, Apply, Enabled, Resolve, NameOf, HandleSessionCompleted, Ingress;
    var a := Ingress(cfg, w, ev, true);
    IngressAddsOne(cfg, w, ev);
    if a.Admitted? {
      assert ev.who != cfg.persister;
      Refuses(cfg, a.w, ev.who, ev.session);
      assert Handle(cfg, a.w, a.who, ev, outside) == Res(a.w, Raised(Unauthorized));
      assert Receive(cfg, w, ev, true, outside) == Handle(cfg, a.w, a.who, ev, outside);
    }
  }

  lemma Refuses(cfg: Config, w: World, who: PurposeId, session: Option<SessionId>)
    requires who != cfg.persister
    ensures HandleSessionCompleted(cfg, w, who, session) == Res(w, Raised(Unauthorized))
  {
  }

  lemma IngressAddsOne(cfg: Config, w: World, ev: PurposeEvent)
    requires BuiltIn(ev.payload)
    ensures |Ingress(cfg, w, ev, true).w.persister.log| <= |w.persister.log| + 1
  {
    hide Legal, Apply, Enabled, Resolve, NameOf;
  }

  // ---------------------------------------------------------------- closing the old way

  /** The legacy `close` tells everyone that a session, which it does not name, is closing, and leaves the hub's own
      state alone: what closes a hub is an owner's request. */
  lemma LegacyCloseOutcome(cfg: Config, w: World, why: string)
    requires Good(cfg, w) && WriteOk(w)
    ensures var r := CloseCall(cfg, w, why);
            if Open(w)
            then && |w.hist| < |r.w.hist| && r.w.hist[|w.hist|] == LegacyClose(why)
                 && Apply(cfg, w, LegacyClose(why)).hub == w.hub
                 && Announced(w, r, HubEvent(w.next, None, None, SessionClosing(why, None)))
            else r == Res(w, Raised(HubClosed))
  {
    hide Legal, Apply, Enabled, WriteAndMulticast, Reached, Grows;
    if Open(w) {
      LegacyEnabled(cfg, w, why);
      AuthoredOutcome(cfg, w, LegacyClose(why), None);
      WrittenFirst(cfg, w, LegacyClose(why));
    }
  }

  lemma LegacyEnabled(cfg: Config, w: World, why: string)
    requires w.owed.None? && Open(w)
    ensures Enabled(cfg, w, LegacyClose(why)) && Apply(cfg, w, LegacyClose(why)).hub == w.hub
  {
  }

  // ---------------------------------------------------------------- joining

  /** The world once a Purpose has been registered, and has marked itself announced and made its purpose_started. */
  function Joined(cfg: Config, w: World, who: PurposeId): World
    requires who in w.purposes
  {
    Do(cfg, Do(cfg, Do(cfg, w, Register(who)), MarkAnnounced(who)), Mint)
  }

  function JoinEvent(w: World, who: PurposeId): PurposeEvent
    requires who in w.purposes
  {
    PurposeEvent(w.next + 1, who, w.purposes[who].name, w.next, None, PurposeStarted(who, w.purposes[who].name, false))
  }

  /** `start_purpose`: the Purpose has new credentials, its purpose_started is the next record and reaches everyone
      registered, itself included; one that has announced itself before is only registered again. */
  lemma StartPurposeOutcome(cfg: Config, w: World, who: PurposeId, outside: Outside)
    requires Good(cfg, w) && Open(w) && who in w.purposes && who != cfg.persister && WriteOk(w)
    ensures var r := StartPurposeCall(cfg, w, who, outside);
            if w.purposes[who].announced then r == Res(Apply(cfg, w, Register(who)), Ok)
            else && |w.persister.log| < |r.w.persister.log|
                 && r.w.persister.log[|w.persister.log|]
                      == Record(FromPurpose(who, w.purposes[who].name), w.next + 1, None, None,
                                PurposeStarted(who, w.purposes[who].name, false))
                 && (r.out.Done? ==>
                       && |w.deliveries| <= |r.w.deliveries|
                       && Reached(r.w.deliveries[|w.deliveries|..],
                                  HubEvent(w.next + 1, None, None, PurposeStarted(who, w.purposes[who].name, false)),
                                  Recipients(w.hub.regs)
                                  + if exists i :: 0 <= i < |w.hub.regs| && w.hub.regs[i].who == who then []
                                    else [who]))
  {
    hide Legal, Apply, Enabled, Receive, Reached, Upsert;
    RegisterEffect(cfg, w, who);
    RecipientsAfter(cfg, w, who);
    if !w.purposes[who].announced {
      JoinedEffect(cfg, w, who);
      JoinRouted(cfg, w, who, outside);
      JoinReceived(cfg, Joined(cfg, w, who), JoinEvent(w, who), outside);
    }
  }

  /** Everyone registered hears of it, in the order in which they first were, a new one last. */
  lemma RecipientsAfter(cfg: Config, w: World, who: PurposeId)
    requires Legal(cfg, w)
    ensures Recipients(Upsert(w.hub.regs, Registration(who, Issue(w.next, who))))
         == Recipients(w.hub.regs)
            + if exists i :: 0 <= i < |w.hub.regs| && w.hub.regs[i].who == who then [] else [who]
  {
    hide Legal, Upsert;
    CredentialsHold(cfg, w);
    UpsertKeepsOrder(w.hub.regs, Registration(who, Issue(w.next, who)));
    var later := Upsert(w.hub.regs, Registration(who, Issue(w.next, who)));
    assert later == later[..|w.hub.regs|] + later[|w.hub.regs|..];
  }

  lemma JoinRouted(cfg: Config, w: World, who: PurposeId, outside: Outside)
    requires Open(w) && who in w.purposes && !w.purposes[who].announced
    ensures StartPurposeCall(cfg, w, who, outside)
            == Receive(cfg, Joined(cfg, w, who), JoinEvent(w, who), true, outside)
  {
    hide Legal, Good, Apply, Enabled, Receive, RegsAfter, PendingAfter, CtosAfter;
    RegisterEffect(cfg, w, who);
    var w1 := Do(cfg, w, Register(who));
    var w2 := Do(cfg, w1, MarkAnnounced(who));
    var p := PurposeStarted(who, w.purposes[who].name, false);
    assert OwnedBy(w2, who, None, p) == JoinEvent(w, who);
    assert SubmitAs(cfg, w2, who, None, p, outside)
           == Receive(cfg, Joined(cfg, w, who), JoinEvent(w, who), true, outside);
    assert AnnounceCall(cfg, w1, who, outside) == SubmitAs(cfg, w2, who, None, p, outside);
  }

  lemma JoinedEffect(cfg: Config, w: World, who: PurposeId)
    requires Good(cfg, w) && Open(w) && who in w.purposes && who != cfg.persister
    ensures var v, ev := Joined(cfg, w, who), JoinEvent(w, who);
            && Good(cfg, v) && Open(v) && LetIn(cfg, v, ev) && ProperId(cfg, v, ev.id, true)
               && ev.token != PERSISTER_TOKEN
            && v.persister == w.persister && v.deliveries == w.deliveries && v.writes == w.writes
            && v.hub.regs == Upsert(w.hub.regs, Registration(who, Issue(w.next, who)))
  {
    hide Legal, Apply, Enabled, Resolve, Upsert;
    RegisterEffect(cfg, w, who);
    JoinSteps(cfg, w, who);
    var w1 := Do(cfg, w, Register(who));
    var w2 := Do(cfg, w1, MarkAnnounced(who));
    var v := Do(cfg, w2, Mint);
    IdsAreMinted(cfg, w);
    MintedIsProper(cfg, w2);
    ResolveExact(cfg, v, w.next, who);
    CredentialsHold(cfg, v);
  }

  lemma JoinSteps(cfg: Config, w: World, who: PurposeId)
    requires w.owed.None? && Open(w) && who in w.purposes
    ensures var w1 := Apply(cfg, w, Register(who));
            var w2 := Apply(cfg, w1, MarkAnnounced(who));
            var v := Apply(cfg, w2, Mint);
            && Enabled(cfg, w, Register(who)) && Enabled(cfg, w1, MarkAnnounced(who)) && Enabled(cfg, w2, Mint)
            && who in v.purposes && v.purposes[who].name == w.purposes[who].name
               && v.purposes[who].creds == Some(Issue(w.next, who))
            && v.persister == w.persister && v.deliveries == w.deliveries && v.writes == w.writes
               && v.script == w.script
            && v.hub == w.hub.(regs := Upsert(w.hub.regs, Registration(who, Issue(w.next, who))))
            && w2.next == w.next + 1
  {
    hide Upsert;
  }

  /** A purpose_started let in is recorded and then relayed. */
  lemma JoinReceived(cfg: Config, v: World, ev: PurposeEvent, outside: Outside)
    requires Good(cfg, v) && LetIn(cfg, v, ev) && ProperId(cfg, v, ev.id, true) && ev.token != PERSISTER_TOKEN
    requires WriteOk(v) && ev.payload.PurposeStarted?
    ensures var r := Receive(cfg, v, ev, true, outside);
            && |v.persister.log| < |r.w.persister.log| && r.w.persister.log[|v.persister.log|] == PurposeRecord(ev)
            && (r.out.Done? ==>
                  && |v.deliveries| <= |r.w.deliveries|
                  && Reached(r.w.deliveries[|v.deliveries|..], Relayed(ev), Recipients(v.hub.regs)))
  {
    hide Legal, Apply, Enabled, Resolve, NameOf, Multicast, Reached, Grows;
    TakeTurnOutcome(cfg, v, ev, outside);
    var a := Ingress(cfg, v, ev, true);
    IngestLogged(cfg, v, ev, a.w);
    assert a.Admitted?;
    assert Receive(cfg, v, ev, true, outside) == Multicast(cfg, a.w, Relayed(ev));
    if Multicast(cfg, a.w, Relayed(ev)).out.Done? {
      MulticastReachesEveryone(cfg, a.w, Relayed(ev));
      LogOfGrown(a.w, Multicast(cfg, a.w, Relayed(ev)).w);
    }
  }
}
