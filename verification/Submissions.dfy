/** The events a Purpose makes in its own name, and the first records of a run (base_purpose.py). */
module Submissions {
  import opened Wrappers
  import opened Ctos
  import opened Events
  import opened World
  import opened Invariants
  import opened Hub
  import opened History
  import opened Credentials
  import opened Operations
  import opened Adoption
  import CtoJson

  /** The next record is this Purpose's event, under its own name, and nothing was done about it before. */
  ghost predicate Submits(w: World, r: Res, who: PurposeId, session: Option<SessionId>, p: Payload)
    requires who in w.purposes
  {
    && |w.persister.log| < |r.w.persister.log|
    && r.w.persister.log[|w.persister.log|] == Record(FromPurpose(who, w.purposes[who].name), w.next, session, None, p)
  }

  /** An event a Purpose submits is let in whenever its type is accepted now and the Purpose is registered: the
      credentials and names it fills in are always the right ones. */
  lemma OwnEventsAreLetIn(cfg: Config, w: World, who: PurposeId, session: Option<SessionId>, p: Payload)
    requires Good(cfg, w) && who in w.purposes && w.purposes[who].creds.Some?
    ensures var v, ev := Do(cfg, w, Mint), OwnedBy(w, who, session, p);
            && Good(cfg, v) && ProperId(cfg, v, ev.id, true) && ev.token != PERSISTER_TOKEN
            && (LetIn(cfg, v, ev) <==> Accepts(w, p))
            && v.persister == w.persister && v.deliveries == w.deliveries && v.writes == w.writes && v.hub == w.hub
  {
    hide Legal, Apply, Enabled, Resolve;
    var v := Do(cfg, w, Mint);
    MintIsEnabled(cfg, w);
    MintKeeps(cfg, w);
    MintedIsProper(cfg, w);
    OwnToken(cfg, w, who);
    ResolveExact(cfg, v, w.purposes[who].creds.value.token, who);
    Beginning(cfg, w);
    CredentialsHold(cfg, w);
  }

  /** Submitting: the event is recorded next, or nothing is left behind and the Purpose gets an error. */
  lemma SubmitOutcome(cfg: Config, w: World, who: PurposeId, session: Option<SessionId>, p: Payload, outside: Outside)
    requires Good(cfg, w) && who in w.purposes && BuiltIn(p)
    ensures var r := SubmitAs(cfg, w, who, session, p, outside);
            if w.purposes[who].creds.Some? && Accepts(w, p) && WriteOk(w) then Submits(w, r, who, session, p)
            else r.out.Raised? && Unnoticed(w, r.w) && r.w.hub == w.hub
  {
    hide Legal, Apply, Enabled, Resolve, Receive, NameOf;
    if w.purposes[who].creds.Some? {
      OwnEventsAreLetIn(cfg, w, who, session, p);
      MintKeeps(cfg, w);
      TakeTurnOutcome(cfg, Do(cfg, w, Mint), OwnedBy(w, who, session, p), outside);
    }
  }

  lemma MarkRequestedKeeps(cfg: Config, w: World, who: PurposeId, text: SidText)
    requires w.owed.None? && who in w.purposes
    ensures var v := Apply(cfg, w, MarkRequested(who, text));
            && Enabled(cfg, w, MarkRequested(who, text)) && v.hub == w.hub && v.persister == w.persister
               && v.deliveries == w.deliveries
            && v.writes == w.writes && v.script == w.script && v.next == w.next
            && v.purposes == w.purposes[who := w.purposes[who].(requested := w.purposes[who].requested + {text})]
  {
  }

  /** `request_session_end`: the first request for a session by a registered Purpose is recorded, if requests are
      accepted; any further one is dropped by the Purpose itself. */
  lemma RequestSessionEndOutcome(cfg: Config, w: World, who: PurposeId, text: SidText, why: string, outside: Outside)
    requires Good(cfg, w) && who in w.purposes && !text.Empty?
    ensures var r := RequestEndCall(cfg, w, who, text, why, outside);
            if text in w.purposes[who].requested then r == Res(w, Ok)
            else if w.purposes[who].creds.Some? && !w.hub.closed
              && WriteOk(w) then Submits(w, r, who, None, RequestSessionEnd(text, why))
            else r.out.Raised? && r.w.persister == w.persister && r.w.hub == w.hub && r.w.deliveries == w.deliveries
                 && who in r.w.purposes && text in r.w.purposes[who].requested
  {
    hide Legal, Apply, Enabled, SubmitAs;
    if text !in w.purposes[who].requested {
      MarkRequestedKeeps(cfg, w, who, text);
      SubmitOutcome(cfg, Do(cfg, w, MarkRequested(who, text)), who, None, RequestSessionEnd(text, why), outside);
    }
  }

  /** `request_cto`: recorded in the Purpose's own name exactly when its arguments are there, it is registered, and
      the hub is open. */
  lemma RequestCtoOutcome(cfg: Config, w: World, c: Call, outside: Outside)
    requires Good(cfg, w) && c.AskForCto? && c.who in w.purposes
    ensures var r := AskForCtoCall(cfg, w, c, outside);
            if c.sid.Spelled? && c.kind != "" && c.locator != "" && w.purposes[c.who].creds.Some? && Open(w)
              && WriteOk(w)
            then Submits(w, r, c.who, Some(c.sid.sid),
                         RequestCto(c.sid, c.kind, c.locator, c.who, w.purposes[c.who].name, c.code, c.request))
            else r.out.Raised? && Unnoticed(w, r.w)
  {
    hide Legal, Apply, Enabled, SubmitAs;
    if c.sid.Spelled? && c.kind != "" && c.locator != "" {
      SubmitOutcome(cfg, w, c.who, Some(c.sid.sid),
                    RequestCto(c.sid, c.kind, c.locator, c.who, w.purposes[c.who].name, c.code, c.request), outside);
    }
  }

  lemma MarkAckedKeeps(cfg: Config, w: World, who: PurposeId, text: SidText)
    requires w.owed.None? && who in w.purposes
    ensures var v := Apply(cfg, w, MarkAcked(who, text));
            && Enabled(cfg, w, MarkAcked(who, text)) && v.hub == w.hub && v.persister == w.persister
               && v.deliveries == w.deliveries
            && v.writes == w.writes && v.script == w.script && v.next == w.next
            && v.purposes == w.purposes[who := w.purposes[who].(acked := w.purposes[who].acked + {text})]
  {
  }

  /** `complete_session_closing`: the first acknowledgement of a session is recorded, unless the hub is closed; any
      further one is dropped by the Purpose itself, whether or not the hub took notice of the first. */
  lemma CompletingOutcome(cfg: Config, w: World, who: PurposeId, text: SidText, why: string)
    requires Good(cfg, w) && who in w.purposes && !text.Empty?
    ensures var r := Complete(cfg, w, who, text, why);
            if text in w.purposes[who].acked then r == Res(w, Ok)
            else if w.purposes[who].creds.Some? && !w.hub.closed
              && WriteOk(w) then Submits(w, r, who, None, PurposeCompleted(text, why))
            else r.out.Raised? && r.w.persister == w.persister && r.w.hub == w.hub && r.w.deliveries == w.deliveries
                 && who in r.w.purposes && text in r.w.purposes[who].acked
  {
    hide Legal, Apply, Enabled, Resolve, NameOf, HandleCompleted;
    if text !in w.purposes[who].acked {
      MarkAckedKeeps(cfg, w, who, text);
      var w1 := Do(cfg, w, MarkAcked(who, text));
      if w.purposes[who].creds.Some? {
        var p := PurposeCompleted(text, why);
        var v, ev := Do(cfg, w1, Mint), OwnedBy(w1, who, None, p);
        OwnEventsAreLetIn(cfg, w1, who, None, p);
        MintKeeps(cfg, w1);
        var a := Ingress(cfg, v, ev, true);
        if ev.who == cfg.persister { DomainTokens(cfg, v, ev.token); }
        if LetIn(cfg, v, ev) && WriteOk(v) { IngestLogged(cfg, v, ev, a.w); }
        else if LetIn(cfg, v, ev) { IngestFailed(cfg, v, ev); }
      }
    }
  }

  /** Whatever a request claims, the import it leads to is in the name of the registration that made it. */
  lemma ImportsAreInTheAskersName(cfg: Config, w: World, who: PurposeId, p: Payload, outside: Outside)
    requires Good(cfg, w) && Open(w) && p.RequestCto? && p.session.Spelled?
    requires Importable(cfg, w, p, outside) && WriteOk(w)
    ensures var r := HandleRequestCto(cfg, w, who, p, outside);
            && |w.persister.log| < |r.w.persister.log|
            && var imported := r.w.persister.log[|w.persister.log|].payload;
            && imported.CtoImported? && imported.requester == who && imported.requesterName == NameOf(cfg, w, who)
            && imported.session == p.session && imported.kind == p.kind && imported.locator == p.locator
            && imported.hash == outside.file.value.hash && imported.code == p.code
            && imported.key == RequestKey(p, outside.file.value)
  {
    hide Legal, Apply, Enabled, PersisterImports, NameOf, CtoJson.Normalize;
    MintIsEnabled(cfg, w);
    MintKeeps(cfg, w);
    var relayed := RequestCto(p.session, p.kind, p.locator, who, NameOf(cfg, w, who), p.code, p.request);
    RequestImportOutcome(cfg, Do(cfg, w, Mint), relayed, outside);
  }

  // ---------------------------------------------------------------- from the event to its effect

  /** The world in which an event let in has been recorded and nothing else has happened. */
  function Recorded(cfg: Config, w: World, ev: PurposeEvent): World {
    Apply(cfg, w, Ingest(ev, true))
  }

  lemma LetInIsRecorded(cfg: Config, w: World, ev: PurposeEvent, outside: Outside)
    requires Good(cfg, w) && BuiltIn(ev.payload) && ProperId(cfg, w, ev.id, true) && ev.token != PERSISTER_TOKEN
    requires LetIn(cfg, w, ev) && WriteOk(w)
    ensures var v := Recorded(cfg, w, ev);
            && Legal(cfg, v) && HonestScript(cfg, v.script) && v.owed == OwedBy(w, ev)
            && v.hub == w.hub && v.persister.log == w.persister.log + [PurposeRecord(ev)]
            && v.persister.handled == w.persister.handled && ev.who != cfg.persister
            && Receive(cfg, w, ev, true, outside) == Handle(cfg, v, ev.who, ev, outside)
  {
    hide Legal, Apply, Enabled, Resolve, NameOf, Handle;
    DomainTokens(cfg, w, ev.token);
    var a := Ingress(cfg, w, ev, true);
    IngestLogged(cfg, w, ev, a.w);
    RecordedKeeps(cfg, w, ev);
  }

  lemma RecordedKeeps(cfg: Config, w: World, ev: PurposeEvent)
    ensures Recorded(cfg, w, ev).persister.handled == w.persister.handled && Recorded(cfg, w, ev).hub == w.hub
    ensures Recorded(cfg, w, ev).next == w.next && Recorded(cfg, w, ev).script == w.script
    ensures NameOf(cfg, Recorded(cfg, w, ev), ev.who) == NameOf(cfg, w, ev.who)
  {
  }

  /** The proposal is recorded, delta_merged after it, and the turn has the entries of its patch after those it had. */
  ghost predicate MergedNext(w: World, v: World, ev: PurposeEvent) {
    var n := |w.persister.log|;
    && n + 1 < |v.persister.log| && v.persister.log[n] == PurposeRecord(ev)
    && v.persister.log[n + 1].payload.DeltaMerged? && ev.payload == ProposeDelta(v.persister.log[n + 1].payload.delta)
    && var d := v.persister.log[n + 1].payload.delta;
    && d.turn in w.hub.ctos && d.turn in v.hub.ctos
    && MergedInto(w.hub.ctos[d.turn], v.hub.ctos[d.turn], d)
  }

  /** The request is recorded, and cto_imported after it in the name of the registration that asked, for the same
      session and file, with the same code and under the request's id. */
  ghost predicate ServedNext(cfg: Config, w: World, v: World, ev: PurposeEvent) {
    var n := |w.persister.log|;
    && n + 1 < |v.persister.log| && v.persister.log[n] == PurposeRecord(ev)
    && v.persister.log[n + 1].payload.CtoImported?
    && v.persister.log[n + 1].payload.requester == ev.who
    && v.persister.log[n + 1].payload.requesterName == NameOf(cfg, w, ev.who)
    && ev.payload.RequestCto? && v.persister.log[n + 1].payload.session == ev.payload.session
    && v.persister.log[n + 1].payload.kind == ev.payload.kind
    && v.persister.log[n + 1].payload.locator == ev.payload.locator
    && v.persister.log[n + 1].payload.code == ev.payload.code
    && (ev.payload.request.Some? ==> v.persister.log[n + 1].payload.key == ev.payload.request.value)
  }

  /** A proposed delta that can be merged is: first the proposal is recorded, then delta_merged, and the turn has the
      delta's entries after those it had. */
  lemma ProposalIsMerged(cfg: Config, w: World, ev: PurposeEvent, outside: Outside)
    requires Good(cfg, w) && ev.payload.ProposeDelta? && ProperId(cfg, w, ev.id, true) && ev.token != PERSISTER_TOKEN
    requires LetIn(cfg, w, ev) && WriteOk(w) && WriteOk(Recorded(cfg, w, ev))
    requires Mergeable(w, ev.payload.delta)
    ensures MergedNext(w, Receive(cfg, w, ev, true, outside).w, ev)
  {
    hide Legal, Apply, Enabled, Resolve, NameOf, MergeDelta, Reached, Grows, IsListPatch, Recorded;
    hide Receive, MergedInto;
    LetInIsRecorded(cfg, w, ev, outside);
    var v := Recorded(cfg, w, ev);
    MergeDeltaOutcome(cfg, v, ev.payload.delta);
    var r := MergeDelta(cfg, v, ev.payload.delta);
    assert Handle(cfg, v, ev.who, ev, outside) == r;
    LogOfGrown(v, r.w);
    assert r.w.persister.log[|w.persister.log|] == v.persister.log[|w.persister.log|];
  }

  /** A request for a CTO that can be imported is: first the request is recorded, then cto_imported in the
      asker's name. */
  lemma RequestIsServed(cfg: Config, w: World, ev: PurposeEvent, outside: Outside)
    requires Good(cfg, w) && Open(w) && ev.payload.RequestCto? && ev.payload.session.Spelled?
    requires ProperId(cfg, w, ev.id, true) && ev.token != PERSISTER_TOKEN
    requires LetIn(cfg, w, ev) && WriteOk(w) && WriteOk(Recorded(cfg, w, ev)) && Importable(cfg, w, ev.payload, outside)
    ensures ServedNext(cfg, w, Receive(cfg, w, ev, true, outside).w, ev)
  {
    hide Legal, Apply, Enabled, Resolve, NameOf, HandleRequestCto, Recorded, CtoJson.Normalize;
    LetInIsRecorded(cfg, w, ev, outside);
    RecordedKeeps(cfg, w, ev);
    var v := Recorded(cfg, w, ev);
    ImportsAreInTheAskersName(cfg, v, ev.who, ev.payload, outside);
    var r := HandleRequestCto(cfg, v, ev.who, ev.payload, outside);
    assert Handle(cfg, v, ev.who, ev, outside) == r;
    assert r.w.persister.log[|w.persister.log|] == v.persister.log[|w.persister.log|];
  }

  // ---------------------------------------------------------------- the beginning

  /** session_started from a durable persister, then the persister's purpose_started, then the owner's. */
  function FirstRecords(cfg: Config): seq<Record>
    requires cfg.owner in cfg.names
  {
    var author := FromPurpose(cfg.persister, cfg.persisterName);
    (if cfg.durable then [Record(author, 2, None, None, SessionStarted)] else [])
    + [Record(author, 3, None, None, PurposeStarted(cfg.persister, cfg.persisterName, true)),
       Record(FromPurpose(cfg.owner, cfg.names[cfg.owner]), 4, None, None,
              PurposeStarted(cfg.owner, cfg.names[cfg.owner], false))]
  }

  lemma FirstAnnouncement(cfg: Config)
    requires ValidConfig(cfg)
    ensures var w := Init(cfg);
            var w1 := Apply(cfg, w, MarkAnnounced(cfg.owner));
            && cfg.owner in w.purposes && !w.purposes[cfg.owner].announced && w.purposes[cfg.owner].creds.Some?
            && Enabled(cfg, w, MarkAnnounced(cfg.owner)) && cfg.owner in w1.purposes
            && w1.purposes[cfg.owner].name == cfg.names[cfg.owner] && w1.purposes[cfg.owner].creds.Some?
            && w1.persister == w.persister && w1.next == 4 && Open(w1) && w1.writes == cfg.writes
               && w1.script == cfg.script
  {
  }

  /** The owner's first announcement is the next record. */
  lemma FirstIsRecorded(cfg: Config, w1: World)
    requires ValidConfig(cfg) && HonestScript(cfg, cfg.script) && (|cfg.writes| > 0 ==> cfg.writes[0])
    requires w1 == Do(cfg, Init(cfg), MarkAnnounced(cfg.owner))
    ensures var p := PurposeStarted(cfg.owner, cfg.names[cfg.owner], false);
            Init(cfg).persister.log + [Record(FromPurpose(cfg.owner, cfg.names[cfg.owner]), 4, None, None, p)]
              <= SubmitAs(cfg, w1, cfg.owner, None, p, Outside(0, None)).w.persister.log
  {
    hide Apply, Enabled, SubmitAs;
    assert Legal(cfg, Init(cfg)) && Init(cfg).owed.None?;
    hide Legal, Init;
    FirstAnnouncement(cfg);
    SubmitOutcome(cfg, w1, cfg.owner, None, PurposeStarted(cfg.owner, cfg.names[cfg.owner], false), Outside(0, None));
  }

  /** Every run's log begins with the lifecycle records in the documented order, whatever the owner does on hearing of
      itself. */
  lemma LogBeginsWithLifecycle(cfg: Config, steps: seq<Step>)
    requires ValidConfig(cfg) && HonestScript(cfg, cfg.script) && HonestSteps(cfg, steps)
    requires |cfg.writes| > 0 ==> cfg.writes[0]
    ensures FirstRecords(cfg) <= Started(cfg, steps).persister.log
  {
    hide Legal, Apply, Enabled, SubmitAs, Hub.RunCalls;
    FirstAnnouncement(cfg);
    var w, outside := Init(cfg), Outside(0, None);
    var p := PurposeStarted(cfg.owner, cfg.names[cfg.owner], false);
    FirstIsRecorded(cfg, Do(cfg, w, MarkAnnounced(cfg.owner)));
    assert AnnounceCall(cfg, w, cfg.owner, outside)
        == SubmitAs(cfg, Do(cfg, w, MarkAnnounced(cfg.owner)), cfg.owner, None, p, outside);
    assert FirstRecords(cfg)
        == w.persister.log + [Record(FromPurpose(cfg.owner, cfg.names[cfg.owner]), 4, None, None, p)];
    assert AnnounceCall(cfg, w, cfg.owner, outside).w.persister.log <= Started(cfg, steps).persister.log;
  }
}
