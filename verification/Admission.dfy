/** Who and what the hub lets in, told without the hub's own guards. */
module Admission {
  import opened Wrappers
  import opened Json
  import opened Ctos
  import opened Events
  import opened World
  import opened Invariants
  import opened Hub
  import opened Credentials
  import opened Operations
  import opened Submissions

  // ---------------------------------------------------------------- what is turned away

  /** An event of a shutdown. */
  predicate EndsSessions(p: Payload) {
    p.RequestSessionEnd? || p.PurposeCompleted? || p.SessionCompleted?
  }

  /** The hub takes events of this type at the moment. */
  predicate Listens(w: World, p: Payload) {
    !w.hub.closed && (w.hub.closing ==> EndsSessions(p))
  }

  /** Whatever event is presented, built in or custom, by whomever: at the wrong moment it is refused before anything
      else is looked at, and not a thing changes. */
  lemma TurnedAway(cfg: Config, w: World, ev: PurposeEvent, minted: bool, outside: Outside)
    requires !Listens(w, ev.payload)
    ensures Receive(cfg, w, ev, minted, outside) == Res(w, Raised(HubClosed))
  {
    hide Legal, Good, Apply, Enabled, Handle, WriteAndMulticast;
  }

  /** Nothing the hub, its log or its Purposes could show. */
  ghost predicate Unmoved(w: World, v: World) {
    v.hub == w.hub && v.persister.log == w.persister.log && v.deliveries == w.deliveries
  }

  /** A call that may pass while the hub is closing: one that asks for a session's end, or acknowledges it. */
  predicate MayPass(c: Call) {
    c.RequestEnd? || c.CompleteClosing? || (c.TakeTurn? && EndsSessions(c.payload))
  }

  lemma MintTouchesNothing(cfg: Config, w: World)
    ensures Unmoved(w, Do(cfg, w, Mint)) && Do(cfg, w, Mint).purposes == w.purposes
  {
    hide Legal, Enabled;
  }

  lemma MarksTouchNothing(cfg: Config, w: World, a: Act)
    requires a.MarkAnnounced? || a.MarkAcked? || a.MarkRequested?
    ensures Unmoved(w, Do(cfg, w, a))
    ensures var v := Do(cfg, w, a);
            forall p | p in w.purposes :: p in v.purposes && v.purposes[p].creds == w.purposes[p].creds
  {
    hide Legal, Enabled;
  }

  /** An own event of a Purpose is made and then turned away, if the Purpose is registered. */
  lemma OwnTurnedAway(cfg: Config, w: World, who: PurposeId, session: Option<SessionId>, p: Payload, outside: Outside)
    requires who in w.purposes && !Listens(w, p)
    ensures var r := SubmitAs(cfg, w, who, session, p, outside);
            && Unmoved(w, r.w) && r.out == Raised(if w.purposes[who].creds.Some? then HubClosed else Unbound)
  {
    hide Legal, Good, Apply, Enabled, Receive;
    MintTouchesNothing(cfg, w);
    if w.purposes[who].creds.Some? {
      TurnedAway(cfg, Do(cfg, w, Mint), OwnedBy(w, who, session, p), true, outside);
    }
  }

  /** The answer to a call that is turned away. What a Purpose has checked of its own accord comes before it reaches the
      hub; what it has done before it does nothing about. */
  predicate IsTurnedAway(w: World, c: Call, r: Res) {
    match c
    case StartTurn(_, _, _, _, _, _) => r.out == Raised(HubClosed)
    case TakeTurn(_, _, _, _, _, _) => r.out == Raised(HubClosed)
    case StartPurpose(_) => r.out == Raised(HubClosed)
    case Close(_) => r.out == Raised(HubClosed)
    case AskForCto(who, sid, kind, locator, _, _) =>
      r.out == Raised(if who !in w.purposes then NoSuchPurpose
                      else if !sid.Spelled? || kind == "" || locator == "" then BadValue
                      else if w.purposes[who].creds.None? then Unbound else HubClosed)
    case Announce(who) =>
      if who !in w.purposes then r.out == Raised(NoSuchPurpose)
      else if w.purposes[who].announced then r.out == Ok
      else r.out == Raised(if w.purposes[who].creds.None? then Unbound else HubClosed)
    case RequestEnd(who, text, _) =>
      if who !in w.purposes then r.out == Raised(NoSuchPurpose)
      else if text.Empty? then r.out == Raised(BadValue)
      else if text in w.purposes[who].requested then r.out == Ok
      else r.out == Raised(if w.purposes[who].creds.None? then Unbound else HubClosed)
    case CompleteClosing(who, text, _) =>
      if who !in w.purposes then r.out == Raised(NoSuchPurpose)
      else if text.Empty? then r.out == Raised(BadValue)
      else if text in w.purposes[who].acked then r.out == Ok
      else r.out == Raised(if w.purposes[who].creds.None? then Unbound else HubClosed)
  }

  /** A closed hub turns every call away, and a closing one every call but those that ask for a session's end or
      acknowledge it: hub, log and deliveries stay as they are, whatever the call, its caller and its arguments. */
  lemma ClosingTurnsAway(cfg: Config, w: World, c: Call, outside: Outside)
    requires w.hub.closed || (w.hub.closing && !MayPass(c))
    ensures Unmoved(w, Exec(cfg, w, c, outside).w) && IsTurnedAway(w, c, Exec(cfg, w, c, outside))
  {
    hide Legal, Good, Apply, Enabled, Receive, SubmitAs, Ingress, Unmoved;
    match c
    case StartTurn(_, _, _, _, _, _) => StartTurnedAway(cfg, w, c, outside.now);
    case TakeTurn(_, _, _, _, _, _) => RawTurnedAway(cfg, w, c, outside);
    case StartPurpose(_) => assert Unmoved(w, w) by { SameIsUntouched(w); }
    case Close(_) => assert Unmoved(w, w) by { SameIsUntouched(w); }
    case AskForCto(_, _, _, _, _, _) => AskTurnedAway(cfg, w, c, outside);
    case Announce(who) => AnnounceTurnedAway(cfg, w, who, outside);
    case RequestEnd(who, text, why) => RequestTurnedAway(cfg, w, who, text, why, outside);
    case CompleteClosing(who, text, why) => CompletingTurnedAway(cfg, w, who, text, why);
  }

  lemma SameIsUntouched(w: World)
    ensures Unmoved(w, w)
  {
  }

  lemma StartTurnedAway(cfg: Config, w: World, c: Call, now: int)
    requires c.StartTurn? && (w.hub.closing || w.hub.closed)
    ensures StartTurnCall(cfg, w, c, now) == Res(w, Raised(HubClosed)) && Unmoved(w, w)
  {
    hide Legal, Good, Apply, Enabled, Resolve;
  }

  lemma RawTurnedAway(cfg: Config, w: World, c: Call, outside: Outside)
    requires c.TakeTurn? && !Listens(w, c.payload)
    ensures var r := TakeTurnCall(cfg, w, c, outside); Unmoved(w, r.w) && r.out == Raised(HubClosed)
  {
    hide Legal, Good, Apply, Enabled, Receive;
    if c.id.Seen? && c.id.id < w.next {
      TurnedAway(cfg, w, PurposeEvent(c.id.id, c.who, c.name, c.token, c.session, c.payload), false, outside);
    } else {
      MintTouchesNothing(cfg, w);
      TurnedAway(cfg, Do(cfg, w, Mint), PurposeEvent(w.next, c.who, c.name, c.token, c.session, c.payload), true,
                 outside);
    }
  }

  lemma AskTurnedAway(cfg: Config, w: World, c: Call, outside: Outside)
    requires c.AskForCto? && (w.hub.closing || w.hub.closed)
    ensures var r := AskForCtoCall(cfg, w, c, outside); Unmoved(w, r.w) && IsTurnedAway(w, c, r)
  {
    hide Legal, Good, Apply, Enabled, SubmitAs;
    if c.who in w.purposes && c.sid.Spelled? && c.kind != "" && c.locator != "" {
      OwnTurnedAway(cfg, w, c.who, Some(c.sid.sid),
                    RequestCto(c.sid, c.kind, c.locator, c.who, w.purposes[c.who].name, c.code, c.request), outside);
    }
  }

  lemma AnnounceTurnedAway(cfg: Config, w: World, who: PurposeId, outside: Outside)
    requires w.hub.closing || w.hub.closed
    ensures var r := AnnounceCall(cfg, w, who, outside); Unmoved(w, r.w) && IsTurnedAway(w, Announce(who), r)
  {
    hide Legal, Good, Apply, Enabled, SubmitAs;
    if who in w.purposes && !w.purposes[who].announced {
      MarksTouchNothing(cfg, w, MarkAnnounced(who));
      var w1 := Do(cfg, w, MarkAnnounced(who));
      OwnTurnedAway(cfg, w1, who, None, PurposeStarted(who, w1.purposes[who].name, false), outside);
    }
  }

  lemma RequestTurnedAway(cfg: Config, w: World, who: PurposeId, text: SidText, why: string, outside: Outside)
    requires w.hub.closed
    ensures var r := RequestEndCall(cfg, w, who, text, why, outside);
            Unmoved(w, r.w) && IsTurnedAway(w, RequestEnd(who, text, why), r)
  {
    hide Legal, Good, Apply, Enabled, SubmitAs;
    if who in w.purposes && !text.Empty? && text !in w.purposes[who].requested {
      MarksTouchNothing(cfg, w, MarkRequested(who, text));
      OwnTurnedAway(cfg, Do(cfg, w, MarkRequested(who, text)), who, None, RequestSessionEnd(text, why), outside);
    }
  }

  lemma CompletingTurnedAway(cfg: Config, w: World, who: PurposeId, text: SidText, why: string)
    requires w.hub.closed
    ensures var r := Complete(cfg, w, who, text, why);
            Unmoved(w, r.w) && IsTurnedAway(w, CompleteClosing(who, text, why), r)
  {
    hide Legal, Good, Apply, Enabled, HandleCompleted;
    if who in w.purposes && !text.Empty? && text !in w.purposes[who].acked {
      var w1 := Do(cfg, w, MarkAcked(who, text));
      MarksTouchNothing(cfg, w, MarkAcked(who, text));
      if w1.purposes[who].creds.Some? {
        MintTouchesNothing(cfg, w1);
        assert Ingress(cfg, Do(cfg, w1, Mint), OwnedBy(w1, who, None, PurposeCompleted(text, why)), true)
            == Refused(Do(cfg, w1, Mint), HubClosed);
      }
    }
  }

  // ---------------------------------------------------------------- what is let in

  /** The event bears its Purpose's own name and the token it was last given. */
  predicate Credible(w: World, ev: PurposeEvent) {
    && ev.who in w.purposes && ev.name == w.purposes[ev.who].name
    && w.purposes[ev.who].creds.Some? && ev.token == w.purposes[ev.who].creds.value.token
  }

  /** The hub's own checks come to this. */
  lemma LetInMeans(cfg: Config, w: World, ev: PurposeEvent)
    requires Legal(cfg, w) && ev.token != PERSISTER_TOKEN
    ensures LetIn(cfg, w, ev) <==> Listens(w, ev.payload) && Credible(w, ev)
    ensures LetIn(cfg, w, ev) ==> ev.who != cfg.persister
  {
    hide Legal, Resolve;
    ResolveExact(cfg, w, ev.token, ev.who);
    TokensMinted(cfg, w);
  }

  /** The types the hub has handlers or at least a place for. */
  predicate OfPurposes(p: Payload) {
    || p.ProposeDelta? || p.PurposeStarted? || p.SessionStarted? || p.RequestCto? || p.CtoImported?
    || p.RequestSessionEnd? || p.PurposeCompleted? || p.SessionCompleted? || p.RequestCtoClose?
  }

  /** The event a raw call presents. */
  function Presented(w: World, c: Call): PurposeEvent
    requires c.TakeTurn?
  {
    PurposeEvent(w.next, c.who, c.name, c.token, c.session, c.payload)
  }

  /** A raw `take_turn` with a new event: listened to, credible and written it is the next record, just as it was
      presented; otherwise the error says which it was not, and nothing has happened. */
  lemma RawTakeTurn(cfg: Config, w: World, c: Call, outside: Outside)
    requires Good(cfg, w) && c.TakeTurn? && c.id.New? && OfPurposes(c.payload) && c.token != PERSISTER_TOKEN
    ensures var r, ev := TakeTurnCall(cfg, w, c, outside), Presented(w, c);
            if Listens(w, c.payload) && Credible(w, ev) && WriteOk(w)
            then && |w.persister.log| < |r.w.persister.log|
                 && r.w.persister.log[|w.persister.log|]
                      == Record(FromPurpose(c.who, c.name), w.next, c.session, None, c.payload)
            else && Unmoved(w, r.w)
                 && r.out == Raised(if !Listens(w, c.payload) then HubClosed
                                    else if !Credible(w, ev) then Unauthorized else PersistenceFailure)
  {
    hide Legal, Apply, Enabled, Receive, Resolve, Unmoved;
    MintIsEnabled(cfg, w);
    MintTouchesNothing(cfg, w);
    MintIsUnnoticed(cfg, w);
    MintedIsProper(cfg, w);
    assert TakeTurnCall(cfg, w, c, outside) == Receive(cfg, Do(cfg, w, Mint), Presented(w, c), true, outside);
    EventTaken(cfg, Do(cfg, w, Mint), Presented(w, c), outside);
    assert Unmoved(Do(cfg, w, Mint), Receive(cfg, Do(cfg, w, Mint), Presented(w, c), true, outside).w) ==>
        Unmoved(w, Receive(cfg, Do(cfg, w, Mint), Presented(w, c), true, outside).w) by {
      StillUntouched(w, Do(cfg, w, Mint), Receive(cfg, Do(cfg, w, Mint), Presented(w, c), true, outside).w);
    }
  }

  lemma StillUntouched(w: World, u: World, v: World)
    requires Unmoved(w, u)
    ensures Unmoved(u, v) ==> Unmoved(w, v)
  {
  }

  lemma EventTaken(cfg: Config, w: World, ev: PurposeEvent, outside: Outside)
    requires Good(cfg, w) && OfPurposes(ev.payload) && ProperId(cfg, w, ev.id, true) && ev.token != PERSISTER_TOKEN
    ensures var r := Receive(cfg, w, ev, true, outside);
            if Listens(w, ev.payload) && Credible(w, ev) && WriteOk(w)
            then && |w.persister.log| < |r.w.persister.log|
                 && r.w.persister.log[|w.persister.log|]
                      == Record(FromPurpose(ev.who, ev.name), ev.id, ev.session, None, ev.payload)
            else && Unmoved(w, r.w)
                 && r.out == Raised(if !Listens(w, ev.payload) then HubClosed
                                    else if !Credible(w, ev) then Unauthorized else PersistenceFailure)
  {
    hide Legal, Apply, Enabled, Resolve, NameOf, Handle;
    LetInMeans(cfg, w, ev);
    TakeTurnOutcome(cfg, w, ev, outside);
    assert Receive(cfg, w, ev, true, outside)
        == (var a := Ingress(cfg, w, ev, true);
            if a.Refused? then Res(a.w, Raised(a.error)) else Handle(cfg, a.w, a.who, ev, outside));
  }

  /** An event of the persister's own that a Purpose presents, or one whose session id is no id, is recorded and then
      refused; a request_cto_close is recorded and has no handler. Nothing else comes of them. */
  lemma RecordedAndNoMore(cfg: Config, w: World, ev: PurposeEvent, outside: Outside)
    requires Good(cfg, w) && ProperId(cfg, w, ev.id, true) && ev.token != PERSISTER_TOKEN
    requires Listens(w, ev.payload) && Credible(w, ev) && WriteOk(w)
    requires ev.payload.SessionStarted? || ev.payload.SessionCompleted? || ev.payload.CtoImported?
             || ev.payload.RequestCtoClose?
             || (ev.payload.PurposeCompleted? && !ev.payload.session.Spelled?)
             || (ev.payload.RequestCto? && !ev.payload.session.Spelled?)
    ensures var r := Receive(cfg, w, ev, true, outside);
            && r.out == (if ev.payload.RequestCtoClose? then Ok
                         else if ev.payload.PurposeCompleted? || ev.payload.RequestCto? then Raised(BadValue)
                         else Raised(Unauthorized))
            && r.w.hub == w.hub && r.w.deliveries == w.deliveries
            && r.w.persister.log
                 == w.persister.log + [Record(FromPurpose(ev.who, ev.name), ev.id, ev.session, None, ev.payload)]
  {
    hide Legal, Apply, Enabled, Resolve, Receive;
    LetInMeans(cfg, w, ev);
    LetInIsRecorded(cfg, w, ev, outside);
    RecordedDelivers(cfg, w, ev);
  }

  /** An event whose id has been presented before is judged the same; a persister that drops duplicates keeps one
      record of it, any other gets one more. */
  lemma PresentedAgain(cfg: Config, w: World, ev: PurposeEvent, outside: Outside)
    requires Good(cfg, w) && OfPurposes(ev.payload) && ProperId(cfg, w, ev.id, false) && ev.token != PERSISTER_TOKEN
    ensures var r := Receive(cfg, w, ev, false, outside);
            var again := Record(FromPurpose(ev.who, ev.name), ev.id, ev.session, None, ev.payload);
            if Listens(w, ev.payload) && Credible(w, ev) && WriteOk(w)
            then (if cfg.dedupes && Has(w.persister.log, ev.id) then w.persister.log else w.persister.log + [again])
                   <= r.w.persister.log
            else && Unmoved(w, r.w)
                 && r.out == Raised(if !Listens(w, ev.payload) then HubClosed
                                    else if !Credible(w, ev) then Unauthorized else PersistenceFailure)
  {
    hide Legal, Apply, Enabled, Resolve, NameOf, Handle;
    LetInMeans(cfg, w, ev);
    IngestedAgain(cfg, w, ev);
    var a := Ingress(cfg, w, ev, false);
    assert Receive(cfg, w, ev, false, outside)
        == if a.Refused? then Res(a.w, Raised(a.error)) else Handle(cfg, a.w, a.who, ev, outside);
  }

  lemma IngestedAgain(cfg: Config, w: World, ev: PurposeEvent)
    ensures var v := Apply(cfg, w, Ingest(ev, false));
            var again := Record(FromPurpose(ev.who, ev.name), ev.id, ev.session, None, ev.payload);
            && v.hub == w.hub && v.deliveries == w.deliveries
            && v.persister.log
                 == if !WriteOk(w) || (cfg.dedupes && Has(w.persister.log, ev.id)) then w.persister.log
                    else w.persister.log + [again]
  {
  }

  lemma RecordedDelivers(cfg: Config, w: World, ev: PurposeEvent)
    ensures Recorded(cfg, w, ev).deliveries == w.deliveries
  {
  }
}
