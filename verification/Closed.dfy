/** A closed hub and the calls made on it: nothing they do changes what the hub must keep. */
module Closed {
  import opened Wrappers
  import opened Json
  import opened Profiles
  import opened Ctos
  import opened Events
  import opened World
  import opened Invariants
  import opened Hub
  import opened History
  import CtoJson

  /** The hub is still closed and its core is as it was. */
  ghost predicate StillClosed(w: World, w': World) {
    w'.hub.closed && SameCore(w, w')
  }

  /** Steps a call on a closed hub may still make before it is turned away. */
  predicate Harmless(a: Act) {
    match a
    case Mint | MarkAnnounced(_) | MarkAcked(_, _) | MarkRequested(_, _) | Deliver(_, _) | EndImport => true
    case _ => false
  }

  lemma HarmlessStep(cfg: Config, w: World, a: Act)
    requires Harmless(a)
    ensures Apply(cfg, w, a).hub == w.hub && Apply(cfg, w, a).persister == w.persister
  {
  }

  lemma ClosedRefuses(cfg: Config, w: World, ev: PurposeEvent, minted: bool, outside: Outside)
    requires w.hub.closed
    ensures Receive(cfg, w, ev, minted, outside).out.Raised? && Receive(cfg, w, ev, minted, outside).w == w
  {
    hide Legal, Good, Enabled, Apply, Resolve, NameOf;
  }

  lemma SubmittedAs(cfg: Config, w: World, who: PurposeId, session: Option<SessionId>, p: Payload, outside: Outside)
    requires who in w.purposes
    ensures SubmitAs(cfg, w, who, session, p, outside)
         == if w.purposes[who].creds.None? then Res(w, Raised(Unbound))
            else Receive(cfg, Do(cfg, w, Mint), OwnedBy(w, who, session, p), true, outside)
  {
    hide Legal, Good, Enabled, Apply, Receive;
  }

  lemma ClosedSubmits(cfg: Config, w: World, who: PurposeId, session: Option<SessionId>, p: Payload, outside: Outside)
    requires w.hub.closed && who in w.purposes
    ensures StillClosed(w, SubmitAs(cfg, w, who, session, p, outside).w)
  {
    hide Legal, Good, Enabled, Apply, Receive, SubmitAs, OwnedBy;
    SubmittedAs(cfg, w, who, session, p, outside);
    HarmlessStep(cfg, w, Mint);
    if w.purposes[who].creds.Some? {
      ClosedRefuses(cfg, Do(cfg, w, Mint), OwnedBy(w, who, session, p), true, outside);
    }
  }

  lemma ClosedAnnounces(cfg: Config, w: World, who: PurposeId, outside: Outside)
    requires w.hub.closed
    ensures StillClosed(w, AnnounceCall(cfg, w, who, outside).w)
  {
    hide Legal, Good, Enabled, Apply, SubmitAs;
    if who in w.purposes && !w.purposes[who].announced {
      HarmlessStep(cfg, w, MarkAnnounced(who));
      var w1 := Do(cfg, w, MarkAnnounced(who));
      ClosedSubmits(cfg, w1, who, None, PurposeStarted(who, w1.purposes[who].name, false), outside);
    }
  }

  lemma ClosedRequestsEnd(cfg: Config, w: World, who: PurposeId, text: SidText, why: string, outside: Outside)
    requires w.hub.closed
    ensures StillClosed(w, RequestEndCall(cfg, w, who, text, why, outside).w)
  {
    hide Legal, Good, Enabled, Apply, SubmitAs;
    if who in w.purposes && !text.Empty? && text !in w.purposes[who].requested {
      HarmlessStep(cfg, w, MarkRequested(who, text));
      ClosedSubmits(cfg, Do(cfg, w, MarkRequested(who, text)), who, None, RequestSessionEnd(text, why), outside);
    }
  }

  lemma ClosedCompletes(cfg: Config, w: World, who: PurposeId, text: SidText, why: string)
    requires w.hub.closed
    ensures StillClosed(w, Complete(cfg, w, who, text, why).w)
  {
    hide Legal, Good, Enabled, Apply, Resolve, NameOf, HandleCompleted;
    HarmlessStep(cfg, w, MarkAcked(who, text));
    HarmlessStep(cfg, Do(cfg, w, MarkAcked(who, text)), Mint);
  }

  lemma ClosedPresents(cfg: Config, w: World, c: Call, outside: Outside)
    requires w.hub.closed && c.TakeTurn?
    ensures StillClosed(w, TakeTurnCall(cfg, w, c, outside).w)
  {
    hide Legal, Good, Enabled, Apply, Receive;
    HarmlessStep(cfg, w, Mint);
    if c.id.Seen? && c.id.id < w.next {
      ClosedRefuses(cfg, w, PurposeEvent(c.id.id, c.who, c.name, c.token, c.session, c.payload), false, outside);
    } else {
      ClosedRefuses(cfg, Do(cfg, w, Mint), PurposeEvent(w.next, c.who, c.name, c.token, c.session, c.payload), true,
                    outside);
    }
  }

  lemma ClosedAsks(cfg: Config, w: World, c: Call, outside: Outside)
    requires w.hub.closed && c.AskForCto?
    ensures StillClosed(w, AskForCtoCall(cfg, w, c, outside).w)
  {
    hide Legal, Good, Enabled, Apply, SubmitAs;
    if c.who in w.purposes && c.sid.Spelled? && c.kind != "" && c.locator != "" {
      ClosedSubmits(cfg, w, c.who, Some(c.sid.sid),
                    RequestCto(c.sid, c.kind, c.locator, c.who, w.purposes[c.who].name, c.code, c.request), outside);
    }
  }

  /** Whatever is called on a closed hub, by whomever and with whatever arguments, its log, turns, registrations and
      owners stay as they are. */
  lemma ClosedCallsChangeNothing(cfg: Config, w: World, c: Call, outside: Outside)
    requires w.hub.closed
    ensures StillClosed(w, Exec(cfg, w, c, outside).w)
  {
    hide Legal, Good, Enabled, Apply;
    hide StartTurnCall, TakeTurnCall, StartPurposeCall, CloseCall, Complete, RequestEndCall, AskForCtoCall;
    hide AnnounceCall;
    match c
    case StartTurn(_, _, _, _, _, _) => ClosedStarts(cfg, w, c, outside);
    case TakeTurn(_, _, _, _, _, _) => ClosedPresents(cfg, w, c, outside);
    case StartPurpose(who) => ClosedStarts(cfg, w, c, outside);
    case Close(why) => ClosedStarts(cfg, w, c, outside);
    case CompleteClosing(who, text, why) => ClosedCompletes(cfg, w, who, text, why);
    case RequestEnd(who, text, why) => ClosedRequestsEnd(cfg, w, who, text, why, outside);
    case AskForCto(_, _, _, _, _, _) => ClosedAsks(cfg, w, c, outside);
    case Announce(who) => ClosedAnnounces(cfg, w, who, outside);
  }

  /** New work is turned away at once. */
  lemma ClosedStarts(cfg: Config, w: World, c: Call, outside: Outside)
    requires w.hub.closed
    ensures c.StartTurn? ==> StartTurnCall(cfg, w, c, outside.now) == Res(w, Raised(HubClosed))
    ensures c.StartPurpose? ==> StartPurposeCall(cfg, w, c.who, outside) == Res(w, Raised(HubClosed))
    ensures c.Close? ==> CloseCall(cfg, w, c.why) == Res(w, Raised(HubClosed))
  {
    hide Legal, Good, Enabled, Apply, Resolve;
  }

  /** Nor does any sequence of calls a handler makes, */
  lemma {:induction false} ClosedHandlersChangeNothing(cfg: Config, w: World, steps: seq<Step>)
    requires w.hub.closed
    ensures StillClosed(w, RunSteps(cfg, w, steps).w)
    decreases |steps|
  {
    hide Legal, Good, Enabled, Apply, Exec;
    if steps == [] {
    } else {
      ClosedCallsChangeNothing(cfg, w, steps[0].call, steps[0].outside);
      ClosedHandlersChangeNothing(cfg, Exec(cfg, w, steps[0].call, steps[0].outside).w, steps[1..]);
    }
  }

  /** or a program. */
  lemma {:induction false} ClosedProgramsChangeNothing(cfg: Config, w: World, steps: seq<Step>)
    requires w.hub.closed
    ensures StillClosed(w, RunCalls(cfg, w, steps))
    decreases |steps|
  {
    hide Legal, Good, Enabled, Apply, Exec;
    if steps == [] {
    } else {
      ClosedCallsChangeNothing(cfg, w, steps[0].call, steps[0].outside);
      ClosedProgramsChangeNothing(cfg, Exec(cfg, w, steps[0].call, steps[0].outside).w, steps[1..]);
    }
  }

  lemma ClosedDelivers(cfg: Config, w: World, ev: HubEvent, i: nat)
    requires w.hub.closed && i < |w.hub.regs|
    ensures StillClosed(w, DeliverTo(cfg, w, ev, i).w)
  {
    hide Legal, Good, Enabled, Apply, Complete, RunSteps;
    HarmlessStep(cfg, w, Deliver(i, ev));
    var reg, w1 := w.hub.regs[i], Do(cfg, w, Deliver(i, ev));
    if ev.session.Some? { ClosedCompletes(cfg, w1, reg.who, Canonical(ev.session.value), "normal"); }
    if |w.script| > 0 && w.script[0].ByHandler? { ClosedHandlersChangeNothing(cfg, w1, w.script[0].steps); }
  }

  /** Deliveries in a closed hub, with whatever their recipients do, change nothing either. */
  lemma {:induction false} ClosedBroadcastChangesNothing(cfg: Config, w: World, ev: HubEvent, i: nat, size: nat)
    requires w.hub.closed && i <= size
    ensures StillClosed(w, Broadcast(cfg, w, ev, i, size).w)
    decreases size - i
  {
    hide Legal, Good, Enabled, Apply, DeliverTo;
    if i < size && |w.hub.regs| == size {
      ClosedDelivers(cfg, w, ev, i);
      ClosedBroadcastChangesNothing(cfg, DeliverTo(cfg, w, ev, i).w, ev, i + 1, size);
    }
  }

  // ---------------------------------------------------------------- an import whose relay closed the hub

  /** What the hub checks first when it settles an import, and what then changes its core: the document normalises,
      and its session is owned and its profile accepts its content, or the requester is to own the session. */
  predicate Takes(cfg: Config, w: World, ev: PurposeEvent) {
    && ev.payload.CtoImported? && ev.payload.session.Spelled? && CtoJson.Normalize(ev.payload.document).Success?
    && (if ev.payload.session.sid in w.hub.owners then ProfileAccepts(cfg, CtoJson.Normalize(ev.payload.document).value)
        else ev.payload.requester == cfg.owner)
  }

  predicate ProfileAccepts(cfg: Config, n: CtoJson.Normalized) {
    ProfileFor(cfg, n.profile).Some? && Validates(ProfileFor(cfg, n.profile).value, n.content, cfg.strict)
  }

  lemma OwningChanges(cfg: Config, w: World, sid: SessionId, who: PurposeId, source: Option<PurposeEvent>)
    requires sid !in w.hub.owners
    ensures var w1 := Apply(cfg, w, Own(sid, who, source));
            w1.hub.closed == w.hub.closed && sid in w1.hub.owners
  {
  }

  lemma StoringChanges(cfg: Config, w: World, s: Seed)
    requires IdsMinted(w)
    ensures var w1 := Apply(cfg, w, StoreTurn(s));
            && w1.hub.closed == w.hub.closed && w1.hub.owners == w.hub.owners
            && w.next + 1 in w1.hub.ctos && w.next + 1 !in w.hub.ctos
  {
  }

  /** Adopting in a closed hub leaves the new turn, and the owners as they were. */
  lemma ClosedAdopts(cfg: Config, w: World, s: Seed)
    requires w.hub.closed && IdsMinted(w)
    ensures var v := AcceptNewCto(cfg, w, s).w;
            v.hub.closed && v.hub.owners == w.hub.owners && w.next + 1 in v.hub.ctos && w.next + 1 !in w.hub.ctos
  {
    hide Legal, Good, Enabled, Apply, Broadcast, IdsMinted;
    StoringChanges(cfg, w, s);
    var w1 := Do(cfg, w, StoreTurn(s));
    ClosedBroadcastChangesNothing(cfg, w1, StartedEvent(w, s), 0, |w1.hub.regs|);
    assert Multicast(cfg, w1, StartedEvent(w, s)) == Broadcast(cfg, w1, StartedEvent(w, s), 0, |w1.hub.regs|);
  }

  lemma AbandoningChangesNothing(cfg: Config, w: World, error: Error)
    ensures SameCore(w, Abandon(cfg, w, error).w) && Abandon(cfg, w, error).w.hub == w.hub
  {
    HarmlessStep(cfg, w, EndImport);
  }

  /** Exactly when an import whose relay closed the hub still changes it: the core stays as the relay left it if and
      only if the hub does not take the import. */
  lemma SettlingAfterClose(cfg: Config, w: World, ev: PurposeEvent, now: int)
    requires Good(cfg, w) && w.hub.closed && Innermost(w, ev)
    ensures var v := SettleImport(cfg, w, ev, now).w;
            v.hub.closed && (SameCore(w, v) <==> !Takes(cfg, w, ev))
  {
    hide Legal, Enabled, Apply, AcceptNewCto, Abandon, Validates, CtoJson.Normalize, CtoJson.Adopted;
    var p := ev.payload;
    if CtoJson.Normalize(p.document).Failure? {
      AbandoningChangesNothing(cfg, w, BadValue);
    } else {
      var n, sid := CtoJson.Normalize(p.document).value, p.session.sid;
      var owned := EnsureOwner(cfg, w, sid, p.requester, Some(ev));
      if sid !in w.hub.owners { OwningChanges(cfg, w, sid, p.requester, Some(ev)); }
      if owned.out.Raised? {
        AbandoningChangesNothing(cfg, owned.w, owned.out.error);
      } else if !ProfileAccepts(cfg, n) {
        AbandoningChangesNothing(cfg, owned.w, UnknownKey);
        AbandoningChangesNothing(cfg, owned.w, BadValue);
      } else {
        IdsAreMinted(cfg, owned.w);
        ClosedAdopts(cfg, owned.w, AdoptedSeed(ev, now));
      }
    }
  }

  /** For the whole of an import: if its relay closes the hub, the hub's core afterwards is the closed one exactly
      when the relay raised or the hub does not take the import. */
  lemma ImportAfterClose(cfg: Config, w: World, ev: PurposeEvent, now: int)
    requires Good(cfg, w) && ImportDue(cfg, w, ev)
    requires Multicast(cfg, Do(cfg, w, BeginImport(ev)), Relayed(ev)).w.hub.closed
    ensures var relay, r := Multicast(cfg, Do(cfg, w, BeginImport(ev)), Relayed(ev)),
            HandleCtoImported(cfg, w, cfg.persister, ev, now);
            r.w.hub.closed && (SameCore(relay.w, r.w) <==> relay.out.Raised? || !Takes(cfg, relay.w, ev))
  {
    hide Legal, Enabled, Apply, Multicast, SettleImport, Abandon, Takes;
    BeginImportIsEnabled(cfg, w, ev);
    var w0 := Do(cfg, w, BeginImport(ev));
    HasInExtension(w.persister.log, w0.persister.log, ev.id);
    var relay := Multicast(cfg, w0, Relayed(ev));
    if relay.out.Raised? {
      AbandoningChangesNothing(cfg, relay.w, relay.out.error);
    } else {
      SettlingAfterClose(cfg, relay.w, ev, now);
    }
  }
}
