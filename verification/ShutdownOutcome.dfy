/** Exactly what a shutdown does when every handler is the default one: the whole nested cascade, record by record. */
module ShutdownOutcome {
  import opened Wrappers
  import opened Ctos
  import opened Events
  import opened World
  import opened Invariants
  import opened Hub
  import opened Codes
  import opened Replay
  import opened Credentials

  /** The acknowledgement a Purpose sends by default. */
  function AckRecord(cfg: Config, who: PurposeId, sid: SessionId, id: EventId): Record {
    Record(FromPurpose(who, if who in cfg.names then cfg.names[who] else ""), id, None, None,
           PurposeCompleted(Canonical(sid), "normal"))
  }

  /** The acknowledgements of the registrations from position i, in registration order. */
  function AckRecords(cfg: Config, regs: seq<Registration>, i: nat, sid: SessionId, id: EventId): seq<Record>
    requires i <= |regs|
    decreases |regs| - i
  {
    if i == |regs| then [] else [AckRecord(cfg, regs[i].who, sid, id)] + AckRecords(cfg, regs, i + 1, sid, id + 1)
  }

  /** What follows the last acknowledgement. */
  function Finale(cfg: Config, sid: SessionId, code: Option<string>, id: EventId): seq<Record> {
    [Record(FromHub, id, Some(sid), None, SessionClosePending(code)),
     Record(FromPurpose(cfg.persister, cfg.persisterName), id + 1, None, None,
            PurposeCompleted(Canonical(sid), "normal"))]
    + (if cfg.durable
       then [Record(FromPurpose(cfg.persister, cfg.persisterName), id + 2, Some(sid), None, SessionCompleted(code))]
       else [])
  }

  function From(regs: seq<Registration>, i: nat): set<PurposeId> {
    set j | i <= j < |regs| :: regs[j].who
  }

  /** Nobody from position i on has acknowledged this session before. */
  ghost predicate NotYetAcked(w: World, sid: SessionId, i: nat) {
    forall j | i <= j < |w.hub.regs| ::
      w.hub.regs[j].who in w.purposes ==> Canonical(sid) !in w.purposes[w.hub.regs[j].who].acked
  }

  /** Default handlers from here on, writes that succeed, and a shutdown in which those from position i on are
      pending. */
  ghost predicate Winding(cfg: Config, w: World, sid: SessionId, i: nat) {
    && Calm(cfg, w) && NoFailedWrite(cfg) && w.script == []
    && w.hub.closing && !w.hub.closed
    && i <= |w.hub.regs|
    && w.hub.pending == (if i < |w.hub.regs| then map[sid := From(w.hub.regs, i)] else map[])
    && NotYetAcked(w, sid, i)
    && Canonical(sid) !in w.persister.acked
  }

  // ---------------------------------------------------------------- single steps

  /** A record with a new id is appended whatever the persister. */
  lemma NewRecordAppended(cfg: Config, w: World, a: Act)
    requires Legal(cfg, w) && WriteOk(w) && RecordOf(cfg, w, a).Some?
    requires !Has(w.persister.log, RecordOf(cfg, w, a).value.id)
    ensures LogAfter(cfg, w, a) == w.persister.log + [RecordOf(cfg, w, a).value]
  {
  }

  /** The world after a registered Purpose has minted an event and the hub has written it. */
  function Submitted(cfg: Config, w: World, who: PurposeId, p: Payload): World
    requires who in w.purposes && w.purposes[who].creds.Some?
  {
    Do(cfg, Do(cfg, w, Mint), Ingest(OwnedBy(w, who, None, p), true))
  }

  lemma SubmittedEffect(cfg: Config, w: World, who: PurposeId, p: Payload)
    requires who in w.purposes && w.purposes[who].creds.Some?
    ensures var r := Submitted(cfg, w, who, p);
            && r.hub == w.hub && r.next == w.next + 1 && r.script == w.script && r.purposes == w.purposes
            && r.persister.acked == w.persister.acked && r.importing == w.importing
            && (WriteOk(w) ==> r.owed == OwedBy(w, OwnedBy(w, who, None, p)))
            && r.hist == w.hist + [Mint, Ingest(OwnedBy(w, who, None, p), true)]
  {
    hide Legal, Enabled, Apply;
    MintKeeps(cfg, w);
    var w1, ev := Do(cfg, w, Mint), OwnedBy(w, who, None, p);
    assert WriteOk(w1) == WriteOk(w) && OwedBy(w1, ev) == OwedBy(w, ev);
  }

  /** Such an event is admitted and written. */
  lemma OwnAdmitted(cfg: Config, w: World, who: PurposeId, p: Payload)
    requires Calm(cfg, w) && NoFailedWrite(cfg) && Accepts(w, p) && BuiltIn(p)
    requires who in w.purposes && w.purposes[who].creds.Some?
    ensures who != cfg.persister && Legal(cfg, Submitted(cfg, w, who, p))
    ensures Ingress(cfg, Do(cfg, w, Mint), OwnedBy(w, who, None, p), true) == Admitted(Submitted(cfg, w, who, p), who)
    ensures Submitted(cfg, w, who, p).persister.log
         == w.persister.log + [Record(FromPurpose(who, w.purposes[who].name), w.next, None, None, p)]
  {
    hide Legal, Apply, Enabled, Resolve, CtosAfter, RegsAfter, PendingAfter, ClosureAfter;
    var w2 := Do(cfg, w, Mint);
    MintIsEnabled(cfg, w);
    var ev := OwnedBy(w, who, None, p);
    Beginning(cfg, w2);
    CredentialsHold(cfg, w2);
    IdsAreMinted(cfg, w);
    OwnToken(cfg, w, who);
    ResolveExact(cfg, w2, ev.token, who);
    WritesSucceed(cfg, w2);
    MintedIsProper(cfg, w);
    assert !Has(w2.persister.log, ev.id);
    NewRecordAppended(cfg, w2, Ingest(ev, true));
    assert Ingress(cfg, w2, ev, true) == Admitted(Submitted(cfg, w, who, p), who);
  }

  /** The world after a registered Purpose's acknowledgement has been marked, minted and written. */
  function AckWritten(cfg: Config, w: World, who: PurposeId, sid: SessionId): World
    requires who in w.purposes && w.purposes[who].creds.Some?
  {
    Submitted(cfg, Do(cfg, w, MarkAcked(who, Canonical(sid))), who, PurposeCompleted(Canonical(sid), "normal"))
  }

  ghost predicate AckEffect(cfg: Config, w: World, w3: World, who: PurposeId, sid: SessionId)
    requires who in w.purposes
  {
    && Legal(cfg, w3)
    && w3.persister.log == w.persister.log + [AckRecord(cfg, who, sid, w.next)]
    && w3.hub == w.hub && w3.next == w.next + 1 && w3.script == w.script && w3.persister.acked == w.persister.acked
    && w3.purposes == w.purposes[who := w.purposes[who].(acked := w.purposes[who].acked + {Canonical(sid)})]
    && w3.owed == DiscardOwed(w3, who, Canonical(sid))
  }

  /** It is admitted, and the rest is the hub's handling of it. */
  lemma AckIsIngested(cfg: Config, w: World, who: PurposeId, sid: SessionId)
    requires Calm(cfg, w) && NoFailedWrite(cfg) && w.hub.closing && !w.hub.closed
    requires who in w.purposes && w.purposes[who].creds.Some? && Canonical(sid) !in w.purposes[who].acked
    ensures who != cfg.persister && AckEffect(cfg, w, AckWritten(cfg, w, who, sid), who, sid)
    ensures Complete(cfg, w, who, Canonical(sid), "normal")
         == HandleCompleted(cfg, AckWritten(cfg, w, who, sid), who, Canonical(sid))
  {
    hide Legal, Apply, Enabled, HandleCompleted, Ingress, Submitted;
    var w1 := Do(cfg, w, MarkAcked(who, Canonical(sid)));
    MarkAckedIsEnabled(cfg, w, who, Canonical(sid));
    CredentialsHold(cfg, w);
    OwnAdmitted(cfg, w1, who, PurposeCompleted(Canonical(sid), "normal"));
    SubmittedEffect(cfg, w1, who, PurposeCompleted(Canonical(sid), "normal"));
  }

  lemma OwnEventAdmitted(cfg: Config, w: World, session: Option<SessionId>, p: Payload)
    requires Calm(cfg, w) && NoFailedWrite(cfg) && BuiltIn(p) && Accepts(w, p) && Enabled(cfg, w, WriteOwn(session, p))
    ensures var a := SubmitOwn(cfg, w, session, p);
            && a.Admitted? && Calm(cfg, a.w)
            && a.w.persister.log == w.persister.log + [PurposeRecord(OwnEvent(cfg, w, session, p))]
            && a.w.next == w.next + 1 && a.w.hub == w.hub && a.w.persister.acked == w.persister.acked
  {
    hide Legal, Apply, Enabled, Resolve;
    var w1 := Do(cfg, w, WriteOwn(session, p));
    WritesSucceed(cfg, w);
    PersisterTokenResolves(cfg, w1);
  }

  lemma CompletionEventEnabled(cfg: Config, w: World, p: Payload)
    requires w.owed.None? && !w.hub.closed && p.PurposeCompleted?
    ensures Enabled(cfg, w, WriteOwn(None, p))
  {
  }

  // ---------------------------------------------------------------- the end of the cascade

  lemma MarkPersisterIsEnabled(cfg: Config, w: World, text: SidText)
    requires w.owed.None? && AllClear(w)
    ensures Enabled(cfg, w, MarkPersisterAcked(text))
  {
  }

  lemma PersisterAcknowledges(cfg: Config, w: World, sid: SessionId)
    requires Calm(cfg, w) && NoFailedWrite(cfg) && !w.hub.closed && AllClear(w)
    requires sid !in w.hub.pending && Canonical(sid) !in w.persister.acked
    ensures var r := PersisterCompletes(cfg, w, sid);
            && r.out == Ok && Calm(cfg, r.w) && r.w.hub == w.hub && r.w.next == w.next + 1
            && r.w.persister.log
               == w.persister.log + [PurposeRecord(OwnEvent(cfg, w, None, PurposeCompleted(Canonical(sid), "normal")))]
  {
    hide Legal, Apply, Enabled, SubmitOwn, HandleCompleted, PendingAfter, RegsAfter, CtosAfter, PurposesAfter, Logged;
    var text := Canonical(sid);
    var w1 := Do(cfg, w, MarkPersisterAcked(text));
    MarkPersisterIsEnabled(cfg, w, text);
    CompletionEventEnabled(cfg, w1, PurposeCompleted(text, "normal"));
    OwnEventAdmitted(cfg, w1, None, PurposeCompleted(text, "normal"));
  }

  lemma CompletionOutcome(cfg: Config, w: World, sid: SessionId)
    requires Calm(cfg, w) && NoFailedWrite(cfg) && cfg.durable && !w.hub.closed
    requires Enabled(cfg, w, WriteOwn(Some(sid), SessionCompleted(CodeOf(w, sid))))
    ensures var r := EmitSessionCompleted(cfg, w, sid);
            && r.out == Ok && r.w.hub.closed && !r.w.hub.closing
            && r.w.hub.pending == w.hub.pending && r.w.hub.regs == w.hub.regs
            && r.w.persister.log
               == w.persister.log + [PurposeRecord(OwnEvent(cfg, w, Some(sid), SessionCompleted(CodeOf(w, sid))))]
  {
    hide Legal, Apply, Enabled, SubmitOwn;
    OwnEventAdmitted(cfg, w, Some(sid), SessionCompleted(CodeOf(w, sid)));
  }

  /** From the all-clear on: the persister acknowledges and, if durable, completes the session. */
  lemma ClosePendingOutcome(cfg: Config, w: World, sid: SessionId)
    requires Legal(cfg, w) && NoFailedWrite(cfg) && w.hub.closing && !w.hub.closed && w.hub.pending == map[]
    requires Enabled(cfg, w, LogPending(sid)) && Canonical(sid) !in w.persister.acked
    ensures var r := ClosePending(cfg, w, sid);
            && r.out == Ok
            && r.w.persister.log == w.persister.log + Finale(cfg, sid, CodeGiven(w.hist, sid), w.next)
            && r.w.hub.closed == cfg.durable && r.w.hub.closing == !cfg.durable && r.w.hub.pending == map[]
            && r.w.hub.regs == w.hub.regs
  {
    hide Legal, Apply, Enabled, PersisterCompletes, EmitSessionCompleted;
    CodeIsGiven(cfg, w, sid);
    WritesSucceed(cfg, w);
    IdsAreMinted(cfg, w);
    NewRecordAppended(cfg, w, LogPending(sid));
    var w1 := Do(cfg, w, LogPending(sid));
    AllClearGiven(cfg, w, sid);
    PersisterAcknowledges(cfg, w1, sid);
    var a := PersisterCompletes(cfg, w1, sid);
    CompletionIsEnabled(cfg, w, a.w, sid);
    if cfg.durable {
      CompletionOutcome(cfg, a.w, sid);
    } else {
      NoCompletion(cfg, a.w, sid);
    }
  }

  lemma NoCompletion(cfg: Config, w: World, sid: SessionId)
    requires !cfg.durable
    ensures EmitSessionCompleted(cfg, w, sid) == Res(w, Ok)
  {
  }

  // ---------------------------------------------------------------- the cascade

  /** What is left once the last of those pending has acknowledged. */
  ghost predicate Ended(cfg: Config, w: World, w': World, sid: SessionId, i: nat)
    requires i <= |w.hub.regs|
  {
    && w'.persister.log
         == w.persister.log + AckRecords(cfg, w.hub.regs, i, sid, w.next)
            + Finale(cfg, sid, CodeOf(w, sid), w.next + |w.hub.regs| - i)
    && w'.hub.closed == cfg.durable && w'.hub.closing == !cfg.durable && w'.hub.pending == map[]
    && w'.hub.regs == w.hub.regs
  }

  lemma FromSplits(regs: seq<Registration>, i: nat)
    requires DistinctRegs(regs) && i < |regs|
    ensures From(regs, i) - {regs[i].who} == From(regs, i + 1)
    ensures From(regs, i + 1) == {} <==> i + 1 == |regs|
  {
    if i + 1 < |regs| { assert regs[i + 1].who in From(regs, i + 1); }
  }

  /** The next registered Purpose's acknowledgement is written, and it can be taken off the pending set. */
  lemma AckIsNext(cfg: Config, w: World, sid: SessionId, i: nat)
    requires Winding(cfg, w, sid, i) && i < |w.hub.regs|
    ensures var who := w.hub.regs[i].who;
            && who in w.purposes && w.purposes[who].creds.Some? && DistinctRegs(w.hub.regs)
            && var w3 := AckWritten(cfg, w, who, sid);
            && AckEffect(cfg, w, w3, who, sid) && MayDiscard(cfg, w3, sid, who)
            && sid in w3.hub.pending && who in w3.hub.pending[sid]
            && Complete(cfg, w, who, Canonical(sid), "normal") == HandleCompleted(cfg, w3, who, Canonical(sid))
  {
    hide Legal, Apply, Enabled, Complete, HandleCompleted, AckWritten, OwedAfter, ClosureAfter, MayDiscard;
    var who := w.hub.regs[i].who;
    CredentialsHold(cfg, w);
    assert RegHolds(w.purposes, w.hub.regs[i]);
    AckIsIngested(cfg, w, who, sid);
    DiscardIsEnabled(cfg, AckWritten(cfg, w, who, sid), sid, who, Canonical(sid));
  }

  /** A registered Purpose acknowledges and is taken off the pending set. */
  lemma AckIsDiscarded(cfg: Config, w: World, sid: SessionId, i: nat)
    requires Winding(cfg, w, sid, i) && i < |w.hub.regs|
    ensures var who := w.hub.regs[i].who;
            && who in w.purposes && w.purposes[who].creds.Some?
            && var w3 := AckWritten(cfg, w, who, sid);
            && var w4 := Apply(cfg, w3, Discard(sid, who));
            && AckEffect(cfg, w, w3, who, sid)
            && Legal(cfg, w4) && (i + 1 < |w.hub.regs| ==> w4.owed.None?)
            && w4.hub == w.hub.(pending := w4.hub.pending)
            && w4.hub.pending == (if i + 1 < |w.hub.regs| then map[sid := From(w.hub.regs, i + 1)] else map[])
            && (i + 1 == |w.hub.regs| ==> Enabled(cfg, w4, LogPending(sid)))
            && Complete(cfg, w, who, Canonical(sid), "normal")
                 == if i + 1 < |w.hub.regs| then Res(w4, Ok) else ClosePending(cfg, w4, sid)
  {
    hide Legal, Apply, Enabled, Complete, ClosePending, AckWritten, From, OwedAfter, ClosureAfter;
    var who := w.hub.regs[i].who;
    AckIsNext(cfg, w, sid, i);
    var w3 := AckWritten(cfg, w, who, sid);
    DiscardEffect(cfg, w3, sid, who);
    FromSplits(w.hub.regs, i);
    assert Do(cfg, w3, Discard(sid, who)) == Apply(cfg, w3, Discard(sid, who));
  }

  /** While others are pending, the next position is wound down. */
  lemma NextAcknowledgement(cfg: Config, w: World, sid: SessionId, i: nat)
    requires Winding(cfg, w, sid, i) && i + 1 < |w.hub.regs|
    ensures var who, r := w.hub.regs[i].who, Complete(cfg, w, w.hub.regs[i].who, Canonical(sid), "normal");
            && r.out == Ok && Winding(cfg, r.w, sid, i + 1)
            && r.w.persister.log == w.persister.log + [AckRecord(cfg, who, sid, w.next)]
            && r.w.next == w.next + 1 && r.w.hub == w.hub.(pending := r.w.hub.pending)
  {
    hide Legal, Apply, Enabled, Complete, ClosePending, AckWritten, From;
    AckIsDiscarded(cfg, w, sid, i);
    CredentialsHold(cfg, w);
    var who := w.hub.regs[i].who;
    DiscardEffect(cfg, AckWritten(cfg, w, who, sid), sid, who);
  }

  /** The last acknowledgement ends the session. */
  lemma LastAcknowledgement(cfg: Config, w: World, sid: SessionId, i: nat)
    requires Winding(cfg, w, sid, i) && i + 1 == |w.hub.regs|
    ensures var r := Complete(cfg, w, w.hub.regs[i].who, Canonical(sid), "normal");
            r.out == Ok && Ended(cfg, w, r.w, sid, i)
  {
    hide Legal, Apply, Enabled, Complete, ClosePending, AckWritten, From, Finale;
    AckIsDiscarded(cfg, w, sid, i);
    var who := w.hub.regs[i].who;
    DiscardEffect(cfg, AckWritten(cfg, w, who, sid), sid, who);
    CodeIsGiven(cfg, Apply(cfg, AckWritten(cfg, w, who, sid), Discard(sid, who)), sid);
    ClosePendingOutcome(cfg, Apply(cfg, AckWritten(cfg, w, who, sid), Discard(sid, who)), sid);
    assert AckRecords(cfg, w.hub.regs, i + 1, sid, w.next + 1) == [];
  }

  lemma DeliverEffect(cfg: Config, w: World, i: nat, ev: HubEvent)
    ensures var w' := Apply(cfg, w, Deliver(i, ev));
            && w'.persister == w.persister && w'.next == w.next && w'.hub == w.hub && w'.purposes == w.purposes
            && (w.script == [] ==> w'.script == [])
  {
  }

  /** Delivering session_closing to a Purpose with the default handler is its acknowledgement. */
  lemma DefaultDelivery(cfg: Config, w: World, sid: SessionId, ev: HubEvent, i: nat)
    requires Winding(cfg, w, sid, i) && i < |w.hub.regs|
    requires ev.payload.SessionClosing? && ev.session == Some(sid) && Has(w.persister.log, ev.id)
    ensures var w1 := Apply(cfg, w, Deliver(i, ev));
            && Winding(cfg, w1, sid, i)
            && DeliverTo(cfg, w, ev, i) == Complete(cfg, w1, w.hub.regs[i].who, Canonical(sid), "normal")
  {
    hide Legal, Apply, Enabled, Complete, From;
    CredentialsHold(cfg, w);
    assert RegHolds(w.purposes, w.hub.regs[i]);
    DeliverIsEnabled(cfg, w, ev, i);
    DeliverEffect(cfg, w, i, ev);
    assert Do(cfg, w, Deliver(i, ev)) == Apply(cfg, w, Deliver(i, ev));
  }

  lemma EndedPrepend(cfg: Config, w: World, mid: World, w': World, sid: SessionId, i: nat)
    requires i < |w.hub.regs| && mid.hub.regs == w.hub.regs && Ended(cfg, mid, w', sid, i + 1)
    requires mid.hub.codes == w.hub.codes && mid.next == w.next + 1
    requires mid.persister.log == w.persister.log + [AckRecord(cfg, w.hub.regs[i].who, sid, w.next)]
    ensures Ended(cfg, w, w', sid, i)
  {
    hide Finale;
    var acks := AckRecords(cfg, w.hub.regs, i + 1, sid, w.next + 1);
    assert [AckRecord(cfg, w.hub.regs[i].who, sid, w.next)] + acks == AckRecords(cfg, w.hub.regs, i, sid, w.next);
    assert mid.persister.log + acks == w.persister.log + AckRecords(cfg, w.hub.regs, i, sid, w.next);
  }

  /** The rest of the broadcast of session_closing, from position i, nested cascade included. */
  lemma {:induction false} CascadeFrom(cfg: Config, w: World, sid: SessionId, ev: HubEvent, i: nat)
    requires Winding(cfg, w, sid, i) && i < |w.hub.regs|
    requires ev.payload.SessionClosing? && ev.session == Some(sid) && Has(w.persister.log, ev.id)
    ensures var r := Broadcast(cfg, w, ev, i, |w.hub.regs|);
            r.out == Ok && Ended(cfg, w, r.w, sid, i)
    decreases |w.hub.regs| - i
  {
    hide Legal, Apply, Enabled, Complete, DeliverTo, From, Ended;
    DefaultDelivery(cfg, w, sid, ev, i);
    DeliverEffect(cfg, w, i, ev);
    var w1 := Apply(cfg, w, Deliver(i, ev));
    var r := DeliverTo(cfg, w, ev, i);
    if i + 1 < |w.hub.regs| {
      NextAcknowledgement(cfg, w1, sid, i);
      HasInExtension(w.persister.log, r.w.persister.log, ev.id);
      CascadeFrom(cfg, r.w, sid, ev, i + 1);
      EndedPrepend(cfg, w, r.w, Broadcast(cfg, r.w, ev, i + 1, |w.hub.regs|).w, sid, i);
    } else {
      LastAcknowledgement(cfg, w1, sid, i);
      EndedFrame(cfg, w, w1, r.w, sid, i);
    }
  }

  lemma EndedFrame(cfg: Config, w: World, w1: World, w': World, sid: SessionId, i: nat)
    requires w1.hub == w.hub && w1.persister.log == w.persister.log && w1.next == w.next
    requires i <= |w.hub.regs| && Ended(cfg, w1, w', sid, i)
    ensures Ended(cfg, w, w', sid, i) && w'.hub.regs == w.hub.regs
  {
  }

  // ---------------------------------------------------------------- the request

  /** The hub is open, the session owned, everyone has the default handlers, and writes succeed. */
  ghost predicate MayClose(cfg: Config, w: World, sid: SessionId) {
    && Calm(cfg, w) && NoFailedWrite(cfg) && w.script == []
    && Open(w) && sid in w.hub.owners
  }

  /** What is more, nobody registered has acknowledged this session before. */
  ghost predicate ReadyToClose(cfg: Config, w: World, sid: SessionId) {
    MayClose(cfg, w, sid) && NotYetAcked(w, sid, 0)
  }

  lemma BeginEffect(cfg: Config, w: World, sid: SessionId, why: string)
    ensures var w' := Apply(cfg, w, BeginClose(sid, why));
            && w'.next == w.next + 1 && w'.purposes == w.purposes && w'.script == w.script
            && w'.hub == w.hub.(pending := w.hub.pending[sid := Registered(w)], closing := true, closingId := Some(sid))
            && w'.persister.acked == w.persister.acked
  {
  }

  /** Closing begins: the broadcast of session_closing is about to reach the first Purpose. */
  lemma ClosingBegins(cfg: Config, w: World, sid: SessionId, why: string)
    requires ReadyToClose(cfg, w, sid)
    ensures Enabled(cfg, w, BeginClose(sid, why)) && WriteOk(w) && |w.hub.regs| > 0
    ensures var w1 := Do(cfg, w, BeginClose(sid, why));
            && Winding(cfg, w1, sid, 0) && Has(w1.persister.log, w.next)
            && w1.hub.regs == w.hub.regs && w1.hub.codes == w.hub.codes && w1.next == w.next + 1
            && w1.persister.log
                 == w.persister.log + [Record(FromHub, w.next, Some(sid), None, SessionClosing(why, CodeOf(w, sid)))]
  {
    hide Legal, Apply, Enabled;
    assert w.hub.pending == map[] by { ShutdownIsTracked(cfg, w); }
    assert w.persister.acked == {} by {
      ShutdownIsTracked(cfg, w);
      PersisterAcksLate(cfg, w);
    }
    assert |w.hub.regs| > 0 by { CredentialsHold(cfg, w); }
    assert !Has(w.persister.log, w.next) by { IdsAreMinted(cfg, w); }
    WritesSucceed(cfg, w);
    BeginCloseEnabled(cfg, w, sid, why);
    NewRecordAppended(cfg, w, BeginClose(sid, why));
    BeginEffect(cfg, w, sid, why);
    assert From(w.hub.regs, 0) == Registered(w);
  }

  /** The hub's handling of an accepted request by the owner. */
  lemma HandlingOutcome(cfg: Config, w: World, sid: SessionId, text: SidText, why: string)
    requires ReadyToClose(cfg, w, sid) && text.Spelled? && text.sid == sid
    ensures var r := HandleRequestEnd(cfg, w, cfg.owner, text, why);
            && r.out == Ok
            && r.w.persister.log
                 == w.persister.log
                    + [Record(FromHub, w.next, Some(sid), None, SessionClosing(why, CodeOf(w, sid)))]
                    + AckRecords(cfg, w.hub.regs, 0, sid, w.next + 1)
                    + Finale(cfg, sid, CodeOf(w, sid), w.next + 1 + |w.hub.regs|)
            && r.w.hub.closed == cfg.durable && r.w.hub.closing == !cfg.durable && r.w.hub.pending == map[]
            && r.w.hub.regs == w.hub.regs
  {
    hide Legal, Apply, Enabled, Broadcast, Finale, AckRecords, From, NotYetAcked;
    var ev := ClosingEvent(w, sid, why);
    assert w.hub.owners[sid] == cfg.owner by { OwnershipHolds(cfg, w); }
    ClosingBegins(cfg, w, sid, why);
    var w1 := Do(cfg, w, BeginClose(sid, why));
    CascadeFrom(cfg, w1, sid, ev, 0);
    assert Multicast(cfg, w1, ev) == Broadcast(cfg, w1, ev, 0, |w1.hub.regs|);
    assert WriteAndMulticast(cfg, w, BeginClose(sid, why), None) == Multicast(cfg, w1, ev);
    assert HandleRequestEnd(cfg, w, cfg.owner, text, why) == WriteAndMulticast(cfg, w, BeginClose(sid, why), None);
  }

  /** The world in which the owner's request has been marked, minted and written. */
  function RequestWritten(cfg: Config, w: World, text: SidText, why: string): World
    requires cfg.owner in w.purposes && w.purposes[cfg.owner].creds.Some?
  {
    Submitted(cfg, Do(cfg, w, MarkRequested(cfg.owner, text)), cfg.owner, RequestSessionEnd(text, why))
  }

  lemma PersisterAckedStep(cfg: Config, w: World, a: Act)
    requires (AllClear(w) || w.persister.acked == {}) && Enabled(cfg, w, a) && ShutdownTracked(w)
    ensures var w' := Apply(cfg, w, a); AllClear(w') || w'.persister.acked == {}
  {
    hide HubAfter, PurposesAfter, LogAfter;
  }

  /** The persister acknowledges nothing before the all-clear. */
  lemma {:induction false} PersisterAcksLate(cfg: Config, w: World)
    requires Legal(cfg, w)
    ensures AllClear(w) || w.persister.acked == {}
    decreases |w.hist|
  {
    hide Legal, Enabled, Apply;
    if w.hist == [] {
      Beginning(cfg, w);
    } else {
      var p, a := Before(cfg, w);
      PersisterAcksLate(cfg, p);
      ShutdownIsTracked(cfg, p);
      PersisterAckedStep(cfg, p, a);
    }
  }

  lemma RequestMarkIsEnabled(cfg: Config, w: World, who: PurposeId, text: SidText)
    requires w.owed.None? && who in w.purposes
    ensures Enabled(cfg, w, MarkRequested(who, text))
  {
  }

  /** An admitted request goes to its handler. */
  lemma RequestRouted(cfg: Config, w: World, ev: PurposeEvent, w3: World, outside: Outside)
    requires ev.payload.RequestSessionEnd? && Ingress(cfg, w, ev, true) == Admitted(w3, ev.who)
    ensures Receive(cfg, w, ev, true, outside) == HandleRequestEnd(cfg, w3, ev.who, ev.payload.session, ev.payload.why)
  {
    hide Legal, Good, Ingress, HandleRequestEnd, Enabled, Apply;
  }

  lemma RequestSubmitted(cfg: Config, w: World, who: PurposeId, text: SidText, why: string, outside: Outside)
    requires who in w.purposes && w.purposes[who].creds.Some? && text.Spelled? && text !in w.purposes[who].requested
    ensures var w1 := Do(cfg, w, MarkRequested(who, text));
            && who in w1.purposes && w1.purposes[who].creds == w.purposes[who].creds
            && RequestEndCall(cfg, w, who, text, why, outside)
                 == Receive(cfg, Do(cfg, w1, Mint), OwnedBy(w1, who, None, RequestSessionEnd(text, why)), true, outside)
  {
    hide Legal, Good, Receive, Enabled, Apply;
  }

  /** The same Purposes have acknowledged the same. */
  ghost predicate SameAcks(w: World, w': World) {
    && w'.purposes.Keys == w.purposes.Keys
    && (forall p | p in w.purposes :: w'.purposes[p].acked == w.purposes[p].acked)
  }

  /** The request leaves everything ready to close, and its record in the log. */
  lemma RequestOutcome(cfg: Config, w: World, sid: SessionId, text: SidText, why: string, outside: Outside)
    requires MayClose(cfg, w, sid) && text.Spelled? && text.sid == sid
    requires cfg.owner in w.purposes && w.purposes[cfg.owner].creds.Some? && text !in w.purposes[cfg.owner].requested
    ensures var w3 := RequestWritten(cfg, w, text, why);
            && MayClose(cfg, w3, sid) && SameAcks(w, w3) && w3.hub == w.hub && w3.next == w.next + 1
            && w3.persister.log
                 == w.persister.log
                    + [Record(FromPurpose(cfg.owner, w.purposes[cfg.owner].name), w.next, None, None,
                              RequestSessionEnd(text, why))]
            && RequestEndCall(cfg, w, cfg.owner, text, why, outside) == HandleRequestEnd(cfg, w3, cfg.owner, text, why)
  {
    hide Legal, Apply, Enabled, HandleRequestEnd, RequestEndCall, Receive, Ingress, Submitted;
    RequestSubmitted(cfg, w, cfg.owner, text, why, outside);
    var w1 := Do(cfg, w, MarkRequested(cfg.owner, text));
    RequestMarkIsEnabled(cfg, w, cfg.owner, text);
    OwnAdmitted(cfg, w1, cfg.owner, RequestSessionEnd(text, why));
    SubmittedEffect(cfg, w1, cfg.owner, RequestSessionEnd(text, why));
    RequestRouted(cfg, Do(cfg, w1, Mint), OwnedBy(w1, cfg.owner, None, RequestSessionEnd(text, why)),
                  RequestWritten(cfg, w, text, why), outside);
  }

  lemma OwnerIsRegistered(cfg: Config, w: World)
    requires Legal(cfg, w)
    ensures cfg.owner in cfg.names && cfg.owner in w.purposes && w.purposes[cfg.owner].creds.Some?
    ensures w.purposes[cfg.owner].name == cfg.names[cfg.owner]
  {
    hide Legal;
    CredentialsHold(cfg, w);
    Beginning(cfg, w);
    var i :| 0 <= i < |w.hub.regs| && w.hub.regs[i].who == cfg.owner;
    assert RegHolds(w.purposes, w.hub.regs[i]);
  }

  /** Exact shutdown outcome: with n registered default Purposes and an accepted request by the owner, one call ends the
      session. The log gains the request, session_closing, the n acknowledgements in registration order,
      session_close_pending, the persister's own acknowledgement and, from a durable persister, session_completed; the
      hub is then closed, with a persister that is not durable it stays closing. */
  lemma ExactShutdown(cfg: Config, w: World, sid: SessionId, text: SidText, why: string, outside: Outside)
    requires ReadyToClose(cfg, w, sid) && text.Spelled? && text.sid == sid
    requires cfg.owner in w.purposes ==> text !in w.purposes[cfg.owner].requested
    ensures cfg.owner in cfg.names
    ensures var r := Exec(cfg, w, RequestEnd(cfg.owner, text, why), outside);
            && r.out == Ok
            && r.w.persister.log
                 == w.persister.log
                    + [Record(FromPurpose(cfg.owner, cfg.names[cfg.owner]), w.next, None, None,
                              RequestSessionEnd(text, why)),
                       Record(FromHub, w.next + 1, Some(sid), None, SessionClosing(why, CodeGiven(w.hist, sid)))]
                    + AckRecords(cfg, w.hub.regs, 0, sid, w.next + 2)
                    + Finale(cfg, sid, CodeGiven(w.hist, sid), w.next + 2 + |w.hub.regs|)
            && r.w.hub.closed == cfg.durable && r.w.hub.closing == !cfg.durable && r.w.hub.pending == map[]
            && r.w.hub.regs == w.hub.regs
  {
    hide Legal, Good, Apply, Enabled, HandleRequestEnd, RequestWritten, Finale, AckRecords, RequestEndCall;
    CodeIsGiven(cfg, w, sid);
    OwnerIsRegistered(cfg, w);
    RequestOutcome(cfg, w, sid, text, why, outside);
    HandlingOutcome(cfg, RequestWritten(cfg, w, text, why), sid, text, why);
    var acks, finale := AckRecords(cfg, w.hub.regs, 0, sid, w.next + 2),
      Finale(cfg, sid, CodeGiven(w.hist, sid), w.next + 2 + |w.hub.regs|);
    Flatten(w.persister.log,
            Record(FromPurpose(cfg.owner, cfg.names[cfg.owner]), w.next, None, None, RequestSessionEnd(text, why)),
            Record(FromHub, w.next + 1, Some(sid), None, SessionClosing(why, CodeGiven(w.hist, sid))), acks, finale);
  }

  lemma Flatten(log: seq<Record>, a: Record, b: Record, acks: seq<Record>, finale: seq<Record>)
    ensures log + [a] + [b] + acks + finale == log + [a, b] + acks + finale
  {
    assert log + [a] + [b] == log + [a, b];
  }
}
