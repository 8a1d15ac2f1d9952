/** Where a shutdown does not end as expected: acknowledgements sent too early, and a close inside an import's relay. */
module Stalls {
  import opened Wrappers
  import opened Ctos
  import opened Events
  import opened World
  import opened Invariants
  import opened Hub
  import opened Codes
  import opened History
  import opened Replay
  import opened Credentials
  import opened Shutdown
  import opened ShutdownOutcome
  import opened Profiles
  import opened Adoption
  import opened Closed
  import CtoJson

  // ---------------------------------------------------------------- an early acknowledgement

  /** This Purpose acknowledged the session before the shutdown that is now waiting for it. */
  ghost predicate Stalled(w: World, sid: SessionId, who: PurposeId) {
    && w.script == [] && !w.hub.closed && w.hub.closing
    && who in w.purposes && Canonical(sid) in w.purposes[who].acked
    && w.hub.pending.Keys == {sid} && who in w.hub.pending[sid]
  }

  lemma IngressKeepsPurposes(cfg: Config, w: World, ev: PurposeEvent, minted: bool)
    requires BuiltIn(ev.payload)
    ensures Ingress(cfg, w, ev, minted).w.purposes == w.purposes
  {
    hide Legal, Enabled, Apply, Resolve, NameOf, LogAfter;
  }

  lemma AnotherCompletes(cfg: Config, w: World, sid: SessionId, who: PurposeId, p: PurposeId)
    requires Stalled(w, sid, who) && p != who
    ensures Stalled(HandleCompleted(cfg, w, p, Canonical(sid)).w, sid, who)
  {
    hide Legal, Enabled, Apply, ClosePending;
    DiscardEffect(cfg, w, sid, p);
    assert who in w.hub.pending[sid] - {p};
  }

  lemma CompleteKeepsStalled(cfg: Config, w: World, sid: SessionId, who: PurposeId, p: PurposeId)
    requires Stalled(w, sid, who)
    ensures Stalled(Complete(cfg, w, p, Canonical(sid), "normal").w, sid, who)
  {
    hide Legal, Enabled, Apply, Ingress, HandleCompleted;
    if p in w.purposes && Canonical(sid) !in w.purposes[p].acked {
      var w1 := Do(cfg, w, MarkAcked(p, Canonical(sid)));
      assert Stalled(w1, sid, who);
      if w1.purposes[p].creds.Some? {
        var ev := OwnedBy(w1, p, None, PurposeCompleted(Canonical(sid), "normal"));
        var w2 := Do(cfg, w1, Mint);
        IngressKeepsPurposes(cfg, w2, ev, true);
        var a := Ingress(cfg, w2, ev, true);
        assert Stalled(a.w, sid, who);
        AnotherCompletes(cfg, a.w, sid, who, p);
      }
    }
  }

  lemma {:induction false} BroadcastKeepsStalled(cfg: Config, w: World, sid: SessionId, who: PurposeId, ev: HubEvent,
                                                 i: nat, size: nat)
    requires Stalled(w, sid, who) && i <= size && ev.payload.SessionClosing? && ev.session == Some(sid)
    ensures Stalled(Broadcast(cfg, w, ev, i, size).w, sid, who)
    decreases size - i
  {
    hide Legal, Good, Enabled, Apply, Complete;
    if i < size && |w.hub.regs| == size {
      DeliverKeepsStalled(cfg, w, sid, who, ev, i);
      BroadcastKeepsStalled(cfg, DeliverTo(cfg, w, ev, i).w, sid, who, ev, i + 1, size);
    }
  }

  lemma DeliverKeepsStalled(cfg: Config, w: World, sid: SessionId, who: PurposeId, ev: HubEvent, i: nat)
    requires Stalled(w, sid, who) && i < |w.hub.regs| && ev.payload.SessionClosing? && ev.session == Some(sid)
    ensures Stalled(DeliverTo(cfg, w, ev, i).w, sid, who)
  {
    hide Legal, Good, Enabled, Apply, Complete;
    DeliverEffect(cfg, w, i, ev);
    CompleteKeepsStalled(cfg, Do(cfg, w, Deliver(i, ev)), sid, who, w.hub.regs[i].who);
  }

  /** If somebody registered has acknowledged the session already, the shutdown stalls. */
  lemma StallsAfterRequest(cfg: Config, w: World, sid: SessionId, text: SidText, why: string, who: PurposeId)
    requires MayClose(cfg, w, sid) && text.Spelled? && text.sid == sid
    requires IsRegistered(w.hub.regs, who) && who in w.purposes && Canonical(sid) in w.purposes[who].acked
    ensures Stalled(HandleRequestEnd(cfg, w, cfg.owner, text, why).w, sid, who)
  {
    hide Legal, Good, Apply, Enabled, Broadcast;
    OwnershipHolds(cfg, w);
    ShutdownIsTracked(cfg, w);
    WritesSucceed(cfg, w);
    BeginEffect(cfg, w, sid, why);
    var w1 := Do(cfg, w, BeginClose(sid, why));
    var i :| 0 <= i < |w.hub.regs| && w.hub.regs[i].who == who;
    assert who in Registered(w);
    assert w1.hub.pending.Keys == {sid};
    assert Stalled(w1, sid, who);
    var ev := ClosingEvent(w, sid, why);
    BroadcastKeepsStalled(cfg, w1, sid, who, ev, 0, |w1.hub.regs|);
    assert Multicast(cfg, w1, ev) == Broadcast(cfg, w1, ev, 0, |w1.hub.regs|);
    assert WriteAndMulticast(cfg, w, BeginClose(sid, why), None).w == Multicast(cfg, w1, ev).w;
    assert HandleRequestEnd(cfg, w, cfg.owner, text, why) == WriteAndMulticast(cfg, w, BeginClose(sid, why), None);
  }

  lemma StallsFrom(cfg: Config, w: World, sid: SessionId, text: SidText, why: string, outside: Outside, who: PurposeId)
    requires MayClose(cfg, w, sid) && text.Spelled? && text.sid == sid
    requires cfg.owner in w.purposes ==> text !in w.purposes[cfg.owner].requested
    requires IsRegistered(w.hub.regs, who) && who in w.purposes && Canonical(sid) in w.purposes[who].acked
    ensures Stalled(Exec(cfg, w, RequestEnd(cfg.owner, text, why), outside).w, sid, who)
  {
    hide Legal, Good, Apply, Enabled, HandleRequestEnd, RequestWritten, RequestEndCall;
    OwnerIsRegistered(cfg, w);
    RequestOutcome(cfg, w, sid, text, why, outside);
    StallsAfterRequest(cfg, RequestWritten(cfg, w, text, why), sid, text, why, who);
  }

  lemma {:induction false} PendingCounted(log: seq<Record>, i: nat)
    requires i < |log| && log[i].payload.SessionClosePending?
    ensures PendingRecords(log) > 0
  {
    if i < |log| - 1 { PendingCounted(log[..|log| - 1], i); }
  }

  lemma FinaleIsCounted(cfg: Config, log: seq<Record>, sid: SessionId, code: Option<string>, id: EventId)
    ensures PendingRecords(log + Finale(cfg, sid, code, id)) > 0
  {
    hide PendingRecords;
    PendingCounted(log + Finale(cfg, sid, code, id), |log|);
  }

  /** With default handlers and no failed write, a request by the owner ends the session in the one call if and only if
      nobody registered has acknowledged the session before. An earlier acknowledgement is ignored by the hub when it
      comes and held back by the Purpose's own guard later, so the session would wait for ever. */
  lemma ShutdownEndsUnlessAcknowledgedEarly(cfg: Config, w: World, sid: SessionId, text: SidText, why: string,
                                            outside: Outside)
    requires MayClose(cfg, w, sid) && text.Spelled? && text.sid == sid
    requires cfg.owner in w.purposes ==> text !in w.purposes[cfg.owner].requested
    ensures var r := Exec(cfg, w, RequestEnd(cfg.owner, text, why), outside);
            && (r.w.hub.pending == map[] <==> NotYetAcked(w, sid, 0))
            && (r.w.hub.closed <==> cfg.durable && NotYetAcked(w, sid, 0))
            && (PendingRecords(r.w.persister.log) > 0 <==> NotYetAcked(w, sid, 0))
  {
    hide Legal, Good, Apply, Enabled, Exec, RequestEndCall, HandleRequestEnd, PendingRecords, Finale, AckRecords;
    var r := Exec(cfg, w, RequestEnd(cfg.owner, text, why), outside);
    EndedRunIsLegal(cfg, w, text, why, outside);
    if NotYetAcked(w, sid, 0) {
      ExactShutdown(cfg, w, sid, text, why, outside);
      var n := w.next + 2 + |w.hub.regs|;
      var code := CodeGiven(w.hist, sid);
      FinaleIsCounted(cfg, r.w.persister.log[..|r.w.persister.log| - |Finale(cfg, sid, code, n)|], sid, code, n);
    } else {
      var j :| 0 <= j < |w.hub.regs| && w.hub.regs[j].who in w.purposes
        && Canonical(sid) in w.purposes[w.hub.regs[j].who].acked;
      StallsFrom(cfg, w, sid, text, why, outside, w.hub.regs[j].who);
      if PendingRecords(r.w.persister.log) > 0 {
        AllClearMeansAllAcknowledged(cfg, r.w);
        ShutdownIsTracked(cfg, r.w);
      }
    }
  }

  lemma EndedRunIsLegal(cfg: Config, w: World, text: SidText, why: string, outside: Outside)
    requires Calm(cfg, w) && w.script == []
    ensures Calm(cfg, Exec(cfg, w, RequestEnd(cfg.owner, text, why), outside).w)
  {
    hide Legal, Exec;
  }

  // ---------------------------------------------------------------- a close inside an import's relay

  /** Nothing but deliveries has happened. */
  ghost predicate OnlyDelivered(cfg: Config, w: World, w': World) {
    && Calm(cfg, w') && w'.hub == w.hub && w'.persister == w.persister && w'.script == [] && w.hist <= w'.hist
    && w'.next == w.next
  }

  /** Default handlers do nothing about an event that is not session_closing. */
  lemma {:induction false} QuietBroadcast(cfg: Config, w: World, ev: HubEvent, i: nat)
    requires Calm(cfg, w) && w.script == [] && Has(w.persister.log, ev.id) && !ev.payload.SessionClosing?
    requires i <= |w.hub.regs|
    ensures var r := Broadcast(cfg, w, ev, i, |w.hub.regs|); r.out == Ok && OnlyDelivered(cfg, w, r.w)
    decreases |w.hub.regs| - i
  {
    hide Legal, Apply, Enabled;
    if i < |w.hub.regs| {
      CredentialsHold(cfg, w);
      assert RegHolds(w.purposes, w.hub.regs[i]);
      DeliverIsEnabled(cfg, w, ev, i);
      DeliverEffect(cfg, w, i, ev);
      var w1 := Do(cfg, w, Deliver(i, ev));
      assert DeliverTo(cfg, w, ev, i) == Res(w1, Ok);
      QuietBroadcast(cfg, w1, ev, i + 1);
    }
  }

  /** The first recipient of the relay asks for the end of a session it may end. */
  ghost predicate ClosesInRelay(cfg: Config, w: World, closing: SessionId, step: Step) {
    && Calm(cfg, w) && NoFailedWrite(cfg) && w.script == [ByHandler([step], false)]
    && step.call.RequestEnd? && step.call.who == cfg.owner && step.call.sid.Spelled? && step.call.sid.sid == closing
    && Open(w) && cfg.durable && closing in w.hub.owners && NotYetAcked(w, closing, 0)
    && (cfg.owner in w.purposes ==> step.call.sid !in w.purposes[cfg.owner].requested)
  }

  /** The relay has closed the hub, and its last record so far is session_completed. */
  ghost predicate ClosedMeanwhile(cfg: Config, w: World, r: Res) {
    && r.out == Ok && Calm(cfg, r.w) && r.w.hub.closed && r.w.script == []
    && w.persister.log <= r.w.persister.log && w.hist <= r.w.hist
    && EndsWithCompletion(cfg, r.w.persister.log)
  }

  lemma HandlerRuns(cfg: Config, w: World, step: Step)
    requires Exec(cfg, w, step.call, step.outside).out == Ok
    ensures RunSteps(cfg, w, [step]) == Exec(cfg, w, step.call, step.outside)
  {
    hide Legal, Good, Apply, Enabled, Exec;
    assert [step][1..] == [];
  }

  lemma DeliveredState(cfg: Config, w: World, i: nat, ev: HubEvent)
    ensures var w1 := Apply(cfg, w, Deliver(i, ev));
            && w1.hub == w.hub && w1.persister == w.persister && w1.purposes == w.purposes && w1.next == w.next
            && (|w.script| == 1 ==> w1.script == [])
  {
  }

  lemma FirstRecipientCloses(cfg: Config, w: World, closing: SessionId, step: Step, ev: HubEvent)
    requires ClosesInRelay(cfg, w, closing, step) && Has(w.persister.log, ev.id)
    ensures |w.hub.regs| > 0
    ensures ClosedMeanwhile(cfg, w, DeliverTo(cfg, w, ev, 0)) && DeliverTo(cfg, w, ev, 0).w.hub.regs == w.hub.regs
  {
    hide Legal, Good, Apply, Enabled, Exec, Finale, AckRecords, RunSteps;
    CredentialsHold(cfg, w);
    assert RegHolds(w.purposes, w.hub.regs[0]);
    DeliverIsEnabled(cfg, w, ev, 0);
    DeliveredState(cfg, w, 0, ev);
    var w1 := Do(cfg, w, Deliver(0, ev));
    assert ReadyToClose(cfg, w1, closing);
    ExactShutdown(cfg, w1, closing, step.call.sid, step.call.why, step.outside);
    EndedRunIsLegal(cfg, w1, step.call.sid, step.call.why, step.outside);
    HandlerRuns(cfg, w1, step);
    var r := Exec(cfg, w1, step.call, step.outside);
    assert DeliverTo(cfg, w, ev, 0) == r;
    FinaleEnds(cfg, r.w.persister.log, closing, CodeGiven(w1.hist, closing), w1.next + 2 + |w1.hub.regs|);
  }

  lemma FinaleEnds(cfg: Config, log: seq<Record>, sid: SessionId, code: Option<string>, id: EventId)
    requires cfg.durable && exists start: seq<Record> :: log == start + Finale(cfg, sid, code, id)
    ensures EndsWithCompletion(cfg, log)
  {
  }

  lemma RelayCloses(cfg: Config, w: World, closing: SessionId, step: Step, ev: HubEvent)
    requires ClosesInRelay(cfg, w, closing, step) && Has(w.persister.log, ev.id) && !ev.payload.SessionClosing?
    ensures ClosedMeanwhile(cfg, w, Multicast(cfg, w, ev))
  {
    hide Legal, Good, Apply, Enabled, DeliverTo;
    FirstRecipientCloses(cfg, w, closing, step, ev);
    var r := DeliverTo(cfg, w, ev, 0);
    HasInExtension(w.persister.log, r.w.persister.log, ev.id);
    QuietBroadcast(cfg, r.w, ev, 1);
    assert Broadcast(cfg, w, ev, 0, |w.hub.regs|) == Broadcast(cfg, r.w, ev, 1, |w.hub.regs|);
  }

  /** Where closed is not final: a recipient of a cto_imported relay may close the hub, and an import the hub takes is
      then still adopted, so that a new turn is stored and its cto_started follows session_completed in the log. */
  lemma AdoptionOutlivesClose(cfg: Config, w: World, ev: PurposeEvent, now: int, closing: SessionId, step: Step)
    requires ImportDue(cfg, w, ev) && ev.payload.session.sid in w.hub.owners && Takes(cfg, w, ev)
    requires ClosesInRelay(cfg, Do(cfg, w, BeginImport(ev)), closing, step) && Calm(cfg, w)
    ensures var r, closed := HandleCtoImported(cfg, w, cfg.persister, ev, now), Relay(cfg, w, ev).w;
            && ClosedMeanwhile(cfg, w, Relay(cfg, w, ev))
            && r.out.Done? && r.w.hub.closed
            && |r.w.persister.log| == |closed.persister.log| + 1 && closed.persister.log <= r.w.persister.log
            && r.w.persister.log[|closed.persister.log|].payload.CtoStarted?
            && |r.w.hub.ctos| == |closed.hub.ctos| + 1
  {
    hide Legal, Good, Apply, Enabled, Multicast, AcceptNewCto, Validates, CtoJson.Normalize, CtoJson.Adopted;
    BeginImportIsEnabled(cfg, w, ev);
    BeginImportEffect(cfg, w, ev);
    var w0, v := Do(cfg, w, BeginImport(ev)), Relay(cfg, w, ev).w;
    RelayCloses(cfg, w0, closing, step, Relayed(ev));
    HistoryGrows(cfg, w0, v);
    CtoJson.AdoptedIsNamed(ev.payload.document, SourceOf(ev.payload));
    AdoptedSeedIsEnabled(cfg, v, ev, now);
    AdoptedQuietly(cfg, v, AdoptedSeed(ev, now));
    assert HandleCtoImported(cfg, w, cfg.persister, ev, now) == SettleImport(cfg, v, ev, now);
    assert SettleImport(cfg, v, ev, now) == AcceptNewCto(cfg, v, AdoptedSeed(ev, now));
  }

  lemma StoreGrowsByOne(cfg: Config, w: World, s: Seed)
    requires IdsMinted(w) && WriteOk(w)
    ensures var w1 := Apply(cfg, w, StoreTurn(s));
            && w1.hub.closed == w.hub.closed && w1.hub.ctos == w.hub.ctos[w.next + 1 := NewCto(w, s)]
            && w1.hub.owners == w.hub.owners && w1.hub.closing == w.hub.closing
            && w.next + 1 !in w.hub.ctos && |w1.hub.ctos| == |w.hub.ctos| + 1 && w1.script == w.script
            && w1.persister.log == w.persister.log + [HubRecord(StartedEvent(w, s))]
  {
    hide RegsAfter, PurposesAfter, PendingAfter, ClosureAfter;
  }

  lemma AdoptedQuietly(cfg: Config, w: World, s: Seed)
    requires Calm(cfg, w) && NoFailedWrite(cfg) && w.script == [] && Enabled(cfg, w, StoreTurn(s))
    ensures var r := AcceptNewCto(cfg, w, s);
            && r.out.Done? && r.w.hub.closed == w.hub.closed && |r.w.hub.ctos| == |w.hub.ctos| + 1
            && r.w.persister.log == w.persister.log + [HubRecord(StartedEvent(w, s))]
            && r.w.hub.ctos == w.hub.ctos[w.next + 1 := NewCto(w, s)] && w.next + 1 !in w.hub.ctos
            && r.w.hub.regs == w.hub.regs && r.w.hub.owners == w.hub.owners && r.w.hub.closing == w.hub.closing
            && Calm(cfg, r.w) && r.w.script == [] && r.w.next == w.next + 2
  {
    hide Legal, Good, Apply, Enabled, Broadcast;
    WritesSucceed(cfg, w);
    IdsAreMinted(cfg, w);
    StoreGrowsByOne(cfg, w, s);
    var w1 := Do(cfg, w, StoreTurn(s));
    var ev := StartedEvent(w, s);
    QuietBroadcast(cfg, w1, ev, 0);
    assert Multicast(cfg, w1, ev) == Broadcast(cfg, w1, ev, 0, |w1.hub.regs|);
    assert AcceptNewCto(cfg, w, s) == WriteAndMulticast(cfg, w, StoreTurn(s), Some(w.next + 1));
  }
}
