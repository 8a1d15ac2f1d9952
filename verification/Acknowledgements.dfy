/** What one acknowledgement does, whoever sends it and whenever: it counts, and the last one ends the session. */
module Acknowledgements {
  import opened Wrappers
  import opened Ctos
  import opened Events
  import opened World
  import opened Invariants
  import opened Hub
  import opened Codes
  import opened Replay
  import opened Credentials
  import opened ShutdownOutcome
  import opened Operations
  import opened Submissions

  /** The hub has recorded this Purpose's acknowledgement of the session, and has yet to handle it. */
  ghost predicate AckRecorded(cfg: Config, w: World, v: World, who: PurposeId, text: SidText, r: Record) {
    && text.Spelled? && Legal(cfg, v) && v.hub == w.hub && v.owed == DiscardOwed(v, who, text)
    && v.persister.log == w.persister.log + [r] && v.persister.acked == w.persister.acked
  }

  /** The acknowledgement is in the log and its sender off the pending set. Unless it was the last one awaited, that is
      all that has happened. */
  ghost predicate Counts(w: World, v: World, who: PurposeId, sid: SessionId, r: Record) {
    && |w.persister.log| < |v.persister.log| && v.persister.log[|w.persister.log|] == r
    && (sid in v.hub.pending ==> who !in v.hub.pending[sid])
    && (w.hub.pending != map[sid := {who}] ==>
          && v.persister.log == w.persister.log + [r]
          && v.hub == w.hub.(pending := if sid in w.hub.pending then w.hub.pending[sid := w.hub.pending[sid] - {who}]
                                        else w.hub.pending))
  }

  /** The acknowledgement is in the log, after it the all-clear and the persister's acknowledgement and, from a durable
      persister, session_completed, with the code last given to the session. */
  ghost predicate Ends(cfg: Config, w: World, v: World, sid: SessionId, r: Record, id: EventId) {
    && v.persister.log == w.persister.log + [r] + Finale(cfg, sid, CodeGiven(w.hist, sid), id)
    && v.hub.closed == cfg.durable && v.hub.closing == !cfg.durable && v.hub.pending == map[]
    && v.hub.regs == w.hub.regs
  }

  /** At most one session is closing, and it waits for somebody. */
  lemma OneAwaited(cfg: Config, w: World, sid: SessionId)
    requires Calm(cfg, w) && sid in w.hub.pending
    ensures w.hub.pending == map[sid := w.hub.pending[sid]] && w.hub.pending[sid] != {} && w.hub.closing
            && !w.hub.closed
  {
    hide Legal;
    ShutdownIsTracked(cfg, w);
  }

  lemma OthersLeft(awaited: set<PurposeId>, who: PurposeId)
    requires awaited != {} && awaited != {who}
    ensures awaited - {who} != {}
  {
    var p :| p in awaited && p != who;
    assert p in awaited - {who};
  }

  lemma HandledCounts(cfg: Config, w: World, v: World, who: PurposeId, text: SidText, r: Record)
    requires Calm(cfg, w) && !w.hub.closed && AckRecorded(cfg, w, v, who, text, r)
    ensures Counts(w, HandleCompleted(cfg, v, who, text).w, who, text.sid, r)
    ensures w.hub.pending != map[text.sid := {who}] ==> HandleCompleted(cfg, v, who, text).out == Ok
  {
    hide Legal, Apply, Enabled, ClosePending;
    var sid, u := text.sid, HandleCompleted(cfg, v, who, text).w;
    assert v.persister.log <= u.persister.log;
    if sid in w.hub.pending {
      OneAwaited(cfg, w, sid);
      DiscardEffect(cfg, v, sid, who);
      if w.hub.pending[sid] == {who} {
        DiscardIsEnabled(cfg, v, sid, who, text);
        var w1 := Do(cfg, v, Discard(sid, who));
        assert sid !in w1.hub.pending;
        HandledEnds(cfg, w, v, who, text);
      } else {
        OthersLeft(w.hub.pending[sid], who);
      }
    }
  }

  /** Whatever happens from the all-clear on, nobody is awaited any more. */
  lemma HandledEnds(cfg: Config, w: World, v: World, who: PurposeId, text: SidText)
    requires Legal(cfg, v) && v.hub == w.hub && v.owed == DiscardOwed(v, who, text) && !w.hub.closed
    requires text.Spelled? && w.hub.pending == map[text.sid := {who}]
    ensures HandleCompleted(cfg, v, who, text).w.hub.pending == map[]
  {
    hide Legal, Apply, Enabled, PersisterCompletes, EmitSessionCompleted;
    DiscardIsEnabled(cfg, v, text.sid, who, text);
    DiscardEffect(cfg, v, text.sid, who);
    var w1 := Do(cfg, v, Discard(text.sid, who));
    AllClearGiven(cfg, w1, text.sid);
    var w2 := Do(cfg, w1, LogPending(text.sid));
    var w3 := PersisterCompletes(cfg, w2, text.sid).w;
    CompletionKeepsPending(cfg, w3, text.sid);
  }

  lemma CompletionKeepsPending(cfg: Config, w: World, sid: SessionId)
    ensures EmitSessionCompleted(cfg, w, sid).w.hub.pending == w.hub.pending
  {
    hide Legal, Apply, Enabled, SubmitOwn;
  }

  lemma HandledLast(cfg: Config, w: World, v: World, who: PurposeId, text: SidText, r: Record)
    requires Calm(cfg, w) && NoFailedWrite(cfg) && AckRecorded(cfg, w, v, who, text, r)
    requires w.hub.pending == map[text.sid := {who}]
    ensures var u := HandleCompleted(cfg, v, who, text);
            u.out == Ok && Ends(cfg, w, u.w, text.sid, r, v.next)
  {
    hide Legal, Apply, Enabled, ClosePending, Finale;
    OneAwaited(cfg, w, text.sid);
    PersisterHasNotAcked(cfg, w);
    DiscardIsEnabled(cfg, v, text.sid, who, text);
    DiscardEffect(cfg, v, text.sid, who);
    var w1 := Do(cfg, v, Discard(text.sid, who));
    assert w1.hub.pending == map[];
    CodeIsGiven(cfg, w, text.sid);
    CodeIsGiven(cfg, w1, text.sid);
    ClosePendingOutcome(cfg, w1, text.sid);
  }

  /** While somebody is awaited the persister has not acknowledged. */
  lemma PersisterHasNotAcked(cfg: Config, w: World)
    requires Calm(cfg, w) && w.hub.pending != map[]
    ensures w.persister.acked == {}
  {
    hide Legal;
    PersisterAcksLate(cfg, w);
    if AllClear(w) { NobodyPending(cfg, w); }
  }

  // ---------------------------------------------------------------- a purpose_completed that is presented

  /** A purpose_completed with a new id that the hub lets in and can write. */
  predicate AckLetIn(cfg: Config, w: World, ev: PurposeEvent) {
    && ev.payload.PurposeCompleted? && ev.payload.session.Spelled?
    && ProperId(cfg, w, ev.id, true) && ev.token != PERSISTER_TOKEN && LetIn(cfg, w, ev) && WriteOk(w)
  }

  lemma AckIsRecorded(cfg: Config, w: World, ev: PurposeEvent, outside: Outside)
    requires Good(cfg, w) && AckLetIn(cfg, w, ev)
    ensures var v := Recorded(cfg, w, ev);
            && AckRecorded(cfg, w, v, ev.who, ev.payload.session, PurposeRecord(ev)) && v.next == w.next
            && Receive(cfg, w, ev, true, outside) == HandleCompleted(cfg, v, ev.who, ev.payload.session)
  {
    hide Legal, Apply, Enabled, Resolve, NameOf, HandleCompleted;
    LetInIsRecorded(cfg, w, ev, outside);
    RecordedQuietly(cfg, w, ev);
  }

  lemma RecordedQuietly(cfg: Config, w: World, ev: PurposeEvent)
    ensures Recorded(cfg, w, ev).persister.acked == w.persister.acked && Recorded(cfg, w, ev).next == w.next
  {
  }

  /** An acknowledgement that is let in and written counts at once, from whatever Purpose, deferred, repeated or not
      awaited at all. */
  lemma AcknowledgementCounts(cfg: Config, w: World, ev: PurposeEvent, outside: Outside)
    requires Good(cfg, w) && AckLetIn(cfg, w, ev)
    ensures var r, sid := Receive(cfg, w, ev, true, outside), ev.payload.session.sid;
            && Counts(w, r.w, ev.who, sid, PurposeRecord(ev))
            && (w.hub.pending != map[sid := {ev.who}] ==> r.out == Ok)
  {
    hide Legal, Apply, Enabled, Resolve, NameOf, HandleCompleted, Counts;
    AckIsRecorded(cfg, w, ev, outside);
    HandledCounts(cfg, w, Recorded(cfg, w, ev), ev.who, ev.payload.session, PurposeRecord(ev));
  }

  /** The last one awaited ends the session in the one call that brings it, however long after closing began. */
  lemma LastAcknowledgementEnds(cfg: Config, w: World, ev: PurposeEvent, outside: Outside)
    requires Good(cfg, w) && AckLetIn(cfg, w, ev) && NoFailedWrite(cfg)
    requires w.hub.pending == map[ev.payload.session.sid := {ev.who}]
    ensures var r := Receive(cfg, w, ev, true, outside);
            r.out == Ok && Ends(cfg, w, r.w, ev.payload.session.sid, PurposeRecord(ev), w.next)
  {
    hide Legal, Apply, Enabled, Resolve, NameOf, HandleCompleted, Ends;
    AckIsRecorded(cfg, w, ev, outside);
    HandledLast(cfg, w, Recorded(cfg, w, ev), ev.who, ev.payload.session, PurposeRecord(ev));
  }

  // ---------------------------------------------------------------- a Purpose's own complete_session_closing

  /** A registered Purpose that has not acknowledged the session yet does, in a hub that is not closed and can write. */
  predicate MayAcknowledge(w: World, who: PurposeId, text: SidText) {
    && who in w.purposes && w.purposes[who].creds.Some? && text.Spelled? && text !in w.purposes[who].acked
    && !w.hub.closed && WriteOk(w)
  }

  /** Its world once the hub has recorded it. */
  function CompletionRecorded(cfg: Config, w: World, who: PurposeId, text: SidText, why: string): World
    requires MayAcknowledge(w, who, text)
  {
    var w1 := Do(cfg, w, MarkAcked(who, text));
    Recorded(cfg, Do(cfg, w1, Mint), OwnedBy(w1, who, None, PurposeCompleted(text, why)))
  }

  function CompletionRecord(w: World, who: PurposeId, text: SidText, why: string): Record
    requires who in w.purposes
  {
    Record(FromPurpose(who, w.purposes[who].name), w.next, None, None, PurposeCompleted(text, why))
  }

  lemma CompletionIsRecorded(cfg: Config, w: World, who: PurposeId, text: SidText, why: string)
    requires Good(cfg, w) && MayAcknowledge(w, who, text)
    ensures var v := CompletionRecorded(cfg, w, who, text, why);
            && AckRecorded(cfg, w, v, who, text, CompletionRecord(w, who, text, why)) && v.next == w.next + 1
            && Complete(cfg, w, who, text, why) == HandleCompleted(cfg, v, who, text)
  {
    hide Legal, Apply, Enabled, Resolve, NameOf, HandleCompleted;
    MarkAckedKeeps(cfg, w, who, text);
    var w1 := Do(cfg, w, MarkAcked(who, text));
    OwnEventsAreLetIn(cfg, w1, who, None, PurposeCompleted(text, why));
    MintKeeps(cfg, w1);
    var v, ev := Do(cfg, w1, Mint), OwnedBy(w1, who, None, PurposeCompleted(text, why));
    LetInIsRecorded(cfg, v, ev, Outside(0, None));
    RecordedQuietly(cfg, v, ev);
    assert Ingress(cfg, v, ev, true) == Admitted(Recorded(cfg, v, ev), who);
  }

  /** `complete_session_closing` counts in the same way, */
  lemma CompletingCounts(cfg: Config, w: World, who: PurposeId, text: SidText, why: string)
    requires Good(cfg, w) && MayAcknowledge(w, who, text)
    ensures var r := Complete(cfg, w, who, text, why);
            && Counts(w, r.w, who, text.sid, CompletionRecord(w, who, text, why))
            && (w.hub.pending != map[text.sid := {who}] ==> r.out == Ok)
  {
    hide Legal, Apply, Enabled, HandleCompleted, Counts, CompletionRecorded;
    CompletionIsRecorded(cfg, w, who, text, why);
    HandledCounts(cfg, w, CompletionRecorded(cfg, w, who, text, why), who, text, CompletionRecord(w, who, text, why));
  }

  /** and ends the session in the same way. */
  lemma LastCompletingEnds(cfg: Config, w: World, who: PurposeId, text: SidText, why: string)
    requires Good(cfg, w) && MayAcknowledge(w, who, text) && NoFailedWrite(cfg)
    requires w.hub.pending == map[text.sid := {who}]
    ensures var r := Complete(cfg, w, who, text, why);
            r.out == Ok && Ends(cfg, w, r.w, text.sid, CompletionRecord(w, who, text, why), w.next + 1)
  {
    hide Legal, Apply, Enabled, HandleCompleted, Ends, CompletionRecorded;
    CompletionIsRecorded(cfg, w, who, text, why);
    HandledLast(cfg, w, CompletionRecorded(cfg, w, who, text, why), who, text, CompletionRecord(w, who, text, why));
  }

  // ---------------------------------------------------------------- an all-clear that cannot be written

  /** If the all-clear cannot be written the session does not end: the error reaches the last acknowledger, nothing more
      is written, and the hub stays as it is, closing and waiting for nobody. */
  lemma UnwrittenAllClear(cfg: Config, w: World, sid: SessionId)
    requires Legal(cfg, w) && Enabled(cfg, w, LogPending(sid)) && !WriteOk(w)
    ensures var r := ClosePending(cfg, w, sid);
            && r.out == Raised(WriteFailed) && r.w.hub == w.hub && r.w.persister == w.persister
            && r.w.hub.closing && !r.w.hub.closed && r.w.hub.pending == map[]
  {
    hide Legal, Apply, Enabled, PersisterCompletes, EmitSessionCompleted;
    AllClearGiven(cfg, w, sid);
    UnwrittenPending(cfg, w, sid);
    ShutdownIsTracked(cfg, w);
    AllClearWhileClosing(cfg, w, sid);
  }

  lemma UnwrittenPending(cfg: Config, w: World, sid: SessionId)
    requires !WriteOk(w)
    ensures var v := Apply(cfg, w, LogPending(sid)); v.hub == w.hub && v.persister == w.persister
  {
  }

  lemma AllClearWhileClosing(cfg: Config, w: World, sid: SessionId)
    requires AllClear(Apply(cfg, w, LogPending(sid)))
    ensures w.closure.Some?
  {
  }
}
