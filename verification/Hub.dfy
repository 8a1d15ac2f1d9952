/**
 The hub's operations as whole calls, each with everything that happens before it returns: the writes, the deliveries,
 and what the recipients do in turn (hub.py, base_purpose.py, persistence.py, archivist.py).

 Handlers are arbitrary: the reactions in `script` are taken one per delivery, and each may call any operation again.
 Each operation only performs enabled actions, provided that nobody but the persister presents the persister's token.
 */
module Hub {
  import opened Wrappers
  import opened Json
  import opened Profiles
  import opened Ctos
  import opened Events
  import opened World
  import opened Invariants
  import CtoJson

  datatype Error =
    | HubClosed | Unauthorized | UnknownKey | BadValue | UnknownEventType | PersistenceFailure | WriteFailed | Unbound
    | BadSignature | NotSupported | NoFile | SizeChanged | HandlerFailed | NoSuchPurpose

  datatype Outcome = Done(value: Option<nat>) | Raised(error: Error)

  datatype Res = Res(w: World, out: Outcome)

  const Ok: Outcome := Done(None)

  // ---------------------------------------------------------------- honesty

  /** The persister's token is not presented by anyone else, and ids are fresh if they are said to be. */
  predicate HonestCall(cfg: Config, c: Call) {
    c.TakeTurn? ==> c.token != PERSISTER_TOKEN && (cfg.freshIds ==> c.id.New?)
  }

  predicate HonestSteps(cfg: Config, steps: seq<Step>) {
    forall i | 0 <= i < |steps| :: HonestCall(cfg, steps[i].call)
  }

  predicate HonestScript(cfg: Config, script: seq<Reaction>) {
    forall i | 0 <= i < |script| :: script[i].ByHandler? ==> HonestSteps(cfg, script[i].steps)
  }

  /** A calm legal world whose remaining handlers are honest. */
  ghost predicate Good(cfg: Config, w: World) {
    Calm(cfg, w) && HonestScript(cfg, w.script)
  }

  // ---------------------------------------------------------------- ingress

  datatype Admission = Admitted(w: World, who: PurposeId) | Refused(w: World, error: Error)

  /** Acceptance guard, credential checks and the write of an accepted event: the common part of `take_turn`. */
  function Ingress(cfg: Config, w: World, ev: PurposeEvent, minted: bool): (r: Admission)
    requires BuiltIn(ev.payload)
    ensures r.w.script == w.script && w.persister.log <= r.w.persister.log && w.hist <= r.w.hist
    ensures r.w.hub == w.hub && r.w.importing == w.importing
    ensures r.Refused? || ev.who == cfg.persister ==> r.w.closure == w.closure && (w.owed.None? ==> r.w.owed.None?)
    ensures r.Admitted? && ev.who != cfg.persister ==>
              r.w.closure == ClosureAfter(w, Ingest(ev, minted)) && r.w.owed == OwedBy(r.w, ev)
    ensures r.Admitted? ==> Accepts(w, ev.payload) && r == Admitted(r.w, ev.who)
    ensures r.Admitted? && ev.who == cfg.persister ==> r.w.persister.log == w.persister.log
    ensures r.Admitted? && ev.who != cfg.persister ==>
              r.w.hist == w.hist + [Ingest(ev, minted)] && Has(r.w.persister.log, ev.id)
    ensures Legal(cfg, w) && ev.token != PERSISTER_TOKEN && r.Admitted? ==> ev.who != cfg.persister
    ensures Calm(cfg, w) && ProperId(cfg, w, ev.id, minted) && ev.token != PERSISTER_TOKEN ==> Legal(cfg, r.w)
    ensures Calm(cfg, w) && ev.token == PERSISTER_TOKEN && Has(w.persister.log, ev.id) && ev.id !in w.accepted ==>
              Calm(cfg, r.w)
  {
    hide Legal, Apply, Enabled, Resolve, NameOf, PendingAfter, RegsAfter, CtosAfter, PurposesAfter, LogAfter;
    if !Accepts(w, ev.payload) then Refused(w, HubClosed)
    else
      var resolved := Resolve(cfg, w, ev.token);
      if resolved != Some(ev.who) || ev.name != NameOf(cfg, w, ev.who) then Refused(w, Unauthorized)
      else if ev.who == cfg.persister then
        assert Legal(cfg, w) && ev.token != PERSISTER_TOKEN ==> false by {
          if Legal(cfg, w) && ev.token != PERSISTER_TOKEN { DomainTokens(cfg, w, ev.token); }
        }
        assert w.owed.None? && Has(w.persister.log, ev.id) && ev.id !in w.accepted ==>
                 Enabled(cfg, w, AcceptOwn(ev.id)) by {
          if w.owed.None? { AcceptOwnIsEnabled(cfg, w, ev.id); }
        }
        assert Do(cfg, w, AcceptOwn(ev.id)).persister.log == w.persister.log by { AcceptOwnLogs(cfg, w, ev.id); }
        Admitted(Do(cfg, w, AcceptOwn(ev.id)), ev.who)
      else
        assert Legal(cfg, w) && ev.token == PERSISTER_TOKEN ==> false by {
          if Legal(cfg, w) && ev.token == PERSISTER_TOKEN { PersisterTokenResolves(cfg, w); }
        }
        assert w.owed.None? && ProperId(cfg, w, ev.id, minted) ==> Enabled(cfg, w, Ingest(ev, minted)) by {
          if w.owed.None? && ProperId(cfg, w, ev.id, minted) { IngestIsEnabled(cfg, w, ev, minted); }
        }
        var w1 := Do(cfg, w, Ingest(ev, minted));
        if !WriteOk(w) then Refused(w1, PersistenceFailure)
        else
          Admitted(w1, ev.who)
  }

  lemma IngestIsEnabled(cfg: Config, w: World, ev: PurposeEvent, minted: bool)
    requires w.owed.None? && Accepts(w, ev.payload) && ProperId(cfg, w, ev.id, minted) && BuiltIn(ev.payload)
    requires Resolve(cfg, w, ev.token) == Some(ev.who) && ev.who != cfg.persister && ev.name == NameOf(cfg, w, ev.who)
    ensures Enabled(cfg, w, Ingest(ev, minted))
  {
  }

  lemma AcceptOwnIsEnabled(cfg: Config, w: World, id: EventId)
    requires w.owed.None? && !w.hub.closed
    ensures Has(w.persister.log, id) && id !in w.accepted ==> Enabled(cfg, w, AcceptOwn(id))
  {
  }

  lemma AcceptOwnLogs(cfg: Config, w: World, id: EventId)
    ensures LogAfter(cfg, w, AcceptOwn(id)) == w.persister.log
  {
  }

  lemma {:induction false} MatchesOf(regs: seq<Registration>, token: Token, k: nat)
    requires DistinctRegs(regs)
    requires k < |regs| ==> regs[k].creds.token == token
    requires k >= |regs| ==> forall i | 0 <= i < |regs| :: regs[i].creds.token != token
    ensures Matches(regs, token) == if k < |regs| then [regs[k].who] else []
  {
    if regs != [] {
      var rest := regs[1..];
      assert forall i, j | 0 <= i < j < |rest| :: rest[i] == regs[i + 1] && rest[j] == regs[j + 1];
      if k == 0 {
        assert forall i | 0 <= i < |rest| :: rest[i].creds.token != token;
        MatchesOf(rest, token, |rest|);
      } else {
        assert regs[0].creds.token != token;
        MatchesOf(rest, token, k - 1);
      }
    }
  }

  lemma PersisterTokenResolves(cfg: Config, w: World)
    requires Legal(cfg, w)
    ensures Resolve(cfg, w, PERSISTER_TOKEN) == Some(cfg.persister)
  {
    CredentialsHold(cfg, w);
    assert forall i | 0 <= i < |w.hub.regs| :: RegHolds(w.purposes, w.hub.regs[i]);
    MatchesOf(w.hub.regs, PERSISTER_TOKEN, |w.hub.regs|);
  }

  lemma DomainTokens(cfg: Config, w: World, token: Token)
    requires Legal(cfg, w) && token != PERSISTER_TOKEN
    ensures Resolve(cfg, w, token) != Some(cfg.persister)
  {
    CredentialsHold(cfg, w);
    MatchesRegistered(w.hub.regs, token);
    if Matches(w.hub.regs, token) != [] {
      var i :| 0 <= i < |w.hub.regs| && w.hub.regs[i].who == Matches(w.hub.regs, token)[0];
      assert RegHolds(w.purposes, w.hub.regs[i]);
    }
  }

  lemma {:induction false} MatchesRegistered(regs: seq<Registration>, token: Token)
    ensures Matches(regs, token) != [] ==>
              exists i :: 0 <= i < |regs| && regs[i].who == Matches(regs, token)[0] && regs[i].creds.token == token
  {
    if regs != [] && regs[0].creds.token != token {
      MatchesRegistered(regs[1..], token);
      if Matches(regs, token) != [] {
        var i :| 0 <= i < |regs[1..]| && regs[1..][i].who == Matches(regs, token)[0]
          && regs[1..][i].creds.token == token;
        assert regs[i + 1] == regs[1..][i];
      }
    }
  }

  lemma MintKeeps(cfg: Config, w: World)
    ensures var v := Apply(cfg, w, Mint);
            v.hub == w.hub && v.purposes == w.purposes && v.persister == w.persister && v.deliveries == w.deliveries
            && v.writes == w.writes && v.script == w.script && v.importing == w.importing && v.closure == w.closure
  {
  }

  /** A just minted id is nobody else's. */
  lemma MintedIsProper(cfg: Config, w: World)
    requires Legal(cfg, w)
    ensures ProperId(cfg, Apply(cfg, w, Mint), w.next, true)
  {
    IdsAreMinted(cfg, w);
  }

  /** `PersistencePurpose._submit_purpose_event`: the persister writes its own event, then hands it to the hub. */
  function SubmitOwn(cfg: Config, w: World, session: Option<SessionId>, p: Payload): (r: Admission)
    requires BuiltIn(p)
    ensures r.w.script == w.script && w.persister.log <= r.w.persister.log && w.hist <= r.w.hist
    ensures r.w.hub == w.hub && r.w.closure == ClosureAfter(w, WriteOwn(session, p)) && r.w.importing == w.importing
    ensures Calm(cfg, w) && Enabled(cfg, w, WriteOwn(session, p)) ==> Calm(cfg, r.w)
    ensures r.Admitted? ==> r == Admitted(r.w, cfg.persister) && Has(r.w.persister.log, w.next) && Accepts(w, p)
    ensures Legal(cfg, w) && r.Admitted? ==>
              r.w.persister.log == w.persister.log + [PurposeRecord(OwnEvent(cfg, w, session, p))]
  {
    hide Legal, Apply, Enabled, Ingress, Resolve, PendingAfter, RegsAfter, CtosAfter, PurposesAfter, ClosureAfter;
    var ev := OwnEvent(cfg, w, session, p);
    assert Legal(cfg, w) ==> ev.id !in w.accepted && !Has(w.persister.log, ev.id) by {
      if Legal(cfg, w) { IdsAreMinted(cfg, w); }
    }
    assert RecordOf(cfg, w, WriteOwn(session, p)).value.id == ev.id;
    var w1 := Do(cfg, w, WriteOwn(session, p));
    if !WriteOk(w) then Refused(w1, WriteFailed)
    else
      var r := Ingress(cfg, w1, ev, true);
      assert r.Admitted? ==> Has(r.w.persister.log, ev.id) by {
        HasInExtension(w1.persister.log, r.w.persister.log, ev.id);
      }
      r
  }

  // ---------------------------------------------------------------- acknowledgements and completion

  /** Taking one Purpose off the pending set; if that empties it, the all-clear may be sent. */
  ghost predicate MayDiscard(cfg: Config, w: World, sid: SessionId, who: PurposeId) {
    && Enabled(cfg, w, Discard(sid, who))
    && var w1 := Apply(cfg, w, Discard(sid, who));
       if sid in w1.hub.pending then w1.owed.None? else Enabled(cfg, w1, LogPending(sid))
  }

  /** The acknowledgement about to be handled is the one just admitted: it is what is owed, if anything is. */
  predicate Credited(w: World, who: PurposeId, text: SidText) {
    w.owed == DiscardOwed(w, who, text)
  }

  lemma DiscardIsEnabled(cfg: Config, w: World, sid: SessionId, who: PurposeId, text: SidText)
    requires !w.hub.closed && sid in w.hub.pending && text.Spelled? && text.sid == sid && Credited(w, who, text)
    ensures MayDiscard(cfg, w, sid, who)
  {
  }

  /** The all-clear has been attempted. */
  predicate AllClear(w: World) {
    w.closure.Some? && w.closure.value.pendings > 0
  }

  /** Once it has, nobody is pending. */
  lemma NobodyPending(cfg: Config, w: World)
    requires Calm(cfg, w) && AllClear(w)
    ensures w.hub.pending == map[]
  {
    hide Legal;
    ShutdownIsTracked(cfg, w);
  }

  lemma AllClearGiven(cfg: Config, w: World, sid: SessionId)
    requires Legal(cfg, w) && Enabled(cfg, w, LogPending(sid))
    ensures var w1 := Apply(cfg, w, LogPending(sid));
            !w1.hub.closed && AllClear(w1) && w1.owed.None? && w1.hub.pending == map[]
  {
    hide Legal;
    ShutdownIsTracked(cfg, w);
  }

  /** After the all-clear and the persister's acknowledgement, session_completed is due. */
  lemma CompletionIsEnabled(cfg: Config, w: World, w': World, sid: SessionId)
    requires Legal(cfg, w) && Enabled(cfg, w, LogPending(sid)) && WriteOk(w)
    requires var w1 := Apply(cfg, w, LogPending(sid));
             w'.owed.None? && (sid !in w1.hub.pending ==> w'.hub == w1.hub && w'.closure == w1.closure)
    ensures !w'.hub.closed
    ensures cfg.durable ==> Enabled(cfg, w', WriteOwn(Some(sid), SessionCompleted(CodeOf(w', sid))))
  {
    hide Legal;
    ShutdownIsTracked(cfg, w);
  }

  /** Once session_completed is the last record, the hub may close. */
  lemma FinishIsEnabled(cfg: Config, w: World, w': World, sid: SessionId)
    requires Enabled(cfg, w, WriteOwn(Some(sid), SessionCompleted(CodeOf(w, sid)))) && cfg.durable
    requires w'.owed.None?
    requires w'.hub == w.hub && w'.closure == ClosureAfter(w, WriteOwn(Some(sid), SessionCompleted(CodeOf(w, sid))))
    requires w'.persister.log ==
               w.persister.log + [PurposeRecord(OwnEvent(cfg, w, Some(sid), SessionCompleted(CodeOf(w, sid))))]
    ensures Enabled(cfg, w', Finish(Some(sid)))
  {
  }

  predicate NotAwaited(w: World, text: SidText) {
    text.Spelled? && text.sid !in w.hub.pending
  }

  /** `_handle_purpose_completed`. */
  function HandleCompleted(cfg: Config, w: World, who: PurposeId, text: SidText): (r: Res)
    decreases |w.hub.pending|, 0
    ensures r.w.script == w.script && w.persister.log <= r.w.persister.log && w.hist <= r.w.hist
    ensures r.w.importing == w.importing
    ensures Legal(cfg, w) && !w.hub.closed && Credited(w, who, text) ==> Calm(cfg, r.w)
    ensures NotAwaited(w, text) ==> r == Res(w, Ok)
  {
    hide Legal, Apply, Enabled, ClosePending;
    if !text.Spelled? then Res(w, Raised(BadValue))
    else if text.sid !in w.hub.pending then Res(w, Ok)
    else
      assert !w.hub.closed && Credited(w, who, text) ==> MayDiscard(cfg, w, text.sid, who) by {
        if !w.hub.closed && Credited(w, who, text) { DiscardIsEnabled(cfg, w, text.sid, who, text); }
      }
      var w1 := Do(cfg, w, Discard(text.sid, who));
      if text.sid in w1.hub.pending then Res(w1, Ok)
      else
        assert w1.hub.pending == w.hub.pending - {text.sid};
        ClosePending(cfg, w1, text.sid)
  }

  /** `_emit_session_close_pending` with what the persister does on receiving it. */
  function ClosePending(cfg: Config, w: World, sid: SessionId): (r: Res)
    decreases |w.hub.pending|, 2
    ensures r.w.script == w.script && w.persister.log <= r.w.persister.log && w.hist <= r.w.hist
    ensures r.w.importing == w.importing
    ensures Legal(cfg, w) && Enabled(cfg, w, LogPending(sid)) ==> Calm(cfg, r.w)
  {
    hide Logged, AcceptedAfter, AckedAfter;
    hide Legal, Apply, Enabled, PersisterCompletes, EmitSessionCompleted;
    assert Legal(cfg, w) && Enabled(cfg, w, LogPending(sid)) ==>
        var w1 := Apply(cfg, w, LogPending(sid)); !w1.hub.closed && AllClear(w1) by {
      if Legal(cfg, w) && Enabled(cfg, w, LogPending(sid)) { AllClearGiven(cfg, w, sid); }
    }
    var w1 := Do(cfg, w, LogPending(sid));
    if !WriteOk(w) then Res(w1, Raised(WriteFailed))
    else
      var r := PersisterCompletes(cfg, w1, sid);
      assert Legal(cfg, w) && Enabled(cfg, w, LogPending(sid)) ==>
          (cfg.durable ==> Enabled(cfg, r.w, WriteOwn(Some(sid), SessionCompleted(CodeOf(r.w, sid))))) by {
        if Legal(cfg, w) && Enabled(cfg, w, LogPending(sid)) { CompletionIsEnabled(cfg, w, r.w, sid); }
      }
      if r.out.Raised? then r else EmitSessionCompleted(cfg, r.w, sid)
  }

  lemma OwnCompletionIsEnabled(cfg: Config, w: World, w1: World, text: SidText)
    requires AllClear(w) && w.owed.None? && w1.owed.None? && !w1.hub.closed
    ensures Enabled(cfg, w, MarkPersisterAcked(text))
    ensures Enabled(cfg, w1, WriteOwn(None, PurposeCompleted(text, "normal")))
  {
  }

  /** The persister's own `complete_session_closing`. */
  function PersisterCompletes(cfg: Config, w: World, sid: SessionId): (r: Res)
    decreases |w.hub.pending|, 1
    ensures r.w.script == w.script && w.persister.log <= r.w.persister.log && w.hist <= r.w.hist
    ensures r.w.importing == w.importing
    ensures Calm(cfg, w) && !w.hub.closed && AllClear(w) ==> Calm(cfg, r.w)
    ensures sid !in w.hub.pending ==> r.w.hub == w.hub && r.w.closure == w.closure
  {
    hide Legal, Apply, Enabled, SubmitOwn, HandleCompleted, RegsAfter, CtosAfter, PurposesAfter, LogAfter, OwedAfter;
    hide PendingAfter;
    var text := Canonical(sid);
    if text in w.persister.acked then Res(w, Ok)
    else
      var w1 := Do(cfg, w, MarkPersisterAcked(text));
      assert !w.hub.closed && AllClear(w) && w.owed.None? ==>
          Enabled(cfg, w, MarkPersisterAcked(text))
            && Enabled(cfg, w1, WriteOwn(None, PurposeCompleted(text, "normal"))) by {
        if !w.hub.closed && AllClear(w) && w.owed.None? { OwnCompletionIsEnabled(cfg, w, w1, text); }
      }
      var a := SubmitOwn(cfg, w1, None, PurposeCompleted(text, "normal"));
      assert Calm(cfg, a.w) && AllClear(a.w) ==> a.w.hub.pending == map[] by {
        if Calm(cfg, a.w) && AllClear(a.w) { NobodyPending(cfg, a.w); }
      }
      if a.Refused? then Res(a.w, Raised(a.error))
      else HandleCompleted(cfg, a.w, a.who, text)
  }

  /** `emit_session_completed`, up to the hub closing. */
  function EmitSessionCompleted(cfg: Config, w: World, sid: SessionId): (r: Res)
    ensures r.w.script == w.script && w.persister.log <= r.w.persister.log && w.hist <= r.w.hist
    ensures r.w.importing == w.importing
    ensures Calm(cfg, w) && (cfg.durable ==> Enabled(cfg, w, WriteOwn(Some(sid), SessionCompleted(CodeOf(w, sid))))) ==>
              Calm(cfg, r.w)
  {
    hide Legal, Apply, Enabled, SubmitOwn, HandleSessionCompleted;
    if !cfg.durable then Res(w, Ok)
    else
      var a := SubmitOwn(cfg, w, Some(sid), SessionCompleted(CodeOf(w, sid)));
      assert Calm(cfg, w) && Enabled(cfg, w, WriteOwn(Some(sid), SessionCompleted(CodeOf(w, sid)))) && a.Admitted? ==>
          Enabled(cfg, a.w, Finish(Some(sid))) by {
        if Calm(cfg, w) && Enabled(cfg, w, WriteOwn(Some(sid), SessionCompleted(CodeOf(w, sid)))) && a.Admitted? {
          FinishIsEnabled(cfg, w, a.w, sid);
        }
      }
      if a.Refused? then Res(a.w, Raised(a.error))
      else HandleSessionCompleted(cfg, a.w, a.who, Some(sid))
  }

  /** `_handle_session_completed`. */
  function HandleSessionCompleted(cfg: Config, w: World, who: PurposeId, session: Option<SessionId>): (r: Res)
    ensures r.w.script == w.script && w.persister.log <= r.w.persister.log && w.hist <= r.w.hist
    ensures r.w.importing == w.importing
    ensures Calm(cfg, w) && (who == cfg.persister && cfg.durable ==> Enabled(cfg, w, Finish(session))) ==>
              Calm(cfg, r.w)
  {
    hide Legal, Apply;
    if who != cfg.persister || !cfg.durable then Res(w, Raised(Unauthorized))
    else Res(Do(cfg, w, Finish(session)), Ok)
  }

  lemma MarkAckedIsEnabled(cfg: Config, w: World, who: PurposeId, text: SidText)
    requires w.owed.None? && who in w.purposes
    ensures Enabled(cfg, w, MarkAcked(who, text)) && Enabled(cfg, Apply(cfg, w, MarkAcked(who, text)), Mint)
  {
  }

  /** `BasePurpose.complete_session_closing`. */
  function Complete(cfg: Config, w: World, who: PurposeId, text: SidText, why: string): (r: Res)
    ensures r.w.script == w.script && w.persister.log <= r.w.persister.log && w.hist <= r.w.hist
    ensures r.w.importing == w.importing
    ensures Calm(cfg, w) ==> Calm(cfg, r.w)
  {
    hide OwedAfter;
    hide Legal, Apply, Enabled, Ingress, HandleCompleted, PendingAfter, RegsAfter, CtosAfter, LogAfter, ClosureAfter;
    if who !in w.purposes then Res(w, Raised(NoSuchPurpose))
    else if text.Empty? then Res(w, Raised(BadValue))
    else if text in w.purposes[who].acked then Res(w, Ok)
    else
      assert w.owed.None? ==>
               Enabled(cfg, w, MarkAcked(who, text)) && Enabled(cfg, Apply(cfg, w, MarkAcked(who, text)), Mint) by {
        if w.owed.None? { MarkAckedIsEnabled(cfg, w, who, text); }
      }
      var w1 := Do(cfg, w, MarkAcked(who, text));
      if w1.purposes[who].creds.None? then Res(w1, Raised(Unbound))
      else
        assert Calm(cfg, w1) ==>
            ProperId(cfg, Apply(cfg, w1, Mint), w1.next, true)
              && w1.purposes[who].creds.value.token != PERSISTER_TOKEN by {
          if Calm(cfg, w1) { MintedIsProper(cfg, w1); OwnToken(cfg, w1, who); }
        }
        var ev := OwnedBy(w1, who, None, PurposeCompleted(text, why));
        var a := Ingress(cfg, Do(cfg, w1, Mint), ev, true);
        if a.Refused? then Res(a.w, Raised(a.error)) else HandleCompleted(cfg, a.w, a.who, text)
  }

  /** An event a Purpose makes in its own name. */
  function OwnedBy(w: World, who: PurposeId, session: Option<SessionId>, p: Payload): PurposeEvent
    requires who in w.purposes && w.purposes[who].creds.Some?
  {
    PurposeEvent(w.next, who, w.purposes[who].name, w.purposes[who].creds.value.token, session, p)
  }

  /** A Purpose's own token is the one it is registered with, so not the persister's. */
  lemma OwnToken(cfg: Config, w: World, who: PurposeId)
    requires Legal(cfg, w) && who in w.purposes && w.purposes[who].creds.Some?
    ensures w.purposes[who].creds.value.token != PERSISTER_TOKEN
  {
    CredentialsHold(cfg, w);
    var i :| 0 <= i < |w.hub.regs| && w.hub.regs[i].who == who;
    assert RegHolds(w.purposes, w.hub.regs[i]);
  }

  // ---------------------------------------------------------------- dispatch

  // Measures: a delivery that runs a handler uses up one reaction of the script; between deliveries the rank falls.

  /** `_multicast` phase 2, the `for` over `registrations.values()` from position i: each step of the iteration first
      notices whether the number of keys has changed since it began. */
  function Broadcast(cfg: Config, w: World, ev: HubEvent, i: nat, size: nat): (r: Res)
    requires i <= size
    decreases |w.script|, 3, size - i
    ensures |r.w.script| <= |w.script| && w.persister.log <= r.w.persister.log && w.hist <= r.w.hist
    ensures r.w.importing == w.importing
    ensures Good(cfg, w) && Has(w.persister.log, ev.id) ==> Good(cfg, r.w)
  {
    hide Legal, Apply, Enabled;
    if |w.hub.regs| != size then Res(w, Raised(SizeChanged))
    else if i == size then Res(w, Ok)
    else
      var r := DeliverTo(cfg, w, ev, i);
      if r.out.Raised? then r
      else
        assert Has(w.persister.log, ev.id) ==> Has(r.w.persister.log, ev.id) by {
          if Has(w.persister.log, ev.id) { HasInExtension(w.persister.log, r.w.persister.log, ev.id); }
        }
        Broadcast(cfg, r.w, ev, i + 1, size)
  }

  /** One recipient: `BasePurpose.take_turn` checks the envelope, then the Purpose reacts. */
  function DeliverTo(cfg: Config, w: World, ev: HubEvent, i: nat): (r: Res)
    requires i < |w.hub.regs|
    decreases |w.script|, 2, 0
    ensures |r.w.script| <= |w.script| && w.persister.log <= r.w.persister.log && w.hist <= r.w.hist
    ensures r.w.importing == w.importing
    ensures Good(cfg, w) && Has(w.persister.log, ev.id) ==> Good(cfg, r.w)
  {
    hide ClosureAfter, OwedAfter, PendingAfter, RegsAfter, CtosAfter, PurposesAfter, LogAfter;
    hide Legal, Apply, Enabled;
    var reg := w.hub.regs[i];
    if reg.who !in w.purposes then Res(w, Raised(NoSuchPurpose))
    else if w.purposes[reg.who].creds.None? then Res(w, Raised(Unbound))
    else if w.purposes[reg.who].creds.value.token != reg.creds.token then Res(w, Raised(Unauthorized))
    else if w.purposes[reg.who].creds.value.signature != reg.creds.signature then Res(w, Raised(BadSignature))
    else
      assert Calm(cfg, w) && Has(w.persister.log, ev.id) ==> Enabled(cfg, w, Deliver(i, ev)) by {
        if Calm(cfg, w) && Has(w.persister.log, ev.id) { DeliverIsEnabled(cfg, w, ev, i); }
      }
      var reaction := if |w.script| > 0 then w.script[0] else ByDefault;
      var w1 := Do(cfg, w, Deliver(i, ev));
      match reaction
      case ByDefault =>
        if ev.payload.SessionClosing? && ev.session.Some?
        then Complete(cfg, w1, reg.who, Canonical(ev.session.value), "normal")
        else Res(w1, Ok)
      case ByHandler(steps, raises) =>
        assert |w1.script| < |w.script|;
        var r := RunSteps(cfg, w1, steps);
        if r.out.Done? && raises then Res(r.w, Raised(HandlerFailed)) else r
  }

  lemma DeliverIsEnabled(cfg: Config, w: World, ev: HubEvent, i: nat)
    requires Calm(cfg, w) && Has(w.persister.log, ev.id) && i < |w.hub.regs|
    ensures Enabled(cfg, w, Deliver(i, ev))
  {
    hide Legal;
    CredentialsHold(cfg, w);
    assert RegHolds(w.purposes, w.hub.regs[i]);
  }

  /** `_multicast` of an event just written, to every registered Purpose. */
  function Multicast(cfg: Config, w: World, ev: HubEvent): (r: Res)
    decreases |w.script|, 4
    ensures |r.w.script| <= |w.script| && w.persister.log <= r.w.persister.log && w.hist <= r.w.hist
    ensures r.w.importing == w.importing
    ensures Good(cfg, w) && Has(w.persister.log, ev.id) ==> Good(cfg, r.w)
  {
    hide Legal;
    Broadcast(cfg, w, ev, 0, |w.hub.regs|)
  }

  /** An action that writes an event, then its multicast unless the write failed. */
  function WriteAndMulticast(cfg: Config, w: World, a: Act, value: Option<nat>): (r: Res)
    requires Authored(w, a).Some? && !a.Deliver?
    decreases |w.script|, 5
    ensures |r.w.script| <= |w.script| && w.persister.log <= r.w.persister.log && w.hist <= r.w.hist
    ensures r.w.importing == ImportingAfter(w, a)
    ensures Good(cfg, w) && Enabled(cfg, w, a) ==> Good(cfg, r.w)
  {
    hide ClosureAfter, OwedAfter, PendingAfter, RegsAfter, CtosAfter, PurposesAfter;
    hide Legal, Apply, Enabled;
    var w1 := Do(cfg, w, a);
    if !WriteOk(w) then Res(w1, Raised(PersistenceFailure))
    else
      var r := Multicast(cfg, w1, Authored(w, a).value);
      if r.out.Raised? then r else Res(r.w, Done(value))
  }

  // ---------------------------------------------------------------- turns

  /** The requester may come to own the session: it is the hub's caller, or the import being settled is its own. */
  predicate MayOwn(w: World, sid: SessionId, requester: PurposeId, source: Option<PurposeEvent>) {
    match source
    case None => Open(w)
    case Some(ev) => Innermost(w, ev) && ev.payload.session.sid == sid && ev.payload.requester == requester
  }

  lemma OwnIsEnabled(cfg: Config, w: World, sid: SessionId, source: Option<PurposeEvent>)
    requires w.owed.None? && sid !in w.hub.owners && MayOwn(w, sid, cfg.owner, source)
    ensures Enabled(cfg, w, Own(sid, cfg.owner, source))
  {
  }

  /** `_ensure_startup_owner_for_new_session`. */
  function EnsureOwner(cfg: Config, w: World, sid: SessionId, requester: PurposeId,
                       source: Option<PurposeEvent>): (r: Res)
    ensures r.w.script == w.script && r.w.persister.log == w.persister.log && w.hist <= r.w.hist && Open(r.w) == Open(w)
    ensures r.w.importing == w.importing
    ensures r.out.Done? ==> sid in r.w.hub.owners
    ensures Calm(cfg, w) && MayOwn(w, sid, requester, source) ==> Calm(cfg, r.w)
  {
    hide ClosureAfter, OwedAfter, RegsAfter, CtosAfter, PurposesAfter;
    hide Legal, Enabled;
    if sid in w.hub.owners then Res(w, Ok)
    else if requester != cfg.owner then Res(w, Raised(Unauthorized))
    else
      assert w.owed.None? && MayOwn(w, sid, requester, source) ==> Enabled(cfg, w, Own(sid, requester, source)) by {
        if w.owed.None? && MayOwn(w, sid, requester, source) { OwnIsEnabled(cfg, w, sid, source); }
      }
      Res(Do(cfg, w, Own(sid, requester, source)), Ok)
  }

  /** `_accept_new_cto`. */
  function AcceptNewCto(cfg: Config, w: World, s: Seed): (r: Res)
    decreases |w.script|, 6
    ensures |r.w.script| <= |w.script| && w.persister.log <= r.w.persister.log && w.hist <= r.w.hist
    ensures r.w.importing == ImportingAfter(w, StoreTurn(s))
    ensures Good(cfg, w) && Enabled(cfg, w, StoreTurn(s)) ==> Good(cfg, r.w)
  {
    hide Legal, Apply, Enabled;
    WriteAndMulticast(cfg, w, StoreTurn(s), Some(w.next + 1))
  }

  /** `start_turn` up to the profile's validation: who submits what, or why not. */
  function StartProblem(cfg: Config, w: World, c: Call): Option<Error>
    requires c.StartTurn?
  {
    if !Open(w) then Some(HubClosed)
    else if Resolve(cfg, w, c.token).None? then Some(Unauthorized)
    else if c.code == Some("") then Some(BadValue)
    else if ProfileFor(cfg, RefOf(c)).None? then Some(UnknownKey)
    else if !Validates(ProfileFor(cfg, RefOf(c)).value, c.content, cfg.strict) then Some(BadValue)
    else None
  }

  function RefOf(c: Call): ProfileRef
    requires c.StartTurn?
  {
    ProfileRef(c.profile, Int(c.version))
  }

  /** `start_turn`: the session is the given one or a new one. */
  function StartTurnCall(cfg: Config, w: World, c: Call, now: int): (r: Res)
    requires c.StartTurn?
    decreases |w.script|, 8
    ensures |r.w.script| <= |w.script| && w.persister.log <= r.w.persister.log && w.hist <= r.w.hist
    ensures r.w.importing == w.importing
    ensures Good(cfg, w) ==> Good(cfg, r.w)
  {
    hide Legal, Apply, Enabled, Validates, Resolve, StartValidated, PendingAfter, RegsAfter, CtosAfter, PurposesAfter;
    assert w.owed.None? ==> Enabled(cfg, w, Mint) by { if w.owed.None? { MintIsEnabled(cfg, w); } }
    var problem := StartProblem(cfg, w, c);
    var checked := if c.session.None? && Open(w) && Resolve(cfg, w, c.token).Some? then Do(cfg, w, Mint) else w;
    if problem.Some? then Res(checked, Raised(problem.value))
    else StartValidated(cfg, checked, c, c.session.GetOr(w.next), Resolve(cfg, w, c.token).value, now)
  }

  /** A call of `start_turn` whose profile is registered and accepts its content. */
  predicate Validated(cfg: Config, c: Call) {
    && c.StartTurn? && ProfileFor(cfg, RefOf(c)).Some?
    && Validates(ProfileFor(cfg, RefOf(c)).value, c.content, cfg.strict)
  }

  /** The rest of `start_turn`: defaults, which may change the session context, the owner check, and the new CTO. */
  function StartValidated(cfg: Config, w: World, c: Call, sid: SessionId, submitter: PurposeId, now: int): (r: Res)
    requires Validated(cfg, c)
    decreases |w.script|, 7
    ensures |r.w.script| <= |w.script| && w.persister.log <= r.w.persister.log && w.hist <= r.w.hist
    ensures r.w.importing == w.importing
    ensures Good(cfg, w) && Open(w) ==> Good(cfg, r.w)
  {
    hide Logged, AcceptedAfter, AckedAfter;
    hide Legal, Apply, Enabled, AcceptNewCto, EnsureOwner, Validates, ApplyDefaults, ProfileFor, NameOf;
    hide ClosureAfter, OwedAfter, PendingAfter, RegsAfter, CtosAfter, PurposesAfter, LogAfter;
    var p := ProfileFor(cfg, RefOf(c)).value;
    var (content, ctx) := ApplyDefaults(p, c.content, ContextOf(w, sid));
    var defaulting := SetContext(sid, ctx, RefOf(c), c.content);
    assert Open(w) && w.owed.None? ==> Enabled(cfg, w, defaulting) by {
      if Open(w) && w.owed.None? { OpenEnables(cfg, w, defaulting); }
    }
    var w1 := Do(cfg, w, defaulting);
    assert Open(w1) == Open(w) by { ContextEffect(cfg, w, defaulting); }
    var owned := EnsureOwner(cfg, w1, sid, submitter, None);
    if owned.out.Raised? then owned
    else
      var s := Seed(sid, c.code, RefOf(c), content, map[], submitter, NameOf(cfg, w, submitter), now, None);
      assert Open(w) && owned.w.owed.None? ==> Enabled(cfg, owned.w, StoreTurn(s)) by {
        if Open(w) && owned.w.owed.None? { DefaultedSeedIsEnabled(cfg, owned.w, s, p, c.content, ContextOf(w, sid)); }
      }
      AcceptNewCto(cfg, owned.w, s)
  }

  lemma ContextEffect(cfg: Config, w: World, a: Act)
    requires a.SetContext?
    ensures Open(Do(cfg, w, a)) == Open(w)
  {
    hide Apply, Legal, Enabled;
  }

  lemma OpenEnables(cfg: Config, w: World, a: Act)
    requires w.owed.None? && Open(w) && a.SetContext? && ProfileFor(cfg, a.used).Some?
    requires Validates(ProfileFor(cfg, a.used).value, a.given, cfg.strict)
    requires a.ctx == ApplyDefaults(ProfileFor(cfg, a.used).value, a.given, ContextOf(w, a.sid)).1
    ensures Enabled(cfg, w, a)
  {
  }

  lemma MintIsEnabled(cfg: Config, w: World)
    requires w.owed.None?
    ensures Enabled(cfg, w, Mint)
  {
  }

  /** Content validated and then defaulted may be stored. */
  lemma DefaultedSeedIsEnabled(cfg: Config, w: World, s: Seed, p: Profile, content: Dict, ctx: Dict)
    requires w.owed.None? && Open(w) && s.session in w.hub.owners && s.observations == map[] && s.source.None?
    requires ProfileFor(cfg, s.profile) == Some(p) && Validates(p, content, cfg.strict)
    requires s.content == ApplyDefaults(p, content, ctx).0
    ensures Enabled(cfg, w, StoreTurn(s))
  {
    if WellBehaved(p) {
      DefaultingIsCorrect(p, content, ctx, cfg.strict);
    }
  }

  /** `_merge_delta`: a delta for an unknown turn or with a value that is no list is recorded as rejected, then
      raised. */
  function MergeDelta(cfg: Config, w: World, d: Delta): (r: Res)
    decreases |w.script|, 6
    ensures |r.w.script| <= |w.script| && w.persister.log <= r.w.persister.log && w.hist <= r.w.hist
    ensures r.w.importing == w.importing
    ensures Good(cfg, w) && Open(w) ==> Good(cfg, r.w)
  {
    hide Logged, AcceptedAfter, AckedAfter;
    hide ClosureAfter, OwedAfter, PendingAfter, RegsAfter, CtosAfter, PurposesAfter, LogAfter;
    hide Legal, Apply;
    if d.turn !in w.hub.ctos then
      var r := WriteAndMulticast(cfg, w, Reject(d, UnknownTurn), None);
      if r.out.Raised? then r else Res(r.w, Raised(UnknownKey))
    else if !IsListPatch(d.patch) then
      var r := WriteAndMulticast(cfg, w, Reject(d, NotAList(FirstNonList(d.patch))), None);
      if r.out.Raised? then r else Res(r.w, Raised(BadValue))
    else WriteAndMulticast(cfg, w, Merge(d), Some(w.next))
  }

  function FirstNonList(patch: Patch): string
    requires !IsListPatch(patch)
  {
    if !patch[0].1.List? then patch[0].0 else FirstNonList(patch[1..])
  }

  // ---------------------------------------------------------------- closing

  /** The legacy `close`: only emits session_closing, without a session. */
  function CloseCall(cfg: Config, w: World, why: string): (r: Res)
    decreases |w.script|, 6
    ensures |r.w.script| <= |w.script| && w.persister.log <= r.w.persister.log && w.hist <= r.w.hist
    ensures r.w.importing == w.importing
    ensures Good(cfg, w) ==> Good(cfg, r.w)
  {
    hide Legal, Apply;
    if !Open(w) then Res(w, Raised(HubClosed)) else WriteAndMulticast(cfg, w, LegacyClose(why), None)
  }

  /** `_handle_request_session_end`. */
  function HandleRequestEnd(cfg: Config, w: World, who: PurposeId, text: SidText, why: string): (r: Res)
    decreases |w.script|, 6
    ensures |r.w.script| <= |w.script| && w.persister.log <= r.w.persister.log && w.hist <= r.w.hist
    ensures r.w.importing == w.importing
    ensures Good(cfg, w) && !w.hub.closed ==> Good(cfg, r.w)
  {
    hide Legal, Apply;
    if !text.Spelled? then Res(w, Raised(BadValue))
    else if text.sid !in w.hub.owners then Res(w, Raised(UnknownKey))
    else if w.hub.closing then
      if w.hub.closingId == Some(text.sid) then Res(w, Ok) else Res(w, Raised(HubClosed))
    else if w.hub.owners[text.sid] != who then Res(w, Raised(Unauthorized))
    else WriteAndMulticast(cfg, w, BeginClose(text.sid, why), None)
  }

  lemma BeginCloseEnabled(cfg: Config, w: World, sid: SessionId, why: string)
    requires w.owed.None? && Open(w) && sid in w.hub.owners
    ensures Enabled(cfg, w, BeginClose(sid, why))
  {
  }

  // ---------------------------------------------------------------- imports

  /** What `request_cto` is remembered by once handled. */
  function RequestKey(p: Payload, f: File): string
    requires p.RequestCto?
  {
    if p.request.Some? then p.request.value else p.kind + ":" + p.locator + ":" + f.hash
  }

  /** `_handle_request_cto`: relayed to the persister alone, in the name of the registration that asked. */
  function HandleRequestCto(cfg: Config, w: World, who: PurposeId, p: Payload, outside: Outside): (r: Res)
    requires p.RequestCto?
    decreases |w.script|, 10
    ensures |r.w.script| <= |w.script| && w.persister.log <= r.w.persister.log && w.hist <= r.w.hist
    ensures r.w.importing == w.importing
    ensures Good(cfg, w) && Open(w) ==> Good(cfg, r.w)
  {
    hide Legal, Apply;
    if !p.session.Spelled? then Res(w, Raised(BadValue))
    else
      var relayed := RequestCto(p.session, p.kind, p.locator, who, NameOf(cfg, w, who), p.code, p.request);
      PersisterImports(cfg, Do(cfg, w, Mint), relayed, outside)
  }

  lemma ImportIsEnabled(cfg: Config, w: World, session: Option<SessionId>, p: Payload)
    requires w.owed.None? && Open(w) && p.CtoImported? && p.key !in w.persister.handled
    ensures Enabled(cfg, w, WriteOwn(session, p))
  {
  }

  /** An import the persister has submitted is due. */
  lemma SubmittedIsDue(cfg: Config, w: World, session: Option<SessionId>, p: Payload)
    requires Legal(cfg, w) && Open(w) && cfg.imports && p.CtoImported? && p.session.Spelled?
    requires SubmitOwn(cfg, w, session, p).Admitted?
    ensures ImportDue(cfg, SubmitOwn(cfg, w, session, p).w, OwnEvent(cfg, w, session, p))
  {
    hide Legal, Apply, Enabled, SubmitOwn;
    var a := SubmitOwn(cfg, w, session, p);
    assert a.w.persister.log[|w.persister.log|] == PurposeRecord(OwnEvent(cfg, w, session, p));
  }

  /** The Archivist's `_handle_request_cto`; other persisters refuse the event. */
  function PersisterImports(cfg: Config, w: World, p: Payload, outside: Outside): (r: Res)
    requires p.RequestCto? && p.session.Spelled?
    decreases |w.script|, 9
    ensures |r.w.script| <= |w.script| && w.persister.log <= r.w.persister.log && w.hist <= r.w.hist
    ensures r.w.importing == w.importing
    ensures Good(cfg, w) && Open(w) ==> Good(cfg, r.w)
  {
    hide Legal, Apply, Enabled, SubmitOwn, HandleCtoImported, CtoJson.Normalize, ImportDue, ClosureAfter, OwedAfter;
    if !cfg.imports || p.kind != "cto_json" then Res(w, Raised(NotSupported))
    else if outside.file.None? then Res(w, Raised(NoFile))
    else
      var f := outside.file.value;
      var key := RequestKey(p, f);
      if key in w.persister.handled then Res(w, Ok)
      else if CtoJson.Normalize(f.document).Failure? then Res(w, Raised(BadValue))
      else
        var imported := CtoImported(p.session, p.kind, p.locator, f.hash, p.requester, p.requesterName,
                                    CtoJson.Normalize(f.document).value.document, p.code, key);
        SubmitImport(cfg, w, Some(p.session.sid), imported, outside.now)
  }

  /** The persister writes cto_imported itself and submits it. */
  function SubmitImport(cfg: Config, w: World, session: Option<SessionId>, p: Payload, now: int): (r: Res)
    requires p.CtoImported? && p.session.Spelled?
    decreases |w.script|, 9, 0
    ensures |r.w.script| <= |w.script| && w.persister.log <= r.w.persister.log && w.hist <= r.w.hist
    ensures r.w.importing == w.importing
    ensures Good(cfg, w) && Open(w) && cfg.imports && p.key !in w.persister.handled ==> Good(cfg, r.w)
  {
    hide Legal, Apply, Enabled, SubmitOwn, HandleCtoImported, CtoJson.Normalize, ImportDue, ClosureAfter, OwedAfter;
    assert Open(w) && w.owed.None? && p.key !in w.persister.handled ==> Enabled(cfg, w, WriteOwn(session, p)) by {
      if Open(w) && w.owed.None? && p.key !in w.persister.handled { ImportIsEnabled(cfg, w, session, p); }
    }
    var a := SubmitOwn(cfg, w, session, p);
    assert Calm(cfg, w) && Open(w) && cfg.imports && a.Admitted? ==>
             ImportDue(cfg, a.w, OwnEvent(cfg, w, session, p)) by {
      if Calm(cfg, w) && Open(w) && cfg.imports && a.Admitted? { SubmittedIsDue(cfg, w, session, p); }
    }
    if a.Refused? then Res(a.w, Raised(a.error))
    else HandleCtoImported(cfg, a.w, a.who, OwnEvent(cfg, w, session, p), now)
  }

  /** The event is the persister's cto_imported, just written, and the hub is open. */
  predicate ImportDue(cfg: Config, w: World, ev: PurposeEvent) {
    && Open(w) && cfg.imports && ev.who == cfg.persister && ev.payload.CtoImported? && ev.payload.session.Spelled?
    && PurposeRecord(ev) in w.persister.log
  }

  lemma BeginImportIsEnabled(cfg: Config, w: World, ev: PurposeEvent)
    requires w.owed.None? && ImportDue(cfg, w, ev)
    ensures Enabled(cfg, w, BeginImport(ev)) && Has(w.persister.log, ev.id)
  {
    var i :| 0 <= i < |w.persister.log| && w.persister.log[i] == PurposeRecord(ev);
  }

  lemma EndImportIsEnabled(cfg: Config, w: World)
    requires w.owed.None? && |w.importing| > 0
    ensures Enabled(cfg, w, EndImport)
  {
  }

  lemma AdoptedSeedIsEnabled(cfg: Config, w: World, ev: PurposeEvent, now: int)
    requires w.owed.None? && Innermost(w, ev) && CtoJson.Normalize(ev.payload.document).Success?
    requires var s := AdoptedSeed(ev, now);
             s.session in w.hub.owners && ProfileFor(cfg, s.profile).Some?
             && Validates(ProfileFor(cfg, s.profile).value, s.content, cfg.strict)
    ensures Enabled(cfg, w, StoreTurn(AdoptedSeed(ev, now)))
  {
  }

  /** An import that comes to nothing. */
  function Abandon(cfg: Config, w: World, error: Error): (r: Res)
    ensures r.w.script == w.script && r.w.persister.log == w.persister.log && w.hist <= r.w.hist
    ensures r.w.importing == ImportingAfter(w, EndImport) && r.out == Raised(error) && r.w.hub == w.hub
    ensures Good(cfg, w) && |w.importing| > 0 ==> Good(cfg, r.w)
  {
    hide Legal, Apply, Enabled;
    assert w.owed.None? && |w.importing| > 0 ==> Enabled(cfg, w, EndImport) by {
      if w.owed.None? && |w.importing| > 0 { EndImportIsEnabled(cfg, w); }
    }
    Res(Do(cfg, w, EndImport), Raised(error))
  }

  /** What the hub checks before it adopts, and adopts, once the relay has returned. */
  function SettleImport(cfg: Config, w: World, ev: PurposeEvent, now: int): (r: Res)
    requires ev.payload.CtoImported?
    decreases |w.script|, 7, 0
    ensures |r.w.script| <= |w.script| && w.persister.log <= r.w.persister.log && w.hist <= r.w.hist
    ensures r.w.importing == ImportingAfter(w, EndImport)
    ensures Good(cfg, w) && Innermost(w, ev) ==> Good(cfg, r.w)
  {
    hide Legal, Apply, Enabled, AcceptNewCto, EnsureOwner, CtoJson.Normalize, Validates;
    var p := ev.payload;
    if CtoJson.Normalize(p.document).Failure? || !p.session.Spelled? then Abandon(cfg, w, BadValue)
    else
      var owned := EnsureOwner(cfg, w, p.session.sid, p.requester, Some(ev));
      if owned.out.Raised? then Abandon(cfg, owned.w, owned.out.error)
      else
        var s := AdoptedSeed(ev, now);
        var profile := ProfileFor(cfg, s.profile);
        if profile.None? then Abandon(cfg, owned.w, UnknownKey)
        else if !Validates(profile.value, s.content, cfg.strict) then Abandon(cfg, owned.w, BadValue)
        else
          assert owned.w.owed.None? && Innermost(owned.w, ev) ==> Enabled(cfg, owned.w, StoreTurn(s)) by {
            if owned.w.owed.None? && Innermost(owned.w, ev) { AdoptedSeedIsEnabled(cfg, owned.w, ev, now); }
          }
          AcceptNewCto(cfg, owned.w, s)
  }

  /** The relay has raised or returned. */
  function Relaid(cfg: Config, relay: Res, ev: PurposeEvent, now: int): (r: Res)
    requires ev.payload.CtoImported?
    decreases |relay.w.script|, 7, 1
    ensures |r.w.script| <= |relay.w.script| && relay.w.persister.log <= r.w.persister.log && relay.w.hist <= r.w.hist
    ensures r.w.importing == ImportingAfter(relay.w, EndImport)
    ensures Good(cfg, relay.w) && Innermost(relay.w, ev) ==> Good(cfg, r.w)
  {
    hide Legal, SettleImport;
    if relay.out.Raised? then Abandon(cfg, relay.w, relay.out.error) else SettleImport(cfg, relay.w, ev, now)
  }

  /** `_handle_cto_imported`: relay, normalise again, adopt with provenance. */
  function HandleCtoImported(cfg: Config, w: World, who: PurposeId, ev: PurposeEvent, now: int): (r: Res)
    requires ev.payload.CtoImported?
    decreases |w.script|, 8
    ensures |r.w.script| <= |w.script| && w.persister.log <= r.w.persister.log && w.hist <= r.w.hist
    ensures r.w.importing == w.importing
    ensures Good(cfg, w) && (who == cfg.persister ==> ImportDue(cfg, w, ev)) ==> Good(cfg, r.w)
  {
    hide Logged, AcceptedAfter, AckedAfter;
    hide ClosureAfter, OwedAfter, PendingAfter, RegsAfter, CtosAfter, PurposesAfter;
    hide Legal, Apply, Enabled, Multicast, SettleImport, CtoJson.Normalize;
    if who != cfg.persister then Res(w, Raised(Unauthorized))
    else
      assert w.owed.None? && ImportDue(cfg, w, ev) ==>
               Enabled(cfg, w, BeginImport(ev)) && Has(w.persister.log, ev.id) by {
        if w.owed.None? && ImportDue(cfg, w, ev) { BeginImportIsEnabled(cfg, w, ev); }
      }
      var w0 := Do(cfg, w, BeginImport(ev));
      assert Has(w.persister.log, ev.id) ==> Has(w0.persister.log, ev.id) by {
        if Has(w.persister.log, ev.id) { HasInExtension(w.persister.log, w0.persister.log, ev.id); }
      }
      Relaid(cfg, Multicast(cfg, w0, Relayed(ev)), ev, now)
  }

  // ---------------------------------------------------------------- take_turn

  /** `take_turn` for an event whose id is settled. */
  function Receive(cfg: Config, w: World, ev: PurposeEvent, minted: bool, outside: Outside): (r: Res)
    decreases |w.script|, 12
    ensures |r.w.script| <= |w.script| && w.persister.log <= r.w.persister.log && w.hist <= r.w.hist
    ensures r.w.importing == w.importing
    ensures Good(cfg, w) && ProperId(cfg, w, ev.id, minted) && ev.token != PERSISTER_TOKEN ==> Good(cfg, r.w)
  {
    hide Legal, Apply, Enabled, Ingress, Handle, ReceiveCustom;
    if ev.payload.Custom? then ReceiveCustom(cfg, w, ev, minted)
    else if !BuiltIn(ev.payload) then Res(w, Raised(if Accepts(w, ev.payload) then UnknownEventType else HubClosed))
    else
      var a := Ingress(cfg, w, ev, minted);
      if a.Refused? then Res(a.w, Raised(a.error)) else Handle(cfg, a.w, a.who, ev, outside)
  }

  lemma CustomIsEnabled(cfg: Config, w: World, ev: PurposeEvent, minted: bool)
    requires w.owed.None? && ev.payload.Custom? && Accepts(w, ev.payload) && ProperId(cfg, w, ev.id, minted)
    ensures Enabled(cfg, w, RelayCustom(ev, minted))
  {
  }

  /** An event type that is not built in: relayed if registered for it. */
  function ReceiveCustom(cfg: Config, w: World, ev: PurposeEvent, minted: bool): (r: Res)
    requires ev.payload.Custom?
    decreases |w.script|, 6
    ensures |r.w.script| <= |w.script| && w.persister.log <= r.w.persister.log && w.hist <= r.w.hist
    ensures r.w.importing == w.importing
    ensures Good(cfg, w) && ProperId(cfg, w, ev.id, minted) ==> Good(cfg, r.w)
  {
    hide Legal, Apply, Enabled, Resolve, NameOf, WriteAndMulticast;
    assert w.owed.None? && Accepts(w, ev.payload) && ProperId(cfg, w, ev.id, minted) ==>
             Enabled(cfg, w, RelayCustom(ev, minted)) by {
      if w.owed.None? && Accepts(w, ev.payload) && ProperId(cfg, w, ev.id, minted) {
        CustomIsEnabled(cfg, w, ev, minted);
      }
    }
    if !Accepts(w, ev.payload) then Res(w, Raised(HubClosed))
    else if ev.payload.event !in cfg.custom then Res(w, Raised(UnknownEventType))
    else if Resolve(cfg, w, ev.token) != Some(ev.who) || ev.name != NameOf(cfg, w, ev.who)
    then Res(w, Raised(Unauthorized))
    else if !cfg.custom[ev.payload.event] then Res(w, Ok)
    else WriteAndMulticast(cfg, w, RelayCustom(ev, minted), None)
  }

  /** The built-in handlers; request_cto_close is accepted without one. */
  function Handle(cfg: Config, w: World, who: PurposeId, ev: PurposeEvent, outside: Outside): (r: Res)
    decreases |w.script|, 11
    ensures |r.w.script| <= |w.script| && w.persister.log <= r.w.persister.log && w.hist <= r.w.hist
    ensures r.w.importing == w.importing
    ensures Legal(cfg, w) && HonestScript(cfg, w.script) && Admits(w, ev) && who == ev.who && who != cfg.persister ==>
              Good(cfg, r.w)
  {
    hide Legal, Apply;
    match ev.payload
    case ProposeDelta(d) => MergeDelta(cfg, w, d)
    case PurposeStarted(_, _, _) => Multicast(cfg, w, Relayed(ev))
    case SessionStarted => if who != cfg.persister || !cfg.durable then Res(w, Raised(Unauthorized)) else Res(w, Ok)
    case RequestCto(_, _, _, _, _, _, _) => HandleRequestCto(cfg, w, who, ev.payload, outside)
    case CtoImported(_, _, _, _, _, _, _, _, _) => HandleCtoImported(cfg, w, who, ev, outside.now)
    case RequestSessionEnd(text, why) => HandleRequestEnd(cfg, w, who, text, why)
    case PurposeCompleted(text, _) => HandleCompleted(cfg, w, who, text)
    case SessionCompleted(_) => HandleSessionCompleted(cfg, w, who, ev.session)
    case _ => Res(w, Ok)
  }

  /** The event is written, was accepted, and what it calls for is what is owed. */
  predicate Admits(w: World, ev: PurposeEvent) {
    Has(w.persister.log, ev.id) && Accepts(w, ev.payload) && w.owed == OwedBy(w, ev)
  }

  /** The event a raw call presents, its id minted or reused. */
  function TakeTurnCall(cfg: Config, w: World, c: Call, outside: Outside): (r: Res)
    requires c.TakeTurn?
    decreases |w.script|, 13
    ensures |r.w.script| <= |w.script| && w.persister.log <= r.w.persister.log && w.hist <= r.w.hist
    ensures r.w.importing == w.importing
    ensures Good(cfg, w) && HonestCall(cfg, c) ==> Good(cfg, r.w)
  {
    hide Legal, Apply;
    if c.id.Seen? && c.id.id < w.next then
      Receive(cfg, w, PurposeEvent(c.id.id, c.who, c.name, c.token, c.session, c.payload), false, outside)
    else
      assert Legal(cfg, w) ==> ProperId(cfg, Apply(cfg, w, Mint), w.next, true) by {
        if Legal(cfg, w) { MintedIsProper(cfg, w); }
      }
      Receive(cfg, Do(cfg, w, Mint), PurposeEvent(w.next, c.who, c.name, c.token, c.session, c.payload), true, outside)
  }

  // ---------------------------------------------------------------- what a Purpose offers its owner

  /** `_submit_purpose_event` of an ordinary Purpose: the event is made and handed to the hub. */
  function SubmitAs(cfg: Config, w: World, who: PurposeId, session: Option<SessionId>, p: Payload,
                    outside: Outside): (r: Res)
    requires who in w.purposes
    decreases |w.script|, 13
    ensures |r.w.script| <= |w.script| && w.persister.log <= r.w.persister.log && w.hist <= r.w.hist
    ensures r.w.importing == w.importing
    ensures Good(cfg, w) ==> Good(cfg, r.w)
  {
    hide Legal, Apply;
    if w.purposes[who].creds.None? then Res(w, Raised(Unbound))
    else
      assert Legal(cfg, w) ==>
          ProperId(cfg, Apply(cfg, w, Mint), w.next, true) && w.purposes[who].creds.value.token != PERSISTER_TOKEN by {
        if Legal(cfg, w) { MintedIsProper(cfg, w); OwnToken(cfg, w, who); }
      }
      Receive(cfg, Do(cfg, w, Mint), OwnedBy(w, who, session, p), true, outside)
  }

  /** `announce_started`. */
  function AnnounceCall(cfg: Config, w: World, who: PurposeId, outside: Outside): (r: Res)
    decreases |w.script|, 14
    ensures |r.w.script| <= |w.script| && w.persister.log <= r.w.persister.log && w.hist <= r.w.hist
    ensures r.w.importing == w.importing
    ensures Good(cfg, w) ==> Good(cfg, r.w)
  {
    hide Legal, Apply;
    if who !in w.purposes then Res(w, Raised(NoSuchPurpose))
    else if w.purposes[who].announced then Res(w, Ok)
    else
      var w1 := Do(cfg, w, MarkAnnounced(who));
      SubmitAs(cfg, w1, who, None, PurposeStarted(who, w1.purposes[who].name, false), outside)
  }

  /** `start_purpose`: registers, then announces. */
  function StartPurposeCall(cfg: Config, w: World, who: PurposeId, outside: Outside): (r: Res)
    decreases |w.script|, 15
    ensures |r.w.script| <= |w.script| && w.persister.log <= r.w.persister.log && w.hist <= r.w.hist
    ensures r.w.importing == w.importing
    ensures Good(cfg, w) ==> Good(cfg, r.w)
  {
    hide Legal, Apply;
    if !Open(w) then Res(w, Raised(HubClosed))
    else if who !in w.purposes then Res(w, Raised(NoSuchPurpose))
    else AnnounceCall(cfg, Do(cfg, w, Register(who)), who, outside)
  }

  /** `request_session_end`. */
  function RequestEndCall(cfg: Config, w: World, who: PurposeId, text: SidText, why: string, outside: Outside): (r: Res)
    decreases |w.script|, 14
    ensures |r.w.script| <= |w.script| && w.persister.log <= r.w.persister.log && w.hist <= r.w.hist
    ensures r.w.importing == w.importing
    ensures Good(cfg, w) ==> Good(cfg, r.w)
  {
    hide Legal, Apply;
    if who !in w.purposes then Res(w, Raised(NoSuchPurpose))
    else if text.Empty? then Res(w, Raised(BadValue))
    else if text in w.purposes[who].requested then Res(w, Ok)
    else
      var w1 := Do(cfg, w, MarkRequested(who, text));
      SubmitAs(cfg, w1, who, None, RequestSessionEnd(text, why), outside)
  }

  /** `request_cto`. */
  function AskForCtoCall(cfg: Config, w: World, c: Call, outside: Outside): (r: Res)
    requires c.AskForCto?
    decreases |w.script|, 14
    ensures |r.w.script| <= |w.script| && w.persister.log <= r.w.persister.log && w.hist <= r.w.hist
    ensures r.w.importing == w.importing
    ensures Good(cfg, w) ==> Good(cfg, r.w)
  {
    hide Legal, Apply;
    if c.who !in w.purposes then Res(w, Raised(NoSuchPurpose))
    else if !c.sid.Spelled? || c.kind == "" || c.locator == "" then Res(w, Raised(BadValue))
    else
      SubmitAs(cfg, w, c.who, Some(c.sid.sid),
               RequestCto(c.sid, c.kind, c.locator, c.who, w.purposes[c.who].name, c.code, c.request), outside)
  }

  // ---------------------------------------------------------------- calls

  /** Any one call, from outside or from a handler. */
  function Exec(cfg: Config, w: World, c: Call, outside: Outside): (r: Res)
    decreases |w.script|, 16
    ensures |r.w.script| <= |w.script| && w.persister.log <= r.w.persister.log && w.hist <= r.w.hist
    ensures r.w.importing == w.importing
    ensures Good(cfg, w) && HonestCall(cfg, c) ==> Good(cfg, r.w)
  {
    hide Legal, Apply;
    match c
    case StartTurn(_, _, _, _, _, _) => StartTurnCall(cfg, w, c, outside.now)
    case TakeTurn(_, _, _, _, _, _) => TakeTurnCall(cfg, w, c, outside)
    case StartPurpose(who) => StartPurposeCall(cfg, w, who, outside)
    case Close(why) => CloseCall(cfg, w, why)
    case CompleteClosing(who, text, why) => Complete(cfg, w, who, text, why)
    case RequestEnd(who, text, why) => RequestEndCall(cfg, w, who, text, why, outside)
    case AskForCto(_, _, _, _, _, _) => AskForCtoCall(cfg, w, c, outside)
    case Announce(who) => AnnounceCall(cfg, w, who, outside)
  }

  /** The calls of a handler, up to the first error it does not catch. */
  function RunSteps(cfg: Config, w: World, steps: seq<Step>): (r: Res)
    decreases |w.script|, 17, |steps|
    ensures |r.w.script| <= |w.script| && w.persister.log <= r.w.persister.log && w.hist <= r.w.hist
    ensures r.w.importing == w.importing
    ensures Good(cfg, w) && HonestSteps(cfg, steps) ==> Good(cfg, r.w)
  {
    hide Legal, Apply;
    if steps == [] then Res(w, Ok)
    else
      var r := Exec(cfg, w, steps[0].call, steps[0].outside);
      if r.out.Raised? && !steps[0].catches then r else RunSteps(cfg, r.w, steps[1..])
  }

  /** Everything a finite run of the program does with the hub: calls made one after another, whatever they return. */
  function RunCalls(cfg: Config, w: World, steps: seq<Step>): (r: World)
    decreases |steps|
    ensures w.persister.log <= r.persister.log && w.hist <= r.hist
    ensures Good(cfg, w) && HonestSteps(cfg, steps) ==> Good(cfg, r)
  {
    hide Legal, Apply;
    if steps == [] then w else RunCalls(cfg, Exec(cfg, w, steps[0].call, steps[0].outside).w, steps[1..])
  }

  /** The world after the owner has announced itself and the program has made its calls. */
  function Started(cfg: Config, steps: seq<Step>): World {
    RunCalls(cfg, AnnounceCall(cfg, Init(cfg), cfg.owner, Outside(0, None)).w, steps)
  }

  /** Every run of an honest program ends in a legal world. */
  lemma RunsAreLegal(cfg: Config, steps: seq<Step>)
    requires ValidConfig(cfg) && HonestScript(cfg, cfg.script) && HonestSteps(cfg, steps)
    ensures Good(cfg, Started(cfg, steps))
  {
    assert Legal(cfg, Init(cfg));
  }
}
