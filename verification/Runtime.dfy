/**
 The hub as it runs: an object whose methods update its fields, scan its registrations and loop over recipients, and
 call each other through the Purposes it delivers to (hub.py). Each method does exactly what the function of the same
 purpose in module Hub says, state and outcome, so that everything proved of those functions holds of the methods.
 */
module Runtime {
  import opened Wrappers
  import opened Json
  import opened Profiles
  import opened Ctos
  import opened Events
  import opened World
  import opened Hub
  import opened Participants
  import CtoJson

  function Rest(writes: seq<bool>): seq<bool> {
    if |writes| > 0 then writes[1..] else writes
  }

  // What the steps between callbacks do, spelled out: everything not mentioned stays.

  lemma MintStep(cfg: Config, w: World)
    ensures Apply(cfg, w, Mint) == w.(next := w.next + 1, owed := None, hist := w.hist + [Mint])
  {
  }

  lemma RegisterStep(cfg: Config, w: World, who: PurposeId)
    requires who in w.purposes
    ensures var issued := Issue(w.next, who);
            Apply(cfg, w, Register(who))
              == w.(next := w.next + 1, hub := w.hub.(regs := Upsert(w.hub.regs, Registration(who, issued))),
                    purposes := w.purposes[who := w.purposes[who].(creds := Some(issued))], owed := None,
                    hist := w.hist + [Register(who)])
  {
    hide Upsert;
  }

  lemma MarkAnnouncedStep(cfg: Config, w: World, who: PurposeId)
    requires who in w.purposes
    ensures Apply(cfg, w, MarkAnnounced(who))
         == w.(purposes := w.purposes[who := w.purposes[who].(announced := true)], owed := None,
               hist := w.hist + [MarkAnnounced(who)])
  {
  }

  lemma MarkAckedStep(cfg: Config, w: World, who: PurposeId, text: SidText)
    requires who in w.purposes
    ensures Apply(cfg, w, MarkAcked(who, text))
         == w.(purposes := w.purposes[who := w.purposes[who].(acked := w.purposes[who].acked + {text})],
               owed := None, hist := w.hist + [MarkAcked(who, text)])
  {
  }

  lemma MarkRequestedStep(cfg: Config, w: World, who: PurposeId, text: SidText)
    requires who in w.purposes
    ensures Apply(cfg, w, MarkRequested(who, text))
         == w.(purposes := w.purposes[who := w.purposes[who].(requested := w.purposes[who].requested + {text})],
               owed := None, hist := w.hist + [MarkRequested(who, text)])
  {
  }

  lemma SetContextStep(cfg: Config, w: World, a: Act)
    requires a.SetContext?
    ensures Apply(cfg, w, a)
            == w.(hub := w.hub.(contexts := w.hub.contexts[a.sid := a.ctx]), owed := None, hist := w.hist + [a])
  {
  }

  lemma OwnStep(cfg: Config, w: World, sid: SessionId, who: PurposeId, source: Option<PurposeEvent>)
    ensures Apply(cfg, w, Own(sid, who, source))
         == w.(hub := w.hub.(owners := w.hub.owners[sid := who]), owed := None,
               hist := w.hist + [Own(sid, who, source)])
  {
  }

  lemma BeginImportStep(cfg: Config, w: World, ev: PurposeEvent)
    ensures Apply(cfg, w, BeginImport(ev))
         == w.(importing := w.importing + [ev], owed := None, hist := w.hist + [BeginImport(ev)])
  {
  }

  lemma EndImportStep(cfg: Config, w: World)
    ensures Apply(cfg, w, EndImport)
         == w.(importing := ImportingAfter(w, EndImport), owed := None, hist := w.hist + [EndImport])
  {
  }

  lemma AcceptOwnStep(cfg: Config, w: World, id: EventId)
    ensures Apply(cfg, w, AcceptOwn(id))
            == w.(accepted := w.accepted + [id], owed := None, hist := w.hist + [AcceptOwn(id)])
  {
  }

  /** What is left of the pending sets once a Purpose is taken off one. */
  function Without(pending: map<SessionId, set<PurposeId>>, sid: SessionId, who: PurposeId):
    map<SessionId, set<PurposeId>>
    requires sid in pending
  {
    if pending[sid] - {who} == {} then pending - {sid} else pending[sid := pending[sid] - {who}]
  }

  lemma DiscardStep(cfg: Config, w: World, sid: SessionId, who: PurposeId)
    requires sid in w.hub.pending
    ensures var v := Apply(cfg, w, Discard(sid, who));
            v == w.(hub := w.hub.(pending := Without(w.hub.pending, sid, who)), owed := v.owed, hist := v.hist)
  {
  }

  lemma FinishStep(cfg: Config, w: World, session: Option<SessionId>)
    ensures Apply(cfg, w, Finish(session))
         == w.(hub := w.hub.(closing := false, closingId := None, closed := true, closedId := session),
               owed := None, hist := w.hist + [Finish(session)])
  {
  }

  lemma MarkPersisterAckedStep(cfg: Config, w: World, text: SidText)
    ensures Apply(cfg, w, MarkPersisterAcked(text))
         == w.(persister := w.persister.(acked := w.persister.acked + {text}), owed := None,
               hist := w.hist + [MarkPersisterAcked(text)])
  {
  }

  lemma DeliverStep(cfg: Config, w: World, i: nat, ev: HubEvent)
    ensures var v := Apply(cfg, w, Deliver(i, ev));
            v == w.(script := if |w.script| > 0 then w.script[1..] else w.script, deliveries := v.deliveries,
                    owed := None, hist := v.hist)
  {
  }

  lemma WriteOwnStep(cfg: Config, w: World, session: Option<SessionId>, p: Payload)
    ensures var v, r := Apply(cfg, w, WriteOwn(session, p)), PurposeRecord(OwnEvent(cfg, w, session, p));
            && v.hub == w.hub && v.script == w.script && v.writes == Rest(w.writes) && v.purposes == w.purposes
            && v.persister
                 == PersisterState(if WriteOk(w) then Append(cfg, w.persister.log, r) else w.persister.log,
                                   w.persister.acked,
                                   if p.CtoImported? then w.persister.handled + {p.key} else w.persister.handled)
            && v.next == w.next + 1
  {
    hide Append;
  }

  /** A step that writes an event of the hub's, or an admitted one. */
  lemma WritingStep(cfg: Config, w: World, a: Act, r: Record)
    requires RecordOf(cfg, w, a) == Some(r) && !a.WriteOwn?
    ensures var v := Apply(cfg, w, a);
            && v.script == w.script && v.writes == Rest(w.writes) && v.purposes == w.purposes
            && v.persister == PersisterState(if WriteOk(w) then Append(cfg, w.persister.log, r) else w.persister.log,
                                             w.persister.acked, w.persister.handled)
            && v.next == w.next + Draws(a) && v.hub == HubAfter(w, a)
  {
    hide HubAfter, ClosureAfter, DeliveriesAfter, AcceptedAfter, Append;
  }

  lemma AuthoredRecord(cfg: Config, w: World, a: Act)
    requires Authored(w, a).Some?
    ensures RecordOf(cfg, w, a) == Some(HubRecord(Authored(w, a).value)) && !a.WriteOwn?
  {
  }

  lemma StoreTurnHub(w: World, s: Seed)
    ensures HubAfter(w, StoreTurn(s))
         == w.hub.(ctos := w.hub.ctos[w.next + 1 := NewCto(w, s)],
                   codes := if s.code.Some? then w.hub.codes[s.session := s.code.value] else w.hub.codes)
  {
  }

  lemma MergeHub(w: World, d: Delta)
    requires d.turn in w.hub.ctos
    ensures HubAfter(w, Merge(d)) == w.hub.(ctos := w.hub.ctos[d.turn := MergedCto(w, d)])
    ensures var c := MergedCto(w, d);
            Authored(w, Merge(d)) == Some(HubEvent(w.next, Some(c.session), Some(c.turn), DeltaMerged(d, ToIndex(c))))
  {
  }

  lemma BeginCloseHub(w: World, sid: SessionId, why: string)
    ensures HubAfter(w, BeginClose(sid, why))
         == w.hub.(pending := w.hub.pending[sid := Registered(w)], closing := true, closingId := Some(sid))
    ensures Authored(w, BeginClose(sid, why)) == Some(ClosingEvent(w, sid, why))
  {
  }

  lemma UntouchedHub(w: World, a: Act)
    requires a.Reject? || a.LegacyClose? || a.RelayCustom?
    ensures HubAfter(w, a) == w.hub
  {
  }

  class TTT {
    const cfg: Config
    const persister: Persister
    const purposes: map<PurposeId, Purpose>

    var registrations: seq<Registration>
    var ctos: map<TurnId, CTO>
    var contexts: map<SessionId, Dict>
    var owners: map<SessionId, PurposeId>
    var codes: map<SessionId, string>
    var closingSessions: map<SessionId, set<PurposeId>>
    var isClosing: bool
    var closingId: Option<SessionId>
    var isClosed: bool
    var closedId: Option<SessionId>

    // the supply of ids and tokens, the handlers still to come, the outcomes of the writes still to come
    var next: nat
    var script: seq<Reaction>
    var writes: seq<bool>

    /** The world these objects are in, with its history. */
    ghost var world: World

    ghost const Repr: set<object> := {this, persister} + purposes.Values

    ghost function HubFields(): HubState
      reads this`registrations, this`ctos, this`contexts, this`owners, this`codes, this`closingSessions
      reads this`isClosing, this`closingId, this`isClosed, this`closedId
    {
      HubState(registrations, ctos, contexts, owners, codes, closingSessions, isClosing, closingId, isClosed, closedId)
    }

    ghost predicate PurposesMatch(states: map<PurposeId, PurposeState>)
      reads purposes.Values
    {
      && states.Keys == purposes.Keys
      && (forall p | p in purposes :: purposes[p].id == p && IsIn(purposes[p], states[p]))
    }

    static ghost predicate IsIn(p: Purpose, s: PurposeState)
      reads p
    {
      s == PurposeState(p.name, p.creds, p.acknowledged, p.requested, p.announced)
    }

    /** All but the hub's own fields and the id supply are as the world has them. */
    ghost predicate OthersMatch()
      reads this`script, this`writes, this`world, persister, purposes.Values
    {
      && PurposesMatch(world.purposes)
      && persister.dedupes == cfg.dedupes
      && world.persister == PersisterState(persister.events, persister.acknowledged, persister.handled)
      && script == world.script && writes == world.writes
    }

    /** Every field and every object is as the world has it. */
    ghost predicate Valid()
      reads this, persister, purposes.Values
    {
      HubFields() == world.hub && next == world.next && OthersMatch()
    }

    /** The Purposes as they are before anyone is registered. */
    ghost function BeforeAny(): map<PurposeId, PurposeState> {
      map p | p in cfg.names :: PurposeState(cfg.names[p], None, {}, {}, false)
    }

    /** Nothing has happened yet. */
    ghost predicate Unstarted()
      reads this, persister, purposes.Values
    {
      && ValidConfig(cfg) && PurposesMatch(BeforeAny())
      && persister.dedupes == cfg.dedupes && persister.State() == PersisterState([], {}, {})
      && HubFields() == HubState([], map[], map[], map[], map[], map[], false, None, false, None)
      && next == 4 && script == cfg.script && writes == cfg.writes
    }

    constructor (cfg: Config, persister: Persister, purposes: map<PurposeId, Purpose>)
      requires ValidConfig(cfg) && purposes.Keys == cfg.names.Keys
      requires persister.dedupes == cfg.dedupes && persister.State() == PersisterState([], {}, {})
      requires forall p | p in purposes ::
                 purposes[p].id == p && purposes[p].State() == PurposeState(cfg.names[p], None, {}, {}, false)
      ensures this.cfg == cfg && this.persister == persister && this.purposes == purposes
      ensures Unstarted()
    {
      this.cfg, this.persister, this.purposes := cfg, persister, purposes;
      registrations := [];
      ctos, contexts, owners, codes, closingSessions := map[], map[], map[], map[], map[];
      isClosing, closingId, isClosed, closedId := false, None, false, None;
      next, script, writes := 4, cfg.script, cfg.writes;
    }

    /** `TTT.start`: the persister is bound, records session_started if it is durable and its own purpose_started, and
        the owner is registered. */
    method Start()
      requires Unstarted()
      modifies Repr
      ensures Valid() && world == Init(cfg)
    {
      hide PurposesMatch;
      var author := FromPurpose(cfg.persister, cfg.persisterName);
      if cfg.durable { persister.WriteEvent(Record(author, 2, None, None, SessionStarted)); }
      persister.WriteEvent(Record(author, 3, None, None, PurposeStarted(cfg.persister, cfg.persisterName, true)));
      assert cfg.owner in purposes by { SamePurposes(BeforeAny()); }
      Bind(cfg.owner, Issue(1, cfg.owner), BeforeAny());
      registrations := [Registration(cfg.owner, Issue(1, cfg.owner))];
      world := Init(cfg);
      assert world.purposes == BeforeAny()[cfg.owner := BeforeAny()[cfg.owner].(creds := Some(Issue(1, cfg.owner)))];
    }

    // -------------------------------------------------------------- steps between callbacks

    /** A write to the persister, which may fail. */
    method Write(r: Record) returns (ok: bool)
      requires persister.dedupes == cfg.dedupes
      modifies this`writes, persister`events
      ensures ok == (|old(writes)| == 0 || old(writes)[0])
      ensures writes == Rest(old(writes))
      ensures persister.events == if ok then Append(cfg, old(persister.events), r) else old(persister.events)
    {
      ok := |writes| == 0 || writes[0];
      if |writes| > 0 { writes := writes[1..]; }
      if ok { persister.WriteEvent(r); }
    }

    /** The write of an event for which the hub's own fields have just been updated. */
    method Persist(ghost a: Act, r: Record) returns (ok: bool)
      requires OthersMatch() && HubFields() == HubAfter(world, a) && next == world.next + Draws(a)
      requires RecordOf(cfg, world, a) == Some(r) && !a.WriteOwn?
      modifies this`writes, this`world, persister`events
      ensures Valid() && world == Apply(cfg, old(world), a) && ok == WriteOk(old(world))
    {
      hide Apply, HubAfter, RecordOf, Append, PurposesMatch, Draws;
      WritingStep(cfg, world, a, r);
      ghost var v := Apply(cfg, world, a);
      ok := Write(r);
      assert v.writes == writes && v.persister.log == persister.events;
      world := v;
    }

    /** `uuid4`. */
    method MintId() returns (id: nat)
      requires Valid()
      modifies this`next, this`world
      ensures Valid() && world == Apply(cfg, old(world), Mint) && id == old(world).next
    {
      hide Apply;
      MintStep(cfg, world);
      id, next := next, next + 1;
      world := Apply(cfg, world, Mint);
    }

    /** A Purpose is given its credentials. */
    method Bind(who: PurposeId, issued: Credentials, ghost states: map<PurposeId, PurposeState>)
      requires PurposesMatch(states) && who in purposes
      modifies purposes.Values
      ensures PurposesMatch(states[who := states[who].(creds := Some(issued))])
    {
      assert forall p | p in purposes && p != who :: purposes[p] != purposes[who];
      purposes[who].Assign(issued);
    }

    /** `_register_purpose`: new credentials, and a registration in the key's old place or at the end. */
    method RegisterPurpose(who: PurposeId)
      requires Valid() && who in purposes
      modifies Repr
      ensures Valid() && world == Apply(cfg, old(world), Register(who))
    {
      hide Apply, Upsert, PurposesMatch;
      SamePurposes(world.purposes);
      RegisterStep(cfg, world, who);
      var issued := Issue(next, who);
      Bind(who, issued, world.purposes);
      next, registrations := next + 1, Upsert(registrations, Registration(who, issued));
      world := Apply(cfg, world, Register(who));
    }

    lemma SamePurposes(states: map<PurposeId, PurposeState>)
      requires PurposesMatch(states)
      ensures states.Keys == purposes.Keys
    {
    }

    method MarkAnnounced(who: PurposeId)
      requires Valid() && who in purposes
      modifies this`world, purposes.Values
      ensures Valid() && world == Apply(cfg, old(world), Act.MarkAnnounced(who))
    {
      hide Apply;
      MarkAnnouncedStep(cfg, world, who);
      assert forall p | p in purposes && p != who :: purposes[p] != purposes[who];
      purposes[who].announced := true;
      world := Apply(cfg, world, Act.MarkAnnounced(who));
      assert PurposesMatch(world.purposes);
    }

    method MarkAcknowledged(who: PurposeId, text: SidText)
      requires Valid() && who in purposes
      modifies this`world, purposes.Values
      ensures Valid() && world == Apply(cfg, old(world), MarkAcked(who, text))
    {
      hide Apply;
      MarkAckedStep(cfg, world, who, text);
      assert forall p | p in purposes && p != who :: purposes[p] != purposes[who];
      purposes[who].acknowledged := purposes[who].acknowledged + {text};
      world := Apply(cfg, world, MarkAcked(who, text));
      assert PurposesMatch(world.purposes);
    }

    method MarkRequested(who: PurposeId, text: SidText)
      requires Valid() && who in purposes
      modifies this`world, purposes.Values
      ensures Valid() && world == Apply(cfg, old(world), Act.MarkRequested(who, text))
    {
      hide Apply;
      MarkRequestedStep(cfg, world, who, text);
      assert forall p | p in purposes && p != who :: purposes[p] != purposes[who];
      purposes[who].requested := purposes[who].requested + {text};
      world := Apply(cfg, world, Act.MarkRequested(who, text));
      assert PurposesMatch(world.purposes);
    }

    method MarkPersisterAcknowledged(text: SidText)
      requires Valid()
      modifies this`world, persister`acknowledged
      ensures Valid() && world == Apply(cfg, old(world), MarkPersisterAcked(text))
    {
      hide Apply, PurposesMatch;
      MarkPersisterAckedStep(cfg, world, text);
      persister.acknowledged := persister.acknowledged + {text};
      world := Apply(cfg, world, MarkPersisterAcked(text));
    }

    /** The persister writes an event of its own; an import's key is remembered first. */
    method PersistOwn(session: Option<SessionId>, p: Payload) returns (ok: bool, ev: PurposeEvent)
      requires Valid()
      modifies this`next, this`writes, this`world, persister`events, persister`handled
      ensures Valid() && world == Apply(cfg, old(world), WriteOwn(session, p))
      ensures ok == WriteOk(old(world)) && ev == OwnEvent(cfg, old(world), session, p)
    {
      hide Apply, Append, PurposesMatch;
      WriteOwnStep(cfg, world, session, p);
      ev := PurposeEvent(next, cfg.persister, cfg.persisterName, PERSISTER_TOKEN, session, p);
      next := next + 1;
      ghost var v := Apply(cfg, world, WriteOwn(session, p));
      if p.CtoImported? { persister.handled := persister.handled + {p.key}; }
      ok := Write(PurposeRecord(ev));
      assert v.writes == writes && v.persister.log == persister.events;
      world := v;
    }

    /** `_session_context` as defaulting leaves it. */
    method StoreContext(sid: SessionId, ctx: Dict, ghost used: ProfileRef, ghost given: Dict)
      requires Valid()
      modifies this`contexts, this`world
      ensures Valid() && world == Apply(cfg, old(world), SetContext(sid, ctx, used, given))
    {
      hide Apply, PurposesMatch;
      SetContextStep(cfg, world, SetContext(sid, ctx, used, given));
      contexts := contexts[sid := ctx];
      world := Apply(cfg, world, SetContext(sid, ctx, used, given));
    }

    /** A Purpose is taken off the pending set of a session, whose entry goes with the last. */
    method DiscardPending(sid: SessionId, who: PurposeId)
      requires Valid() && sid in closingSessions
      modifies this`closingSessions, this`world
      ensures Valid() && world == Apply(cfg, old(world), Discard(sid, who))
    {
      hide Apply, PurposesMatch, Without;
      DiscardStep(cfg, world, sid, who);
      closingSessions := Without(closingSessions, sid, who);
      world := Apply(cfg, world, Discard(sid, who));
    }

    method AcceptOwnEvent(id: EventId)
      requires Valid()
      modifies this`world
      ensures Valid() && world == Apply(cfg, old(world), AcceptOwn(id))
    {
      hide Apply, PurposesMatch;
      AcceptOwnStep(cfg, world, id);
      world := Apply(cfg, world, AcceptOwn(id));
    }

    /** The reaction the next delivery meets. */
    method NextReaction(i: nat, ev: HubEvent) returns (reaction: Reaction)
      requires Valid()
      modifies this`script, this`world
      ensures Valid() && world == Apply(cfg, old(world), Deliver(i, ev))
      ensures reaction == if |old(world).script| > 0 then old(world).script[0] else ByDefault
      ensures script == if |old(script)| > 0 then old(script)[1..] else old(script)
    {
      hide Apply, PurposesMatch;
      DeliverStep(cfg, world, i, ev);
      reaction := if |script| > 0 then script[0] else ByDefault;
      script := if |script| > 0 then script[1..] else script;
      world := Apply(cfg, world, Deliver(i, ev));
    }

    // -------------------------------------------------------------- ingress

    /** The scan of `_resolve_registration_for_token_all` over the registrations. */
    method MatchToken(token: Token) returns (found: seq<PurposeId>)
      ensures found == Matches(registrations, token)
    {
      found := [];
      var i := 0;
      while i < |registrations|
        invariant 0 <= i <= |registrations|
        invariant found + Matches(registrations[i..], token) == Matches(registrations, token)
      {
        assert registrations[i..][1..] == registrations[i + 1..];
        if registrations[i].creds.token == token { found := found + [registrations[i].who]; }
        i := i + 1;
      }
    }

    /** `_resolve_registration_for_token_all`. */
    method ResolveToken(token: Token) returns (who: Option<PurposeId>)
      requires Valid()
      ensures who == Resolve(cfg, world, token)
    {
      var found := MatchToken(token);
      if token == PERSISTER_TOKEN { found := found + [cfg.persister]; }
      who := if |found| == 1 then Some(found[0]) else None;
    }

    method NameFor(who: PurposeId) returns (name: string)
      requires Valid()
      ensures name == NameOf(cfg, world, who)
    {
      name := if who == cfg.persister then cfg.persisterName else if who in purposes then purposes[who].name else "";
    }

    /** `_ensure_accepting_event`. */
    method Accepting(p: Payload) returns (ok: bool)
      requires Valid()
      ensures ok == Accepts(world, p)
    {
      if isClosed { return false; }
      if !isClosing { return true; }
      return p.RequestSessionEnd? || p.PurposeCompleted? || p.SessionCompleted?;
    }

    /** `_validate_purpose_event`. */
    method Credible(ev: PurposeEvent) returns (ok: bool)
      requires Valid()
      ensures ok <==> Resolve(cfg, world, ev.token) == Some(ev.who) && ev.name == NameOf(cfg, world, ev.who)
    {
      var who := ResolveToken(ev.token);
      if who != Some(ev.who) { return false; }
      var name := NameFor(ev.who);
      return ev.name == name;
    }

    lemma IngestRecord(ev: PurposeEvent, minted: bool)
      ensures RecordOf(cfg, world, Ingest(ev, minted)) == Some(PurposeRecord(ev))
              && HubAfter(world, Ingest(ev, minted)) == world.hub
    {
    }

    /** The guards of `take_turn` and the write of what passes them. */
    method Admit(ev: PurposeEvent, ghost minted: bool) returns (error: Option<Error>)
      requires Valid() && BuiltIn(ev.payload)
      modifies this`writes, this`world, persister`events
      ensures Valid()
      ensures Ingress(cfg, old(world), ev, minted)
              == if error.None? then Admitted(world, ev.who) else Refused(world, error.value)
    {
      hide Legal, Enabled, Apply, Resolve, NameOf, RecordOf, HubAfter, PurposesMatch;
      var open := Accepting(ev.payload);
      if !open { return Some(HubClosed); }
      var known := Credible(ev);
      if !known { return Some(Unauthorized); }
      if ev.who == cfg.persister {
        AcceptOwnEvent(ev.id);
        return None;
      }
      IngestRecord(ev, minted);
      var ok := Persist(Ingest(ev, minted), PurposeRecord(ev));
      error := if ok then None else Some(PersistenceFailure);
    }

    /** `_submit_purpose_event` of the persister: it writes its own event before the hub sees it. */
    method SubmitOwnEvent(session: Option<SessionId>, p: Payload) returns (error: Option<Error>, ev: PurposeEvent)
      requires Valid() && BuiltIn(p)
      modifies this, persister
      ensures Valid() && ev == OwnEvent(cfg, old(world), session, p)
      ensures SubmitOwn(cfg, old(world), session, p)
              == if error.None? then Admitted(world, cfg.persister) else Refused(world, error.value)
    {
      hide Legal, Enabled, Apply, Ingress, PurposesMatch, OthersMatch;
      var ok;
      ok, ev := PersistOwn(session, p);
      if !ok { return Some(WriteFailed), ev; }
      error := Admit(ev, true);
    }

    // -------------------------------------------------------------- acknowledgements and completion

    /** `_handle_purpose_completed`. */
    method HandlePurposeCompleted(who: PurposeId, text: SidText) returns (out: Outcome)
      requires Valid()
      modifies this, persister
      ensures Valid() && HandleCompleted(cfg, old(world), who, text) == Res(world, out) && script == old(script)
      decreases |closingSessions|, 0
    {
      hide Legal, Enabled, Apply, ClosePending, PurposesMatch, OthersMatch;
      if !text.Spelled? { return Raised(BadValue); }
      if text.sid !in closingSessions { return Ok; }
      DiscardStep(cfg, world, text.sid, who);
      DiscardPending(text.sid, who);
      if text.sid in closingSessions { return Ok; }
      out := EmitSessionClosePending(text.sid);
    }

    lemma PendingRecord(sid: SessionId)
      ensures RecordOf(cfg, world, LogPending(sid)) == Some(HubRecord(PendingEvent(world, sid)))
      ensures HubAfter(world, LogPending(sid)) == world.hub
    {
    }

    /** `_emit_session_close_pending` and the persister's `_handle_event`: it writes the event, acknowledges,
        completes. */
    method EmitSessionClosePending(sid: SessionId) returns (out: Outcome)
      requires Valid()
      modifies this, persister
      ensures Valid() && ClosePending(cfg, old(world), sid) == Res(world, out) && script == old(script)
      decreases |closingSessions|, 2
    {
      hide Legal, Enabled, Apply, Hub.PersisterCompletes, EmitSessionCompleted, PurposesMatch, RecordOf, HubAfter;
      var code := CodeFor(sid);
      var ev := HubEvent(next, Some(sid), None, SessionClosePending(code));
      PendingRecord(sid);
      next := next + 1;
      var ok := Persist(LogPending(sid), HubRecord(ev));
      if !ok { return Raised(WriteFailed); }
      out := PersisterCompletes(sid);
      if out.Raised? { return; }
      out := EmitCompleted(sid);
    }

    /** The persister's `complete_session_closing`. */
    method PersisterCompletes(sid: SessionId) returns (out: Outcome)
      requires Valid()
      modifies this, persister
      ensures Valid() && Hub.PersisterCompletes(cfg, old(world), sid) == Res(world, out) && script == old(script)
      decreases |closingSessions|, 1
    {
      hide Legal, Enabled, Apply, SubmitOwn, HandleCompleted, PurposesMatch;
      var text := Canonical(sid);
      if text in persister.acknowledged { return Ok; }
      MarkPersisterAckedStep(cfg, world, text);
      MarkPersisterAcknowledged(text);
      var error, ev := SubmitOwnEvent(None, PurposeCompleted(text, "normal"));
      if error.Some? { return Raised(error.value); }
      out := HandlePurposeCompleted(cfg.persister, text);
    }

    /** `emit_session_completed`. */
    method EmitCompleted(sid: SessionId) returns (out: Outcome)
      requires Valid()
      modifies this, persister
      ensures Valid() && EmitSessionCompleted(cfg, old(world), sid) == Res(world, out) && script == old(script)
    {
      hide Legal, Enabled, Apply, SubmitOwn, HandleSessionCompleted, PurposesMatch;
      if !cfg.durable { return Ok; }
      var code := CodeFor(sid);
      var error, ev := SubmitOwnEvent(Some(sid), SessionCompleted(code));
      if error.Some? { return Raised(error.value); }
      out := AcceptSessionCompleted(cfg.persister, Some(sid));
    }

    /** `_handle_session_completed`. */
    method AcceptSessionCompleted(who: PurposeId, session: Option<SessionId>) returns (out: Outcome)
      requires Valid()
      modifies this
      ensures Valid() && HandleSessionCompleted(cfg, old(world), who, session) == Res(world, out)
              && script == old(script)
    {
      hide Legal, Enabled, Apply, PurposesMatch;
      if who != cfg.persister || !cfg.durable { return Raised(Unauthorized); }
      FinishStep(cfg, world, session);
      isClosing, closingId, isClosed, closedId := false, None, true, session;
      world := Apply(cfg, world, Finish(session));
      out := Ok;
    }

    lemma OthersAre()
      requires Valid()
      ensures script == world.script && persister.handled == world.persister.handled
    {
    }

    lemma Known(who: PurposeId)
      requires Valid()
      ensures who in purposes <==> who in world.purposes
      ensures who in purposes ==> IsIn(purposes[who], world.purposes[who])
    {
    }

    /** An event this Purpose makes in its own name. */
    method MakeEvent(who: PurposeId, session: Option<SessionId>, p: Payload) returns (ev: Option<PurposeEvent>)
      requires Valid() && who in purposes
      modifies this`next, this`world
      ensures Valid() && who in old(world).purposes
      ensures ev.None? <==> old(world).purposes[who].creds.None?
      ensures if ev.Some? then ev == Some(OwnedBy(old(world), who, session, p)) && world == Apply(cfg, old(world), Mint)
              else world == old(world)
    {
      hide Apply;
      var me := purposes[who];
      if me.creds.None? { return None; }
      var id := MintId();
      ev := Some(PurposeEvent(id, who, me.name, me.creds.value.token, session, p));
    }

    /** `complete_session_closing`. */
    method CompleteSessionClosing(who: PurposeId, text: SidText, why: string) returns (out: Outcome)
      requires Valid()
      modifies Repr
      ensures Valid() && Complete(cfg, old(world), who, text, why) == Res(world, out) && script == old(script)
    {
      hide Legal, Enabled, Apply, Ingress, HandleCompleted, PurposesMatch, OthersMatch, HubFields, PurposesAfter;
      hide RegsAfter, CtosAfter, PendingAfter, ClosureAfter, LogAfter, Logged;
      Known(who);
      if who !in purposes { return Raised(NoSuchPurpose); }
      if text.Empty? { return Raised(BadValue); }
      if text in purposes[who].acknowledged { return Ok; }
      MarkAckedStep(cfg, world, who, text);
      MarkAcknowledged(who, text);
      var ev := MakeEvent(who, None, PurposeCompleted(text, why));
      if ev.None? { return Raised(Unbound); }
      var error := Admit(ev.value, true);
      if error.Some? { return Raised(error.value); }
      out := HandlePurposeCompleted(who, text);
    }

    // -------------------------------------------------------------- dispatch

    /** `_multicast`, phase 2: the loop over the registrations, which notices at each step whether keys were added. */
    method Dispatch(ev: HubEvent) returns (out: Outcome)
      requires Valid()
      modifies Repr
      ensures Valid() && Multicast(cfg, old(world), ev) == Res(world, out)
      decreases |script|, 4
    {
      hide Legal, Good, Enabled, Apply, Hub.DeliverTo, PurposesMatch;
      var size := |registrations|;
      var i := 0;
      while i < size
        invariant Valid() && 0 <= i <= size && |script| <= old(|script|)
        invariant Broadcast(cfg, old(world), ev, 0, size) == Broadcast(cfg, world, ev, i, size)
        decreases size - i
      {
        if |registrations| != size { return Raised(SizeChanged); }
        var r := DeliverTo(ev, i);
        if r.Raised? { return r; }
        i := i + 1;
      }
      out := if |registrations| != size then Raised(SizeChanged) else Ok;
    }

    function AsError(r: RefusalReason): Error {
      match r case Unregistered => Unbound case WrongToken => Unauthorized case WrongSignature => BadSignature
    }

    /** One recipient: the envelope is stamped with its registration's credentials, and checked by the recipient. */
    method DeliverTo(ev: HubEvent, i: nat) returns (out: Outcome)
      requires Valid() && i < |registrations|
      modifies Repr
      ensures Valid() && Hub.DeliverTo(cfg, old(world), ev, i) == Res(world, out)
      decreases |script|, 2, 0
    {
      hide Legal, Good, Enabled, Apply, Complete, Hub.RunSteps, PurposesMatch;
      var reg := registrations[i];
      Known(reg.who);
      if reg.who !in purposes { return Raised(NoSuchPurpose); }
      var refusal := purposes[reg.who].Refusal(reg.creds);
      if refusal.Some? { return Raised(AsError(refusal.value)); }
      var reaction := NextReaction(i, ev);
      match reaction {
        case ByDefault =>
          if ev.payload.SessionClosing? && ev.session.Some? {
            out := CompleteSessionClosing(reg.who, Canonical(ev.session.value), "normal");
          } else {
            out := Ok;
          }
        case ByHandler(steps, raises) =>
          out := RunSteps(steps);
          if out.Done? && raises { out := Raised(HandlerFailed); }
      }
    }

    /** `_multicast` of an event the hub has just made: written first, and not delivered if that fails. */
    method Announce(ghost a: Act, ev: HubEvent, value: Option<nat>) returns (out: Outcome)
      requires OthersMatch() && HubFields() == HubAfter(world, a) && next == world.next + Draws(a)
      requires Authored(world, a) == Some(ev) && !a.Deliver?
      modifies Repr
      ensures Valid() && WriteAndMulticast(cfg, old(world), a, value) == Res(world, out)
      decreases |script|, 5, -1
    {
      hide Legal, Good, Enabled, Apply, Multicast, PurposesMatch, HubAfter;
      AuthoredRecord(cfg, world, a);
      var ok := Persist(a, HubRecord(ev));
      if !ok { return Raised(PersistenceFailure); }
      out := Dispatch(ev);
      if out.Done? { out := Done(value); }
    }

    // -------------------------------------------------------------- turns

    /** `_ensure_startup_owner_for_new_session`. */
    method EnsureStartupOwner(sid: SessionId, requester: PurposeId,
                              ghost source: Option<PurposeEvent>) returns (out: Outcome)
      requires Valid()
      modifies this`owners, this`world
      ensures Valid() && EnsureOwner(cfg, old(world), sid, requester, source) == Res(world, out)
    {
      hide Legal, Enabled, Apply, PurposesMatch;
      if sid in owners { return Ok; }
      if requester != cfg.owner { return Raised(Unauthorized); }
      OwnStep(cfg, world, sid, requester, source);
      owners := owners[sid := requester];
      world := Apply(cfg, world, Own(sid, requester, source));
      out := Ok;
    }

    method StoreCto(cto: CTO, code: Option<string>)
      modifies this`ctos, this`codes
      ensures HubFields()
           == var before := old(HubFields());
              before.(ctos := before.ctos[cto.turn := cto],
                      codes := if code.Some? then before.codes[cto.session := code.value] else before.codes)
    {
      ctos := ctos[cto.turn := cto];
      if code.Some? { codes := codes[cto.session := code.value]; }
    }

    /** `_accept_new_cto`. */
    method AcceptCto(s: Seed) returns (out: Outcome)
      requires Valid()
      modifies Repr
      ensures Valid() && AcceptNewCto(cfg, old(world), s) == Res(world, out)
      decreases |script|, 6
    {
      hide Legal, Good, Enabled, Apply, PurposesMatch, OthersMatch, WriteAndMulticast, HubAfter, HubFields;
      StoreTurnHub(world, s);
      OthersAre();
      var event, turn := next, next + 1;
      next := next + 2;
      var cto := CTO(turn, s.session, s.now, s.profile, s.content, s.observations, Some(event));
      StoreCto(cto, s.code);
      var ev := HubEvent(event, Some(s.session), Some(turn), CtoStarted(ToIndex(cto), s.byId, s.byName));
      out := Announce(StoreTurn(s), ev, Some(turn));
    }

    /** `start_turn`. */
    method StartTurn(c: Call, now: int) returns (out: Outcome)
      requires Valid() && c.StartTurn?
      modifies Repr
      ensures Valid() && StartTurnCall(cfg, old(world), c, now) == Res(world, out)
      decreases |script|, 8
    {
      hide Legal, Good, Enabled, Apply, PurposesMatch, Resolve, StartValidated, Validates;
      if isClosing || isClosed { return Raised(HubClosed); }
      var submitter := ResolveToken(c.token);
      if submitter.None? { return Raised(Unauthorized); }
      var sid := c.session.GetOr(next);
      if c.session.None? { sid := MintId(); }
      if c.code == Some("") { return Raised(BadValue); }
      var profile := ProfileFor(cfg, RefOf(c));
      if profile.None? { return Raised(UnknownKey); }
      var valid := Validate(profile.value, c.content, cfg.strict);
      if !valid { return Raised(BadValue); }
      out := StartValidatedTurn(c, sid, submitter.value, now);
    }

    /** Defaults, ownership and the new CTO. */
    method StartValidatedTurn(c: Call, sid: SessionId, submitter: PurposeId, now: int) returns (out: Outcome)
      requires Valid() && Validated(cfg, c)
      modifies Repr
      ensures Valid() && StartValidated(cfg, old(world), c, sid, submitter, now) == Res(world, out)
      decreases |script|, 7
    {
      hide Legal, Good, Enabled, Apply, PurposesMatch, Validates, Profiles.ApplyDefaults, AcceptNewCto, EnsureOwner;
      hide NameOf;
      var ctx := if sid in contexts then contexts[sid] else map[];
      var content, ctx' := FillDefaults(ProfileFor(cfg, RefOf(c)).value, c.content, ctx);
      var name := NameFor(submitter);
      StoreContext(sid, ctx', RefOf(c), c.content);
      out := EnsureStartupOwner(sid, submitter, None);
      if out.Raised? { return; }
      out := AcceptCto(Seed(sid, c.code, RefOf(c), content, map[], submitter, name, now, None));
    }

    /** The scan of `_merge_delta` for a patch value that is no list. */
    method FindNonList(patch: Patch) returns (key: Option<string>)
      ensures key.None? <==> IsListPatch(patch)
      ensures key.Some? ==> key.value == FirstNonList(patch)
    {
      var i := 0;
      while i < |patch|
        invariant 0 <= i <= |patch|
        invariant forall j | 0 <= j < i :: patch[j].1.List?
        invariant IsListPatch(patch[i..]) <==> IsListPatch(patch)
        invariant !IsListPatch(patch) ==> FirstNonList(patch) == FirstNonList(patch[i..])
      {
        if !patch[i].1.List? { return Some(patch[i].0); }
        assert patch[i..][1..] == patch[i + 1..];
        i := i + 1;
      }
      return None;
    }

    /** `_merge_delta`. */
    method MergeProposal(d: Delta) returns (out: Outcome)
      requires Valid()
      modifies Repr
      ensures Valid() && MergeDelta(cfg, old(world), d) == Res(world, out)
      decreases |script|, 6
    {
      hide Legal, Good, Enabled, Apply, PurposesMatch, WriteAndMulticast, IsListPatch, FirstNonList;
      if d.turn !in ctos {
        out := RejectDelta(d, UnknownTurn);
        if out.Done? { out := Raised(UnknownKey); }
        return;
      }
      var culprit := FindNonList(d.patch);
      if culprit.Some? {
        out := RejectDelta(d, NotAList(culprit.value));
        if out.Done? { out := Raised(BadValue); }
        return;
      }
      out := StoreMerged(d);
    }

    /** The CTO with the delta's entries in its namespace. */
    method Merged(d: Delta) returns (updated: CTO)
      requires Valid() && d.turn in ctos
      ensures d.turn in world.hub.ctos && updated == MergedCto(world, d)
    {
      var cto := ctos[d.turn];
      var existing := if d.name in cto.observations then cto.observations[d.name] else [];
      var extended := ExtendNamespace(existing, d.patch);
      updated := CTO(cto.turn, cto.session, cto.createdAt, cto.profile, cto.content,
                     cto.observations[d.name := extended], Some(next));
    }

    /** The merged CTO replaces the old one before delta_merged is written. */
    method StoreMerged(d: Delta) returns (out: Outcome)
      requires Valid() && d.turn in ctos
      modifies Repr
      ensures Valid() && WriteAndMulticast(cfg, old(world), Merge(d), Some(old(world).next)) == Res(world, out)
      decreases |script|, 5, 0
    {
      hide Legal, Good, Enabled, Apply, PurposesMatch, OthersMatch, WriteAndMulticast, HubAfter, MergedCto, Authored;
      OthersAre();
      var updated := Merged(d);
      MergeHub(world, d);
      var event := next;
      next, ctos := next + 1, ctos[d.turn := updated];
      out := Announce(Merge(d),
                      HubEvent(event, Some(updated.session), Some(updated.turn), DeltaMerged(d, ToIndex(updated))),
                      Some(event));
    }

    /** `_emit_delta_rejected`. */
    method RejectDelta(d: Delta, reason: Reason) returns (out: Outcome)
      requires Valid()
      modifies Repr
      ensures Valid() && WriteAndMulticast(cfg, old(world), Reject(d, reason), None) == Res(world, out)
      decreases |script|, 6, 0
    {
      hide Legal, Good, Enabled, Apply, PurposesMatch, WriteAndMulticast;
      UntouchedHub(world, Reject(d, reason));
      var ev := HubEvent(next, None, Some(d.turn), DeltaRejected(d, reason));
      next := next + 1;
      out := Announce(Reject(d, reason), ev, None);
    }

    // -------------------------------------------------------------- closing

    /** The legacy `close`. */
    method Close(why: string) returns (out: Outcome)
      requires Valid()
      modifies Repr
      ensures Valid() && CloseCall(cfg, old(world), why) == Res(world, out)
      decreases |script|, 6
    {
      hide Legal, Good, Enabled, Apply, PurposesMatch, WriteAndMulticast;
      if isClosing || isClosed { return Raised(HubClosed); }
      UntouchedHub(world, LegacyClose(why));
      var ev := HubEvent(next, None, None, SessionClosing(why, None));
      next := next + 1;
      out := Announce(LegacyClose(why), ev, None);
    }

    /** `_handle_request_session_end`. */
    method HandleRequestSessionEnd(who: PurposeId, text: SidText, why: string) returns (out: Outcome)
      requires Valid()
      modifies Repr
      ensures Valid() && HandleRequestEnd(cfg, old(world), who, text, why) == Res(world, out)
      decreases |script|, 6
    {
      hide Legal, Good, Enabled, Apply, PurposesMatch, WriteAndMulticast;
      if !text.Spelled? { return Raised(BadValue); }
      if text.sid !in owners { return Raised(UnknownKey); }
      if isClosing {
        if closingId == Some(text.sid) { return Ok; }
        return Raised(HubClosed);
      }
      if owners[text.sid] != who { return Raised(Unauthorized); }
      out := BeginClosing(text.sid, why);
    }

    /** `set(self.registrations.keys())`. */
    method RegisteredIds() returns (ids: set<PurposeId>)
      requires Valid()
      ensures ids == Registered(world)
    {
      ids := set i | 0 <= i < |registrations| :: registrations[i].who;
    }

    /** From here on the hub is closing, and waits for these. */
    method MarkClosing(sid: SessionId, ids: set<PurposeId>)
      modifies this`isClosing, this`closingId, this`closingSessions
      ensures HubFields() == old(HubFields()).(pending := old(HubFields()).pending[sid := ids], closing := true,
                                               closingId := Some(sid))
    {
      isClosing, closingId, closingSessions := true, Some(sid), closingSessions[sid := ids];
    }

    /** Everyone registered is now waited for, and told. */
    method BeginClosing(sid: SessionId, why: string) returns (out: Outcome)
      requires Valid()
      modifies Repr
      ensures Valid() && WriteAndMulticast(cfg, old(world), BeginClose(sid, why), None) == Res(world, out)
      decreases |script|, 5, 0
    {
      hide Legal, Good, Enabled, Apply, PurposesMatch, OthersMatch, WriteAndMulticast, HubAfter, Registered, Authored;
      hide HubFields;
      BeginCloseHub(world, sid, why);
      OthersAre();
      var ids := RegisteredIds();
      var code := CodeFor(sid);
      var ev := HubEvent(next, Some(sid), None, SessionClosing(why, code));
      next := next + 1;
      MarkClosing(sid, ids);
      out := Announce(BeginClose(sid, why), ev, None);
    }

    method CodeFor(sid: SessionId) returns (code: Option<string>)
      requires Valid()
      ensures code == CodeOf(world, sid)
    {
      code := if sid in codes then Some(codes[sid]) else None;
    }

    // -------------------------------------------------------------- imports

    /** `_handle_request_cto`. */
    method RelayRequestCto(who: PurposeId, p: Payload, outside: Outside) returns (out: Outcome)
      requires Valid() && p.RequestCto?
      modifies Repr
      ensures Valid() && HandleRequestCto(cfg, old(world), who, p, outside) == Res(world, out)
      decreases |script|, 10
    {
      hide Legal, Good, Enabled, Apply, PurposesMatch, PersisterImports, NameOf;
      if !p.session.Spelled? { return Raised(BadValue); }
      var name := NameFor(who);
      var id := MintId();
      out := PersisterImport(RequestCto(p.session, p.kind, p.locator, who, name, p.code, p.request), outside);
    }

    /** The Archivist's `_handle_request_cto`. */
    method PersisterImport(p: Payload, outside: Outside) returns (out: Outcome)
      requires Valid() && p.RequestCto? && p.session.Spelled?
      modifies Repr
      ensures Valid() && PersisterImports(cfg, old(world), p, outside) == Res(world, out)
      decreases |script|, 9
    {
      hide Legal, Good, Enabled, Apply, PurposesMatch, SubmitOwn, HandleCtoImported, CtoJson.Normalize, OthersMatch;
      if !cfg.imports || p.kind != "cto_json" { return Raised(NotSupported); }
      if outside.file.None? { return Raised(NoFile); }
      var f := outside.file.value;
      var key := RequestKey(p, f);
      OthersAre();
      if key in persister.handled { return Ok; }
      var n := CtoJson.NormalizeDocument(f.document);
      if n.Failure? { return Raised(BadValue); }
      var imported := CtoImported(p.session, p.kind, p.locator, f.hash, p.requester, p.requesterName, n.value.document,
                                  p.code, key);
      var error, ev := SubmitOwnEvent(Some(p.session.sid), imported);
      OthersAre();
      if error.Some? { return Raised(error.value); }
      out := AdoptImported(cfg.persister, ev, outside.now);
    }

    /** An import's relay begins. */
    ghost method BeginRelay(ev: PurposeEvent)
      requires Valid()
      modifies this`world
      ensures Valid() && world == Apply(cfg, old(world), BeginImport(ev))
    {
      hide Apply, PurposesMatch;
      BeginImportStep(cfg, world, ev);
      world := Apply(cfg, world, BeginImport(ev));
    }

    /** The import is over, without a turn. */
    method GiveUp(error: Error) returns (out: Outcome)
      requires Valid()
      modifies this`world
      ensures Valid() && Abandon(cfg, old(world), error) == Res(world, out)
    {
      hide Legal, Enabled, Apply, PurposesMatch;
      EndImportStep(cfg, world);
      world := Apply(cfg, world, EndImport);
      out := Raised(error);
    }

    /** `_handle_cto_imported`: the relay, */
    method AdoptImported(who: PurposeId, ev: PurposeEvent, now: int) returns (out: Outcome)
      requires Valid() && ev.payload.CtoImported?
      modifies Repr
      ensures Valid() && HandleCtoImported(cfg, old(world), who, ev, now) == Res(world, out)
      decreases |script|, 8
    {
      hide Legal, Good, Enabled, Apply, PurposesMatch, SettleImport, Abandon, Multicast, CtoJson.Normalize, OthersMatch;
      if who != cfg.persister { return Raised(Unauthorized); }
      OthersAre();
      BeginRelay(ev);
      OthersAre();
      out := Dispatch(Relayed(ev));
      OthersAre();
      if out.Raised? {
        out := GiveUp(out.error);
      } else {
        out := Settle(ev, now);
      }
    }

    /** and what follows it. */
    method Settle(ev: PurposeEvent, now: int) returns (out: Outcome)
      requires Valid() && ev.payload.CtoImported?
      modifies Repr
      ensures Valid() && SettleImport(cfg, old(world), ev, now) == Res(world, out)
      decreases |script|, 7
    {
      hide Legal, Good, Enabled, Apply, PurposesMatch, AcceptNewCto, EnsureOwner, Abandon, CtoJson.Normalize;
      hide Validates, OthersMatch;
      var p := ev.payload;
      OthersAre();
      var n := CtoJson.NormalizeDocument(p.document);
      if n.Failure? || !p.session.Spelled? {
        out := GiveUp(BadValue);
        return;
      }
      out := EnsureStartupOwner(p.session.sid, p.requester, Some(ev));
      if out.Raised? {
        out := GiveUp(out.error);
        return;
      }
      var profile := ProfileFor(cfg, n.value.profile);
      if profile.None? {
        out := GiveUp(UnknownKey);
        return;
      }
      var valid := Validate(profile.value, n.value.content, cfg.strict);
      if !valid {
        out := GiveUp(BadValue);
        return;
      }
      OthersAre();
      out := AcceptCto(Seed(p.session.sid, p.code, n.value.profile, n.value.content,
                            CtoJson.Adopted(n.value, SourceOf(p)), p.requester, p.requesterName, now, Some(ev)));
    }

    // -------------------------------------------------------------- take_turn

    /** `take_turn`. */
    method TakeTurn(ev: PurposeEvent, ghost minted: bool, outside: Outside) returns (out: Outcome)
      requires Valid()
      modifies Repr
      ensures Valid() && Receive(cfg, old(world), ev, minted, outside) == Res(world, out)
      decreases |script|, 12
    {
      hide Legal, Good, Enabled, Apply, PurposesMatch, Ingress, Handle, Hub.ReceiveCustom, OthersMatch;
      if ev.payload.Custom? {
        out := ReceiveCustom(ev, minted);
        return;
      }
      if !BuiltIn(ev.payload) {
        var open := Accepting(ev.payload);
        return Raised(if open then UnknownEventType else HubClosed);
      }
      var error := Admit(ev, minted);
      if error.Some? { return Raised(error.value); }
      out := HandleEvent(ev.who, ev, outside);
    }

    /** `take_turn` for a registered custom type, and `_relay_custom_event`. */
    method ReceiveCustom(ev: PurposeEvent, ghost minted: bool) returns (out: Outcome)
      requires Valid() && ev.payload.Custom?
      modifies Repr
      ensures Valid() && Hub.ReceiveCustom(cfg, old(world), ev, minted) == Res(world, out)
      decreases |script|, 6
    {
      hide Legal, Good, Enabled, Apply, PurposesMatch, Resolve, NameOf, WriteAndMulticast;
      var open := Accepting(ev.payload);
      if !open { return Raised(HubClosed); }
      if ev.payload.event !in cfg.custom { return Raised(UnknownEventType); }
      var known := Credible(ev);
      if !known { return Raised(Unauthorized); }
      if !cfg.custom[ev.payload.event] { return Ok; }
      UntouchedHub(world, RelayCustom(ev, minted));
      out := Announce(RelayCustom(ev, minted), HubEvent(ev.id, None, None, ev.payload), None);
    }

    /** The dispatch of `take_turn` to its built-in handlers. */
    method HandleEvent(who: PurposeId, ev: PurposeEvent, outside: Outside) returns (out: Outcome)
      requires Valid()
      modifies Repr
      ensures Valid() && Handle(cfg, old(world), who, ev, outside) == Res(world, out)
      decreases |script|, 11
    {
      hide Legal, Good, Enabled, Apply, PurposesMatch, OthersMatch;
      hide MergeDelta, Multicast, HandleRequestCto, HandleCtoImported, HandleRequestEnd, HandleCompleted;
      hide HandleSessionCompleted;
      match ev.payload {
        case ProposeDelta(d) => out := MergeProposal(d);
        case PurposeStarted(_, _, _) => out := Dispatch(Relayed(ev));
        case SessionStarted => out := if who != cfg.persister || !cfg.durable then Raised(Unauthorized) else Ok;
        case RequestCto(_, _, _, _, _, _, _) => out := RelayRequestCto(who, ev.payload, outside);
        case CtoImported(_, _, _, _, _, _, _, _, _) => out := AdoptImported(who, ev, outside.now);
        case RequestSessionEnd(text, why) => out := HandleRequestSessionEnd(who, text, why);
        case PurposeCompleted(text, _) => out := HandlePurposeCompleted(who, text);
        case SessionCompleted(_) => out := AcceptSessionCompleted(who, ev.session);
        case _ => out := Ok;
      }
    }

    /** A caller presents an event of its own making, with a new id or one it has seen. */
    method Present(c: Call, outside: Outside) returns (out: Outcome)
      requires Valid() && c.TakeTurn?
      modifies Repr
      ensures Valid() && TakeTurnCall(cfg, old(world), c, outside) == Res(world, out)
      decreases |script|, 13
    {
      hide Legal, Good, Enabled, Apply, PurposesMatch, Receive, OthersMatch;
      if c.id.Seen? && c.id.id < next {
        out := TakeTurn(PurposeEvent(c.id.id, c.who, c.name, c.token, c.session, c.payload), false, outside);
      } else {
        var id := MintId();
        out := TakeTurn(PurposeEvent(id, c.who, c.name, c.token, c.session, c.payload), true, outside);
      }
    }

    // -------------------------------------------------------------- what a Purpose offers its owner

    /** `_submit_purpose_event` of an ordinary Purpose. */
    method Submit(who: PurposeId, session: Option<SessionId>, p: Payload, outside: Outside) returns (out: Outcome)
      requires Valid() && who in purposes && who in world.purposes
      modifies Repr
      ensures Valid() && SubmitAs(cfg, old(world), who, session, p, outside) == Res(world, out)
      decreases |script|, 13
    {
      hide Legal, Good, Enabled, Apply, PurposesMatch, Receive, OthersMatch;
      var ev := MakeEvent(who, session, p);
      if ev.None? { return Raised(Unbound); }
      out := TakeTurn(ev.value, true, outside);
    }

    /** `announce_started`. */
    method AnnounceStarted(who: PurposeId, outside: Outside) returns (out: Outcome)
      requires Valid()
      modifies Repr
      ensures Valid() && AnnounceCall(cfg, old(world), who, outside) == Res(world, out)
      decreases |script|, 14
    {
      hide Legal, Good, Enabled, Apply, PurposesMatch, SubmitAs, OthersMatch;
      Known(who);
      if who !in purposes { return Raised(NoSuchPurpose); }
      if purposes[who].announced { return Ok; }
      MarkAnnouncedStep(cfg, world, who);
      MarkAnnounced(who);
      Known(who);
      out := Submit(who, None, PurposeStarted(who, purposes[who].name, false), outside);
    }

    /** `start_purpose`. */
    method StartPurpose(who: PurposeId, outside: Outside) returns (out: Outcome)
      requires Valid()
      modifies Repr
      ensures Valid() && StartPurposeCall(cfg, old(world), who, outside) == Res(world, out)
      decreases |script|, 15
    {
      hide Legal, Good, Enabled, Apply, PurposesMatch, AnnounceCall;
      if isClosing || isClosed { return Raised(HubClosed); }
      Known(who);
      if who !in purposes { return Raised(NoSuchPurpose); }
      RegisterStep(cfg, world, who);
      RegisterPurpose(who);
      out := AnnounceStarted(who, outside);
    }

    /** `request_session_end`. */
    method RequestSessionEnd(who: PurposeId, text: SidText, why: string, outside: Outside) returns (out: Outcome)
      requires Valid()
      modifies Repr
      ensures Valid() && RequestEndCall(cfg, old(world), who, text, why, outside) == Res(world, out)
      decreases |script|, 14
    {
      hide Legal, Good, Enabled, Apply, PurposesMatch, SubmitAs, OthersMatch;
      Known(who);
      if who !in purposes { return Raised(NoSuchPurpose); }
      if text.Empty? { return Raised(BadValue); }
      if text in purposes[who].requested { return Ok; }
      MarkRequestedStep(cfg, world, who, text);
      MarkRequested(who, text);
      Known(who);
      out := Submit(who, None, Payload.RequestSessionEnd(text, why), outside);
    }

    /** `request_cto`. */
    method RequestCtoImport(c: Call, outside: Outside) returns (out: Outcome)
      requires Valid() && c.AskForCto?
      modifies Repr
      ensures Valid() && AskForCtoCall(cfg, old(world), c, outside) == Res(world, out)
      decreases |script|, 14
    {
      hide Legal, Good, Enabled, Apply, PurposesMatch, SubmitAs, OthersMatch;
      Known(c.who);
      if c.who !in purposes { return Raised(NoSuchPurpose); }
      if !c.sid.Spelled? || c.kind == "" || c.locator == "" { return Raised(BadValue); }
      out := Submit(c.who, Some(c.sid.sid),
                    RequestCto(c.sid, c.kind, c.locator, c.who, purposes[c.who].name, c.code, c.request), outside);
    }

    // -------------------------------------------------------------- calls

    /** Any one call, from outside or from a handler. */
    method Execute(c: Call, outside: Outside) returns (out: Outcome)
      requires Valid()
      modifies Repr
      ensures Valid() && Exec(cfg, old(world), c, outside) == Res(world, out)
      decreases |script|, 16
    {
      hide Legal, Good, Enabled, Apply, PurposesMatch, OthersMatch, HubFields;
      hide StartTurnCall, TakeTurnCall, StartPurposeCall, CloseCall, Complete, RequestEndCall, AskForCtoCall;
      hide AnnounceCall;
      match c {
        case StartTurn(_, _, _, _, _, _) => out := StartTurn(c, outside.now);
        case TakeTurn(_, _, _, _, _, _) => out := Present(c, outside);
        case StartPurpose(who) => out := StartPurpose(who, outside);
        case Close(why) => out := Close(why);
        case CompleteClosing(who, text, why) => out := CompleteSessionClosing(who, text, why);
        case RequestEnd(who, text, why) => out := RequestSessionEnd(who, text, why, outside);
        case AskForCto(_, _, _, _, _, _) => out := RequestCtoImport(c, outside);
        case Announce(who) => out := AnnounceStarted(who, outside);
      }
    }

    /** A handler's calls, up to the first error it does not catch. */
    method RunSteps(steps: seq<Step>) returns (out: Outcome)
      requires Valid()
      modifies Repr
      ensures Valid() && Hub.RunSteps(cfg, old(world), steps) == Res(world, out)
      decreases |script|, 17, |steps|
    {
      hide Legal, Good, Enabled, Apply, PurposesMatch, OthersMatch, HubFields, Exec;
      var i := 0;
      OthersAre();
      while i < |steps|
        invariant Valid() && 0 <= i <= |steps| && |script| <= old(|script|)
        invariant Hub.RunSteps(cfg, old(world), steps) == Hub.RunSteps(cfg, world, steps[i..])
      {
        assert steps[i..][1..] == steps[i + 1..];
        OthersAre();
        out := Execute(steps[i].call, steps[i].outside);
        OthersAre();
        if out.Raised? && !steps[i].catches { return; }
        i := i + 1;
      }
      out := Ok;
    }

    /** A program's calls, one after another whatever they return. */
    method RunCalls(steps: seq<Step>)
      requires Valid()
      modifies Repr
      ensures Valid() && world == Hub.RunCalls(cfg, old(world), steps)
    {
      hide Legal, Good, Enabled, Apply, PurposesMatch, OthersMatch, HubFields, Exec;
      var i := 0;
      while i < |steps|
        invariant Valid() && 0 <= i <= |steps|
        invariant Hub.RunCalls(cfg, old(world), steps) == Hub.RunCalls(cfg, world, steps[i..])
      {
        assert steps[i..][1..] == steps[i + 1..];
        var out := Execute(steps[i].call, steps[i].outside);
        i := i + 1;
      }
    }

    /** A whole program, from `TTT.start` and the owner's announcement on. An honest one only ever reaches legal
        worlds, of which everything proved of legal worlds holds. */
    method Run(steps: seq<Step>)
      requires Unstarted()
      modifies Repr
      ensures Valid() && world == Started(cfg, steps)
      ensures HonestScript(cfg, cfg.script) && HonestSteps(cfg, steps) ==> Good(cfg, world)
    {
      hide Legal, Good, Enabled, Apply, PurposesMatch, OthersMatch, HubFields, Hub.RunCalls, AnnounceCall;
      assert ValidConfig(cfg);
      Start();
      var out := AnnounceStarted(cfg.owner, Outside(0, None));
      RunCalls(steps);
      if HonestScript(cfg, cfg.script) && HonestSteps(cfg, steps) { RunsAreLegal(cfg, steps); }
    }
  }
}
