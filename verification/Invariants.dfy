/** Invariants of every legal world that the hub's operations rely on. */
module Invariants {
  import opened Wrappers
  import opened Json
  import opened Ctos
  import opened Events
  import opened World

  // ---------------------------------------------------------------- identifiers

  /** Every id in use was minted earlier. */
  ghost predicate IdsMinted(w: World) {
    && 4 <= w.next
    && (forall i | 0 <= i < |w.persister.log| :: w.persister.log[i].id < w.next)
    && (forall id | id in w.accepted :: id < w.next)
    && (forall t | t in w.hub.ctos :: t < w.next)
    && (forall t | t in w.seeds :: t < w.next)
    && (forall i | 0 <= i < |w.hub.regs| :: w.hub.regs[i].creds.token < w.next)
  }

  /** The record an action writes bears an id minted before or by it. */
  lemma RecordIds(cfg: Config, w: World, a: Act)
    requires IdsMinted(w) && Enabled(cfg, w, a)
    ensures RecordOf(cfg, w, a).Some? ==> RecordOf(cfg, w, a).value.id < w.next + Draws(a)
  {
    hide MergedCto, NewCto, CodeOf;
  }

  lemma LogIds(cfg: Config, w: World, a: Act)
    requires IdsMinted(w) && Enabled(cfg, w, a)
    ensures forall i | 0 <= i < |LogAfter(cfg, w, a)| :: LogAfter(cfg, w, a)[i].id < w.next + Draws(a)
  {
    hide Enabled, RecordOf, Draws, Has;
    RecordIds(cfg, w, a);
  }

  lemma AcceptedIds(cfg: Config, w: World, a: Act)
    requires IdsMinted(w) && Enabled(cfg, w, a)
    ensures forall id | id in AcceptedAfter(w, a) :: id < w.next + Draws(a)
  {
    hide MergedCto, NewCto, CodeOf;
    assert a.AcceptOwn? ==> a.id < w.next by {
      if a.AcceptOwn? {
        var i :| 0 <= i < |w.persister.log| && w.persister.log[i].id == a.id;
      }
    }
  }

  lemma TurnIds(cfg: Config, w: World, a: Act)
    requires IdsMinted(w) && Enabled(cfg, w, a)
    ensures forall t | t in CtosAfter(w, a) :: t < w.next + Draws(a)
  {
    hide MergedCto, NewCto;
  }

  lemma IdsMintedStep(cfg: Config, w: World, a: Act)
    requires IdsMinted(w) && Enabled(cfg, w, a)
    ensures IdsMinted(Apply(cfg, w, a))
  {
    LogIds(cfg, w, a);
    AcceptedIds(cfg, w, a);
    TurnIds(cfg, w, a);
    RegisterTokens(cfg, w, a);
    hide Enabled, LogAfter, AcceptedAfter, CtosAfter, RegsAfter, PurposesAfter, PendingAfter, ClosureAfter, Draws;
    assert a.StoreTurn? ==> Draws(a) == 2 by { StoreDrawsTwo(a); }
  }

  lemma StoreDrawsTwo(a: Act)
    ensures a.StoreTurn? ==> Draws(a) == 2
  {
  }

  lemma RegisterTokens(cfg: Config, w: World, a: Act)
    requires forall i | 0 <= i < |w.hub.regs| :: w.hub.regs[i].creds.token < w.next
    ensures forall i | 0 <= i < |RegsAfter(w, a)| :: RegsAfter(w, a)[i].creds.token < w.next + Draws(a)
  {
    if a.Register? { UpsertEffect(w.hub.regs, Registration(a.who, Issue(w.next, a.who))); }
  }

  lemma {:induction false} IdsAreMinted(cfg: Config, w: World)
    requires Legal(cfg, w)
    ensures IdsMinted(w)
    decreases |w.hist|
  {
    if w.hist != [] {
      var p, a := Before(cfg, w);
      IdsAreMinted(cfg, p);
      IdsMintedStep(cfg, p, a);
    }
  }

  // ---------------------------------------------------------------- credentials

  ghost predicate DistinctRegs(regs: seq<Registration>) {
    forall i, j | 0 <= i < j < |regs| :: regs[i].who != regs[j].who && regs[i].creds.token != regs[j].creds.token
  }

  /** A registration holds its Purpose's current credentials. */
  ghost predicate RegHolds(purposes: map<PurposeId, PurposeState>, r: Registration) {
    && r.who in purposes
    && purposes[r.who].creds == Some(r.creds)
    && r.creds == Issue(r.creds.token, r.who)
    && r.creds.token != PERSISTER_TOKEN
  }

  ghost predicate IsRegistered(regs: seq<Registration>, who: PurposeId) {
    exists i | 0 <= i < |regs| :: regs[i].who == who
  }

  /** The Purpose objects never change their names. */
  ghost predicate NamesKept(cfg: Config, w: World) {
    w.purposes.Keys == cfg.names.Keys && (forall p | p in w.purposes :: w.purposes[p].name == cfg.names[p])
  }

  /** Registrations are keyed by Purpose, hold that Purpose's current credentials, and no two share a token; a Purpose
      has credentials only while registered. */
  ghost predicate Credentialed(w: World) {
    && (forall i | 0 <= i < |w.hub.regs| :: RegHolds(w.purposes, w.hub.regs[i]))
    && DistinctRegs(w.hub.regs)
    && (forall p | p in w.purposes && w.purposes[p].creds.Some? :: IsRegistered(w.hub.regs, p))
  }

  /** Setting a key of `registrations`: in place when it is there, at the end otherwise. */
  lemma UpsertEffect(regs: seq<Registration>, r: Registration)
    ensures var i, regs' := PositionOf(regs, r.who), Upsert(regs, r);
            && |regs'| == (if i < |regs| then |regs| else |regs| + 1)
            && regs'[i] == r
            && (forall j | 0 <= j < |regs| && j != i :: regs'[j] == regs[j])
            && (forall j | 0 <= j < |regs'| && j != i :: regs'[j] == regs[j])
  {
  }

  lemma UpsertDistinct(regs: seq<Registration>, r: Registration)
    requires DistinctRegs(regs)
    requires forall i | 0 <= i < |regs| :: regs[i].creds.token < r.creds.token
    ensures DistinctRegs(Upsert(regs, r))
  {
    UpsertEffect(regs, r);
  }

  lemma UpsertRegistered(regs: seq<Registration>, r: Registration, who: PurposeId)
    ensures IsRegistered(Upsert(regs, r), who) <==> IsRegistered(regs, who) || who == r.who
  {
    var i, regs' := PositionOf(regs, r.who), Upsert(regs, r);
    UpsertEffect(regs, r);
    assert regs'[i].who == r.who;
    if IsRegistered(regs, who) && who != r.who {
      var j :| 0 <= j < |regs| && regs[j].who == who;
      assert regs'[j].who == who;
    }
  }

  lemma UpsertHolds(purposes: map<PurposeId, PurposeState>, regs: seq<Registration>, token: Token, who: PurposeId)
    requires who in purposes && token != PERSISTER_TOKEN && DistinctRegs(regs)
    requires forall i | 0 <= i < |regs| :: RegHolds(purposes, regs[i])
    ensures var ps := purposes[who := purposes[who].(creds := Some(Issue(token, who)))];
            var regs' := Upsert(regs, Registration(who, Issue(token, who)));
            forall i | 0 <= i < |regs'| :: RegHolds(ps, regs'[i])
  {
    var r := Registration(who, Issue(token, who));
    UpsertEffect(regs, r);
    var ps, regs' := purposes[who := purposes[who].(creds := Some(r.creds))], Upsert(regs, r);
    var k := PositionOf(regs, who);
    forall i | 0 <= i < |regs'|
      ensures RegHolds(ps, regs'[i])
    {
      if i != k {
        assert regs'[i] == regs[i] && RegHolds(purposes, regs[i]);
      }
    }
  }

  lemma RegisterKeepsCredentials(cfg: Config, w: World, who: PurposeId)
    requires Credentialed(w) && IdsMinted(w) && who in w.purposes
    ensures Credentialed(Apply(cfg, w, Register(who)))
  {
    var w' := Apply(cfg, w, Register(who));
    var r := Registration(who, Issue(w.next, who));
    assert w'.hub.regs == Upsert(w.hub.regs, r);
    assert w'.purposes == w.purposes[who := w.purposes[who].(creds := Some(r.creds))];
    UpsertDistinct(w.hub.regs, r);
    UpsertHolds(w.purposes, w.hub.regs, w.next, who);
    forall p | p in w'.purposes && w'.purposes[p].creds.Some?
      ensures IsRegistered(w'.hub.regs, p)
    {
      UpsertRegistered(w.hub.regs, r, p);
    }
  }

  /** Actions that register nobody leave registrations and credentials as they are. */
  lemma CredentialsFrame(cfg: Config, w: World, a: Act)
    requires !a.Register?
    ensures var w' := Apply(cfg, w, a);
            && w'.hub.regs == w.hub.regs
            && w'.purposes.Keys == w.purposes.Keys
            && (forall p | p in w.purposes :: w'.purposes[p].creds == w.purposes[p].creds)
  {
  }

  lemma CredentialedStep(cfg: Config, w: World, a: Act)
    requires Credentialed(w) && IdsMinted(w) && Enabled(cfg, w, a)
    ensures Credentialed(Apply(cfg, w, a))
  {
    if a.Register? {
      RegisterKeepsCredentials(cfg, w, a.who);
    } else {
      CredentialsFrame(cfg, w, a);
      var w' := Apply(cfg, w, a);
      forall i | 0 <= i < |w.hub.regs|
        ensures RegHolds(w'.purposes, w'.hub.regs[i])
      {
        assert RegHolds(w.purposes, w.hub.regs[i]);
      }
    }
  }

  lemma NamesKeptStep(cfg: Config, w: World, a: Act)
    requires NamesKept(cfg, w)
    ensures NamesKept(cfg, Apply(cfg, w, a))
  {
  }

  lemma {:induction false} CredentialsHold(cfg: Config, w: World)
    requires Legal(cfg, w)
    ensures Credentialed(w) && NamesKept(cfg, w) && IsRegistered(w.hub.regs, cfg.owner)
    decreases |w.hist|
  {
    if w.hist == [] {
      assert w.hub.regs[0].who == cfg.owner;
    } else {
      var p, a := Before(cfg, w);
      CredentialsHold(cfg, p);
      IdsAreMinted(cfg, p);
      CredentialedStep(cfg, p, a);
      NamesKeptStep(cfg, p, a);
      if a.Register? {
        UpsertRegistered(p.hub.regs, Registration(a.who, Issue(p.next, a.who)), cfg.owner);
      }
    }
  }

  // ---------------------------------------------------------------- shutdown

  /** Where a shutdown stands. Nothing has begun; or the pending set is exactly those registered when it began
      whose acknowledgement has not been admitted and written since, except in the one step between admitting an
      acknowledgement and taking its Purpose off; and the all-clear has been attempted, once, as soon as nobody
      is left. */
  ghost predicate ShutdownTracked(w: World) {
    match w.closure
    case None => w.hub.pending == map[] && !w.hub.closing && !w.hub.closed && w.owed.None?
    case Some(c) =>
      && (w.hub.closing || w.hub.closed)
      && (w.hub.closing ==> !w.hub.closed && w.hub.closingId == Some(c.sid))
      && PendingTracked(w, c)
      && c.completions <= (if c.announced then 1 else 0) <= c.pendings <= 1
      && (w.hub.closed ==> c.completions == 1 && w.hub.closedId == Some(c.sid))
  }

  /** Those a shutdown still waits for. */
  function Left(c: Closure): set<PurposeId> {
    c.at - c.acknowledged
  }

  ghost predicate PendingTracked(w: World, c: Closure) {
    match w.owed
    case None =>
      w.hub.pending == (if Left(c) == {} then map[] else map[c.sid := Left(c)]) && (Left(c) == {} <==> c.pendings == 1)
    case Some(Discard(sid, who)) =>
      && sid == c.sid && who in c.at && who in c.acknowledged && w.hub.pending == map[sid := Left(c) + {who}]
      && c.pendings == 0 && w.hub.closing
    case Some(LogPending(sid)) =>
      sid == c.sid && Left(c) == {} && w.hub.pending == map[] && c.pendings == 0 && w.hub.closing
    case _ => false
  }

  lemma BeginCloseTracked(cfg: Config, w: World, a: Act)
    requires ShutdownTracked(w) && Enabled(cfg, w, a) && a.BeginClose? && Registered(w) != {}
    ensures ShutdownTracked(Apply(cfg, w, a))
  {
    hide RegsAfter, CtosAfter, PurposesAfter, PersisterAfter, Registered;
    assert Registered(w) - {} == Registered(w);
  }

  lemma DiscardEffect(cfg: Config, w: World, sid: SessionId, who: PurposeId)
    ensures var w' := Apply(cfg, w, Discard(sid, who));
            && w'.persister == w.persister && w'.next == w.next && w'.script == w.script && w'.purposes == w.purposes
            && w'.hub == w.hub.(pending := w'.hub.pending) && w'.closure == w.closure
            && w'.hub.pending == PendingAfter(w, Discard(sid, who)) && w'.owed == OwedAfter(w, Discard(sid, who))
  {
  }

  lemma DiscardTracked(cfg: Config, w: World, a: Act)
    requires ShutdownTracked(w) && Enabled(cfg, w, a) && a.Discard?
    ensures ShutdownTracked(Apply(cfg, w, a))
  {
    hide Apply;
    DiscardEffect(cfg, w, a.sid, a.who);
    var c := w.closure.value;
    if a.who in w.hub.pending[a.sid] {
      assert (Left(c) + {a.who}) - {a.who} == Left(c);
    } else {
      assert w.hub.pending[a.sid] - {a.who} == w.hub.pending[a.sid];
    }
  }

  lemma IngestEffect(cfg: Config, w: World, ev: PurposeEvent, minted: bool)
    ensures var w' := Apply(cfg, w, Ingest(ev, minted));
            && w'.hub == w.hub && w'.closure == ClosureAfter(w, Ingest(ev, minted))
            && w'.owed == OwedAfter(w, Ingest(ev, minted))
  {
  }

  lemma IngestTracked(cfg: Config, w: World, a: Act)
    requires ShutdownTracked(w) && Enabled(cfg, w, a) && a.Ingest?
    ensures ShutdownTracked(Apply(cfg, w, a))
  {
    hide Apply;
    IngestEffect(cfg, w, a.event, a.minted);
    if w.closure.Some? {
      var c := w.closure.value;
      var later := c.acknowledged + {a.event.who};
      assert c.at - later == Left(c) - {a.event.who};
      if a.event.who in Left(c) { assert (Left(c) - {a.event.who}) + {a.event.who} == Left(c); }
      else { assert Left(c) - {a.event.who} == Left(c); }
    }
  }

  lemma OtherwiseTracked(cfg: Config, w: World, a: Act)
    requires ShutdownTracked(w) && Enabled(cfg, w, a) && !a.Discard? && !a.BeginClose? && !a.Ingest?
    ensures ShutdownTracked(Apply(cfg, w, a))
  {
    hide RegsAfter, CtosAfter, PurposesAfter, PersisterAfter, Registered;
  }

  lemma {:induction false} ShutdownIsTracked(cfg: Config, w: World)
    requires Legal(cfg, w)
    ensures ShutdownTracked(w)
    decreases |w.hist|
  {
    hide Enabled, HubAfter, ClosureAfter;
    if w.hist != [] {
      var p, a := Before(cfg, w);
      ShutdownIsTracked(cfg, p);
      CredentialsHold(cfg, p);
      var i :| 0 <= i < |p.hub.regs| && p.hub.regs[i].who == cfg.owner;
      assert cfg.owner in Registered(p);
      if a.BeginClose? { BeginCloseTracked(cfg, p, a); }
      else if a.Discard? { DiscardTracked(cfg, p, a); }
      else if a.Ingest? { IngestTracked(cfg, p, a); }
      else { OtherwiseTracked(cfg, p, a); }
    }
  }

  // ---------------------------------------------------------------- imports in flight

  /** An import in flight is the persister's, and its record is in the log. */
  ghost predicate ImportRecorded(cfg: Config, log: seq<Record>, ev: PurposeEvent) {
    && cfg.imports && ev.who == cfg.persister && ev.payload.CtoImported? && ev.payload.session.Spelled?
    && PurposeRecord(ev) in log
  }

  /** Every import in flight is the persister's and has its record in the log. */
  ghost predicate InFlightRecorded(cfg: Config, w: World) {
    forall i | 0 <= i < |w.importing| :: ImportRecorded(cfg, w.persister.log, w.importing[i])
  }

  lemma RecordedLater(cfg: Config, log: seq<Record>, later: seq<Record>, ev: PurposeEvent)
    requires ImportRecorded(cfg, log, ev) && log <= later
    ensures ImportRecorded(cfg, later, ev)
  {
    var k :| 0 <= k < |log| && log[k] == PurposeRecord(ev);
    assert later[k] == log[k];
  }

  lemma InFlightStep(cfg: Config, w: World, a: Act)
    requires InFlightRecorded(cfg, w) && Enabled(cfg, w, a)
    ensures InFlightRecorded(cfg, Apply(cfg, w, a))
  {
    if a.BeginImport? { BegunIsRecorded(cfg, w, a); }
    hide Apply, Legal, Enabled, RegsAfter, CtosAfter, PendingAfter, PurposesAfter, ClosureAfter, OwedAfter, LogAfter;
    hide AcceptedAfter, RecordOf, ImportRecorded;
    var w' := Do(cfg, w, a);
    forall i | 0 <= i < |w'.importing|
      ensures ImportRecorded(cfg, w'.persister.log, w'.importing[i])
    {
      if i < |w.importing| {
        assert w'.importing[i] == w.importing[i];
        RecordedLater(cfg, w.persister.log, w'.persister.log, w.importing[i]);
      }
    }
  }

  lemma BegunIsRecorded(cfg: Config, w: World, a: Act)
    requires Enabled(cfg, w, a) && a.BeginImport?
    ensures ImportRecorded(cfg, Apply(cfg, w, a).persister.log, a.event)
  {
  }

  lemma {:induction false} InFlightIsRecorded(cfg: Config, w: World)
    requires Legal(cfg, w)
    ensures InFlightRecorded(cfg, w)
    decreases |w.hist|
  {
    hide Legal, Enabled, Apply;
    if w.hist == [] {
      Beginning(cfg, w);
    } else {
      var p, a := Before(cfg, w);
      InFlightIsRecorded(cfg, p);
      InFlightStep(cfg, p, a);
    }
  }
}
