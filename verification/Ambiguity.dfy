/** What the log cannot tell: a turn that an import fits may have been adopted from it or made by start_turn. */
module Ambiguity {
  import opened Wrappers
  import opened Json
  import opened Profiles
  import opened Ctos
  import opened Events
  import opened World
  import opened Invariants
  import opened Hub
  import opened History
  import opened Replay
  import opened Sources
  import CtoJson

  // ---------------------------------------------------------------- two worlds with one log

  /** The worlds differ in the content and observations of one turn alone, and perhaps in session codes. */
  ghost predicate Twin(w: World, v: World, t: TurnId) {
    && v == w.(hub := w.hub.(ctos := v.hub.ctos, codes := v.hub.codes), seeds := v.seeds, hist := v.hist)
    && t in w.hub.ctos && v.hub.ctos.Keys == w.hub.ctos.Keys
    && v.hub.ctos[t]
         == w.hub.ctos[t].(content := v.hub.ctos[t].content, observations := v.hub.ctos[t].observations)
    && (forall q | q in w.hub.ctos && q != t :: v.hub.ctos[q] == w.hub.ctos[q])
  }

  lemma TwinAllows(cfg: Config, w: World, v: World, a: Act, t: TurnId)
    requires Twin(w, v, t) && Enabled(cfg, w, a)
    ensures Enabled(cfg, v, a)
  {
    hide CtoJson.Normalize, CtoJson.Adopted, Validates, WellBehaved, ApplyDefaults, Resolve;
    TwinReads(cfg, w, v, a, t);
  }

  /** What the conditions of actions read is the same in both. */
  lemma TwinReads(cfg: Config, w: World, v: World, a: Act, t: TurnId)
    requires Twin(w, v, t)
    ensures a.SetContext? ==> ContextOf(v, a.sid) == ContextOf(w, a.sid)
    ensures a.Ingest? ==> Resolve(cfg, v, a.event.token) == Resolve(cfg, w, a.event.token)
                          && NameOf(cfg, v, a.event.who) == NameOf(cfg, w, a.event.who)
                          && Accepts(v, a.event.payload) == Accepts(w, a.event.payload)
    ensures Open(v) == Open(w) && Registered(v) == Registered(w)
  {
  }

  /** An action does the same in both, unless it announces a session's code. */
  lemma TwinSteps(cfg: Config, w: World, v: World, a: Act, t: TurnId)
    requires Twin(w, v, t) && Enabled(cfg, w, a) && t < w.next
    requires w.hub.codes == v.hub.codes || (!a.BeginClose? && !a.LogPending?)
    ensures Twin(Apply(cfg, w, a), Apply(cfg, v, a), t)
    ensures w.hub.codes == v.hub.codes ==> Apply(cfg, w, a).hub.codes == Apply(cfg, v, a).hub.codes
  {
    hide MergeObs, RegsAfter, PurposesAfter, Append, CtosAfter, RecordOf, Authored, Enabled, Registered;
    TwinRecords(cfg, w, v, a, t);
    TwinReads(cfg, w, v, a, t);
    TwinStores(cfg, w, v, a, t);
    TwinHubs(w, v, a, t);
  }

  lemma TwinHubs(w: World, v: World, a: Act, t: TurnId)
    requires Twin(w, v, t)
    ensures HubAfter(v, a) == HubAfter(w, a).(ctos := CtosAfter(v, a), codes := HubAfter(v, a).codes)
    ensures w.hub.codes == v.hub.codes ==> HubAfter(v, a).codes == HubAfter(w, a).codes
    ensures PurposesAfter(v, a) == PurposesAfter(w, a) && ClosureAfter(v, a) == ClosureAfter(w, a)
    ensures OwedAfter(v, a) == OwedAfter(w, a) && ImportingAfter(v, a) == ImportingAfter(w, a)
    ensures DeliveriesAfter(v, a) == DeliveriesAfter(w, a)
  {
    hide CtosAfter, RegsAfter, PurposesAfter, PendingAfter, ClosureAfter, OwedAfter, ImportingAfter, DeliveriesAfter;
    TwinParts(w, v, a, t);
    TwinReactions(w, v, a, t);
  }

  lemma TwinParts(w: World, v: World, a: Act, t: TurnId)
    requires Twin(w, v, t)
    ensures RegsAfter(v, a) == RegsAfter(w, a) && PurposesAfter(v, a) == PurposesAfter(w, a)
    ensures PendingAfter(v, a) == PendingAfter(w, a) && ImportingAfter(v, a) == ImportingAfter(w, a)
  {
    hide Upsert;
  }

  lemma TwinReactions(w: World, v: World, a: Act, t: TurnId)
    requires Twin(w, v, t)
    ensures ClosureAfter(v, a) == ClosureAfter(w, a) && OwedAfter(v, a) == OwedAfter(w, a)
    ensures DeliveriesAfter(v, a) == DeliveriesAfter(w, a)
  {
    assert Registered(v) == Registered(w);
    hide Registered;
  }

  lemma TwinStores(cfg: Config, w: World, v: World, a: Act, t: TurnId)
    requires Twin(w, v, t) && t < w.next
    ensures var m, n := CtosAfter(w, a), CtosAfter(v, a);
            && t in m && n.Keys == m.Keys && (forall q | q in m && q != t :: n[q] == m[q])
            && n[t] == m[t].(content := n[t].content, observations := n[t].observations)
  {
    hide MergeObs, CtoJson.Normalize, CtoJson.Adopted;
  }

  lemma TwinRecords(cfg: Config, w: World, v: World, a: Act, t: TurnId)
    requires Twin(w, v, t) && Enabled(cfg, w, a)
    requires w.hub.codes == v.hub.codes || (!a.BeginClose? && !a.LogPending?)
    ensures Authored(v, a) == Authored(w, a) && RecordOf(cfg, v, a) == RecordOf(cfg, w, a)
  {
    hide MergeObs, CtoJson.Normalize, CtoJson.Adopted;
  }

  lemma ClosureStays(cfg: Config, w: World, a: Act)
    requires Enabled(cfg, w, a) && ShutdownTracked(w) && Apply(cfg, w, a).closure.None?
    ensures w.closure.None? && !a.BeginClose? && !a.LogPending?
  {
    hide HubAfter, PurposesAfter, PersisterAfter;
  }

  /** What has happened in one world from here on can happen in the other. */
  lemma {:induction false} Follow(cfg: Config, u: World, v: World, w: World, t: TurnId) returns (x: World)
    requires Legal(cfg, u) && Legal(cfg, v) && Legal(cfg, w) && u.hist <= w.hist && Twin(u, v, t)
    requires u.hub.codes == v.hub.codes || w.closure.None?
    ensures Legal(cfg, x) && v.hist <= x.hist && Twin(w, x, t)
    ensures u.hub.codes == v.hub.codes ==> w.hub.codes == x.hub.codes
    decreases |w.hist|
  {
    hide Legal, Enabled, Apply, Twin;
    if |u.hist| == |w.hist| {
      SameHistory(cfg, u, w);
      x := v;
    } else {
      var p, a := Before(cfg, w);
      ShutdownIsTracked(cfg, p);
      IdsAreMinted(cfg, p);
      if w.closure.None? { ClosureStays(cfg, p, a); }
      var y := Follow(cfg, u, v, p, t);
      assert t in p.hub.ctos && t < p.next by { TwinHas(p, y, t); }
      TwinAllows(cfg, p, y, a, t);
      TwinSteps(cfg, p, y, a, t);
      LegalEffect(cfg, y, a);
      HistoryOf(cfg, y, a);
      x := Apply(cfg, y, a);
    }
  }

  lemma TwinHas(w: World, v: World, t: TurnId)
    requires Twin(w, v, t)
    ensures t in w.hub.ctos
  {
  }

  // ---------------------------------------------------------------- the point at which a turn is made

  ghost predicate MadeAt(cfg: Config, w: World, t: TurnId, u: World, s: Seed) {
    && Legal(cfg, u) && Enabled(cfg, u, StoreTurn(s)) && u.next + 1 == t && u.hist + [StoreTurn(s)] <= w.hist
  }

  lemma TurnsKept(cfg: Config, w: World, a: Act, t: TurnId)
    requires t in Apply(cfg, w, a).hub.ctos && Enabled(cfg, w, a)
    ensures t in w.hub.ctos || (a.StoreTurn? && w.next + 1 == t)
  {
  }

  lemma {:induction false} Making(cfg: Config, w: World, t: TurnId) returns (u: World, s: Seed)
    requires Legal(cfg, w) && t in w.hub.ctos
    ensures MadeAt(cfg, w, t, u, s)
    decreases |w.hist|
  {
    hide Legal, Enabled, Apply;
    Beginning(cfg, w);
    var p, a := Before(cfg, w);
    TurnsKept(cfg, p, a, t);
    if t in p.hub.ctos {
      u, s := Making(cfg, p, t);
    } else {
      u, s := p, a.seed;
    }
  }

  lemma {:induction false} StartsNoMore(cfg: Config, u: World, w: World, t: TurnId)
    requires Legal(cfg, u) && Legal(cfg, w) && u.hist <= w.hist && t < u.next
    ensures u.next <= w.next && NoNewStart(u.persister.log, w.persister.log, t)
    decreases |w.hist|
  {
    hide Legal, Enabled, Apply, Starts;
    if |u.hist| == |w.hist| {
      SameHistory(cfg, u, w);
    } else {
      var p, a := Before(cfg, w);
      StartsNoMore(cfg, u, p, t);
      IdsAreMinted(cfg, p);
      TurnsAfter(cfg, p, a);
      assert forall j | 0 <= j < |p.persister.log| :: w.persister.log[j] == p.persister.log[j];
    }
  }

  /** What the log and the store show of it later: one start, in the seed's name, and the seed's session and profile. */
  lemma MadeShows(cfg: Config, w: World, t: TurnId, u: World, s: Seed)
    requires Legal(cfg, w) && NoFailedWrite(cfg) && MadeAt(cfg, w, t, u, s)
    ensures var u1, k := Apply(cfg, u, StoreTurn(s)), |u.persister.log|;
            && Legal(cfg, u1) && u1.hist <= w.hist
               && u1.persister.log == u.persister.log + [HubRecord(StartedEvent(u, s))]
            && u1.persister.log <= w.persister.log
            && (forall j | 0 <= j < |w.persister.log| && Starts(w.persister.log[j], t) :: j == k)
            && t in w.hub.ctos && w.hub.ctos[t].session == s.session && w.hub.ctos[t].profile == s.profile
            && t in w.seeds && w.seeds[t] == s.observations
  {
    hide Legal, Enabled, Apply, Fold, HasSource;
    WritesSucceed(cfg, u);
    IdsAreMinted(cfg, u);
    TurnsHaveSources(cfg, u);
    StoreLogged(cfg, u, s);
    LegalEffect(cfg, u, StoreTurn(s));
    HistoryOf(cfg, u, StoreTurn(s));
    var u1 := Apply(cfg, u, StoreTurn(s));
    StoreDraws(cfg, u, s);
    HistoryGrows(cfg, u1, w);
    StartsNoMore(cfg, u1, w, t);
    assert forall j | 0 <= j < |u1.persister.log| :: w.persister.log[j] == u1.persister.log[j];
    assert t in u1.hub.ctos && TurnGrows(u1.hub.ctos[t], w.hub.ctos[t]);
  }

  lemma StoreDraws(cfg: Config, u: World, s: Seed)
    ensures Apply(cfg, u, StoreTurn(s)).next == u.next + 2
  {
  }

  // ---------------------------------------------------------------- the other way to make it

  /** An adopted turn might have been made by start_turn. */
  function Unadopted(s: Seed): Seed {
    s.(source := None, observations := map[])
  }

  /** What storing a turn does, but to the turns themselves. */
  lemma StoreStep(cfg: Config, u: World, s: Seed)
    ensures var v, r := Apply(cfg, u, StoreTurn(s)), HubRecord(StartedEvent(u, s));
            v == u.(hub := u.hub.(ctos := u.hub.ctos[u.next + 1 := NewCto(u, s)], codes := v.hub.codes),
                    persister := u.persister.(log := if WriteOk(u) then Append(cfg, u.persister.log, r)
                                                     else u.persister.log),
                    next := u.next + 2, writes := v.writes, accepted := u.accepted + [r.id],
                    seeds := u.seeds[u.next + 1 := s.observations], importing := ImportingAfter(u, StoreTurn(s)),
                    owed := None, hist := v.hist)
    ensures Apply(cfg, u, StoreTurn(s)).writes == if |u.writes| > 0 then u.writes[1..] else u.writes
    ensures Apply(cfg, u, StoreTurn(s)).hub.codes
         == if s.code.Some? then u.hub.codes[s.session := s.code.value] else u.hub.codes
  {
    hide Append;
  }

  lemma BeginStep(cfg: Config, u: World, ev: PurposeEvent)
    ensures Apply(cfg, u, BeginImport(ev))
         == u.(importing := u.importing + [ev], owed := None, hist := u.hist + [BeginImport(ev)])
  {
  }

  lemma EndStep(cfg: Config, u: World)
    ensures Apply(cfg, u, EndImport)
         == u.(importing := ImportingAfter(u, EndImport), owed := None, hist := u.hist + [EndImport])
  {
  }

  lemma UnadoptedIsEnabled(cfg: Config, u: World, s: Seed)
    requires Enabled(cfg, u, StoreTurn(s)) && s.source.Some? && Open(u) && u.owed.None?
    ensures Enabled(cfg, u, StoreTurn(Unadopted(s))) && |u.importing| > 0
  {
    hide CtoJson.Normalize, CtoJson.Adopted, Validates, WellBehaved;
  }

  lemma MadeUnadopted(cfg: Config, u: World, s: Seed)
    requires Legal(cfg, u) && Enabled(cfg, u, StoreTurn(s)) && s.source.Some? && Open(u) && u.owed.None?
    ensures Enabled(cfg, u, StoreTurn(Unadopted(s)))
    ensures var v, u' := Apply(cfg, u, StoreTurn(s)), Apply(cfg, u, StoreTurn(Unadopted(s)));
            && Enabled(cfg, u', EndImport)
            && var v' := Apply(cfg, u', EndImport);
               && Twin(v, v', u.next + 1) && v'.hub.codes == v.hub.codes
               && u.next + 1 in v'.seeds && v'.seeds[u.next + 1] == map[]
  {
    hide Legal, Apply, Append;
    UnadoptedIsEnabled(cfg, u, s);
    StoreStep(cfg, u, s);
    StoreStep(cfg, u, Unadopted(s));
    EndStep(cfg, Apply(cfg, u, StoreTurn(Unadopted(s))));
    EndIsEnabled(cfg, Apply(cfg, u, StoreTurn(Unadopted(s))));
  }

  lemma EndIsEnabled(cfg: Config, u: World)
    requires u.owed.None? && |u.importing| > 0
    ensures Enabled(cfg, u, EndImport)
  {
  }

  /** The event an adoptable record was made from. */
  function EventOf(r: Record): PurposeEvent
    requires r.origin.FromPurpose?
  {
    PurposeEvent(r.id, r.origin.who, r.origin.name, PERSISTER_TOKEN, r.session, r.payload)
  }

  lemma AdoptionIsEnabled(cfg: Config, u: World, s: Seed, r: Record)
    requires Enabled(cfg, u, StoreTurn(s)) && s.source.None? && u.owed.None?
    requires r in u.persister.log && Offers(cfg, r, s.session, s.profile)
    ensures Enabled(cfg, u, BeginImport(EventOf(r)))
    ensures var u' := u.(importing := u.importing + [EventOf(r)], owed := None,
                         hist := u.hist + [BeginImport(EventOf(r))]);
            Enabled(cfg, u', StoreTurn(AdoptedSeed(EventOf(r), s.now)))
  {
    hide CtoJson.Normalize, CtoJson.Adopted, Validates, WellBehaved;
    assert PurposeRecord(EventOf(r)) == r;
  }

  /** And a turn made by start_turn might have been adopted. */
  lemma MadeAdopted(cfg: Config, u: World, s: Seed, r: Record)
    requires Legal(cfg, u) && Enabled(cfg, u, StoreTurn(s)) && s.source.None? && u.owed.None?
    requires r in u.persister.log && Offers(cfg, r, s.session, s.profile)
    requires s.byId == r.payload.requester && s.byName == r.payload.requesterName
    ensures var ev := EventOf(r);
            var u', s' := Apply(cfg, u, BeginImport(ev)), AdoptedSeed(ev, s.now);
            && Enabled(cfg, u, BeginImport(ev)) && Enabled(cfg, u', StoreTurn(s'))
            && var v, v' := Apply(cfg, u, StoreTurn(s)), Apply(cfg, u', StoreTurn(s'));
               Twin(v, v', u.next + 1) && u.next + 1 in v'.seeds && v'.seeds[u.next + 1] == SeedOf(r)
  {
    hide Legal, Apply, Append, CtoJson.Normalize, CtoJson.Adopted, Validates;
    AdoptionIsEnabled(cfg, u, s, r);
    BeginStep(cfg, u, EventOf(r));
    StoreStep(cfg, u, s);
    StoreStep(cfg, Apply(cfg, u, BeginImport(EventOf(r))), AdoptedSeed(EventOf(r), s.now));
  }

  /** Nothing is owed when a turn is made, and before the hub begins to close it is open. */
  lemma MadeInTurn(cfg: Config, w: World, u: World, s: Seed)
    requires Legal(cfg, u) && Legal(cfg, w) && u.hist <= w.hist && Enabled(cfg, u, StoreTurn(s)) && Open(w)
    ensures u.owed.None? && Open(u)
  {
    hide Legal, Apply;
    ShutdownIsTracked(cfg, u);
    ShutdownIsTracked(cfg, w);
    NothingBegunBefore(cfg, u, w);
  }

  lemma {:induction false} NothingBegunBefore(cfg: Config, u: World, w: World)
    requires Legal(cfg, u) && Legal(cfg, w) && u.hist <= w.hist && w.closure.None?
    ensures u.closure.None?
    decreases |w.hist|
  {
    hide Legal, Enabled, Apply;
    if |u.hist| == |w.hist| {
      SameHistory(cfg, u, w);
    } else {
      var p, a := Before(cfg, w);
      ShutdownIsTracked(cfg, p);
      ClosureStays(cfg, p, a);
      NothingBegunBefore(cfg, u, p);
    }
  }

  /** Seeds that tell: replay agrees with both, so the turns differ. */
  lemma SeedsTell(c: CTO, seed: Observations, c': CTO, seed': Observations, r: Rebuilt)
    requires Agrees(c, seed, r) && Agrees(c', seed', r)
    requires Namespace(seed, CtoJson.PROVENANCE) == [] && Namespace(seed', CtoJson.PROVENANCE) != []
    ensures c.observations != c'.observations
  {
    assert |Namespace(c'.observations, CtoJson.PROVENANCE)| > |Namespace(c.observations, CtoJson.PROVENANCE)|;
  }

  /** Another run of the same hub, with the same log, in which the turn was made the other way. */
  ghost predicate TellsApart(cfg: Config, w: World, v: World, t: TurnId) {
    && Legal(cfg, v) && v.persister.log == w.persister.log && Twin(w, v, t)
    && v.hub.ctos[t].observations != w.hub.ctos[t].observations
  }

  lemma TwinTellsApart(cfg: Config, w: World, v: World, t: TurnId)
    requires Legal(cfg, w) && Legal(cfg, v) && NoFailedWrite(cfg) && Twin(w, v, t) && t in w.seeds && t in v.seeds
    requires Namespace(w.seeds[t], CtoJson.PROVENANCE) == [] <==> Namespace(v.seeds[t], CtoJson.PROVENANCE) != []
    ensures TellsApart(cfg, w, v, t)
  {
    hide Legal, Fold, Namespace;
    ReplayMirrors(cfg, w);
    ReplayMirrors(cfg, v);
    var r := Fold(w.persister.log)[t];
    if Namespace(w.seeds[t], CtoJson.PROVENANCE) == [] {
      SeedsTell(w.hub.ctos[t], w.seeds[t], v.hub.ctos[t], v.seeds[t], r);
    } else {
      SeedsTell(v.hub.ctos[t], v.seeds[t], w.hub.ctos[t], w.seeds[t], r);
    }
  }

  /** If an import fits a turn of a hub that is not closing, the log leaves open whether the turn was adopted: the hub
      has another run with the very same log in which this turn has other observations. */
  lemma AnotherRunFits(cfg: Config, w: World, t: TurnId, i: nat) returns (v: World)
    requires Legal(cfg, w) && NoFailedWrite(cfg) && Open(w) && t in w.hub.ctos && Fits(cfg, w.persister.log, t, i)
    ensures TellsApart(cfg, w, v, t)
  {
    hide Legal, Enabled, Apply, Fold, Twin, Offers, Starts, TellsApart;
    var u, s := Making(cfg, w, t);
    MadeShows(cfg, w, t, u, s);
    MadeInTurn(cfg, w, u, s);
    ShutdownIsTracked(cfg, w);
    var u1 := Apply(cfg, u, StoreTurn(s));
    var u2;
    if s.source.Some? {
      u2 := MadeOtherwise(cfg, u, s);
    } else {
      FitsEarly(cfg, w, t, u, s, i);
      u2 := MadeFrom(cfg, u, s, w.persister.log[i]);
    }
    v := Follow(cfg, u1, u2, w, t);
    HistoryGrows(cfg, u2, v);
    TwinTellsApart(cfg, w, v, t);
  }

  lemma MadeOtherwise(cfg: Config, u: World, s: Seed) returns (v: World)
    requires Legal(cfg, u) && Enabled(cfg, u, StoreTurn(s)) && s.source.Some? && Open(u) && u.owed.None?
    ensures Legal(cfg, v) && Twin(Apply(cfg, u, StoreTurn(s)), v, u.next + 1)
    ensures u.next + 1 in v.seeds && Namespace(v.seeds[u.next + 1], CtoJson.PROVENANCE) == []
    ensures Namespace(s.observations, CtoJson.PROVENANCE) != []
  {
    hide Legal, Apply, Twin;
    MadeUnadopted(cfg, u, s);
    LegalEffect(cfg, u, StoreTurn(Unadopted(s)));
    var u' := Apply(cfg, u, StoreTurn(Unadopted(s)));
    LegalEffect(cfg, u', EndImport);
    v := Apply(cfg, u', EndImport);
    SeedIsNotEmpty(cfg, u, s);
  }

  lemma SeedIsNotEmpty(cfg: Config, u: World, s: Seed)
    requires Enabled(cfg, u, StoreTurn(s)) && s.source.Some?
    ensures Namespace(s.observations, CtoJson.PROVENANCE) != []
  {
    hide CtoJson.Normalize, CtoJson.Adopted, Validates;
    var p := s.source.value.payload;
    CtoJson.AdoptedIsNotEmpty(CtoJson.Normalize(p.document).value, SourceOf(p));
  }

  /** An import that fits the turn had been recorded when the turn was made, and offers what was made. */
  lemma FitsEarly(cfg: Config, w: World, t: TurnId, u: World, s: Seed, i: nat)
    requires Legal(cfg, w) && NoFailedWrite(cfg) && t in w.hub.ctos && Fits(cfg, w.persister.log, t, i)
    requires MadeAt(cfg, w, t, u, s)
    ensures i < |u.persister.log| && u.persister.log[i] == w.persister.log[i]
    ensures Offers(cfg, w.persister.log[i], s.session, s.profile)
    ensures s.byId == w.persister.log[i].payload.requester && s.byName == w.persister.log[i].payload.requesterName
  {
    hide Legal, Enabled, Apply, Fold, Offers, Adoptable;
    MadeShows(cfg, w, t, u, s);
    ReplayMirrors(cfg, w);
    var log := w.persister.log;
    var j :| i < j < |log| && Starts(log[j], t) && InItsName(log[j], log[i]);
    var u1 := Apply(cfg, u, StoreTurn(s));
    assert j == |u.persister.log| && log[..j + 1] == u1.persister.log;
    assert log[j] == u1.persister.log[j] && log[i] == u1.persister.log[i];
  }

  lemma MadeFrom(cfg: Config, u: World, s: Seed, r: Record) returns (v: World)
    requires Legal(cfg, u) && Enabled(cfg, u, StoreTurn(s)) && s.source.None? && u.owed.None?
    requires r in u.persister.log && Offers(cfg, r, s.session, s.profile)
    requires s.byId == r.payload.requester && s.byName == r.payload.requesterName
    ensures Legal(cfg, v) && Twin(Apply(cfg, u, StoreTurn(s)), v, u.next + 1)
    ensures u.next + 1 in v.seeds && Namespace(v.seeds[u.next + 1], CtoJson.PROVENANCE) != []
    ensures Namespace(s.observations, CtoJson.PROVENANCE) == []
  {
    assert r.payload.CtoImported? && r.payload.session.Spelled? && r.origin.FromPurpose?;
    assert CtoJson.Normalize(r.payload.document).Success?;
    var seed := SeedOf(r);
    assert Namespace(seed, CtoJson.PROVENANCE) != [] by {
      CtoJson.AdoptedIsNotEmpty(CtoJson.Normalize(r.payload.document).value, SourceOf(r.payload));
    }
    MadeAdopted(cfg, u, s, r);
    hide Legal, Enabled, Apply, Twin, Offers, SeedOf, AdoptedSeed, Namespace;
    var u' := Apply(cfg, u, BeginImport(EventOf(r)));
    LegalEffect(cfg, u, BeginImport(EventOf(r)));
    v := Apply(cfg, u', StoreTurn(AdoptedSeed(EventOf(r), s.now)));
    LegalEffect(cfg, u', StoreTurn(AdoptedSeed(EventOf(r), s.now)));
    StartedEmpty(cfg, u, s);
  }

  lemma StartedEmpty(cfg: Config, u: World, s: Seed)
    requires Enabled(cfg, u, StoreTurn(s)) && s.source.None?
    ensures Namespace(s.observations, CtoJson.PROVENANCE) == []
  {
  }

  /** In every run of this hub that has this log, replay alone gives the turn. */
  ghost predicate AlwaysReplays(cfg: Config, log: seq<Record>, t: TurnId) {
    forall v: World | Legal(cfg, v) && v.persister.log == log && t in v.hub.ctos :: ReplaysExactly(log, v.hub.ctos[t])
  }

  /** Exactly when the log tells a turn: as long as the hub is not closing, replay is sure to give the turn's
      observations if and only if no import fits it, which is a question about the log alone. */
  lemma LogTellsUnlessAnImportFits(cfg: Config, w: World, t: TurnId)
    requires Legal(cfg, w) && NoFailedWrite(cfg) && Open(w) && t in w.hub.ctos
    ensures AlwaysReplays(cfg, w.persister.log, t) <==> forall i: nat :: !Fits(cfg, w.persister.log, t, i)
  {
    hide Legal, Fold, Fits, ReplaysExactly;
    if i: nat :| Fits(cfg, w.persister.log, t, i) {
      var v := AnotherRunFits(cfg, w, t, i);
      OneOfThemIsWrong(cfg, w, v, t);
    } else {
      forall v: World | Legal(cfg, v) && v.persister.log == w.persister.log && t in v.hub.ctos
        ensures ReplaysExactly(w.persister.log, v.hub.ctos[t])
      {
        UnmatchedTurnReplays(cfg, v, t);
      }
    }
  }

  lemma OneOfThemIsWrong(cfg: Config, w: World, v: World, t: TurnId)
    requires Legal(cfg, w) && TellsApart(cfg, w, v, t) && NoFailedWrite(cfg) && t in w.hub.ctos
    ensures !AlwaysReplays(cfg, w.persister.log, t)
  {
    hide Legal, Fold;
    ReplayMirrors(cfg, w);
    assert t in v.hub.ctos && w.hub.ctos[t].turn == t && v.hub.ctos[t].turn == t;
  }
}
