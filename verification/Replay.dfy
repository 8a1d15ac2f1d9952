/** Folding the log: what the event stream alone tells of the hub's turns. */
module Replay {
  import opened Wrappers
  import opened Ctos
  import opened Events
  import opened World
  import opened Invariants

  /** What the records of a turn tell of it: its index, its last event and what was merged into it. The content given to
      start_turn is in no record, and none says whether a turn was adopted, or from which import. */
  datatype Rebuilt = Rebuilt(index: CTOIndex, observations: Observations)

  function ReplayRecord(m: map<TurnId, Rebuilt>, r: Record): map<TurnId, Rebuilt> {
    match r.payload
    case CtoStarted(index, _, _) => m[index.turn := Rebuilt(index, map[])]
    case DeltaMerged(d, index) =>
      if d.turn in m then m[d.turn := Rebuilt(index, MergeObs(m[d.turn].observations, d))] else m
    case _ => m
  }

  function Fold(log: seq<Record>): map<TurnId, Rebuilt> {
    if log == [] then map[] else ReplayRecord(Fold(log[..|log| - 1]), log[|log| - 1])
  }

  lemma FoldAppend(log: seq<Record>, r: Record)
    ensures Fold(log + [r]) == ReplayRecord(Fold(log), r)
  {
    assert (log + [r])[..|log|] == log;
  }

  /** No write of this run fails. */
  predicate NoFailedWrite(cfg: Config) {
    forall i | 0 <= i < |cfg.writes| :: cfg.writes[i]
  }

  lemma {:induction false} WritesSucceed(cfg: Config, w: World)
    requires Legal(cfg, w) && NoFailedWrite(cfg)
    ensures (forall i | 0 <= i < |w.writes| :: w.writes[i]) && WriteOk(w)
    decreases |w.hist|
  {
    hide Enabled, HubAfter;
    if w.hist != [] {
      var p, a := Before(cfg, w);
      WritesSucceed(cfg, p);
    }
  }

  /** One turn as replayed agrees with the live one: same index, hence same last event, and in every namespace the live
      entries are those it was seeded with followed by those replayed. */
  ghost predicate Agrees(c: CTO, seed: Observations, r: Rebuilt) {
    && r.index == ToIndex(c)
    && c.observations.Keys == seed.Keys + r.observations.Keys
    && (forall name :: Namespace(c.observations, name) == Namespace(seed, name) + Namespace(r.observations, name))
  }

  ghost predicate Mirrors(ctos: map<TurnId, CTO>, seeds: map<TurnId, Observations>, m: map<TurnId, Rebuilt>) {
    && m.Keys == ctos.Keys && seeds.Keys == ctos.Keys
    && (forall t | t in ctos :: ctos[t].turn == t && Agrees(ctos[t], seeds[t], m[t]))
  }

  lemma MergeAgreesAt(live: Observations, seed: Observations, replayed: Observations, d: Delta, name: string)
    requires Namespace(live, name) == Namespace(seed, name) + Namespace(replayed, name)
    ensures Namespace(MergeObs(live, d), name) == Namespace(seed, name) + Namespace(MergeObs(replayed, d), name)
  {
    hide PatchEntries;
    MergedNamespace(live, d, name);
    MergedNamespace(replayed, d, name);
    if name == d.name {
      Associate(Namespace(seed, name), Namespace(replayed, name), PatchEntries(d.patch));
    }
  }

  lemma MergedNamespace(obs: Observations, d: Delta, name: string)
    ensures Namespace(MergeObs(obs, d), name)
         == if name == d.name then Namespace(obs, name) + PatchEntries(d.patch) else Namespace(obs, name)
  {
  }

  lemma Associate(a: Entries, b: Entries, c: Entries)
    ensures (a + b) + c == a + (b + c)
  {
  }

  lemma MergeAgrees(c: CTO, seed: Observations, r: Rebuilt, d: Delta, id: EventId)
    requires Agrees(c, seed, r)
    ensures var c' := c.(observations := MergeObs(c.observations, d), lastEvent := Some(id));
            Agrees(c', seed, Rebuilt(ToIndex(c'), MergeObs(r.observations, d)))
  {
    hide Namespace;
    var live, replayed := MergeObs(c.observations, d), MergeObs(r.observations, d);
    assert live.Keys == c.observations.Keys + {d.name} && replayed.Keys == r.observations.Keys + {d.name};
    forall name
      ensures Namespace(live, name) == Namespace(seed, name) + Namespace(replayed, name)
    {
      MergeAgreesAt(c.observations, seed, r.observations, d, name);
    }
  }

  lemma SeedAgrees(c: CTO)
    ensures Agrees(c, c.observations, Rebuilt(ToIndex(c), map[]))
  {
  }

  /** Records other than the hub's two turn events tell replay nothing. */
  predicate TurnRecord(r: Record) {
    r.payload.CtoStarted? || r.payload.DeltaMerged?
  }

  lemma AddMirrored(ctos: map<TurnId, CTO>, seeds: map<TurnId, Observations>, m: map<TurnId, Rebuilt>, c: CTO,
                    r: Record)
    requires Mirrors(ctos, seeds, m)
    requires r.payload.CtoStarted? && r.payload.index == ToIndex(c)
    ensures Mirrors(ctos[c.turn := c], seeds[c.turn := c.observations], ReplayRecord(m, r))
  {
    hide Agrees, Namespace;
    SeedAgrees(c);
  }

  lemma MergeMirrored(ctos: map<TurnId, CTO>, seeds: map<TurnId, Observations>, m: map<TurnId, Rebuilt>, d: Delta,
                      id: EventId, r: Record)
    requires Mirrors(ctos, seeds, m) && d.turn in ctos
    requires var c := ctos[d.turn].(observations := MergeObs(ctos[d.turn].observations, d), lastEvent := Some(id));
             r.payload == DeltaMerged(d, ToIndex(c))
    ensures var c := ctos[d.turn].(observations := MergeObs(ctos[d.turn].observations, d), lastEvent := Some(id));
            Mirrors(ctos[d.turn := c], seeds, ReplayRecord(m, r))
  {
    hide Agrees, Namespace;
    MergeAgrees(ctos[d.turn], seeds[d.turn], m[d.turn], d, id);
  }

  /** Storing a turn: its record is appended, because its id is new. */
  lemma StoreLogged(cfg: Config, w: World, s: Seed)
    requires IdsMinted(w) && Enabled(cfg, w, StoreTurn(s)) && WriteOk(w)
    ensures var w', c := Apply(cfg, w, StoreTurn(s)), NewCto(w, s);
            && w'.persister.log == w.persister.log + [HubRecord(StartedEvent(w, s))]
            && w'.hub.ctos == w.hub.ctos[c.turn := c] && w'.seeds == w.seeds[c.turn := c.observations]
  {
    hide Enabled, RegsAfter, PurposesAfter, PendingAfter, ClosureAfter, OwedAfter, ImportingAfter, DeliveriesAfter;
  }

  lemma MergeLogged(cfg: Config, w: World, d: Delta)
    requires IdsMinted(w) && Enabled(cfg, w, Merge(d)) && WriteOk(w)
    ensures var w' := Apply(cfg, w, Merge(d));
            && w'.persister.log == w.persister.log + [HubRecord(MergedEvent(w, d))]
            && w'.hub.ctos == w.hub.ctos[d.turn := MergedCto(w, d)] && w'.seeds == w.seeds
  {
  }

  lemma QuietForTurns(cfg: Config, w: World, a: Act)
    requires Enabled(cfg, w, a) && !a.StoreTurn? && !a.Merge?
    ensures var w' := Apply(cfg, w, a);
            w'.hub.ctos == w.hub.ctos && w'.seeds == w.seeds && Fold(w'.persister.log) == Fold(w.persister.log)
  {
    var r := RecordOf(cfg, w, a);
    if r.Some? {
      assert !TurnRecord(r.value);
      FoldAppend(w.persister.log, r.value);
    }
  }

  lemma MirrorStep(cfg: Config, w: World, a: Act)
    requires IdsMinted(w) && Enabled(cfg, w, a) && WriteOk(w)
    requires Mirrors(w.hub.ctos, w.seeds, Fold(w.persister.log))
    ensures var w' := Apply(cfg, w, a); Mirrors(w'.hub.ctos, w'.seeds, Fold(w'.persister.log))
  {
    hide Agrees, Namespace, Apply;
    if a.StoreTurn? {
      StoreLogged(cfg, w, a.seed);
      FoldAppend(w.persister.log, HubRecord(StartedEvent(w, a.seed)));
      AddMirrored(w.hub.ctos, w.seeds, Fold(w.persister.log), NewCto(w, a.seed), HubRecord(StartedEvent(w, a.seed)));
    } else if a.Merge? {
      MergeLogged(cfg, w, a.delta);
      FoldAppend(w.persister.log, HubRecord(MergedEvent(w, a.delta)));
      MergeMirrored(w.hub.ctos, w.seeds, Fold(w.persister.log), a.delta, w.next, HubRecord(MergedEvent(w, a.delta)));
    } else {
      QuietForTurns(cfg, w, a);
    }
  }

  /** Replay refines the live store: at every point of every run without a failed write, whatever the handlers do,
      folding the log gives exactly the turns the hub holds. */
  lemma {:induction false} ReplayMirrors(cfg: Config, w: World)
    requires Legal(cfg, w) && NoFailedWrite(cfg)
    ensures Mirrors(w.hub.ctos, w.seeds, Fold(w.persister.log))
    decreases |w.hist|
  {
    hide Legal, Enabled, Apply, Mirrors, Fold;
    if w.hist == [] {
      Beginning(cfg, w);
      FoldInit(cfg);
    } else {
      var p, a := Before(cfg, w);
      ReplayMirrors(cfg, p);
      WritesSucceed(cfg, p);
      IdsAreMinted(cfg, p);
      MirrorStep(cfg, p, a);
    }
  }

  lemma FoldInit(cfg: Config)
    ensures Fold(Init(cfg).persister.log) == map[]
    ensures Mirrors(Init(cfg).hub.ctos, Init(cfg).seeds, Fold(Init(cfg).persister.log))
  {
    var log := Init(cfg).persister.log;
    var last := log[|log| - 1];
    FoldAppend(log[..|log| - 1], last);
    assert log == log[..|log| - 1] + [last];
    if |log| == 2 {
      assert log[..1] == [] + [log[0]];
      FoldAppend([], log[0]);
    } else {
      assert log[..0] == [];
    }
  }

  lemma UnseededAgreement(c: CTO, r: Rebuilt)
    requires Agrees(c, map[], r)
    ensures r.observations == c.observations
  {
    forall name | name in c.observations
      ensures r.observations[name] == c.observations[name]
    {
      assert Namespace(c.observations, name) == Namespace(map[], name) + Namespace(r.observations, name);
    }
  }

  /** A turn made by `start_turn` is rebuilt with exactly its index, last event and observations. */
  lemma StartedTurnsReplayExactly(cfg: Config, w: World, t: TurnId)
    requires Legal(cfg, w) && NoFailedWrite(cfg) && t in w.hub.ctos
    ensures t in Fold(w.persister.log) && t in w.seeds
    ensures var r, c := Fold(w.persister.log)[t], w.hub.ctos[t];
            r.index == ToIndex(c) && (w.seeds[t] == map[] ==> r.observations == c.observations)
  {
    hide Legal, Enabled, Apply, Fold, Namespace;
    ReplayMirrors(cfg, w);
    if w.seeds[t] == map[] {
      UnseededAgreement(w.hub.ctos[t], Fold(w.persister.log)[t]);
    }
  }
}
