/** What later points of a run keep of earlier ones: append-only history, finality, ownership, credentials, imports. */
module History {
  import opened Wrappers
  import opened Ctos
  import opened Events
  import opened Profiles
  import opened World
  import opened Invariants
  import opened Hub
  import CtoJson

  // ---------------------------------------------------------------- append-only

  /** A turn keeps its identity and content, and every namespace list only grows at its end. */
  ghost predicate TurnGrows(a: CTO, b: CTO) {
    && b == a.(observations := b.observations, lastEvent := b.lastEvent)
    && Extends(a.observations, b.observations)
  }

  /** From one world to a later one. */
  ghost predicate Grows(w: World, w': World) {
    && w.persister.log <= w'.persister.log && w.deliveries <= w'.deliveries
    && (forall t | t in w.hub.ctos :: t in w'.hub.ctos && TurnGrows(w.hub.ctos[t], w'.hub.ctos[t]))
    && (forall t | t in w.seeds :: t in w'.seeds && w'.seeds[t] == w.seeds[t])
    && (forall s | s in w.hub.owners :: s in w'.hub.owners && w'.hub.owners[s] == w.hub.owners[s])
    && |w.hub.regs| <= |w'.hub.regs|
    && (forall i | 0 <= i < |w.hub.regs| :: w'.hub.regs[i].who == w.hub.regs[i].who)
    && (w.hub.closed ==> w'.hub.closed)
  }

  lemma TurnGrowsTransitive(a: CTO, b: CTO, c: CTO)
    requires TurnGrows(a, b) && TurnGrows(b, c)
    ensures TurnGrows(a, c)
  {
    ExtendsTransitive(a.observations, b.observations, c.observations);
  }

  lemma GrowsTransitive(a: World, b: World, c: World)
    requires Grows(a, b) && Grows(b, c)
    ensures Grows(a, c)
  {
    forall t | t in a.hub.ctos
      ensures t in c.hub.ctos && TurnGrows(a.hub.ctos[t], c.hub.ctos[t])
    {
      assert t in b.hub.ctos && TurnGrows(a.hub.ctos[t], b.hub.ctos[t]);
      assert TurnGrows(b.hub.ctos[t], c.hub.ctos[t]);
      TurnGrowsTransitive(a.hub.ctos[t], b.hub.ctos[t], c.hub.ctos[t]);
    }
  }

  /** A merge touches one turn, and of it only the namespace the delta names, which gains one entry per patch item; no
      other action, a rejection in particular, changes a turn. */
  lemma MergeIsLocal(cfg: Config, w: World, a: Act, t: TurnId, name: string)
    requires Enabled(cfg, w, a) && IdsMinted(w) && t in w.hub.ctos
    ensures t in Apply(cfg, w, a).hub.ctos
    ensures var c, c' := w.hub.ctos[t], Apply(cfg, w, a).hub.ctos[t];
            if a.Merge? && a.delta.turn == t && a.delta.name == name
            then && Namespace(c.observations, name) <= Namespace(c'.observations, name)
                 && |Namespace(c'.observations, name)| == |Namespace(c.observations, name)| + PatchSize(a.delta.patch)
            else && Namespace(c'.observations, name) == Namespace(c.observations, name)
                 && ((a.Merge? && a.delta.turn == t) || c' == c)
  {
    if a.Merge? {
      PatchEntriesSize(a.delta.patch);
    }
  }

  lemma StepGrows(cfg: Config, w: World, a: Act)
    requires Enabled(cfg, w, a) && IdsMinted(w)
    ensures Grows(w, Apply(cfg, w, a))
  {
    StoreEffect(cfg, w, a);
    OwnersKept(cfg, w, a);
    TurnsGrow(cfg, w, a);
    RegsGrow(w, a);
    hide Apply, Legal, Enabled, RegsAfter, CtosAfter, PendingAfter, PurposesAfter, ClosureAfter, LogAfter, OwedAfter;
    hide AcceptedAfter, ImportingAfter, RecordOf, TurnGrows;
    var w' := Do(cfg, w, a);
  }

  lemma OwnersKept(cfg: Config, w: World, a: Act)
    requires Enabled(cfg, w, a) && IdsMinted(w)
    ensures a.Own? ==> a.sid !in w.hub.owners
    ensures a.StoreTurn? ==> w.next + 1 !in w.seeds
  {
  }

  lemma TurnsGrow(cfg: Config, w: World, a: Act)
    requires Enabled(cfg, w, a) && IdsMinted(w)
    ensures forall t | t in w.hub.ctos :: t in CtosAfter(w, a) && TurnGrows(w.hub.ctos[t], CtosAfter(w, a)[t])
  {
    hide TurnGrows, MergeObs, NewCto;
    forall t | t in w.hub.ctos
      ensures t in CtosAfter(w, a) && TurnGrows(w.hub.ctos[t], CtosAfter(w, a)[t])
    {
      SameTurnGrows(w.hub.ctos[t]);
      if a.Merge? && a.delta.turn == t { MergedGrows(w.hub.ctos[t], MergedCto(w, a.delta), a.delta); }
    }
  }

  lemma SameTurnGrows(c: CTO)
    ensures TurnGrows(c, c)
  {
  }

  lemma RegsGrow(w: World, a: Act)
    ensures |w.hub.regs| <= |RegsAfter(w, a)|
    ensures forall i | 0 <= i < |w.hub.regs| :: RegsAfter(w, a)[i].who == w.hub.regs[i].who
  {
    if a.Register? {
      UpsertEffect(w.hub.regs, Registration(a.who, Issue(w.next, a.who)));
    }
  }

  lemma MergedGrows(c: CTO, c': CTO, d: Delta)
    requires c' == c.(observations := MergeObs(c.observations, d), lastEvent := c'.lastEvent)
    ensures TurnGrows(c, c')
  {
  }

  /** Append-only history: between any two points of a run the log, every namespace list of every turn, the owners and
      the registrations only grow. */
  lemma {:induction false} HistoryGrows(cfg: Config, w: World, w': World)
    requires Legal(cfg, w) && Legal(cfg, w') && w.hist <= w'.hist
    ensures Grows(w, w')
    decreases |w'.hist|
  {
    hide Legal, Enabled, Apply;
    if |w.hist| == |w'.hist| {
      SameHistory(cfg, w, w');
      assert forall t | t in w.hub.ctos :: TurnGrows(w.hub.ctos[t], w.hub.ctos[t]);
    } else {
      hide Grows;
      var p, a := Before(cfg, w');
      HistoryGrows(cfg, w, p);
      IdsAreMinted(cfg, p);
      StepGrows(cfg, p, a);
      GrowsTransitive(w, p, w');
    }
  }

  // ---------------------------------------------------------------- closed is final

  /** What the hub must not change once closed. */
  ghost predicate SameCore(w: World, w': World) {
    && w'.persister.log == w.persister.log
    && w'.hub.ctos == w.hub.ctos && w'.hub.regs == w.hub.regs && w'.hub.owners == w.hub.owners
  }

  /** The two actions that change the core in settling an import. */
  predicate Adopts(a: Act) {
    (a.StoreTurn? && a.seed.source.Some?) || (a.Own? && a.source.Some?)
  }

  /** The action settles this import, to the core's change. */
  predicate AdoptsFrom(a: Act, ev: PurposeEvent) {
    (a.StoreTurn? && a.seed.source == Some(ev)) || (a.Own? && a.source == Some(ev))
  }

  /** In a closed hub only an import begun before can still be settled, innermost first, and nothing else changes the
      core; no import begins any more. */
  lemma ClosedStep(cfg: Config, w: World, a: Act)
    requires w.hub.closed && Enabled(cfg, w, a)
    ensures var w' := Apply(cfg, w, a);
            && w'.hub.closed && w'.importing <= w.importing
            && (!Adopts(a) ==> SameCore(w, w'))
            && (Adopts(a) ==> |w.importing| > 0 && AdoptsFrom(a, w.importing[|w.importing| - 1]))
            && (forall ev | AdoptsFrom(a, ev) :: Adopts(a))
            && (w'.persister.log == w.persister.log || AddsStart(w.persister.log, w'.persister.log))
  {
    hide PurposesAfter, ClosureAfter, OwedAfter, DeliveriesAfter, AcceptedAfter, CtoJson.Normalize, CtoJson.Adopted;
  }

  /** The later log ends with a cto_started that the earlier one does not have. */
  ghost predicate AddsStart(log: seq<Record>, later: seq<Record>) {
    |log| < |later| && later[|later| - 1].payload.CtoStarted?
  }

  /** Nothing but settling an import changes a closed hub, and the imports in flight only get fewer. */
  lemma {:induction false} ClosedKeepsCore(cfg: Config, w: World, w': World)
    requires Legal(cfg, w) && Legal(cfg, w') && w.hist <= w'.hist && w.hub.closed
    ensures w'.hub.closed && w'.importing <= w.importing
    ensures (forall i | |w.hist| <= i < |w'.hist| :: !Adopts(w'.hist[i])) ==> SameCore(w, w')
    ensures w'.persister.log == w.persister.log || AddsStart(w.persister.log, w'.persister.log)
    decreases |w'.hist|
  {
    hide Legal, Enabled, Apply, Adopts;
    if |w.hist| == |w'.hist| {
      SameHistory(cfg, w, w');
    } else {
      var p, a := Before(cfg, w');
      assert forall i | |w.hist| <= i < |p.hist| :: p.hist[i] == w'.hist[i];
      ClosedKeepsCore(cfg, w, p);
      assert a == w'.hist[|p.hist|];
      HistoryGrows(cfg, w, p);
      ClosedStep(cfg, p, a);
    }
  }

  /** The world at an earlier point of a run. */
  lemma {:induction false} At(cfg: Config, w: World, n: nat) returns (v: World)
    requires Legal(cfg, w) && n <= |w.hist|
    ensures Legal(cfg, v) && v.hist == w.hist[..n]
    ensures n < |w.hist| ==> Enabled(cfg, v, w.hist[n]) && Legal(cfg, Apply(cfg, v, w.hist[n]))
    decreases |w.hist|
  {
    hide Legal, Enabled, Apply;
    if n == |w.hist| {
      v := w;
      assert w.hist[..n] == w.hist;
    } else {
      var p, a := Before(cfg, w);
      assert w.hist[..|p.hist|] == p.hist;
      if n == |p.hist| {
        v := p;
      } else {
        v := At(cfg, p, n);
        assert w.hist[n] == p.hist[n] && w.hist[..n] == p.hist[..n];
      }
    }
  }

  lemma AdoptionAddsKeys(cfg: Config, w: World, a: Act)
    requires Enabled(cfg, w, a) && Adopts(a) && IdsMinted(w)
    ensures var w' := Apply(cfg, w, a);
            && (a.StoreTurn? ==> w.next + 1 in w'.hub.ctos && w.next + 1 !in w.hub.ctos)
            && (a.Own? ==> a.sid in w'.hub.owners && a.sid !in w.hub.owners)
  {
    OwnersKept(cfg, w, a);
    StoreEffect(cfg, w, a);
    HubEffect(cfg, w, a);
    assert w.next + 1 !in w.hub.ctos;
    hide *;
    assert a.StoreTurn? ==> w.next + 1 in CtosAfter(w, a) by { StoredIsIn(w, a); }
  }

  lemma StoredIsIn(w: World, a: Act)
    ensures a.StoreTurn? ==> w.next + 1 in CtosAfter(w, a)
  {
    hide NewCto;
  }

  lemma HistoryOf(cfg: Config, w: World, a: Act)
    ensures Apply(cfg, w, a).hist == w.hist + [a]
  {
  }

  /** An adoption after closing does change the turns or the owners, for good, and is of an import in flight at
      closing. */
  lemma AdoptionChangesCore(cfg: Config, w: World, w': World, i: nat)
    requires Legal(cfg, w) && Legal(cfg, w') && w.hist <= w'.hist && w.hub.closed
    requires |w.hist| <= i < |w'.hist| && Adopts(w'.hist[i])
    ensures !SameCore(w, w')
    ensures exists ev :: ev in w.importing && AdoptsFrom(w'.hist[i], ev)
  {
    hide Legal, Enabled, Apply;
    var v := At(cfg, w', i);
    var a := w'.hist[i];
    assert w.hist <= v.hist && v.hist + [a] <= w'.hist;
    HistoryOf(cfg, v, a);
    HistoryGrows(cfg, w, v);
    HistoryGrows(cfg, Apply(cfg, v, a), w');
    IdsAreMinted(cfg, v);
    AdoptionAddsKeys(cfg, v, a);
    ClosedKeepsCore(cfg, w, v);
    ClosedStep(cfg, v, a);
    assert v.importing[|v.importing| - 1] in w.importing;
  }

  /** Since then the import has been settled to the core's change: its turn stored, or its session given an owner. */
  ghost predicate AdoptedSince(w: World, w': World, ev: PurposeEvent) {
    exists i :: |w.hist| <= i < |w'.hist| && AdoptsFrom(w'.hist[i], ev)
  }

  /** Closed is final: once session_completed has been accepted, log, turns, registrations and owners stay as they are
      at every later point if and only if no import that was inside its relay then has been adopted since. With no
      relay in progress they always stay. */
  lemma ClosedIsFinal(cfg: Config, w: World, w': World)
    requires Legal(cfg, w) && Legal(cfg, w') && w.hist <= w'.hist && w.hub.closed
    ensures SameCore(w, w') <==> forall ev | ev in w.importing :: !AdoptedSince(w, w', ev)
    ensures w.importing == [] ==> SameCore(w, w')
  {
    hide Legal, SameCore;
    ClosedKeepsCore(cfg, w, w');
    if i :| |w.hist| <= i < |w'.hist| && Adopts(w'.hist[i]) {
      AdoptionChangesCore(cfg, w, w', i);
    } else {
      forall ev | ev in w.importing
        ensures !AdoptedSince(w, w', ev)
      {
        assert forall i | |w.hist| <= i < |w'.hist| && AdoptsFrom(w'.hist[i], ev) :: Adopts(w'.hist[i]);
      }
    }
  }

  lemma FinishEffect(cfg: Config, w: World, a: Act)
    requires Enabled(cfg, w, a)
    ensures a.Finish? ==>
              Apply(cfg, w, a).hub.closed && Apply(cfg, w, a).persister == w.persister
                && EndsWithCompletion(cfg, w.persister.log)
    ensures !a.Finish? ==> Apply(cfg, w, a).hub.closed == w.hub.closed
  {
  }

  /** The point of a run at which its hub closed. */
  lemma {:induction false} Closing(cfg: Config, w: World) returns (v: World)
    requires Legal(cfg, w) && w.hub.closed
    ensures Legal(cfg, v) && v.hist <= w.hist && v.hist != [] && v.hist[|v.hist| - 1].Finish?
    decreases |w.hist|
  {
    hide Legal, Enabled, Apply;
    Beginning(cfg, w);
    var p, a := Before(cfg, w);
    FinishEffect(cfg, p, a);
    if a.Finish? {
      v := w;
    } else {
      v := Closing(cfg, p);
    }
  }

  /** session_completed is the last record when the hub closes, and at every later point if and only if nothing has been
      written since; something is written only for an import that was inside its relay. */
  lemma CompletionStaysLast(cfg: Config, v: World, w: World)
    requires Legal(cfg, v) && Legal(cfg, w) && v.hist <= w.hist
    requires v.hist != [] && v.hist[|v.hist| - 1].Finish?
    ensures v.hub.closed && EndsWithCompletion(cfg, v.persister.log)
    ensures EndsWithCompletion(cfg, w.persister.log) <==> w.persister.log == v.persister.log
    ensures v.importing == [] ==> EndsWithCompletion(cfg, w.persister.log)
    ensures EndsWithCompletion(cfg, w.persister.log) || exists ev :: ev in v.importing && AdoptedSince(v, w, ev)
  {
    hide Legal, Enabled, Apply, AdoptedSince;
    var p, a := Before(cfg, v);
    FinishEffect(cfg, p, a);
    ClosedKeepsCore(cfg, v, w);
    ClosedIsFinal(cfg, v, w);
  }
}
