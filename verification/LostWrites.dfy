/** Replay in runs some of whose writes fail: exactly what of each turn the log still tells. */
module LostWrites {
  import opened Wrappers
  import opened Ctos
  import opened Events
  import opened World
  import opened Invariants
  import opened Replay

  // ---------------------------------------------------------------- what was written of a turn

  /** The action makes this turn. */
  predicate Makes(w: World, a: Act, t: TurnId) {
    a.StoreTurn? && w.next + 1 == t
  }

  predicate MergesTo(a: Act, t: TurnId) {
    a.Merge? && a.delta.turn == t
  }

  /** The turn's cto_started was written. */
  ghost predicate Begun(cfg: Config, hist: seq<Act>, t: TurnId) {
    hist != [] &&
    var k := |hist| - 1;
    Begun(cfg, hist[..k], t) || (Makes(Run(cfg, hist[..k]), hist[k], t) && WriteOk(Run(cfg, hist[..k])))
  }

  /** The last of the turn's events, cto_started or delta_merged, was written. */
  ghost predicate LatestWritten(cfg: Config, hist: seq<Act>, t: TurnId) {
    hist != [] &&
    var k := |hist| - 1;
    if Makes(Run(cfg, hist[..k]), hist[k], t) || MergesTo(hist[k], t) then WriteOk(Run(cfg, hist[..k]))
    else LatestWritten(cfg, hist[..k], t)
  }

  /** How many entries were merged into a namespace of the turn without their delta_merged being written. */
  ghost function Lost(cfg: Config, hist: seq<Act>, t: TurnId, name: string): nat {
    if hist == [] then 0
    else
      var k := |hist| - 1;
      Lost(cfg, hist[..k], t, name)
      + if MergesTo(hist[k], t) && hist[k].delta.name == name && !WriteOk(Run(cfg, hist[..k]))
        then PatchSize(hist[k].delta.patch) else 0
  }

  lemma Grown(cfg: Config, hist: seq<Act>, a: Act, t: TurnId, name: string)
    ensures var w := Run(cfg, hist);
            && Begun(cfg, hist + [a], t) == (Begun(cfg, hist, t) || (Makes(w, a, t) && WriteOk(w)))
            && LatestWritten(cfg, hist + [a], t)
                 == (if Makes(w, a, t) || MergesTo(a, t) then WriteOk(w) else LatestWritten(cfg, hist, t))
            && Lost(cfg, hist + [a], t, name)
                 == Lost(cfg, hist, t, name)
                    + if MergesTo(a, t) && a.delta.name == name && !WriteOk(w) then PatchSize(a.delta.patch) else 0
  {
    assert (hist + [a])[..|hist|] == hist;
  }

  // ---------------------------------------------------------------- what replay makes of it

  /** The replayed index is the live one, except perhaps for the last event, which is then an earlier one. */
  ghost predicate IndexTracks(c: CTO, index: CTOIndex, next: nat, latest: bool) {
    && index == ToIndex(c).(lastEvent := index.lastEvent)
    && index.lastEvent.Some? && index.lastEvent.value < next
    && (index == ToIndex(c) <==> latest)
  }

  /** The live entries of a namespace are the seeded and the replayed ones, if none was lost; if some were, there are so
      many more. */
  ghost predicate NamespaceTracks(live: Entries, seed: Entries, replayed: Entries, lost: nat) {
    && |live| == |seed| + |replayed| + lost
    && (lost == 0 ==> live == seed + replayed)
  }

  ghost predicate TurnTracks(cfg: Config, hist: seq<Act>, c: CTO, seed: Observations, r: Rebuilt, next: nat) {
    && IndexTracks(c, r.index, next, LatestWritten(cfg, hist, c.turn))
    && forall name :: NamespaceTracks(Namespace(c.observations, name), Namespace(seed, name),
                                      Namespace(r.observations, name), Lost(cfg, hist, c.turn, name))
  }

  /** Everything the log tells of one turn. */
  ghost predicate TracksAt(cfg: Config, w: World, t: TurnId) {
    var m := Fold(w.persister.log);
    if t in w.hub.ctos
    then && w.hub.ctos[t].turn == t && t < w.next && t in w.seeds && (t in m <==> Begun(cfg, w.hist, t))
         && (t in m ==> TurnTracks(cfg, w.hist, w.hub.ctos[t], w.seeds[t], m[t], w.next))
    else t !in m && !Begun(cfg, w.hist, t) && forall name :: Lost(cfg, w.hist, t, name) == 0
  }

  /** What an action does to the turns, and to what replay makes of them. */
  ghost predicate TurnsChange(w: World, a: Act, w': World) {
    var m, m' := Fold(w.persister.log), Fold(w'.persister.log);
    && w'.hist == w.hist + [a] && w.next <= w'.next
    && match a
       case StoreTurn(s) =>
         var c := NewCto(w, s);
         && w'.next == w.next + 2 && w'.hub.ctos == w.hub.ctos[c.turn := c]
         && w'.seeds == w.seeds[c.turn := c.observations]
         && m' == if WriteOk(w) then m[c.turn := Rebuilt(ToIndex(c), map[])] else m
       case Merge(d) =>
         && d.turn in w.hub.ctos && w'.next == w.next + 1
         && var c := MergedCto(w, d);
         && w'.hub.ctos == w.hub.ctos[d.turn := c] && w'.seeds == w.seeds
         && m' == if WriteOk(w) && d.turn in m
                  then m[d.turn := Rebuilt(ToIndex(c), MergeObs(m[d.turn].observations, d))] else m
       case _ => w'.hub.ctos == w.hub.ctos && w'.seeds == w.seeds && m' == m
  }

  lemma UnwrittenTurn(cfg: Config, w: World, a: Act)
    requires (a.StoreTurn? || a.Merge?) && Enabled(cfg, w, a) && !WriteOk(w)
    ensures var w' := Apply(cfg, w, a);
            && w'.persister.log == w.persister.log && w'.hub.ctos == CtosAfter(w, a)
            && w'.seeds == if a.StoreTurn? then w.seeds[w.next + 1 := a.seed.observations] else w.seeds
  {
    hide NewCto, MergedCto;
  }

  /** Every action appends itself to the history; storing and merging draw ids. */
  lemma Counted(cfg: Config, w: World, a: Act)
    ensures var w' := Apply(cfg, w, a);
            w'.hist == w.hist + [a] && w'.next == w.next + Draws(a)
  {
  }

  lemma TurnStoredSo(cfg: Config, w: World, a: Act)
    requires IdsMinted(w) && Enabled(cfg, w, a) && a.StoreTurn?
    ensures TurnsChange(w, a, Apply(cfg, w, a))
  {
    hide Apply, IdsMinted, Enabled, Fold;
    Counted(cfg, w, a);
    if WriteOk(w) {
      StoreLogged(cfg, w, a.seed);
      FoldAppend(w.persister.log, HubRecord(StartedEvent(w, a.seed)));
    } else {
      UnwrittenTurn(cfg, w, a);
    }
  }

  lemma DeltaMergedSo(cfg: Config, w: World, a: Act)
    requires IdsMinted(w) && Enabled(cfg, w, a) && a.Merge?
    ensures TurnsChange(w, a, Apply(cfg, w, a))
  {
    assert a.delta.turn in w.hub.ctos;
    hide Apply, IdsMinted, Enabled, Fold;
    Counted(cfg, w, a);
    if WriteOk(w) {
      MergeLogged(cfg, w, a.delta);
      FoldAppend(w.persister.log, HubRecord(MergedEvent(w, a.delta)));
    } else {
      UnwrittenTurn(cfg, w, a);
    }
  }

  lemma TurnsChangeSo(cfg: Config, w: World, a: Act)
    requires IdsMinted(w) && Enabled(cfg, w, a)
    ensures TurnsChange(w, a, Apply(cfg, w, a))
  {
    hide Apply, IdsMinted, Enabled, Fold;
    if a.StoreTurn? {
      TurnStoredSo(cfg, w, a);
    } else if a.Merge? {
      DeltaMergedSo(cfg, w, a);
    } else {
      Counted(cfg, w, a);
      QuietForTurns(cfg, w, a);
    }
  }

  lemma MergeTracks(live: Observations, seed: Observations, replayed: Observations, d: Delta, name: string, lost: nat)
    requires NamespaceTracks(Namespace(live, name), Namespace(seed, name), Namespace(replayed, name), lost)
    ensures NamespaceTracks(Namespace(MergeObs(live, d), name), Namespace(seed, name),
                            Namespace(MergeObs(replayed, d), name), lost)
    ensures NamespaceTracks(Namespace(MergeObs(live, d), name), Namespace(seed, name), Namespace(replayed, name),
                            lost + if name == d.name then PatchSize(d.patch) else 0)
  {
    hide PatchEntries;
    MergedNamespace(live, d, name);
    MergedNamespace(replayed, d, name);
    PatchEntriesSize(d.patch);
    Associate(Namespace(seed, name), Namespace(replayed, name), PatchEntries(d.patch));
  }

  lemma TracksStep(cfg: Config, w: World, a: Act, w': World, t: TurnId)
    requires TracksAt(cfg, w, t) && TurnsChange(w, a, w') && w == Run(cfg, w.hist)
    requires forall q | q in w.hub.ctos :: q < w.next
    ensures TracksAt(cfg, w', t)
  {
    hide Run, Begun, LatestWritten, Lost, Fold, NamespaceTracks, MergeObs, Namespace;
    forall name
      ensures Lost(cfg, w'.hist, t, name)
           == Lost(cfg, w.hist, t, name)
              + if MergesTo(a, t) && a.delta.name == name && !WriteOk(w) then PatchSize(a.delta.patch) else 0
    {
      Grown(cfg, w.hist, a, t, name);
    }
    Grown(cfg, w.hist, a, t, "");
    var m := Fold(w.persister.log);
    if MergesTo(a, t) && t in m {
      var c, seed, r := w.hub.ctos[t], w.seeds[t], m[t];
      forall name
        ensures NamespaceTracks(Namespace(w'.hub.ctos[t].observations, name), Namespace(seed, name),
                                Namespace(Fold(w'.persister.log)[t].observations, name), Lost(cfg, w'.hist, t, name))
      {
        MergeTracks(c.observations, seed, r.observations, a.delta, name, Lost(cfg, w.hist, t, name));
      }
    } else if Makes(w, a, t) {
      forall name
        ensures NamespaceTracks(Namespace(a.seed.observations, name), Namespace(a.seed.observations, name),
                                Namespace(map[], name), 0)
      {
        SeedTracks(a.seed.observations, name);
      }
    }
  }

  lemma SeedTracks(seed: Observations, name: string)
    ensures NamespaceTracks(Namespace(seed, name), Namespace(seed, name), Namespace(map[], name), 0)
  {
  }

  lemma {:induction false} LogTracks(cfg: Config, w: World, t: TurnId)
    requires Legal(cfg, w)
    ensures TracksAt(cfg, w, t)
    decreases |w.hist|
  {
    hide Enabled, Apply, TracksAt, AllEnabled;
    if w.hist == [] {
      NothingToTrack(cfg, w, t);
    } else {
      var p, a := Before(cfg, w);
      LogTracks(cfg, p, t);
      IdsAreMinted(cfg, p);
      TurnsChangeSo(cfg, p, a);
      TracksStep(cfg, p, a, w, t);
    }
  }

  lemma NothingToTrack(cfg: Config, w: World, t: TurnId)
    requires Legal(cfg, w) && w.hist == []
    ensures TracksAt(cfg, w, t)
  {
    FoldInit(cfg);
  }

  /** Exactly what replay is worth, whichever writes fail: it knows a turn if and only if the turn's cto_started was
      written, it has the turn's last event if and only if that was, and of each namespace it has what was merged since
      the turn was seeded if and only if no entry of it was merged without being written; otherwise it has so many
      fewer. */
  lemma ReplayIsExact(cfg: Config, w: World, t: TurnId)
    requires Legal(cfg, w) && t in w.hub.ctos
    ensures t in w.seeds && (t in Fold(w.persister.log) <==> Begun(cfg, w.hist, t))
    ensures t in Fold(w.persister.log) ==>
              var c, r := w.hub.ctos[t], Fold(w.persister.log)[t];
              && (r.index == ToIndex(c) <==> LatestWritten(cfg, w.hist, t))
              && forall name ::
                   var live := Namespace(c.observations, name);
                   var told := Namespace(w.seeds[t], name) + Namespace(r.observations, name);
                   && (live == told <==> Lost(cfg, w.hist, t, name) == 0)
                   && |live| == |told| + Lost(cfg, w.hist, t, name)
  {
    hide Legal, Fold, Begun, LatestWritten, Lost;
    LogTracks(cfg, w, t);
  }
}
