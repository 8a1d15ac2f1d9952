/**
 Where every turn's first state comes from, and how far the log tells it: exactly, when no import fits the turn's start;
 up to which import it was, when the hub had begun to close; and otherwise not at all.
 */
module Sources {
  import opened Wrappers
  import opened Json
  import opened Profiles
  import opened Ctos
  import opened Events
  import opened World
  import opened Invariants
  import opened Hub
  import opened History
  import opened Replay
  import opened Operations
  import CtoJson

  // ---------------------------------------------------------------- the record a turn was adopted from

  /** The persister's cto_imported that the hub can adopt: its document normalises, and its profile accepts the
      content. */
  predicate Adoptable(cfg: Config, r: Record) {
    && cfg.imports && r.payload.CtoImported? && r.payload.session.Spelled?
    && r.origin.FromPurpose? && r.origin.who == cfg.persister && r.turn.None?
    && CtoJson.Normalize(r.payload.document).Success?
    && var n := CtoJson.Normalize(r.payload.document).value;
    && ProfileFor(cfg, n.profile).Some? && Validates(ProfileFor(cfg, n.profile).value, n.content, cfg.strict)
  }

  /** The observations such an import seeds its turn with. */
  function SeedOf(r: Record): Observations
    requires r.payload.CtoImported? && CtoJson.Normalize(r.payload.document).Success?
  {
    CtoJson.Adopted(CtoJson.Normalize(r.payload.document).value, SourceOf(r.payload))
  }

  /** A turn of this session and profile may have been adopted from this record. */
  predicate Offers(cfg: Config, r: Record, session: SessionId, profile: ProfileRef) {
    && Adoptable(cfg, r) && session == r.payload.session.sid
    && profile == CtoJson.Normalize(r.payload.document).value.profile
  }

  /** The turn was adopted from this record: session, profile, content and seeded observations are those of its
      document's normal form. */
  ghost predicate IsSource(cfg: Config, r: Record, c: CTO, seed: Observations) {
    && Offers(cfg, r, c.session, c.profile)
    && c.content == CtoJson.Normalize(r.payload.document).value.content && seed == SeedOf(r)
  }

  predicate Starts(r: Record, t: TurnId) {
    r.payload.CtoStarted? && r.payload.index.turn == t
  }

  /** The start of a turn is in the name of the import's requester. */
  predicate InItsName(start: Record, r: Record) {
    && start.payload.CtoStarted? && r.payload.CtoImported?
    && start.payload.byId == r.payload.requester && start.payload.byName == r.payload.requesterName
  }

  /** The turn's start comes after this record, and in its requester's name. */
  ghost predicate Precedes(log: seq<Record>, i: nat, t: TurnId)
    requires i < |log|
  {
    forall j | 0 <= j < |log| && Starts(log[j], t) :: i < j && InItsName(log[j], log[i])
  }

  /** A turn was made empty, or its source is in the log, before its start. */
  ghost predicate HasSource(cfg: Config, log: seq<Record>, c: CTO, seed: Observations) {
    seed == map[] || exists i: nat :: i < |log| && IsSource(cfg, log[i], c, seed) && Precedes(log, i, c.turn)
  }

  ghost predicate Sourced(cfg: Config, w: World) {
    && (forall t | t in w.hub.ctos ::
          w.hub.ctos[t].turn == t && t in w.seeds && HasSource(cfg, w.persister.log, w.hub.ctos[t], w.seeds[t]))
    && (forall j: nat, t: TurnId | j < |w.persister.log| && Starts(w.persister.log[j], t) :: t < w.next)
  }

  /** The later log has no more starts of the turn. */
  ghost predicate NoNewStart(log: seq<Record>, later: seq<Record>, t: TurnId) {
    log <= later && forall j | |log| <= j < |later| :: !Starts(later[j], t)
  }

  lemma SourceStays(cfg: Config, log: seq<Record>, later: seq<Record>, c: CTO, c': CTO, seed: Observations)
    requires HasSource(cfg, log, c, seed) && NoNewStart(log, later, c.turn)
    requires c' == c.(observations := c'.observations, lastEvent := c'.lastEvent)
    ensures HasSource(cfg, later, c', seed)
  {
    hide Offers, Starts, InItsName, SeedOf;
    if seed != map[] {
      var i: nat :| i < |log| && IsSource(cfg, log[i], c, seed) && Precedes(log, i, c.turn);
      assert later[i] == log[i] && IsSource(cfg, later[i], c', seed);
      forall j | 0 <= j < |later| && Starts(later[j], c'.turn)
        ensures i < j && InItsName(later[j], later[i])
      {
        assert j < |log| && later[j] == log[j];
      }
    }
  }

  /** What an action makes of the turns, and which record of a turn's start it adds. */
  lemma TurnsAfter(cfg: Config, w: World, a: Act)
    requires Enabled(cfg, w, a) && IdsMinted(w)
    ensures var w' := Apply(cfg, w, a);
            && w.persister.log <= w'.persister.log && w.next <= w'.next
            && (forall j: nat, t: TurnId | |w.persister.log| <= j < |w'.persister.log|
                && Starts(w'.persister.log[j], t) ::
                  a.StoreTurn? && t == w.next + 1 < w'.next
                    && w'.persister.log[j] == HubRecord(StartedEvent(w, a.seed)))
            && (a.StoreTurn? ==> && w'.hub.ctos == w.hub.ctos[w.next + 1 := NewCto(w, a.seed)]
                                 && w'.seeds == w.seeds[w.next + 1 := a.seed.observations])
            && (!a.StoreTurn? ==>
                  && w'.seeds == w.seeds && w'.hub.ctos.Keys == w.hub.ctos.Keys
                  && forall t | t in w.hub.ctos ::
                       w'.hub.ctos[t] == w.hub.ctos[t].(observations := w'.hub.ctos[t].observations,
                                                        lastEvent := w'.hub.ctos[t].lastEvent))
  {
    hide RegsAfter, PurposesAfter, PendingAfter, ClosureAfter, OwedAfter, ImportingAfter, MergeObs, ProfileFor;
    hide WriteOk, CtoJson.Normalize;
    LogEffect(cfg, w, a);
  }

  /** A turn stored by an import has its source: the record of the import being settled. */
  lemma StoredHasSource(cfg: Config, w: World, s: Seed, later: seq<Record>)
    requires Enabled(cfg, w, StoreTurn(s)) && InFlightRecorded(cfg, w) && w.persister.log <= later
    requires forall j: nat, t: TurnId | j < |w.persister.log| && Starts(w.persister.log[j], t) :: t < w.next
    requires forall j | |w.persister.log| <= j < |later| && Starts(later[j], w.next + 1) ::
               later[j] == HubRecord(StartedEvent(w, s))
    ensures HasSource(cfg, later, NewCto(w, s), s.observations)
  {
    hide CtoJson.Normalize, CtoJson.Adopted, Validates;
    if s.source.Some? {
      var r := PurposeRecord(s.source.value);
      assert PurposeRecord(w.importing[|w.importing| - 1]) in w.persister.log;
      var i: nat :| i < |w.persister.log| && w.persister.log[i] == r;
      assert later[i] == r && IsSource(cfg, r, NewCto(w, s), s.observations);
      forall j | 0 <= j < |later| && Starts(later[j], w.next + 1)
        ensures i < j && InItsName(later[j], r)
      {
        assert later[..|w.persister.log|] == w.persister.log;
      }
      assert Precedes(later, i, w.next + 1);
    }
  }

  lemma SourcedStep(cfg: Config, w: World, a: Act)
    requires Sourced(cfg, w) && IdsMinted(w) && InFlightRecorded(cfg, w) && Enabled(cfg, w, a)
    ensures Sourced(cfg, Apply(cfg, w, a))
  {
    hide Apply, Enabled, HasSource, InFlightRecorded;
    var w' := Apply(cfg, w, a);
    TurnsAfter(cfg, w, a);
    if a.StoreTurn? {
      StoredHasSource(cfg, w, a.seed, w'.persister.log);
    }
    forall t | t in w'.hub.ctos && !(a.StoreTurn? && t == w.next + 1)
      ensures w'.hub.ctos[t].turn == t && t in w'.seeds
      ensures HasSource(cfg, w'.persister.log, w'.hub.ctos[t], w'.seeds[t])
    {
      SourceStays(cfg, w.persister.log, w'.persister.log, w.hub.ctos[t], w'.hub.ctos[t], w.seeds[t]);
    }
  }

  /** At every point of every run each turn was made empty by start_turn, or its session, profile, content and seeded
      observations are those of a cto_imported record that comes before its own start in the log. */
  lemma {:induction false} TurnsHaveSources(cfg: Config, w: World)
    requires Legal(cfg, w)
    ensures Sourced(cfg, w)
    decreases |w.hist|
  {
    hide Legal, Enabled, Apply, Sourced;
    if w.hist == [] {
      NoSourcesYet(cfg, w);
    } else {
      var p, a := Before(cfg, w);
      TurnsHaveSources(cfg, p);
      IdsAreMinted(cfg, p);
      InFlightIsRecorded(cfg, p);
      SourcedStep(cfg, p, a);
    }
  }

  lemma NoSourcesYet(cfg: Config, w: World)
    requires Legal(cfg, w) && w.hist == []
    ensures Sourced(cfg, w)
  {
  }

  /** A turn that start_turn has made is rebuilt exactly at every later point of the run: index, last event and
      observations. */
  lemma StartedTurnReplays(cfg: Config, w: World, c: Call, now: int, w': World)
    requires Good(cfg, w) && c.StartTurn? && Startable(cfg, w, c)
    requires Legal(cfg, w') && NoFailedWrite(cfg) && StartTurnCall(cfg, w, c, now).w.hist <= w'.hist
    ensures var t := NewTurn(w, c);
            t in w'.hub.ctos && t in Fold(w'.persister.log)
            && Fold(w'.persister.log)[t] == Rebuilt(ToIndex(w'.hub.ctos[t]), w'.hub.ctos[t].observations)
  {
    hide Legal, Good, Apply, Enabled, Fold, Startable, StartTurnCall, Announced, NewTurnEvent, TurnGrows;
    var v := StartTurnCall(cfg, w, c, now).w;
    StartTurnOutcome(cfg, w, c, now);
    LaterPoint(cfg, w, c, now, w');
    StartedTurnsReplayExactly(cfg, w', NewTurn(w, c));
  }

  lemma LaterPoint(cfg: Config, w: World, c: Call, now: int, w': World)
    requires Good(cfg, w) && c.StartTurn? && Legal(cfg, w') && StartTurnCall(cfg, w, c, now).w.hist <= w'.hist
    ensures Grows(StartTurnCall(cfg, w, c, now).w, w')
  {
    hide Legal, StartTurnCall, Grows, Apply, Enabled;
    HistoryGrows(cfg, StartTurnCall(cfg, w, c, now).w, w');
  }

  // ---------------------------------------------------------------- what a reader of the log can tell

  /** The turn may have been adopted from this record, as far as the log shows: the import comes before a start of the
      turn in its requester's name, and has the session and profile that replay gives the turn. */
  ghost predicate Fits(cfg: Config, log: seq<Record>, t: TurnId, i: nat) {
    && i < |log| && t in Fold(log) && Offers(cfg, log[i], Fold(log)[t].index.session, Fold(log)[t].index.profile)
    && exists j :: i < j < |log| && Starts(log[j], t) && InItsName(log[j], log[i])
  }

  /** Replay alone gives the turn. */
  ghost predicate ReplaysExactly(log: seq<Record>, c: CTO) {
    c.turn in Fold(log) && Fold(log)[c.turn] == Rebuilt(ToIndex(c), c.observations)
  }

  /** The import in this record and replay together give the turn, content included: every namespace is what the import
      seeds followed by what was replayed. */
  ghost predicate Rebuilds(cfg: Config, log: seq<Record>, i: nat, c: CTO) {
    && i < |log| && Offers(cfg, log[i], c.session, c.profile)
    && c.content == CtoJson.Normalize(log[i].payload.document).value.content
    && c.turn in Fold(log) && Fold(log)[c.turn].index == ToIndex(c)
    && Agrees(c, SeedOf(log[i]), Fold(log)[c.turn])
  }

  lemma {:induction false} FoldHasStart(log: seq<Record>, t: TurnId)
    requires t in Fold(log)
    ensures exists j :: 0 <= j < |log| && Starts(log[j], t)
  {
    var k := |log| - 1;
    if !Starts(log[k], t) {
      FoldHasStart(log[..k], t);
      var j :| 0 <= j < k && Starts(log[..k][j], t);
      assert Starts(log[j], t);
    }
  }

  lemma SourceFits(cfg: Config, log: seq<Record>, c: CTO, seed: Observations)
    requires c.turn in Fold(log) && Agrees(c, seed, Fold(log)[c.turn]) && HasSource(cfg, log, c, seed)
    ensures if seed == map[] then ReplaysExactly(log, c)
            else exists i :: Fits(cfg, log, c.turn, i) && Rebuilds(cfg, log, i, c)
  {
    hide Fold, Offers, Starts, InItsName, SeedOf, Namespace;
    if seed == map[] {
      UnseededAgreement(c, Fold(log)[c.turn]);
    } else {
      var i: nat :| i < |log| && IsSource(cfg, log[i], c, seed) && Precedes(log, i, c.turn);
      FoldHasStart(log, c.turn);
      var j :| 0 <= j < |log| && Starts(log[j], c.turn);
      assert Fits(cfg, log, c.turn, i) && Rebuilds(cfg, log, i, c);
    }
  }

  /** A turn is replay's alone, or replay's and an import's that fits it. Which of the two, and which import, is not in
      general in the log. */
  lemma ImportFits(cfg: Config, w: World, t: TurnId)
    requires Legal(cfg, w) && NoFailedWrite(cfg) && t in w.hub.ctos
    ensures t in w.seeds && w.hub.ctos[t].turn == t
    ensures var log, c := w.persister.log, w.hub.ctos[t];
            if w.seeds[t] == map[] then ReplaysExactly(log, c)
            else exists i :: Fits(cfg, log, t, i) && Rebuilds(cfg, log, i, c)
  {
    hide Legal, Enabled, Apply, Fold, Namespace, HasSource;
    ReplayMirrors(cfg, w);
    TurnsHaveSources(cfg, w);
    SourceFits(cfg, w.persister.log, w.hub.ctos[t], w.seeds[t]);
  }

  /** A turn that no import fits is rebuilt exactly: index, last event and observations. */
  lemma UnmatchedTurnReplays(cfg: Config, w: World, t: TurnId)
    requires Legal(cfg, w) && NoFailedWrite(cfg) && t in w.hub.ctos
    requires forall i :: !Fits(cfg, w.persister.log, t, i)
    ensures ReplaysExactly(w.persister.log, w.hub.ctos[t])
  {
    hide Legal, Fits, Rebuilds, ReplaysExactly;
    ImportFits(cfg, w, t);
  }

  /** A turn that exactly one import fits is one of two: replay's alone or that import's. */
  lemma OneImportLeavesTwo(cfg: Config, w: World, t: TurnId, i: nat)
    requires Legal(cfg, w) && NoFailedWrite(cfg) && t in w.hub.ctos
    requires forall k :: Fits(cfg, w.persister.log, t, k) ==> k == i
    ensures var log, c := w.persister.log, w.hub.ctos[t]; ReplaysExactly(log, c) || Rebuilds(cfg, log, i, c)
  {
    hide Legal, Fits, Rebuilds, ReplaysExactly;
    ImportFits(cfg, w, t);
  }

  // ---------------------------------------------------------------- a turn started while closing

  /** The hub's announcement that it closes a session. */
  predicate BeginsToClose(r: Record) {
    r.payload.SessionClosing? && r.session.Some?
  }

  /** Until a shutdown has begun the log does not say so, and a turn made empty was started before it does. */
  ghost predicate ClosingShown(w: World) {
    && (w.closure.None? ==> forall k | 0 <= k < |w.persister.log| :: !BeginsToClose(w.persister.log[k]))
    && (forall t | t in w.seeds && w.seeds[t] == map[] :: StartedOpen(w.persister.log, t))
    && (forall j: nat, t: TurnId | j < |w.persister.log| && Starts(w.persister.log[j], t) :: t < w.next)
  }

  ghost predicate StartedOpen(log: seq<Record>, t: TurnId) {
    forall k, j | 0 <= k < |log| && 0 <= j < |log| && BeginsToClose(log[k]) && Starts(log[j], t) :: j < k
  }

  lemma ClosingAfter(cfg: Config, w: World, a: Act)
    requires Enabled(cfg, w, a) && ShutdownTracked(w)
    ensures var w' := Apply(cfg, w, a);
            && (w'.closure.None? ==>
                  w.closure.None? && forall k | |w.persister.log| <= k < |w'.persister.log| ::
                      !BeginsToClose(w'.persister.log[k]))
            && (a.StoreTurn? && a.seed.source.None? ==> w.closure.None? && w'.closure.None?)
            && (a.StoreTurn? && a.seed.source.Some? ==> a.seed.observations != map[])
  {
    hide HubAfter, PurposesAfter, CtoJson.Normalize, CtoJson.Adopted, Validates, ProfileFor;
    if a.StoreTurn? && a.seed.source.Some? {
      var p := a.seed.source.value.payload;
      CtoJson.AdoptedIsNotEmpty(CtoJson.Normalize(p.document).value, SourceOf(p));
    }
  }

  lemma ClosingShownStep(cfg: Config, w: World, a: Act)
    requires ClosingShown(w) && ShutdownTracked(w) && IdsMinted(w) && Enabled(cfg, w, a)
    ensures ClosingShown(Apply(cfg, w, a))
  {
    hide Apply, Enabled, ShutdownTracked, BeginsToClose, Starts;
    var w' := Apply(cfg, w, a);
    TurnsAfter(cfg, w, a);
    ClosingAfter(cfg, w, a);
    assert forall k | 0 <= k < |w.persister.log| :: w'.persister.log[k] == w.persister.log[k];
    forall t | t in w'.seeds && w'.seeds[t] == map[]
      ensures StartedOpen(w'.persister.log, t)
    {
      if !(a.StoreTurn? && t == w.next + 1) {
        assert StartedOpen(w.persister.log, t) && t < w.next;
      }
    }
  }

  lemma {:induction false} ClosingIsShown(cfg: Config, w: World)
    requires Legal(cfg, w)
    ensures ClosingShown(w)
    decreases |w.hist|
  {
    hide Legal, Enabled, Apply, ClosingShown;
    if w.hist == [] {
      NoClosingYet(cfg, w);
    } else {
      var p, a := Before(cfg, w);
      ClosingIsShown(cfg, p);
      IdsAreMinted(cfg, p);
      ShutdownIsTracked(cfg, p);
      ClosingShownStep(cfg, p, a);
    }
  }

  lemma NoClosingYet(cfg: Config, w: World)
    requires Legal(cfg, w) && w.hist == []
    ensures ClosingShown(w)
  {
  }

  /** A turn whose start follows the session_closing of a shutdown was adopted, so that an import fits it and rebuilds
      it; if only one fits, that one does. */
  lemma LateTurnIsRebuilt(cfg: Config, w: World, t: TurnId, k: nat, j: nat)
    requires Legal(cfg, w) && NoFailedWrite(cfg) && t in w.hub.ctos
    requires k < j < |w.persister.log| && BeginsToClose(w.persister.log[k]) && Starts(w.persister.log[j], t)
    ensures exists i :: Fits(cfg, w.persister.log, t, i) && Rebuilds(cfg, w.persister.log, i, w.hub.ctos[t])
    ensures forall i | Fits(cfg, w.persister.log, t, i) ::
              (forall q :: Fits(cfg, w.persister.log, t, q) ==> q == i) ==>
                  Rebuilds(cfg, w.persister.log, i, w.hub.ctos[t])
  {
    hide Legal, Fits, Rebuilds, ReplaysExactly, BeginsToClose, Starts;
    ImportFits(cfg, w, t);
    ClosingIsShown(cfg, w);
    assert w.seeds[t] == map[] ==> StartedOpen(w.persister.log, t);
  }
}
