/** What each operation of the hub has done by the time it returns, whatever the handlers did in between. */
module Operations {
  import opened Wrappers
  import opened Json
  import opened Profiles
  import opened Ctos
  import opened Events
  import opened World
  import opened Invariants
  import opened Hub
  import opened History
  import opened Credentials
  import opened Codes

  // ---------------------------------------------------------------- dispatch

  function Recipients(regs: seq<Registration>): seq<PurposeId> {
    seq(|regs|, i requires 0 <= i < |regs| => regs[i].who)
  }

  /** Among these deliveries the event went to each of these Purposes, in this order. */
  ghost predicate Reached(ds: seq<Delivery>, ev: HubEvent, whos: seq<PurposeId>)
    decreases |whos|
  {
    whos == [] ||
    exists k :: 0 <= k < |ds| && ds[k].to == whos[0] && ds[k].event == ev && Reached(ds[k + 1..], ev, whos[1..])
  }

  lemma ReachedLater(ds: seq<Delivery>, j: nat, ev: HubEvent, whos: seq<PurposeId>)
    requires j <= |ds| && Reached(ds[j..], ev, whos)
    ensures Reached(ds, ev, whos)
  {
    if whos != [] {
      var k :| 0 <= k < |ds[j..]| && ds[j..][k].to == whos[0] && ds[j..][k].event == ev
        && Reached(ds[j..][k + 1..], ev, whos[1..]);
      assert ds[j..][k + 1..] == ds[j + k + 1..] && ds[j + k] == ds[j..][k];
    }
  }

  lemma ReachedFirst(ds: seq<Delivery>, n: nat, m: nat, ev: HubEvent, whos: seq<PurposeId>)
    requires n < m <= |ds| && |whos| > 0
    requires ds[n].to == whos[0] && ds[n].event == ev && Reached(ds[m..], ev, whos[1..])
    ensures Reached(ds[n..], ev, whos)
  {
    var rest := ds[n..];
    assert rest[1..][m - n - 1..] == ds[m..];
    ReachedLater(rest[1..], m - n - 1, ev, whos[1..]);
    assert rest[0] == ds[n] && rest[0 + 1..] == rest[1..];
  }

  /** One delivery is recorded, and whatever its handler does comes after it. */
  lemma DeliveredFirst(cfg: Config, w: World, ev: HubEvent, i: nat)
    requires Good(cfg, w) && Has(w.persister.log, ev.id) && i < |w.hub.regs|
    ensures var r := DeliverTo(cfg, w, ev, i);
            && Good(cfg, r.w) && Grows(w, r.w)
            && |w.deliveries| < |r.w.deliveries|
            && r.w.deliveries[|w.deliveries|].to == w.hub.regs[i].who && r.w.deliveries[|w.deliveries|].event == ev
  {
    hide Legal, Apply, Enabled, Complete, Grows;
    CredentialsHold(cfg, w);
    assert RegHolds(w.purposes, w.hub.regs[i]);
    DeliverIsEnabled(cfg, w, ev, i);
    var w1, r := Do(cfg, w, Deliver(i, ev)), DeliverTo(cfg, w, ev, i);
    assert w1.hist <= r.w.hist;
    HistoryGrows(cfg, w1, r.w);
    HistoryGrows(cfg, w, r.w);
    DeliveriesOf(cfg, w, ev, i, r.w);
  }

  lemma DeliveriesOf(cfg: Config, w: World, ev: HubEvent, i: nat, w': World)
    requires i < |w.hub.regs| && Grows(Apply(cfg, w, Deliver(i, ev)), w')
    ensures |w.deliveries| < |w'.deliveries|
    ensures w'.deliveries[|w.deliveries|].to == w.hub.regs[i].who && w'.deliveries[|w.deliveries|].event == ev
  {
    assert Apply(cfg, w, Deliver(i, ev)).deliveries
           == w.deliveries + [Delivery(w.hub.regs[i].who, w.hub.regs[i].creds, ev, |w.persister.log|)];
  }

  lemma {:induction false} BroadcastReaches(cfg: Config, w: World, ev: HubEvent, i: nat, size: nat)
    requires Good(cfg, w) && Has(w.persister.log, ev.id) && i <= size
    requires Broadcast(cfg, w, ev, i, size).out.Done?
    ensures var r := Broadcast(cfg, w, ev, i, size);
            && Good(cfg, r.w) && Grows(w, r.w) && size == |w.hub.regs|
            && Reached(r.w.deliveries[|w.deliveries|..], ev, Recipients(w.hub.regs)[i..])
    decreases size - i
  {
    hide Legal, Good, DeliverTo, Reached;
    var whos := Recipients(w.hub.regs);
    if i == size {
      Reflexive(w);
      assert whos[i..] == [];
      NobodyLeft(w.deliveries[|w.deliveries|..], ev);
    } else {
      DeliveredFirst(cfg, w, ev, i);
      var r := DeliverTo(cfg, w, ev, i);
      HasInExtension(w.persister.log, r.w.persister.log, ev.id);
      BroadcastReaches(cfg, r.w, ev, i + 1, size);
      var last := Broadcast(cfg, r.w, ev, i + 1, size).w;
      GrowsTransitive(w, r.w, last);
      assert Recipients(r.w.hub.regs) == whos;
      assert whos[i..][1..] == whos[i + 1..];
      assert last.deliveries[|w.deliveries|] == r.w.deliveries[|w.deliveries|];
      ReachedFirst(last.deliveries, |w.deliveries|, |r.w.deliveries|, ev, whos[i..]);
    }
  }

  lemma Reflexive(w: World)
    ensures Grows(w, w)
  {
  }

  lemma NobodyLeft(ds: seq<Delivery>, ev: HubEvent)
    ensures Reached(ds, ev, [])
  {
  }

  /** A multicast that returns normally has reached every registered Purpose, in registration order, whatever the
      handlers did meanwhile; and as many are registered afterwards as before. */
  lemma MulticastReachesEveryone(cfg: Config, w: World, ev: HubEvent)
    requires Good(cfg, w) && Has(w.persister.log, ev.id) && Multicast(cfg, w, ev).out.Done?
    ensures var r := Multicast(cfg, w, ev);
            Grows(w, r.w) && Reached(r.w.deliveries[|w.deliveries|..], ev, Recipients(w.hub.regs))
  {
    hide Legal, Good, Broadcast, Reached, Grows;
    BroadcastReaches(cfg, w, ev, 0, |w.hub.regs|);
    assert Recipients(w.hub.regs)[0..] == Recipients(w.hub.regs);
  }

  // ---------------------------------------------------------------- what the hub authors

  /** The event was written first thing and has then reached everyone. */
  ghost predicate Announced(w: World, r: Res, ev: HubEvent) {
    && |w.persister.log| < |r.w.persister.log|
    && r.w.persister.log[|w.persister.log|] == Record(FromHub, ev.id, ev.session, ev.turn, ev.payload)
    && (r.out.Done? ==>
          |w.deliveries| <= |r.w.deliveries| && Reached(r.w.deliveries[|w.deliveries|..], ev, Recipients(w.hub.regs)))
  }

  /** Acts authoring an event under a new id, for a set of Purposes they do not change. */
  predicate Authors(a: Act) {
    match a
    case StoreTurn(_) | Merge(_) | Reject(_, _) | LegacyClose(_) | BeginClose(_, _) => true
    case _ => false
  }

  lemma AuthoredEffect(cfg: Config, w: World, a: Act)
    requires IdsMinted(w) && Enabled(cfg, w, a) && Authors(a)
    ensures Authored(w, a).Some?
    ensures var w1, ev := Apply(cfg, w, a), Authored(w, a).value;
            && w1.deliveries == w.deliveries && w1.hub.regs == w.hub.regs && w1.script == w.script
            && (WriteOk(w) ==> w1.persister.log == w.persister.log + [HubRecord(ev)])
            && (!WriteOk(w) ==> w1.persister == w.persister)
  {
    hide ClosureAfter, PendingAfter, PurposesAfter, CtosAfter, NewCto, MergedCto;
  }

  /** An event the hub authors: stored effect, record and deliveries in this order; a failed write stops it there. */
  lemma AuthoredOutcome(cfg: Config, w: World, a: Act, value: Option<nat>)
    requires Good(cfg, w) && Enabled(cfg, w, a) && Authors(a)
    ensures Authored(w, a).Some?
    ensures var w1, r := Apply(cfg, w, a), WriteAndMulticast(cfg, w, a, value);
            && Good(cfg, r.w) && Grows(w1, r.w)
            && (WriteOk(w) ==> Announced(w, r, Authored(w, a).value) && (r.out.Done? ==> r.out.value == value))
            && (!WriteOk(w) ==> r == Res(w1, Raised(PersistenceFailure)))
  {
    hide Legal, Enabled, Apply, Multicast, Reached, Grows;
    IdsAreMinted(cfg, w);
    AuthoredEffect(cfg, w, a);
    var w1, ev, r := Do(cfg, w, a), Authored(w, a).value, WriteAndMulticast(cfg, w, a, value);
    HistoryGrows(cfg, w1, r.w);
    if WriteOk(w) {
      LogOfGrown(w1, r.w);
      if r.out.Done? { MulticastReachesEveryone(cfg, w1, ev); }
    }
  }

  lemma LogOfGrown(w: World, w': World)
    requires Grows(w, w')
    ensures w.persister.log <= w'.persister.log && w.deliveries <= w'.deliveries
  {
  }

  // ---------------------------------------------------------------- start_turn

  /** What `start_turn` asks for: an accepting hub, a known token, a session code that is not empty, a registered
      profile the content satisfies, and for a session without an owner the startup owner's token. */
  predicate Startable(cfg: Config, w: World, c: Call)
    requires c.StartTurn?
  {
    && Open(w) && Resolve(cfg, w, c.token).Some? && c.code != Some("")
    && ProfileFor(cfg, RefOf(c)).Some? && Validates(ProfileFor(cfg, RefOf(c)).value, c.content, cfg.strict)
    && (c.session.GetOr(w.next) in w.hub.owners || Resolve(cfg, w, c.token).value == cfg.owner)
  }

  function SessionOf(w: World, c: Call): SessionId
    requires c.StartTurn?
  {
    c.session.GetOr(w.next)
  }

  /** The turn, and the event before it, are minted after the session if that is new. */
  function NewTurn(w: World, c: Call): TurnId
    requires c.StartTurn?
  {
    if c.session.None? then w.next + 2 else w.next + 1
  }

  /** The event everyone is told of a new turn by. */
  function NewTurnEvent(cfg: Config, w: World, c: Call, now: int): HubEvent
    requires c.StartTurn? && Resolve(cfg, w, c.token).Some?
  {
    var t, who := NewTurn(w, c), Resolve(cfg, w, c.token).value;
    HubEvent(t - 1, Some(SessionOf(w, c)), Some(t),
             CtoStarted(CTOIndex(t, SessionOf(w, c), RefOf(c), now, Some(t - 1)), who, NameOf(cfg, w, who)))
  }

  /** A new turn with defaulted content is in the store, in a session of the startup owner. */
  ghost predicate TurnStarted(cfg: Config, w: World, w': World, c: Call, now: int)
    requires c.StartTurn? && ProfileFor(cfg, RefOf(c)).Some?
  {
    var t, sid := NewTurn(w, c), SessionOf(w, c);
    && t !in w.hub.ctos && t in w'.hub.ctos
    && var v := w'.hub.ctos[t];
    && v.turn == t && v.session == sid && v.createdAt == now && v.profile == RefOf(c)
    && v.content == ApplyDefaults(ProfileFor(cfg, RefOf(c)).value, c.content, ContextOf(w, sid)).0
    && sid in w'.hub.owners && w'.hub.owners[sid] == cfg.owner
    && t in w'.seeds && w'.seeds[t] == map[]
  }

  /** The turn is stored, its record written next and everyone told; a failed write is raised with the turn stored. */
  ghost predicate StartSucceeds(cfg: Config, w: World, c: Call, now: int, r: Res)
    requires c.StartTurn? && ProfileFor(cfg, RefOf(c)).Some? && Resolve(cfg, w, c.token).Some?
  {
    && TurnStarted(cfg, w, r.w, c, now)
    && (WriteOk(w) ==> Announced(w, r, NewTurnEvent(cfg, w, c, now)))
    && (r.out.Done? ==> r.out.value == Some(NewTurn(w, c)))
    && (!WriteOk(w) ==> r.out == Raised(PersistenceFailure) && r.w.persister.log == w.persister.log)
  }

  /** Nothing a Purpose or the log could show of an operation. */
  ghost predicate Unnoticed(w: World, w': World) {
    && w'.persister == w.persister && w'.purposes == w.purposes && w'.deliveries == w.deliveries
    && w'.hub == w.hub.(contexts := w'.hub.contexts)
  }

  lemma StoredTurn(cfg: Config, w: World, s: Seed, w': World)
    requires Grows(Apply(cfg, w, StoreTurn(s)), w')
    ensures var t := w.next + 1;
            && t in w'.hub.ctos
            && w'.hub.ctos[t] == NewCto(w, s).(observations := w'.hub.ctos[t].observations,
                                               lastEvent := w'.hub.ctos[t].lastEvent)
            && t in w'.seeds && w'.seeds[t] == s.observations
            && (forall q | q in w.hub.owners :: q in w'.hub.owners && w'.hub.owners[q] == w.hub.owners[q])
  {
    hide RegsAfter, PurposesAfter, PersisterAfter, PendingAfter, ClosureAfter;
    var w1 := Apply(cfg, w, StoreTurn(s));
    assert w.next + 1 in w1.hub.ctos && w1.hub.owners == w.hub.owners && w.next + 1 in w1.seeds;
  }

  lemma ContextIsUnnoticed(cfg: Config, w: World, a: Act)
    requires a.SetContext? && Open(w)
    ensures var w1 := Apply(cfg, w, a);
            && Unnoticed(w, w1) && w1.next == w.next && w1.script == w.script && w1.writes == w.writes
            && w1.hub.contexts == w.hub.contexts[a.sid := a.ctx] && w1.owed.None?
  {
  }

  lemma OwnIsUnnoticed(cfg: Config, w: World, sid: SessionId, who: PurposeId)
    requires sid !in w.hub.owners && who == cfg.owner && Open(w) && w.owed.None?
    ensures var w1 := Apply(cfg, w, Own(sid, who, None));
            && Enabled(cfg, w, Own(sid, who, None)) && w1.next == w.next && w1.script == w.script
               && w1.writes == w.writes
            && w1.persister == w.persister && w1.purposes == w.purposes && w1.deliveries == w.deliveries
            && w1.hub == w.hub.(owners := w.hub.owners[sid := who])
  {
  }

  lemma MintIsUnnoticed(cfg: Config, w: World)
    ensures var w1 := Apply(cfg, w, Mint);
            && Unnoticed(w, w1) && w1.hub == w.hub && w1.next == w.next + 1
            && w1.script == w.script && w1.writes == w.writes
  {
  }

  /** The session context the defaulting of a call leaves. */
  function DefaultedContext(cfg: Config, w: World, c: Call, sid: SessionId): Dict
    requires Validated(cfg, c)
  {
    ApplyDefaults(ProfileFor(cfg, RefOf(c)).value, c.content, ContextOf(w, sid)).1
  }

  /** The session's context after defaulting, and its owner, in place. */
  function Prepared(cfg: Config, w: World, c: Call, sid: SessionId, submitter: PurposeId): World
    requires c.StartTurn? && ProfileFor(cfg, RefOf(c)).Some?
  {
    var ctx := ApplyDefaults(ProfileFor(cfg, RefOf(c)).value, c.content, ContextOf(w, sid)).1;
    var w1 := Do(cfg, w, SetContext(sid, ctx, RefOf(c), c.content));
    if sid in w.hub.owners then w1 else Do(cfg, w1, Own(sid, submitter, None))
  }

  function SeedFor(cfg: Config, w: World, c: Call, sid: SessionId, submitter: PurposeId, now: int): Seed
    requires c.StartTurn? && ProfileFor(cfg, RefOf(c)).Some?
  {
    Seed(sid, c.code, RefOf(c), ApplyDefaults(ProfileFor(cfg, RefOf(c)).value, c.content, ContextOf(w, sid)).0, map[],
         submitter, NameOf(cfg, w, submitter), now, None)
  }

  ghost predicate PreparedEffect(cfg: Config, w: World, v: World, s: Seed) {
    && Good(cfg, v) && Enabled(cfg, v, StoreTurn(s)) && v.next == w.next && v.writes == w.writes
    && v.persister == w.persister && v.deliveries == w.deliveries && s.session in v.hub.owners
    && v.hub.regs == w.hub.regs && v.hub.ctos == w.hub.ctos
  }

  lemma PreparedHolds(cfg: Config, w: World, c: Call, sid: SessionId, submitter: PurposeId, now: int)
    requires Good(cfg, w) && Open(w) && Validated(cfg, c)
    requires sid in w.hub.owners || submitter == cfg.owner
    ensures PreparedEffect(cfg, w, Prepared(cfg, w, c, sid, submitter), SeedFor(cfg, w, c, sid, submitter, now))
  {
    hide Legal, Apply, Enabled, Validates, ApplyDefaults, ProfileFor, NameOf;
    var p := ProfileFor(cfg, RefOf(c)).value;
    var ctx := ApplyDefaults(p, c.content, ContextOf(w, sid)).1;
    OpenEnables(cfg, w, SetContext(sid, ctx, RefOf(c), c.content));
    ContextIsUnnoticed(cfg, w, SetContext(sid, ctx, RefOf(c), c.content));
    var w1 := Do(cfg, w, SetContext(sid, ctx, RefOf(c), c.content));
    if sid !in w.hub.owners { OwnIsUnnoticed(cfg, w1, sid, submitter); }
    DefaultedSeedIsEnabled(cfg, Prepared(cfg, w, c, sid, submitter), SeedFor(cfg, w, c, sid, submitter, now), p,
                           c.content, ContextOf(w, sid));
  }

  /** From validated content on. */
  lemma ValidatedRouted(cfg: Config, w: World, c: Call, sid: SessionId, submitter: PurposeId, now: int)
    requires Open(w) && Validated(cfg, c)
    ensures var r := StartValidated(cfg, w, c, sid, submitter, now);
            if sid in w.hub.owners || submitter == cfg.owner
            then r == WriteAndMulticast(cfg, Prepared(cfg, w, c, sid, submitter),
                                        StoreTurn(SeedFor(cfg, w, c, sid, submitter, now)), Some(w.next + 1))
            else && r.out == Raised(Unauthorized) && Unnoticed(w, r.w)
                 && r.w.hub.contexts == w.hub.contexts[sid := DefaultedContext(cfg, w, c, sid)]
  {
    hide Legal, Good, Apply, Enabled, Validates, ApplyDefaults, ProfileFor, NameOf, WriteAndMulticast;
    var ctx := ApplyDefaults(ProfileFor(cfg, RefOf(c)).value, c.content, ContextOf(w, sid)).1;
    ContextIsUnnoticed(cfg, w, SetContext(sid, ctx, RefOf(c), c.content));
    var w1 := Do(cfg, w, SetContext(sid, ctx, RefOf(c), c.content));
    if sid !in w.hub.owners && submitter == cfg.owner { OwnIsUnnoticed(cfg, w1, sid, submitter); }
  }

  /** The world in which the checks of `start_turn` have passed: a new session has its id. */
  function Checked(cfg: Config, w: World, c: Call): World
    requires c.StartTurn?
  {
    if c.session.None? then Do(cfg, w, Mint) else w
  }

  lemma StartRouted(cfg: Config, w: World, c: Call, now: int)
    requires c.StartTurn?
    ensures var r, v := StartTurnCall(cfg, w, c, now), Checked(cfg, w, c);
            if StartProblem(cfg, w, c).Some?
            then r.out == Raised(StartProblem(cfg, w, c).value) && Unnoticed(w, r.w) && r.w.hub == w.hub
            else && Validated(cfg, c)
                 && r == StartValidated(cfg, v, c, SessionOf(w, c), Resolve(cfg, w, c.token).value, now)
  {
    hide Legal, Good, Apply, Enabled, Validates, ProfileFor, Resolve, StartValidated;
    MintIsUnnoticed(cfg, w);
  }

  lemma CheckedEffect(cfg: Config, w: World, c: Call)
    requires c.StartTurn? && Good(cfg, w)
    ensures var v := Checked(cfg, w, c);
            && Good(cfg, v) && Unnoticed(w, v) && v.hub == w.hub && v.writes == w.writes && v.next + 1 == NewTurn(w, c)
            && v.purposes == w.purposes
  {
    hide Legal, Apply, Enabled;
    MintIsEnabled(cfg, w);
    MintIsUnnoticed(cfg, w);
  }

  /** A refused call leaves nothing behind, except that one refused only for its session's missing owner has already
      changed that session's context. */
  ghost predicate StartRefused(cfg: Config, w: World, c: Call, r: Res)
    requires c.StartTurn?
  {
    && Unnoticed(w, r.w)
    && match StartProblem(cfg, w, c)
       case Some(problem) => r.out == Raised(problem) && r.w.hub == w.hub
       case None => && r.out == Raised(Unauthorized)
                    && r.w.hub.contexts == w.hub.contexts[SessionOf(w, c) := DefaultedContext(cfg, w, c,
                                                                                              SessionOf(w, c))]
  }

  /** `start_turn` succeeds exactly as asked or leaves nothing behind but, perhaps, a changed session context: an
      accepted call stores the defaulted content as a new turn, writes cto_started next and then reaches everyone. */
  lemma StartTurnOutcome(cfg: Config, w: World, c: Call, now: int)
    requires Good(cfg, w) && c.StartTurn?
    ensures var r := StartTurnCall(cfg, w, c, now);
            if !Startable(cfg, w, c) then StartRefused(cfg, w, c, r)
            else StartSucceeds(cfg, w, c, now, r)
  {
    hide Legal, Good, Apply, Enabled, Validates, ProfileFor, Resolve, StartTurnCall, StartValidated;
    hide WriteAndMulticast, Grows, Reached;
    hide ApplyDefaults, Prepared, Checked, NameOf;
    StartRouted(cfg, w, c, now);
    if StartProblem(cfg, w, c).None? {
      CheckedEffect(cfg, w, c);
      var v, sid, who := Checked(cfg, w, c), SessionOf(w, c), Resolve(cfg, w, c.token).value;
      ValidatedRouted(cfg, v, c, sid, who, now);
      if sid in w.hub.owners || who == cfg.owner {
        StartedOutcome(cfg, w, c, now);
      }
    }
  }

  lemma StartedOutcome(cfg: Config, w: World, c: Call, now: int)
    requires Good(cfg, w) && c.StartTurn? && Open(w) && StartProblem(cfg, w, c).None?
    requires SessionOf(w, c) in w.hub.owners || Resolve(cfg, w, c.token).value == cfg.owner
    ensures var v, sid, who := Checked(cfg, w, c), SessionOf(w, c), Resolve(cfg, w, c.token).value;
            var r := WriteAndMulticast(cfg, Prepared(cfg, v, c, sid, who), StoreTurn(SeedFor(cfg, v, c, sid, who, now)),
                                       Some(v.next + 1));
            StartSucceeds(cfg, w, c, now, r)
  {
    hide Legal, Apply, Enabled, Validates, ProfileFor, Resolve, WriteAndMulticast, Reached, Prepared, Checked;
    hide ApplyDefaults;
    CheckedEffect(cfg, w, c);
    var v, sid, who := Checked(cfg, w, c), SessionOf(w, c), Resolve(cfg, w, c.token).value;
    PreparedHolds(cfg, v, c, sid, who, now);
    var u, s := Prepared(cfg, v, c, sid, who), SeedFor(cfg, v, c, sid, who, now);
    var r := WriteAndMulticast(cfg, u, StoreTurn(s), Some(v.next + 1));
    SeedOutcome(cfg, u, s);
    NewTurnIsNew(cfg, w, c);
  }

  /** What storing and announcing a turn has done when it returns. */
  ghost predicate SeedStored(cfg: Config, u: World, s: Seed, r: Res) {
    && var t := u.next + 1;
    && t in r.w.hub.ctos
    && r.w.hub.ctos[t] == NewCto(u, s).(observations := r.w.hub.ctos[t].observations,
                                        lastEvent := r.w.hub.ctos[t].lastEvent)
    && t in r.w.seeds && r.w.seeds[t] == s.observations
    && s.session in r.w.hub.owners && r.w.hub.owners[s.session] == cfg.owner
    && (WriteOk(u) ==> Announced(u, r, StartedEvent(u, s)) && (r.out.Done? ==> r.out.value == Some(t)))
    && (!WriteOk(u) ==> r.out == Raised(PersistenceFailure) && r.w.persister == u.persister)
  }

  lemma SeedOutcome(cfg: Config, u: World, s: Seed)
    requires Good(cfg, u) && Enabled(cfg, u, StoreTurn(s)) && s.session in u.hub.owners
    ensures SeedStored(cfg, u, s, WriteAndMulticast(cfg, u, StoreTurn(s), Some(u.next + 1)))
  {
    hide Legal, Apply, Enabled, WriteAndMulticast, Reached, Announced, Grows;
    var r := WriteAndMulticast(cfg, u, StoreTurn(s), Some(u.next + 1));
    AuthoredOutcome(cfg, u, StoreTurn(s), Some(u.next + 1));
    StoredTurn(cfg, u, s, r.w);
    IdsAreMinted(cfg, u);
    AuthoredEffect(cfg, u, StoreTurn(s));
    assert r.w.hub.owners[s.session] == cfg.owner by { OwnershipHolds(cfg, r.w); }
  }

  lemma NewTurnIsNew(cfg: Config, w: World, c: Call)
    requires Good(cfg, w) && c.StartTurn?
    ensures NewTurn(w, c) !in w.hub.ctos
  {
    IdsAreMinted(cfg, w);
  }

  // ---------------------------------------------------------------- proposed deltas

  /** The hub knows the turn, and every value of the patch is a list. */
  predicate Mergeable(w: World, d: Delta) {
    d.turn in w.hub.ctos && forall i | 0 <= i < |d.patch| :: d.patch[i].1.List?
  }

  /** The record of a delta could not be written. */
  ghost predicate MergeUnwritten(w: World, d: Delta, r: Res) {
    && r.out == Raised(PersistenceFailure) && r.w.persister == w.persister && r.w.deliveries == w.deliveries
    && if Mergeable(w, d)
       then && d.turn in r.w.hub.ctos && r.w.hub.ctos == w.hub.ctos[d.turn := r.w.hub.ctos[d.turn]]
            && JustMerged(w.hub.ctos[d.turn], r.w.hub.ctos[d.turn], d)
            && r.w.hub.ctos[d.turn].lastEvent == Some(w.next)
       else r.w.hub.ctos == w.hub.ctos
  }

  /** delta_merged is the next record and told everyone, and the turn has the patch's entries. */
  ghost predicate MergeTold(w: World, d: Delta, r: Res)
    requires d.turn in w.hub.ctos
  {
    var c := w.hub.ctos[d.turn];
    && Announced(w, r, HubEvent(w.next, Some(c.session), Some(c.turn),
                                DeltaMerged(d, CTOIndex(c.turn, c.session, c.profile, c.createdAt, Some(w.next)))))
    && d.turn in r.w.hub.ctos && MergedInto(c, r.w.hub.ctos[d.turn], d)
    && (r.out.Done? ==> r.out.value == Some(w.next))
  }

  lemma MergeTells(w: World, d: Delta, r: Res)
    requires d.turn in w.hub.ctos && Announced(w, r, MergedEvent(w, d))
    requires d.turn in r.w.hub.ctos && TurnGrows(MergedCto(w, d), r.w.hub.ctos[d.turn])
    requires r.out.Done? ==> r.out.value == Some(w.next)
    ensures MergeTold(w, d, r)
  {
    hide Reached, Announced;
    var c := w.hub.ctos[d.turn];
    MergeIsMerged(c, d, w.next);
    MergedStays(c, MergedCto(w, d), r.w.hub.ctos[d.turn], d);
  }

  lemma UnwrittenEffect(cfg: Config, w: World, a: Act)
    requires (a.Merge? || a.Reject?) && !WriteOk(w)
    ensures var w1 := Apply(cfg, w, a);
            w1.persister == w.persister && w1.deliveries == w.deliveries && w1.hub.ctos == CtosAfter(w, a)
  {
    hide MergedCto;
  }

  lemma MergeIsJustMerged(w: World, d: Delta)
    requires d.turn in w.hub.ctos
    ensures JustMerged(w.hub.ctos[d.turn], MergedCto(w, d), d) && MergedCto(w, d).lastEvent == Some(w.next)
  {
    MergeIsMerged(w.hub.ctos[d.turn], d, w.next);
  }

  lemma UnwrittenOutcome(cfg: Config, w: World, d: Delta)
    requires !WriteOk(w)
    ensures MergeUnwritten(w, d, MergeDelta(cfg, w, d))
  {
    hide Legal, Good, Apply, Enabled, Multicast, MergedCto;
    UnwrittenEffect(cfg, w, Merge(d));
    if d.turn in w.hub.ctos { MergeIsJustMerged(w, d); }
    UnwrittenEffect(cfg, w, Reject(d, UnknownTurn));
    if !IsListPatch(d.patch) { UnwrittenEffect(cfg, w, Reject(d, NotAList(FirstNonList(d.patch)))); }
  }

  /** A delta merges exactly when its turn is known and every patch value is a list. Then the turn has the entries of
      the patch after those it had, delta_merged is the next record and reaches everyone. Otherwise delta_rejected
      does, with the reason, the call raises, and the hub itself changes no turn. If the record cannot be written the
      call raises that instead, and nobody is told; a merge it was to announce stays in the turn. */
  lemma MergeDeltaOutcome(cfg: Config, w: World, d: Delta)
    requires Good(cfg, w) && Open(w)
    ensures var r := MergeDelta(cfg, w, d);
            && Grows(w, r.w)
            && if !WriteOk(w) then MergeUnwritten(w, d, r)
               else if Mergeable(w, d) then MergeTold(w, d, r)
               else && |w.hist| < |r.w.hist| && r.w.hist[|w.hist|] == Reject(d, ReasonFor(w, d))
                    && RejectionTold(cfg, w, d, r)
  {
    hide Legal, Apply, Enabled, WriteAndMulticast, Reached, Grows, MergeTold, MergeUnwritten, RejectionTold;
    var r := MergeDelta(cfg, w, d);
    HistoryGrows(cfg, w, r.w);
    if !WriteOk(w) {
      UnwrittenOutcome(cfg, w, d);
    } else if d.turn in w.hub.ctos && IsListPatch(d.patch) {
      MergeEnabled(cfg, w, d);
      AuthoredOutcome(cfg, w, Merge(d), Some(w.next));
      MergedTurn(cfg, w, d, r.w);
      MergeTells(w, d, r);
    } else {
      var reason := ReasonFor(w, d);
      RejectEnabled(cfg, w, d, reason);
      AuthoredOutcome(cfg, w, Reject(d, reason), None);
      WrittenFirst(cfg, w, Reject(d, reason));
      RejectionDetail(cfg, w, d, reason);
    }
  }

  /** Why a delta is rejected: its turn is unknown, or else this key's value is the first that is no list. */
  function ReasonFor(w: World, d: Delta): Reason
    requires d.turn !in w.hub.ctos || !IsListPatch(d.patch)
  {
    if d.turn !in w.hub.ctos then UnknownTurn else NotAList(FirstNonList(d.patch))
  }

  /** The reason says which: the turn is unknown, or else it names the first key whose value is no list. */
  ghost predicate Explains(w: World, d: Delta, reason: Reason) {
    if d.turn !in w.hub.ctos then reason == UnknownTurn
    else exists i :: 0 <= i < |d.patch| && reason == NotAList(d.patch[i].0) && !d.patch[i].1.List?
                     && forall j | 0 <= j < i :: d.patch[j].1.List?
  }

  lemma {:induction false} FirstIsNoList(patch: Patch)
    requires !IsListPatch(patch)
    ensures exists i :: 0 <= i < |patch| && FirstNonList(patch) == patch[i].0 && !patch[i].1.List?
                        && forall j | 0 <= j < i :: patch[j].1.List?
  {
    if patch[0].1.List? {
      FirstIsNoList(patch[1..]);
      var i :| 0 <= i < |patch[1..]| && FirstNonList(patch) == patch[1..][i].0 && !patch[1..][i].1.List?
               && forall j | 0 <= j < i :: patch[1..][j].1.List?;
      assert patch[i + 1] == patch[1..][i];
      assert forall j | 0 < j < i + 1 :: patch[j] == patch[1..][j - 1];
    }
  }

  /** delta_rejected has been recorded and, unless a recipient raised, has reached everyone; then the call raises. */
  ghost predicate RejectionTold(cfg: Config, w: World, d: Delta, r: Res)
    requires d.turn !in w.hub.ctos || !IsListPatch(d.patch)
  {
    var ev := HubEvent(w.next, None, Some(d.turn), DeltaRejected(d, ReasonFor(w, d)));
    var told := Multicast(cfg, Do(cfg, w, Reject(d, ReasonFor(w, d))), ev);
    && Explains(w, d, ReasonFor(w, d)) && r.w == told.w && Announced(w, told, ev)
    && r.out == if told.out.Raised? then told.out else Raised(if d.turn !in w.hub.ctos then UnknownKey else BadValue)
  }

  lemma RejectionDetail(cfg: Config, w: World, d: Delta, reason: Reason)
    requires d.turn !in w.hub.ctos || !IsListPatch(d.patch)
    requires WriteOk(w) && reason == ReasonFor(w, d)
    requires Announced(w, WriteAndMulticast(cfg, w, Reject(d, reason), None), RejectedEvent(w, d, reason))
    ensures RejectionTold(cfg, w, d, MergeDelta(cfg, w, d))
  {
    hide Legal, Good, Apply, Enabled, Multicast, Reached;
    assert Authored(w, Reject(d, reason)).value == RejectedEvent(w, d, reason);
    if d.turn in w.hub.ctos { FirstIsNoList(d.patch); }
  }

  lemma MergeEnabled(cfg: Config, w: World, d: Delta)
    requires w.owed.None? && Open(w) && d.turn in w.hub.ctos && IsListPatch(d.patch)
    ensures Enabled(cfg, w, Merge(d))
  {
  }

  lemma RejectEnabled(cfg: Config, w: World, d: Delta, reason: Reason)
    requires w.owed.None? && Open(w)
    ensures Enabled(cfg, w, Reject(d, reason))
  {
  }

  lemma MergedTurn(cfg: Config, w: World, d: Delta, w': World)
    requires d.turn in w.hub.ctos && Grows(Apply(cfg, w, Merge(d)), w')
    ensures d.turn in w'.hub.ctos && TurnGrows(MergedCto(w, d), w'.hub.ctos[d.turn])
  {
    hide RegsAfter, PurposesAfter, PersisterAfter, PendingAfter, ClosureAfter, TurnGrows;
    assert d.turn in Apply(cfg, w, Merge(d)).hub.ctos;
  }

  // ---------------------------------------------------------------- what is let in

  /** An event is let in when the hub is not closed, and if it is closing the event is one of a shutdown's; its token
      is its Purpose's, and the name is that Purpose's. */
  predicate LetIn(cfg: Config, w: World, ev: PurposeEvent) {
    && !w.hub.closed
    && (w.hub.closing ==>
          ev.payload.RequestSessionEnd? || ev.payload.PurposeCompleted? || ev.payload.SessionCompleted?)
    && Resolve(cfg, w, ev.token) == Some(ev.who) && ev.name == NameOf(cfg, w, ev.who)
  }

  lemma IngestLogged(cfg: Config, w: World, ev: PurposeEvent, w': World)
    requires WriteOk(w) && w'.hist == w.hist + [Ingest(ev, true)] && w' == Apply(cfg, w, Ingest(ev, true))
    requires !Has(w.persister.log, ev.id)
    ensures w'.persister.log == w.persister.log + [PurposeRecord(ev)] && w'.deliveries == w.deliveries
  {
  }

  lemma IngestFailed(cfg: Config, w: World, ev: PurposeEvent)
    requires !WriteOk(w)
    ensures var w' := Apply(cfg, w, Ingest(ev, true));
            w'.persister == w.persister && w'.hub == w.hub && w'.deliveries == w.deliveries && w'.purposes == w.purposes
  {
  }

  /** A built-in event with a new id that is not the persister's: let in, it is the next record before anything is done
      about it; turned away, or its write failed, it leaves no trace and the caller gets an error. */
  lemma TakeTurnOutcome(cfg: Config, w: World, ev: PurposeEvent, outside: Outside)
    requires Good(cfg, w) && BuiltIn(ev.payload) && ProperId(cfg, w, ev.id, true) && ev.token != PERSISTER_TOKEN
    ensures var r := Receive(cfg, w, ev, true, outside);
            if LetIn(cfg, w, ev) && WriteOk(w)
            then && |w.persister.log| < |r.w.persister.log| && r.w.persister.log[|w.persister.log|] == PurposeRecord(ev)
                 && |w.hist| < |r.w.hist| && r.w.hist[|w.hist|] == Ingest(ev, true)
            else r.out.Raised? && Unnoticed(w, r.w) && r.w.hub == w.hub
  {
    hide Legal, Apply, Enabled, Resolve, NameOf, Handle, ReceiveCustom;
    var a, r := Ingress(cfg, w, ev, true), Receive(cfg, w, ev, true, outside);
    if LetIn(cfg, w, ev) {
      if ev.who == cfg.persister { DomainTokens(cfg, w, ev.token); }
      if WriteOk(w) {
        IngestLogged(cfg, w, ev, a.w);
        assert a.w.persister.log <= r.w.persister.log && a.w.hist <= r.w.hist;
      } else {
        IngestFailed(cfg, w, ev);
      }
    }
  }

  /** A custom event is written and delivered, without a session, exactly when its type is registered for multicast; a
      type registered without leaves no trace at all, though the call succeeds. */
  lemma CustomOutcome(cfg: Config, w: World, ev: PurposeEvent, outside: Outside)
    requires Good(cfg, w) && ev.payload.Custom? && ProperId(cfg, w, ev.id, true)
    ensures var r := Receive(cfg, w, ev, true, outside);
            if !Open(w) then r == Res(w, Raised(HubClosed))
            else if ev.payload.event !in cfg.custom then r == Res(w, Raised(UnknownEventType))
            else if !LetIn(cfg, w, ev) then r == Res(w, Raised(Unauthorized))
            else if !cfg.custom[ev.payload.event] then r == Res(w, Ok)
            else if WriteOk(w) then Announced(w, r, HubEvent(ev.id, None, None, ev.payload))
            else r.out == Raised(PersistenceFailure) && Unnoticed(w, r.w)
  {
    hide Legal, Apply, Enabled, Resolve, NameOf, WriteAndMulticast, Multicast, Reached, Handle;
    if LetIn(cfg, w, ev) && ev.payload.event in cfg.custom && cfg.custom[ev.payload.event] {
      CustomIsEnabled(cfg, w, ev, true);
      RelayOutcome(cfg, w, ev);
      assert Receive(cfg, w, ev, true, outside) == WriteAndMulticast(cfg, w, RelayCustom(ev, true), None);
    }
  }

  lemma RelayEffect(cfg: Config, w: World, ev: PurposeEvent)
    requires !Has(w.persister.log, ev.id)
    ensures var w1 := Apply(cfg, w, RelayCustom(ev, true));
            && w1.deliveries == w.deliveries && w1.hub == w.hub && w1.purposes == w.purposes
            && (WriteOk(w) ==> w1.persister.log == w.persister.log + [HubRecord(Relayed(ev))])
            && (!WriteOk(w) ==> w1.persister == w.persister)
  {
  }

  /** A custom event is told everyone, or its failed write raised. */
  ghost predicate CustomTold(cfg: Config, w: World, ev: PurposeEvent) {
    var r := WriteAndMulticast(cfg, w, RelayCustom(ev, true), None);
    if WriteOk(w) then Announced(w, r, Relayed(ev))
    else r.out == Raised(PersistenceFailure) && Unnoticed(w, r.w)
  }

  lemma RelayOutcome(cfg: Config, w: World, ev: PurposeEvent)
    requires Good(cfg, w) && Enabled(cfg, w, RelayCustom(ev, true)) && ProperId(cfg, w, ev.id, true)
    ensures CustomTold(cfg, w, ev)
  {
    hide Legal, Apply, Enabled, Multicast, Reached, Grows;
    RelayEffect(cfg, w, ev);
    var w1, r := Do(cfg, w, RelayCustom(ev, true)), WriteAndMulticast(cfg, w, RelayCustom(ev, true), None);
    if WriteOk(w) {
      HistoryGrows(cfg, w1, r.w);
      LogOfGrown(w1, r.w);
      if r.out.Done? { MulticastReachesEveryone(cfg, w1, Relayed(ev)); }
    }
  }

  /** A request to end a session begins closing exactly when it names an owned session, comes from the owner, and
      nothing is closing yet; everyone is then told, with the code last given to the session. Repeated for the closing
      session it is ignored, anything else is an error, and neither changes anything. */
  lemma RequestEndOutcome(cfg: Config, w: World, who: PurposeId, text: SidText, why: string)
    requires Good(cfg, w) && !w.hub.closed
    ensures var r := HandleRequestEnd(cfg, w, who, text, why);
            if text.Spelled? && text.sid in w.hub.owners && !w.hub.closing && who == cfg.owner
            then && |w.hist| < |r.w.hist| && r.w.hist[|w.hist|] == BeginClose(text.sid, why)
                 && (WriteOk(w) ==>
                       Announced(w, r, HubEvent(w.next, Some(text.sid), None,
                                                SessionClosing(why, CodeGiven(w.hist, text.sid)))))
            else && r.w == w
                 && r.out == if !text.Spelled? then Raised(BadValue)
                             else if text.sid !in w.hub.owners then Raised(UnknownKey)
                             else if !w.hub.closing then Raised(Unauthorized)
                             else if w.hub.closingId == Some(text.sid) then Ok else Raised(HubClosed)
  {
    hide Legal, Apply, Enabled, WriteAndMulticast, Reached, Grows;
    OwnershipHolds(cfg, w);
    if text.Spelled? && text.sid in w.hub.owners && !w.hub.closing && who == cfg.owner {
      CodeIsGiven(cfg, w, text.sid);
      BeginCloseEnabled(cfg, w, text.sid, why);
      AuthoredOutcome(cfg, w, BeginClose(text.sid, why), None);
      var w1, r := Do(cfg, w, BeginClose(text.sid, why)), WriteAndMulticast(cfg, w, BeginClose(text.sid, why), None);
      WrittenFirst(cfg, w, BeginClose(text.sid, why));
    }
  }

  lemma WrittenFirst(cfg: Config, w: World, a: Act)
    requires Authored(w, a).Some? && !a.Deliver?
    ensures var r := WriteAndMulticast(cfg, w, a, None); w.hist + [a] <= r.w.hist
  {
    hide Legal, Good, Apply, Enabled, Multicast;
  }
}
