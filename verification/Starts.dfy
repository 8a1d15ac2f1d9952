/** `start_turn` in the caller's terms: when it is refused, and with which error, and what it has done otherwise. */
module Starts {
  import opened Wrappers
  import opened Json
  import opened Profiles
  import opened Ctos
  import opened Events
  import opened World
  import opened Invariants
  import opened Hub
  import opened History
  import opened Codes
  import opened Credentials
  import opened Operations

  /** The token is this one's, the persister's being the first that was ever drawn. */
  predicate Holds(cfg: Config, w: World, token: Token, who: PurposeId) {
    if who == cfg.persister then token == 0
    else who in w.purposes && w.purposes[who].creds.Some? && w.purposes[who].creds.value.token == token
  }

  predicate IsNameOf(cfg: Config, w: World, who: PurposeId, name: string) {
    if who == cfg.persister then name == cfg.persisterName else who in w.purposes && name == w.purposes[who].name
  }

  lemma HolderResolves(cfg: Config, w: World, token: Token)
    requires Legal(cfg, w)
    ensures forall who: PurposeId :: Holds(cfg, w, token, who) <==> Resolve(cfg, w, token) == Some(who)
  {
    hide Legal, Resolve;
    TokensMinted(cfg, w);
    forall who: PurposeId
      ensures Holds(cfg, w, token, who) <==> Resolve(cfg, w, token) == Some(who)
    {
      ResolveExact(cfg, w, token, who);
    }
  }

  /** The session the call names, or the new one it draws. */
  function SessionFor(w: World, c: Call): SessionId
    requires c.StartTurn?
  {
    if c.session.Some? then c.session.value else w.next
  }

  /** Why the call is refused, if it is: the first of these that applies. */
  ghost predicate IsRefusal(cfg: Config, w: World, c: Call, error: Error)
    requires c.StartTurn?
  {
    if w.hub.closing || w.hub.closed then error == HubClosed
    else if forall who :: !Holds(cfg, w, c.token, who) then error == Unauthorized
    else if c.code == Some("") then error == BadValue
    else if (c.profile, c.version) !in cfg.registry then error == UnknownKey
    else if !Conforms(cfg.registry[(c.profile, c.version)], c.content, cfg.strict) then error == BadValue
    else SessionFor(w, c) !in w.hub.owners && !Holds(cfg, w, c.token, cfg.owner) && error == Unauthorized
  }

  ghost predicate Unrefused(cfg: Config, w: World, c: Call)
    requires c.StartTurn?
  {
    forall error :: !IsRefusal(cfg, w, c, error)
  }

  /** The turn that a call makes, and its session's code. */
  ghost predicate MakesTurn(cfg: Config, w: World, c: Call, now: int, v: World)
    requires c.StartTurn? && (c.profile, c.version) in cfg.registry
  {
    var sid := SessionFor(w, c);
    var t := if c.session.Some? then w.next + 1 else w.next + 2;
    var ctx: Dict := if sid in w.hub.contexts then w.hub.contexts[sid] else map[];
    && t !in w.hub.ctos && t in v.hub.ctos
    && v.hub.ctos[t].turn == t && v.hub.ctos[t].session == sid && v.hub.ctos[t].createdAt == now
    && v.hub.ctos[t].profile == ProfileRef(c.profile, Int(c.version))
    && v.hub.ctos[t].content == ApplyDefaults(cfg.registry[(c.profile, c.version)], c.content, ctx).0
    && t in v.seeds && v.seeds[t] == map[]
    && sid in v.hub.owners && v.hub.owners[sid] == cfg.owner
    && (c.code.Some? ==> Coded(w, v, sid, c.code))
  }

  /** This code has been given to the session since; it is the session's, unless another turn has brought another. */
  ghost predicate Coded(w: World, v: World, sid: SessionId, code: Option<string>) {
    exists n: nat :: |w.hist| <= n < |v.hist| && GivesCode(v.hist[n], sid) && v.hist[n].seed.code == code
                     && ((forall m | n < m < |v.hist| :: !GivesCode(v.hist[m], sid)) ==>
                           sid in v.hub.codes && Some(v.hub.codes[sid]) == code)
  }

  /** The announcement of that turn, in the name of the token's holder. */
  ghost predicate Announces(cfg: Config, w: World, c: Call, now: int, r: Res)
    requires c.StartTurn?
  {
    var sid := SessionFor(w, c);
    var t := if c.session.Some? then w.next + 1 else w.next + 2;
    exists who, name :: Holds(cfg, w, c.token, who) && IsNameOf(cfg, w, who, name)
      && Announced(w, r, HubEvent(t - 1, Some(sid), Some(t),
                                  CtoStarted(CTOIndex(t, sid, ProfileRef(c.profile, Int(c.version)), now, Some(t - 1)),
                                             who, name)))
  }

  lemma RefusalIsExact(cfg: Config, w: World, c: Call)
    requires Legal(cfg, w) && c.StartTurn?
    ensures Startable(cfg, w, c) <==> Unrefused(cfg, w, c)
    ensures StartProblem(cfg, w, c).Some? ==> IsRefusal(cfg, w, c, StartProblem(cfg, w, c).value)
    ensures StartProblem(cfg, w, c).None? && !Startable(cfg, w, c) ==> IsRefusal(cfg, w, c, Unauthorized)
  {
    hide Legal, Resolve, Validates, Conforms, Holds;
    HolderResolves(cfg, w, c.token);
    if (c.profile, c.version) in cfg.registry {
      ValidatesExactly(cfg.registry[(c.profile, c.version)], c.content, cfg.strict);
    }
    assert !Startable(cfg, w, c) ==>
        IsRefusal(cfg, w, c, if StartProblem(cfg, w, c).Some? then StartProblem(cfg, w, c).value else Unauthorized);
    assert Startable(cfg, w, c) ==> Holds(cfg, w, c.token, Resolve(cfg, w, c.token).value);
  }

  /** The action that stores the turn brings the code. */
  lemma CodeIsBrought(cfg: Config, w: World, c: Call, now: int)
    requires Good(cfg, w) && c.StartTurn? && Startable(cfg, w, c) && c.code.Some?
    ensures Coded(w, StartTurnCall(cfg, w, c, now).w, SessionFor(w, c), c.code)
  {
    hide Legal, Apply, Enabled, Validates, ProfileFor, Resolve, WriteAndMulticast, StartTurnCall, StartValidated;
    hide ApplyDefaults, Prepared, Checked, SeedFor;
    StartRouted(cfg, w, c, now);
    CheckedEffect(cfg, w, c);
    var v, sid, who := Checked(cfg, w, c), SessionOf(w, c), Resolve(cfg, w, c.token).value;
    ValidatedRouted(cfg, v, c, sid, who, now);
    PreparedHolds(cfg, v, c, sid, who, now);
    var u, s := Prepared(cfg, v, c, sid, who), SeedFor(cfg, v, c, sid, who, now);
    HistoryOfPrepared(cfg, w, c, sid, who, now);
    var r := StartTurnCall(cfg, w, c, now).w;
    StoredNext(cfg, u, s);
    CodeStands(cfg, w, r, |u.hist|, sid, c.code);
  }

  lemma HistoryOfPrepared(cfg: Config, w: World, c: Call, sid: SessionId, who: PurposeId, now: int)
    requires c.StartTurn? && ProfileFor(cfg, RefOf(c)).Some?
    ensures var v := Checked(cfg, w, c);
            w.hist <= v.hist <= Prepared(cfg, v, c, sid, who).hist && SeedFor(cfg, v, c, sid, who, now).code == c.code
            && SeedFor(cfg, v, c, sid, who, now).session == sid
  {
    hide Legal, Good, Apply, Enabled, ProfileFor, ApplyDefaults, Validates, NameOf;
  }

  lemma StoredNext(cfg: Config, u: World, s: Seed)
    ensures u.hist + [StoreTurn(s)] <= WriteAndMulticast(cfg, u, StoreTurn(s), Some(u.next + 1)).w.hist
  {
    hide Legal, Good, Apply, Enabled, Multicast;
  }

  lemma CodeStands(cfg: Config, w: World, v: World, n: nat, sid: SessionId, code: Option<string>)
    requires Legal(cfg, v) && |w.hist| <= n < |v.hist| && GivesCode(v.hist[n], sid) && v.hist[n].seed.code == code
    ensures Coded(w, v, sid, code)
  {
    hide Legal;
    CodesAreGiven(cfg, v);
    if forall m | n < m < |v.hist| :: !GivesCode(v.hist[m], sid) { GivenLast(v.hist, n, sid); }
  }

  /** `start_turn`, whatever the handlers do: refused with the first error that applies it leaves nothing behind that
      anyone could notice; otherwise the turn is stored with the caller's content and the profile's defaults, its
      session is the startup owner's and has the code, and cto_started is the next record and then told everyone. A
      failed write is raised, and the turn is stored all the same. */
  lemma StartTurnExactly(cfg: Config, w: World, c: Call, now: int)
    requires Good(cfg, w) && c.StartTurn?
    ensures var r := StartTurnCall(cfg, w, c, now);
            if !Unrefused(cfg, w, c)
            then && r.out.Raised? && IsRefusal(cfg, w, c, r.out.error) && Unnoticed(w, r.w)
            else && (c.profile, c.version) in cfg.registry && MakesTurn(cfg, w, c, now, r.w)
                 && (if WriteOk(w) then Announces(cfg, w, c, now, r)
                     else r.out == Raised(PersistenceFailure) && r.w.persister.log == w.persister.log)
                 && (r.out.Done? ==> r.out.value == Some(if c.session.Some? then w.next + 1 else w.next + 2))
  {
    hide Legal, Apply, Enabled, Validates, Resolve, StartTurnCall, Reached, ApplyDefaults, Conforms, Coded, Announced;
    hide Unrefused, IsRefusal;
    StartTurnOutcome(cfg, w, c, now);
    RefusalIsExact(cfg, w, c);
    if Startable(cfg, w, c) {
      HolderResolves(cfg, w, c.token);
      if c.code.Some? { CodeIsBrought(cfg, w, c, now); }
      HolderIsNamed(cfg, w, c.token);
    }
  }

  lemma HolderIsNamed(cfg: Config, w: World, token: Token)
    requires Legal(cfg, w) && Resolve(cfg, w, token).Some?
    ensures var who := Resolve(cfg, w, token).value;
            Holds(cfg, w, token, who) && IsNameOf(cfg, w, who, NameOf(cfg, w, who))
  {
    hide Legal, Resolve;
    HolderResolves(cfg, w, token);
  }
}
