/** Who a token belongs to, and who owns a session, over all runs. */
module Credentials {
  import opened Wrappers
  import opened Ctos
  import opened Events
  import opened World
  import opened Invariants
  import opened Hub

  lemma {:induction false} NoMatch(regs: seq<Registration>, token: Token)
    requires forall i | 0 <= i < |regs| :: regs[i].creds.token != token
    ensures Matches(regs, token) == []
  {
    if regs != [] {
      assert forall i | 0 <= i < |regs[1..]| :: regs[1..][i] == regs[i + 1];
      NoMatch(regs[1..], token);
    }
  }

  /** The token scan finds p exactly when the token is p's latest, also after p has been registered again. */
  lemma ResolveExact(cfg: Config, w: World, token: Token, p: PurposeId)
    requires Legal(cfg, w)
    ensures Resolve(cfg, w, token) == Some(p) <==>
              (p == cfg.persister && token == PERSISTER_TOKEN)
              || (p in w.purposes && w.purposes[p].creds.Some? && w.purposes[p].creds.value.token == token)
  {
    hide Legal;
    CredentialsHold(cfg, w);
    if token == PERSISTER_TOKEN {
      PersisterTokenResolves(cfg, w);
      if p in w.purposes && w.purposes[p].creds.Some? { OwnToken(cfg, w, p); }
    } else if k :| 0 <= k < |w.hub.regs| && w.hub.regs[k].creds.token == token {
      MatchesOf(w.hub.regs, token, k);
      assert RegHolds(w.purposes, w.hub.regs[k]);
      if p in w.purposes && w.purposes[p].creds.Some? && w.purposes[p].creds.value.token == token {
        var i :| 0 <= i < |w.hub.regs| && w.hub.regs[i].who == p;
        assert RegHolds(w.purposes, w.hub.regs[i]);
        assert i == k;
      }
    } else {
      NoMatch(w.hub.regs, token);
      if p in w.purposes && w.purposes[p].creds.Some? {
        var i :| 0 <= i < |w.hub.regs| && w.hub.regs[i].who == p;
        assert RegHolds(w.purposes, w.hub.regs[i]);
      }
    }
  }

  lemma RegisterEffect(cfg: Config, w: World, who: PurposeId)
    requires who in w.purposes
    ensures Apply(cfg, w, Register(who)).purposes
            == w.purposes[who := w.purposes[who].(creds := Some(Issue(w.next, who)))]
    ensures Open(w) && w.owed.None? ==> Enabled(cfg, w, Register(who))
  {
  }

  /** A key that is set again keeps its place, a new one comes last. */
  lemma UpsertKeepsOrder(regs: seq<Registration>, r: Registration)
    requires DistinctRegs(regs)
    ensures |regs| <= |Upsert(regs, r)|
    ensures forall i | 0 <= i < |regs| :: Upsert(regs, r)[i] == if regs[i].who == r.who then r else regs[i]
    ensures Upsert(regs, r)[|regs|..] == if exists i :: 0 <= i < |regs| && regs[i].who == r.who then [] else [r]
  {
    var i := PositionOf(regs, r.who);
    if k :| 0 <= k < |regs| && regs[k].who == r.who { assert i < |regs|; }
  }

  /** Registering gives the Purpose, and the hub's registration of it, one and the same new token with its signature for
      that Purpose, and changes nobody else's; the order in which Purposes hear of events stays. */
  lemma RegisteringIsExact(cfg: Config, w: World, who: PurposeId)
    requires Legal(cfg, w) && who in w.purposes
    ensures var w', creds := Apply(cfg, w, Register(who)), Credentials(w.next, Digest(w.next, who));
            && w'.purposes == w.purposes[who := w.purposes[who].(creds := Some(creds))]
            && (forall i | 0 <= i < |w.hub.regs| ::
                  i < |w'.hub.regs|
                  && w'.hub.regs[i] == if w.hub.regs[i].who == who then Registration(who, creds) else w.hub.regs[i])
            && w'.hub.regs[|w.hub.regs|..]
                 == if exists i :: 0 <= i < |w.hub.regs| && w.hub.regs[i].who == who then []
                    else [Registration(who, creds)]
  {
    hide Legal, Upsert;
    CredentialsHold(cfg, w);
    RegisterEffect(cfg, w, who);
    UpsertKeepsOrder(w.hub.regs, Registration(who, Issue(w.next, who)));
    RegsAfterRegistering(cfg, w, who);
  }

  lemma RegsAfterRegistering(cfg: Config, w: World, who: PurposeId)
    requires who in w.purposes
    ensures Apply(cfg, w, Register(who)).hub.regs == Upsert(w.hub.regs, Registration(who, Issue(w.next, who)))
  {
  }

  /** Registering a Purpose again gives it a token that resolves to it, revokes the one it had, and leaves every other
      token resolving as it did. */
  lemma RegisteringRevokes(cfg: Config, w: World, who: PurposeId, token: Token)
    requires Calm(cfg, w) && Open(w) && who in w.purposes
    ensures var w' := Apply(cfg, w, Register(who));
            Resolve(cfg, w', token) ==
              if token == w.next then Some(who)
              else if Resolve(cfg, w, token) == Some(who) then None
              else Resolve(cfg, w, token)
  {
    hide Legal, Apply, Enabled, Resolve;
    var w' := Apply(cfg, w, Register(who));
    RegisterEffect(cfg, w, who);
    LegalEffect(cfg, w, Register(who));
    CredentialsHold(cfg, w);
    IdsAreMinted(cfg, w);
    Beginning(cfg, w);
    TokensMinted(cfg, w);
    forall p
      ensures Resolve(cfg, w', token) == Some(p) <==>
                if token == w.next then p == who else Resolve(cfg, w, token) == Some(p) && p != who
    {
      ResolveExact(cfg, w, token, p);
      ResolveExact(cfg, w', token, p);
    }
    if Resolve(cfg, w', token).Some? {
      assert Resolve(cfg, w', token) == Some(Resolve(cfg, w', token).value);
    }
    if Resolve(cfg, w, token).Some? {
      assert Resolve(cfg, w, token) == Some(Resolve(cfg, w, token).value);
    }
    assert token == w.next ==> Resolve(cfg, w', token) == Some(who);
  }

  lemma TokensMinted(cfg: Config, w: World)
    requires Legal(cfg, w)
    ensures forall p | p in w.purposes && w.purposes[p].creds.Some? :: w.purposes[p].creds.value.token < w.next
    ensures cfg.persister !in w.purposes && PERSISTER_TOKEN < w.next
  {
    hide Legal;
    CredentialsHold(cfg, w);
    IdsAreMinted(cfg, w);
    Beginning(cfg, w);
    forall p | p in w.purposes && w.purposes[p].creds.Some?
      ensures w.purposes[p].creds.value.token < w.next
    {
      var i :| 0 <= i < |w.hub.regs| && w.hub.regs[i].who == p;
      assert RegHolds(w.purposes, w.hub.regs[i]);
    }
  }

  /** Every session with an owner is owned by the startup owner, and every stored turn belongs to such a session. */
  ghost predicate Owned(cfg: Config, w: World) {
    && (forall s | s in w.hub.owners :: w.hub.owners[s] == cfg.owner)
    && (forall t | t in w.hub.ctos :: w.hub.ctos[t].session in w.hub.owners)
  }

  lemma OwnedStep(cfg: Config, w: World, a: Act)
    requires Owned(cfg, w) && Enabled(cfg, w, a)
    ensures Owned(cfg, Apply(cfg, w, a))
  {
    hide RegsAfter, PurposesAfter, PersisterAfter, PendingAfter;
  }

  lemma {:induction false} OwnershipHolds(cfg: Config, w: World)
    requires Legal(cfg, w)
    ensures Owned(cfg, w)
    decreases |w.hist|
  {
    hide Legal, Enabled, Apply;
    if w.hist == [] {
      Beginning(cfg, w);
    } else {
      var p, a := Before(cfg, w);
      OwnershipHolds(cfg, p);
      OwnedStep(cfg, p, a);
    }
  }
}
