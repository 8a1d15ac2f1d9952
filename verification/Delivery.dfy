/** Persist before dispatch, and each event persisted once. */
module Delivery {
  import opened Wrappers
  import opened Events
  import opened Ctos
  import opened World
  import opened Invariants
  import opened Hub
  import opened Replay

  /** An event was in the log when it was delivered, in an envelope its recipient accepts. */
  ghost predicate Proper(w: World, d: Delivery) {
    && d.logged <= |w.persister.log|
    && Has(w.persister.log[..d.logged], d.event.id)
    && d.creds == Credentials(d.creds.token, Digest(d.creds.token, d.to))
  }

  lemma ProperInExtension(w: World, w': World, d: Delivery)
    requires Proper(w, d) && w.persister.log <= w'.persister.log
    ensures Proper(w', d)
  {
    assert w'.persister.log[..d.logged] == w.persister.log[..d.logged];
  }

  /** The k-th delivery was the n-th action; the log was then so long, and these were the recipient's credentials. */
  ghost predicate DeliveredAt(cfg: Config, hist: seq<Act>, n: nat, k: nat, d: Delivery) {
    && n < |hist| && hist[n].Deliver?
    && var v := Run(cfg, hist[..n]);
    && |v.deliveries| == k && |v.persister.log| == d.logged
    && d.to in v.purposes && v.purposes[d.to].creds == Some(d.creds)
  }

  lemma MadeInExtension(cfg: Config, hist: seq<Act>, a: Act, n: nat, k: nat, d: Delivery)
    requires DeliveredAt(cfg, hist, n, k, d)
    ensures DeliveredAt(cfg, hist + [a], n, k, d)
  {
    assert (hist + [a])[..n] == hist[..n];
  }

  /** Only a delivery delivers, and one thing. */
  lemma OneDelivery(cfg: Config, p: World, a: Act)
    requires Enabled(cfg, p, a) && |Apply(cfg, p, a).deliveries| > |p.deliveries|
    ensures a.Deliver? && a.i < |p.hub.regs| && Has(p.persister.log, a.downlink.id)
    ensures var reg := p.hub.regs[a.i];
            && reg.who in p.purposes && p.purposes[reg.who].creds == Some(reg.creds)
            && Apply(cfg, p, a).deliveries
                 == p.deliveries + [Delivery(reg.who, reg.creds, a.downlink, |p.persister.log|)]
  {
  }

  /** The last action delivered. */
  lemma JustDelivered(cfg: Config, p: World, a: Act, k: nat)
    requires Legal(cfg, p) && Enabled(cfg, p, a) && |p.deliveries| <= k < |Apply(cfg, p, a).deliveries|
    ensures var d := Apply(cfg, p, a).deliveries[k];
            Proper(p, d) && DeliveredAt(cfg, p.hist + [a], |p.hist|, k, d)
  {
    hide AllEnabled, Apply, Enabled;
    CredentialsHold(cfg, p);
    OneDelivery(cfg, p, a);
    assert RegHolds(p.purposes, p.hub.regs[a.i]);
    assert p.persister.log[..|p.persister.log|] == p.persister.log;
    assert (p.hist + [a])[..|p.hist|] == p.hist;
  }

  lemma DeliveriesExtend(cfg: Config, p: World, a: Act)
    ensures p.deliveries <= Apply(cfg, p, a).deliveries
  {
  }

  /** Persist before dispatch, over all runs and across nested multicasts: every event delivered to a Purpose already
      had its record in the log, so one that was never written is never delivered; and its envelope bore the token and
      signature that were the recipient's own at that moment. */
  lemma {:induction false} PersistBeforeDispatch(cfg: Config, w: World, k: nat)
    requires Legal(cfg, w) && k < |w.deliveries|
    ensures Proper(w, w.deliveries[k]) && exists n :: DeliveredAt(cfg, w.hist, n, k, w.deliveries[k])
    decreases |w.hist|
  {
    hide Legal, Enabled, Apply, Proper, DeliveredAt;
    NoDeliveryYet(cfg, w);
    var p, a := Before(cfg, w);
    LogEffect(cfg, p, a);
    DeliveriesExtend(cfg, p, a);
    if k < |p.deliveries| {
      PersistBeforeDispatch(cfg, p, k);
      ProperInExtension(p, w, p.deliveries[k]);
      var n :| DeliveredAt(cfg, p.hist, n, k, p.deliveries[k]);
      MadeInExtension(cfg, p.hist, a, n, k, p.deliveries[k]);
    } else {
      JustDelivered(cfg, p, a, k);
      ProperInExtension(p, w, w.deliveries[k]);
    }
  }

  lemma NoDeliveryYet(cfg: Config, w: World)
    requires Legal(cfg, w)
    ensures w.hist == [] ==> w.deliveries == []
  {
  }

  /** Deliveries alone, whether or not the event was written. */
  lemma {:induction false} DeliveredAnyway(cfg: Config, w: World, ev: HubEvent, i: nat)
    requires Credentialed(w) && w.script == [] && !ev.payload.SessionClosing? && i <= |w.hub.regs|
    ensures var r := Broadcast(cfg, w, ev, i, |w.hub.regs|);
            && r.out == Ok && r.w.persister == w.persister && w.deliveries <= r.w.deliveries
            && (i < |w.hub.regs| ==> |w.deliveries| < |r.w.deliveries| && r.w.deliveries[|w.deliveries|].event == ev)
    decreases |w.hub.regs| - i
  {
    hide Legal, Good, Apply, Enabled, LogAfter, ClosureAfter, OwedAfter, PendingAfter, RegsAfter, CtosAfter;
    hide PurposesAfter, AcceptedAfter, IsRegistered, DistinctRegs;
    if i < |w.hub.regs| {
      assert RegHolds(w.purposes, w.hub.regs[i]);
      DeliveryAlone(cfg, w, i, ev);
      var w1 := Do(cfg, w, Deliver(i, ev));
      assert DeliverTo(cfg, w, ev, i) == Res(w1, Ok);
      DeliveredAnyway(cfg, w1, ev, i + 1);
    }
  }

  lemma DeliveryAlone(cfg: Config, w: World, i: nat, ev: HubEvent)
    requires i < |w.hub.regs|
    ensures var w1 := Apply(cfg, w, Deliver(i, ev));
            && w1.hub == w.hub && w1.purposes == w.purposes && w1.persister == w.persister
            && (w.script == [] ==> w1.script == [])
            && |w1.deliveries| == |w.deliveries| + 1 && w.deliveries <= w1.deliveries
            && w1.deliveries[|w.deliveries|].event == ev
  {
  }

  lemma AcceptedUnwritten(cfg: Config, w: World, id: EventId)
    ensures var w1 := Apply(cfg, w, AcceptOwn(id));
            w1.hub == w.hub && w1.purposes == w.purposes && w1.persister == w.persister && w1.deliveries == w.deliveries
            && w1.script == w.script
  {
  }

  /** Why the persister's token must stay private: the hub takes an event bearing it for one the persister has written
      itself, so a purpose_started presented with it is delivered although its id is in no record, then or before. */
  lemma PersisterTokenMustBePrivate(cfg: Config, w: World, ev: PurposeEvent, outside: Outside)
    requires Legal(cfg, w) && Open(w) && w.script == []
    requires ev.payload.PurposeStarted? && ev.token == PERSISTER_TOKEN
    requires ev.who == cfg.persister && ev.name == cfg.persisterName && !Has(w.persister.log, ev.id)
    ensures var r := Receive(cfg, w, ev, true, outside);
            && r.out == Ok && r.w.persister.log == w.persister.log && !Has(r.w.persister.log, ev.id)
            && |w.deliveries| < |r.w.deliveries| && r.w.deliveries[|w.deliveries|].event.id == ev.id
  {
    hide Legal, Good, Apply, Enabled, Broadcast;
    PersisterTokenResolves(cfg, w);
    CredentialsHold(cfg, w);
    AcceptedUnwritten(cfg, w, ev.id);
    var w1 := Do(cfg, w, AcceptOwn(ev.id));
    assert Ingress(cfg, w, ev, true) == Admitted(w1, cfg.persister);
    DeliveredAnyway(cfg, w1, Relayed(ev), 0);
    assert Multicast(cfg, w1, Relayed(ev)) == Broadcast(cfg, w1, Relayed(ev), 0, |w1.hub.regs|);
    assert Handle(cfg, w1, cfg.persister, ev, outside) == Multicast(cfg, w1, Relayed(ev));
  }

  // ---------------------------------------------------------------- one record per event

  ghost predicate DistinctIds(log: seq<Record>) {
    forall i, j | 0 <= i < j < |log| :: log[i].id != log[j].id
  }

  /** Acts that write a record. */
  predicate Writes(a: Act) {
    match a
    case StoreTurn(_) | Ingest(_, _) | Merge(_) | Reject(_, _) | RelayCustom(_, _) | LegacyClose(_) | BeginClose(_, _)
       | LogPending(_) | WriteOwn(_, _) => true
    case _ => false
  }

  function WriteCount(acts: seq<Act>): nat {
    if acts == [] then 0 else WriteCount(acts[..|acts| - 1]) + (if Writes(acts[|acts| - 1]) then 1 else 0)
  }

  /** The records name each event once, one per write, and hold every accepted event. */
  ghost predicate WrittenOnce(cfg: Config, w: World) {
    && DistinctIds(w.persister.log)
    && |w.persister.log| == |Init(cfg).persister.log| + WriteCount(w.hist)
    && (forall id | id in w.accepted :: Has(w.persister.log, id))
    && (forall i, j | 0 <= i < j < |w.accepted| :: w.accepted[i] != w.accepted[j])
  }

  lemma WriteIsNew(cfg: Config, w: World, a: Act)
    requires IdsMinted(w) && Enabled(cfg, w, a) && cfg.freshIds && WriteOk(w) && Writes(a)
    ensures RecordOf(cfg, w, a).Some? && !Has(w.persister.log, RecordOf(cfg, w, a).value.id)
    ensures Apply(cfg, w, a).persister.log == w.persister.log + [RecordOf(cfg, w, a).value]
    ensures RecordOf(cfg, w, a).value.id !in w.accepted
    ensures w.accepted <= Apply(cfg, w, a).accepted <= w.accepted + [RecordOf(cfg, w, a).value.id]
  {
  }

  lemma QuietAct(cfg: Config, w: World, a: Act)
    requires !Writes(a)
    ensures Apply(cfg, w, a).persister.log == w.persister.log
    ensures Apply(cfg, w, a).accepted == if a.AcceptOwn? then w.accepted + [a.id] else w.accepted
    ensures Enabled(cfg, w, a) && a.AcceptOwn? ==> a.id !in w.accepted && Has(w.persister.log, a.id)
  {
  }

  lemma WrittenOnceStep(cfg: Config, w: World, a: Act)
    requires IdsMinted(w) && Enabled(cfg, w, a) && cfg.freshIds && WriteOk(w) && WrittenOnce(cfg, w)
    ensures WrittenOnce(cfg, Apply(cfg, w, a))
  {
    hide Apply, Enabled, RecordOf, IdsMinted, Init, Writes;
    var w' := Apply(cfg, w, a);
    HistoryAfter(cfg, w, a);
    if Writes(a) {
      WriteIsNew(cfg, w, a);
    } else {
      QuietAct(cfg, w, a);
    }
    forall id | id in w'.accepted
      ensures Has(w'.persister.log, id)
    {
      if id in w.accepted { HasInExtension(w.persister.log, w'.persister.log, id); }
      else if Writes(a) { assert w'.persister.log[|w.persister.log|].id == id; }
    }
  }

  lemma HistoryAfter(cfg: Config, w: World, a: Act)
    ensures WriteCount(Apply(cfg, w, a).hist) == WriteCount(w.hist) + if Writes(a) then 1 else 0
  {
    assert (w.hist + [a])[..|w.hist|] == w.hist;
  }

  /** With fresh event ids and no failed write, each accepted event has exactly one record, by whichever route it was
      written, and each write made exactly one record. */
  lemma {:induction false} EachEventWrittenOnce(cfg: Config, w: World)
    requires Legal(cfg, w) && cfg.freshIds && NoFailedWrite(cfg)
    ensures WrittenOnce(cfg, w)
    decreases |w.hist|
  {
    if w.hist != [] {
      var p, a := Before(cfg, w);
      hide Legal, Enabled, Apply;
      EachEventWrittenOnce(cfg, p);
      IdsAreMinted(cfg, p);
      WritesSucceed(cfg, p);
      WrittenOnceStep(cfg, p, a);
    }
  }
}
