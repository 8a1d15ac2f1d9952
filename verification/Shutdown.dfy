/** The shutdown protocol: what every run keeps to, and exactly what a run of default handlers does. */
module Shutdown {
  import opened Wrappers
  import opened Ctos
  import opened Events
  import opened World
  import opened Invariants
  import opened Hub
  import opened Replay
  import opened Credentials

  // ---------------------------------------------------------------- safety, whatever the handlers do

  function PendingRecords(log: seq<Record>): nat {
    if log == [] then 0
    else PendingRecords(log[..|log| - 1]) + (if log[|log| - 1].payload.SessionClosePending? then 1 else 0)
  }

  function CompletionRecords(cfg: Config, log: seq<Record>): nat {
    if log == [] then 0
    else CompletionRecords(cfg, log[..|log| - 1]) + (if IsCompletion(cfg, log[|log| - 1]) then 1 else 0)
  }

  /** The persister's session_completed comes only after session_close_pending. */
  ghost predicate CompletionFollows(cfg: Config, log: seq<Record>) {
    forall j | 0 <= j < |log| && IsCompletion(cfg, log[j]) ::
      exists i :: 0 <= i < j && log[i].payload.SessionClosePending?
  }

  /** What the log shows of the shutdown. */
  ghost predicate LogShows(cfg: Config, w: World) {
    && CompletionFollows(cfg, w.persister.log)
    && match w.closure
       case None => PendingRecords(w.persister.log) == 0 && CompletionRecords(cfg, w.persister.log) == 0
       case Some(c) =>
         && PendingRecords(w.persister.log) == (if c.announced then 1 else 0)
         && CompletionRecords(cfg, w.persister.log) <= c.completions
  }

  lemma CountAppend(cfg: Config, log: seq<Record>, r: Record)
    ensures PendingRecords(log + [r]) == PendingRecords(log) + if r.payload.SessionClosePending? then 1 else 0
    ensures CompletionRecords(cfg, log + [r]) == CompletionRecords(cfg, log) + if IsCompletion(cfg, r) then 1 else 0
  {
    assert (log + [r])[..|log|] == log;
  }

  lemma {:induction false} SomePending(log: seq<Record>)
    requires PendingRecords(log) > 0
    ensures exists i :: 0 <= i < |log| && log[i].payload.SessionClosePending?
  {
    var k := |log| - 1;
    if !log[k].payload.SessionClosePending? {
      SomePending(log[..k]);
      var i :| 0 <= i < k && log[..k][i].payload.SessionClosePending?;
      assert log[i].payload.SessionClosePending?;
    }
  }

  lemma FollowsAppend(cfg: Config, log: seq<Record>, r: Record)
    requires CompletionFollows(cfg, log)
    requires IsCompletion(cfg, r) ==> PendingRecords(log) > 0
    ensures CompletionFollows(cfg, log + [r])
  {
    var longer := log + [r];
    if IsCompletion(cfg, r) { SomePending(log); }
    forall j | 0 <= j < |longer| && IsCompletion(cfg, longer[j])
      ensures exists i :: 0 <= i < j && longer[i].payload.SessionClosePending?
    {
      if j < |log| {
        assert IsCompletion(cfg, log[j]);
        var i :| 0 <= i < j && log[i].payload.SessionClosePending?;
        assert longer[i].payload.SessionClosePending?;
      } else {
        var i :| 0 <= i < |log| && log[i].payload.SessionClosePending?;
        assert longer[i].payload.SessionClosePending?;
      }
    }
  }

  /** Which records the two shutdown facts come from. */
  lemma ShutdownRecord(cfg: Config, w: World, a: Act)
    requires Enabled(cfg, w, a) && IdsMinted(w) && RecordOf(cfg, w, a).Some?
    ensures var r := RecordOf(cfg, w, a).value;
            && (r.payload.SessionClosePending? <==> a.LogPending?)
            && (IsCompletion(cfg, r) ==> a.WriteOwn? && a.payload.SessionCompleted?)
            && (a.LogPending? ==> !Has(w.persister.log, r.id))
  {
  }

  /** What an action does to the closure and the log. */
  lemma ClosureEffect(cfg: Config, w: World, a: Act)
    requires Enabled(cfg, w, a) && ShutdownTracked(w)
    ensures var w' := Apply(cfg, w, a);
            && w'.persister.log == LogAfter(cfg, w, a)
            && (w'.closure.None? ==> w.closure.None? && !a.LogPending? && !(a.WriteOwn? && a.payload.SessionCompleted?))
            && (a.BeginClose? ==>
                w.closure.None? && w'.closure.Some? && !w'.closure.value.announced && w'.closure.value.completions == 0)
            && (!a.BeginClose? && w'.closure.Some? ==>
                  && w.closure.Some?
                  && w'.closure.value.announced == (if a.LogPending? then WriteOk(w) else w.closure.value.announced)
                  && (a.LogPending? ==> !w.closure.value.announced)
                  && w'.closure.value.completions
                       == w.closure.value.completions + if a.WriteOwn? && a.payload.SessionCompleted? then 1 else 0)
            && (a.WriteOwn? && a.payload.SessionCompleted? ==> w.closure.Some? && w.closure.value.announced)
  {
    hide LogAfter, RegsAfter, CtosAfter, PurposesAfter, PendingAfter, Registered;
  }

  lemma LogShowsStep(cfg: Config, w: World, a: Act)
    requires LogShows(cfg, w) && ShutdownTracked(w) && IdsMinted(w) && Enabled(cfg, w, a)
    ensures LogShows(cfg, Apply(cfg, w, a))
  {
    hide Apply, Enabled, PendingRecords, CompletionRecords, CompletionFollows, RecordOf, IdsMinted, ShutdownTracked;
    hide IsCompletion;
    ClosureEffect(cfg, w, a);
    if RecordOf(cfg, w, a).Some? {
      ShutdownRecord(cfg, w, a);
      var r := RecordOf(cfg, w, a).value;
      CountAppend(cfg, w.persister.log, r);
      if LogAfter(cfg, w, a) != w.persister.log {
        FollowsAppend(cfg, w.persister.log, r);
      }
    } else {
      QuietWriter(cfg, w, a);
    }
  }

  lemma QuietWriter(cfg: Config, w: World, a: Act)
    requires RecordOf(cfg, w, a).None?
    ensures !a.LogPending? && !a.WriteOwn?
  {
  }

  /** Shutdown safety for any acknowledgement timing: session_close_pending is written at most once, the persister's
      session_completed at most once and only after it. */
  lemma {:induction false} ShutdownShows(cfg: Config, w: World)
    requires Legal(cfg, w)
    ensures LogShows(cfg, w) && PendingRecords(w.persister.log) <= 1 && CompletionRecords(cfg, w.persister.log) <= 1
    decreases |w.hist|
  {
    hide Legal, Enabled, Apply, LogShows;
    ShutdownIsTracked(cfg, w);
    if w.hist == [] {
      Beginning(cfg, w);
      InitShows(cfg);
    } else {
      var p, a := Before(cfg, w);
      ShutdownShows(cfg, p);
      ShutdownIsTracked(cfg, p);
      IdsAreMinted(cfg, p);
      LogShowsStep(cfg, p, a);
    }
    CountsFromShows(cfg, w);
  }

  lemma CountsFromShows(cfg: Config, w: World)
    requires LogShows(cfg, w) && ShutdownTracked(w)
    ensures PendingRecords(w.persister.log) <= 1 && CompletionRecords(cfg, w.persister.log) <= 1
  {
  }

  lemma InitShows(cfg: Config)
    ensures LogShows(cfg, Init(cfg))
  {
    var log := Init(cfg).persister.log;
    CountAppend(cfg, [], log[0]);
    assert [log[0]] == [] + [log[0]];
    if |log| == 2 {
      CountAppend(cfg, [log[0]], log[1]);
      assert log == [log[0]] + [log[1]];
    } else {
      assert log == [log[0]];
    }
  }

  // ---------------------------------------------------------------- who has acknowledged

  /** After closing of the session began, an acknowledgement of this Purpose for it was admitted and written. */
  ghost predicate Acknowledged(cfg: Config, hist: seq<Act>, sid: SessionId, who: PurposeId) {
    exists b, i :: 0 <= b < i < |hist| && BeginsClosing(hist[b], sid) && Acks(cfg, hist, i, sid, who)
  }

  predicate BeginsClosing(a: Act, sid: SessionId) {
    a.BeginClose? && a.sid == sid
  }

  ghost predicate Acks(cfg: Config, hist: seq<Act>, i: nat, sid: SessionId, who: PurposeId) {
    i < |hist| && Acknowledges(hist[i], sid, who) && WriteOk(Run(cfg, hist[..i]))
  }

  /** The shutdown's history is what the run did: nothing has begun, or it began for this session, with those registered
      at that point to wait for, and exactly those who have acknowledged since count as having done so. */
  ghost predicate ClosureIsHistory(cfg: Config, w: World) {
    match w.closure
    case None => forall b | 0 <= b < |w.hist| :: !w.hist[b].BeginClose?
    case Some(c) =>
      && (exists b :: 0 <= b < |w.hist| && BeginsClosing(w.hist[b], c.sid) && c.at == Registered(Run(cfg, w.hist[..b])))
      && (forall p :: p in c.acknowledged <==> Acknowledged(cfg, w.hist, c.sid, p))
  }

  lemma AcknowledgedGrows(cfg: Config, hist: seq<Act>, a: Act, sid: SessionId, who: PurposeId)
    requires exists b :: 0 <= b < |hist| && BeginsClosing(hist[b], sid)
    ensures Acknowledged(cfg, hist + [a], sid, who) <==>
              Acknowledged(cfg, hist, sid, who) || (Acknowledges(a, sid, who) && WriteOk(Run(cfg, hist)))
  {
    hide Run, Acknowledges, WriteOk, BeginsClosing;
    var longer := hist + [a];
    assert longer[..|hist|] == hist;
    assert forall i | 0 <= i < |hist| :: longer[i] == hist[i] && longer[..i] == hist[..i];
    if Acknowledged(cfg, hist, sid, who) {
      var b, i :| 0 <= b < i < |hist| && BeginsClosing(hist[b], sid) && Acks(cfg, hist, i, sid, who);
      assert BeginsClosing(longer[b], sid) && Acks(cfg, longer, i, sid, who);
    }
    if Acknowledges(a, sid, who) && WriteOk(Run(cfg, hist)) {
      var b :| 0 <= b < |hist| && BeginsClosing(hist[b], sid);
      assert BeginsClosing(longer[b], sid) && Acks(cfg, longer, |hist|, sid, who);
    }
    if Acknowledged(cfg, longer, sid, who) {
      var b, i :| 0 <= b < i < |longer| && BeginsClosing(longer[b], sid) && Acks(cfg, longer, i, sid, who);
      if i < |hist| { assert BeginsClosing(hist[b], sid) && Acks(cfg, hist, i, sid, who); }
    }
  }

  /** What an action does to the closure's history. */
  lemma ClosureStep(cfg: Config, w: World, a: Act)
    requires Enabled(cfg, w, a) && ShutdownTracked(w)
    ensures var w' := Apply(cfg, w, a);
            && w'.hist == w.hist + [a]
            && (a.BeginClose? ==> w.closure.None? && w'.closure.Some? && w'.closure.value.sid == a.sid
                                  && w'.closure.value.at == Registered(w) && w'.closure.value.acknowledged == {})
            && (!a.BeginClose? && w.closure.None? ==> w'.closure.None?)
            && (!a.BeginClose? && w.closure.Some? ==>
                  && w'.closure.Some? && w'.closure.value.sid == w.closure.value.sid
                     && w'.closure.value.at == w.closure.value.at
                  && forall p :: p in w'.closure.value.acknowledged <==>
                       p in w.closure.value.acknowledged || (Acknowledges(a, w.closure.value.sid, p) && WriteOk(w)))
  {
    hide HubAfter, PurposesAfter, PersisterAfter, Registered;
  }

  lemma ClosureIsHistoryStep(cfg: Config, w: World, a: Act)
    requires ClosureIsHistory(cfg, w) && ShutdownTracked(w) && Enabled(cfg, w, a) && w == Run(cfg, w.hist)
    ensures ClosureIsHistory(cfg, Apply(cfg, w, a))
  {
    hide Apply, Enabled, ShutdownTracked, Acknowledged, Run, Registered;
    var w' := Apply(cfg, w, a);
    ClosureStep(cfg, w, a);
    assert forall i | 0 <= i < |w.hist| :: w'.hist[i] == w.hist[i] && w'.hist[..i] == w.hist[..i];
    assert w'.hist[..|w.hist|] == w.hist;
    if a.BeginClose? {
      assert BeginsClosing(w'.hist[|w.hist|], a.sid);
      forall p
        ensures !Acknowledged(cfg, w'.hist, a.sid, p)
      {
        NotYetBegun(cfg, w.hist, a, p);
      }
    } else if w.closure.Some? {
      var c := w.closure.value;
      var b :| 0 <= b < |w.hist| && BeginsClosing(w.hist[b], c.sid) && c.at == Registered(Run(cfg, w.hist[..b]));
      assert BeginsClosing(w'.hist[b], c.sid);
      forall p
        ensures p in w'.closure.value.acknowledged <==> Acknowledged(cfg, w'.hist, c.sid, p)
      {
        AcknowledgedGrows(cfg, w.hist, a, c.sid, p);
      }
    }
  }

  lemma NotYetBegun(cfg: Config, hist: seq<Act>, a: Act, who: PurposeId)
    requires a.BeginClose? && forall b | 0 <= b < |hist| :: !hist[b].BeginClose?
    ensures !Acknowledged(cfg, hist + [a], a.sid, who)
  {
  }

  lemma {:induction false} ClosureTellsHistory(cfg: Config, w: World)
    requires Legal(cfg, w)
    ensures ClosureIsHistory(cfg, w)
    decreases |w.hist|
  {
    hide Enabled, Apply, ClosureIsHistory, AllEnabled;
    if w.hist == [] {
      NothingBegun(cfg, w);
    } else {
      var p, a := Before(cfg, w);
      ClosureTellsHistory(cfg, p);
      ShutdownIsTracked(cfg, p);
      ClosureIsHistoryStep(cfg, p, a);
    }
  }

  lemma NothingBegun(cfg: Config, w: World)
    requires Legal(cfg, w) && w.hist == []
    ensures ClosureIsHistory(cfg, w)
  {
  }

  /** Those a shutdown must still hear from, as the run has it. */
  ghost function Waiting(cfg: Config, w: World): set<PurposeId>
    requires w.closure.Some?
  {
    set p | p in w.closure.value.at && !Acknowledged(cfg, w.hist, w.closure.value.sid, p)
  }

  /** Shutdown safety for any acknowledgement timing, deferred and duplicate ones included: at the beginning and the
      end of every call and callback the pending set is exactly those registered when closing began whose
      acknowledgement has not been admitted and written since, and the all-clear has been attempted exactly when there
      are none. */
  lemma PendingIsExact(cfg: Config, w: World)
    requires Calm(cfg, w) && w.closure.Some?
    ensures var c, waiting := w.closure.value, Waiting(cfg, w);
            && w.hub.pending == (if waiting == {} then map[] else map[c.sid := waiting])
            && (AllClear(w) <==> waiting == {})
  {
    hide Legal, Acknowledged;
    ShutdownIsTracked(cfg, w);
    ClosureTellsHistory(cfg, w);
    assert Waiting(cfg, w) == Left(w.closure.value);
  }

  /** With no failed write, session_close_pending is in the log exactly when nobody is waited for. */
  lemma AllClearIsExact(cfg: Config, w: World)
    requires Calm(cfg, w) && w.closure.Some? && NoFailedWrite(cfg)
    ensures PendingRecords(w.persister.log) == 1 <==> Waiting(cfg, w) == {}
  {
    hide Legal, Acknowledged, PendingRecords, CompletionRecords, CompletionFollows;
    PendingIsExact(cfg, w);
    ShutdownShows(cfg, w);
    AllClearWritten(cfg, w);
  }

  lemma AnnouncedStep(cfg: Config, w: World, a: Act)
    requires Enabled(cfg, w, a) && WriteOk(w)
    requires w.closure.Some? ==> (w.closure.value.announced <==> w.closure.value.pendings > 0)
    ensures var v := Apply(cfg, w, a);
            v.closure.Some? ==> (v.closure.value.announced <==> v.closure.value.pendings > 0)
  {
    hide HubAfter, PurposesAfter, PersisterAfter, Registered;
  }

  lemma {:induction false} AllClearWritten(cfg: Config, w: World)
    requires Legal(cfg, w) && NoFailedWrite(cfg)
    ensures w.closure.Some? ==> (w.closure.value.announced <==> w.closure.value.pendings > 0)
    decreases |w.hist|
  {
    hide Legal, Enabled, Apply;
    if w.hist == [] {
      Beginning(cfg, w);
    } else {
      var p, a := Before(cfg, w);
      AllClearWritten(cfg, p);
      WritesSucceed(cfg, p);
      AnnouncedStep(cfg, p, a);
    }
  }

  /** The all-clear is given only when everyone registered at closing has acknowledged. */
  lemma AllClearMeansAllAcknowledged(cfg: Config, w: World)
    requires Legal(cfg, w) && PendingRecords(w.persister.log) > 0
    ensures w.closure.Some? && forall p | p in w.closure.value.at :: Acknowledged(cfg, w.hist, w.closure.value.sid, p)
    ensures w.closure.value.sid !in w.hub.pending
  {
    hide Legal, PendingRecords, CompletionRecords, CompletionFollows, Acknowledged;
    ShutdownShows(cfg, w);
    ShutdownIsTracked(cfg, w);
    ClosureTellsHistory(cfg, w);
    var c := w.closure.value;
    assert forall p | p in c.at :: p !in Left(c);
  }
}
