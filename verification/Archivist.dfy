/** The Archivist: filtered fan-out of the log to backends, and the session document (archivist.py). */
module Archivist {
  import opened Wrappers
  import opened Ctos
  import opened Events
  import opened World
  import opened Invariants
  import opened Hub
  import opened History

  // ---------------------------------------------------------------- filters

  /** `_event_type_value`. */
  function TypeOf(p: Payload): string {
    match p
    case CtoStarted(_, _, _) => "cto_started"
    case DeltaMerged(_, _) => "delta_merged"
    case DeltaRejected(_, _) => "delta_rejected"
    case SessionClosing(_, _) => "session_closing"
    case SessionClosePending(_) => "session_close_pending"
    case ProposeDelta(_) => "propose_delta"
    case PurposeStarted(_, _, _) => "purpose_started"
    case SessionStarted => "session_started"
    case RequestCto(_, _, _, _, _, _, _) => "request_cto"
    case CtoImported(_, _, _, _, _, _, _, _, _) => "cto_imported"
    case RequestSessionEnd(_, _) => "request_session_end"
    case PurposeCompleted(_, _) => "purpose_completed"
    case SessionCompleted(_) => "session_completed"
    case RequestCtoClose(_) => "request_cto_close"
    case Custom(event, _) => event
  }

  datatype BackendConfig = BackendConfig(types: Option<set<string>>, profile: Option<string>)

  /** The profile an event's `cto_index` names. */
  function IndexedProfile(p: Payload): Option<string> {
    match p
    case CtoStarted(index, _, _) => Some(index.profile.id)
    case DeltaMerged(_, index) => Some(index.profile.id)
    case _ => None
  }

  /** `ArchivistBackendConfig.matches`: the profile filter only bears on hub events of a turn whose payload has an
      index. */
  predicate Selects(c: BackendConfig, r: Record) {
    && (c.types.None? || TypeOf(r.payload) in c.types.value)
    && (c.profile.Some? && r.origin == FromHub && r.turn.Some? && IndexedProfile(r.payload).Some? ==>
          IndexedProfile(r.payload) == c.profile)
  }

  /** The name records of this kind go by. */
  predicate IsNamed(p: Payload, name: string) {
    || (p.CtoStarted? && name == "cto_started") || (p.DeltaMerged? && name == "delta_merged")
    || (p.DeltaRejected? && name == "delta_rejected") || (p.SessionClosing? && name == "session_closing")
    || (p.SessionClosePending? && name == "session_close_pending")
    || (p.ProposeDelta? && name == "propose_delta") || (p.PurposeStarted? && name == "purpose_started")
    || (p.SessionStarted? && name == "session_started") || (p.RequestCto? && name == "request_cto")
    || (p.CtoImported? && name == "cto_imported") || (p.RequestSessionEnd? && name == "request_session_end")
    || (p.PurposeCompleted? && name == "purpose_completed") || (p.SessionCompleted? && name == "session_completed")
    || (p.RequestCtoClose? && name == "request_cto_close") || (p.Custom? && name == p.event)
  }

  /** The hub's announcement of a turn's start or of a merge into a turn, which names this profile. */
  predicate TellsOf(r: Record, profile: string) {
    && r.origin.FromHub? && r.turn.Some?
    && ((r.payload.CtoStarted? && r.payload.index.profile.id == profile)
        || (r.payload.DeltaMerged? && r.payload.index.profile.id == profile))
  }

  /** What a backend is to get: of the types it asks for, if it asks for any; and of the announcements of turns only
      those of its profile, if it names one. Every other record has no profile and passes. */
  ghost predicate Wanted(c: BackendConfig, r: Record) {
    && (c.types.Some? ==> exists name :: name in c.types.value && IsNamed(r.payload, name))
    && (c.profile.Some? ==> forall profile | TellsOf(r, profile) :: profile == c.profile.value)
  }

  /** The filter of a backend's configuration lets through exactly that. */
  lemma SelectsExactly(c: BackendConfig, r: Record)
    ensures Selects(c, r) <==> Wanted(c, r)
  {
    assert forall name :: IsNamed(r.payload, name) <==> name == TypeOf(r.payload);
    if c.profile.Some? && IndexedProfile(r.payload).Some? && r.origin.FromHub? && r.turn.Some? {
      assert TellsOf(r, IndexedProfile(r.payload).value);
    }
  }

  /** The admitted records of a log, in order. */
  function Filter(c: BackendConfig, log: seq<Record>): seq<Record> {
    if log == [] then []
    else Filter(c, log[..|log| - 1]) + (if Selects(c, log[|log| - 1]) then [log[|log| - 1]] else [])
  }

  lemma {:induction false} FilterSplits(c: BackendConfig, a: seq<Record>, b: seq<Record>)
    ensures Filter(c, a + b) == Filter(c, a) + Filter(c, b)
    decreases |b|
  {
    if b == [] {
      assert a + b == a;
    } else {
      var k := |b| - 1;
      assert (a + b)[..|a + b| - 1] == a + b[..k];
      FilterSplits(c, a, b[..k]);
    }
  }

  /** Filtering keeps every admitted record as often as it occurs, and nothing else. */
  lemma {:induction false} FilterCounts(c: BackendConfig, log: seq<Record>, r: Record)
    ensures multiset(Filter(c, log))[r] == if Wanted(c, r) then multiset(log)[r] else 0
  {
    SelectsExactly(c, r);
    if log != [] {
      var k := |log| - 1;
      FilterCounts(c, log[..k], r);
      assert log == log[..k] + [log[k]];
    }
  }

  /** The hub's announcements of turns name their turn. */
  ghost predicate TurnsNamed(log: seq<Record>) {
    forall i | 0 <= i < |log| && log[i].origin.FromHub?
               && (log[i].payload.CtoStarted? || log[i].payload.DeltaMerged?) :: log[i].turn.Some?
  }

  lemma TurnsNamedStep(cfg: Config, w: World, a: Act)
    requires TurnsNamed(w.persister.log) && Enabled(cfg, w, a)
    ensures TurnsNamed(Apply(cfg, w, a).persister.log)
  {
    hide HubAfter, PurposesAfter, ClosureAfter;
  }

  lemma {:induction false} TurnsAreNamed(cfg: Config, w: World)
    requires Legal(cfg, w)
    ensures TurnsNamed(w.persister.log)
    decreases |w.hist|
  {
    hide Legal, Enabled, Apply;
    if w.hist == [] {
      Beginning(cfg, w);
    } else {
      var p, a := Before(cfg, w);
      TurnsAreNamed(cfg, p);
      TurnsNamedStep(cfg, p, a);
    }
  }

  /** Of any run's log a backend for one profile gets every record but the hub's announcements of turns of another
      profile. */
  lemma ProfileBackendGets(cfg: Config, w: World, profile: string, i: nat)
    requires Legal(cfg, w) && i < |w.persister.log|
    ensures var r := w.persister.log[i];
            Selects(BackendConfig(None, Some(profile)), r) <==>
              !(r.origin.FromHub? && ((r.payload.CtoStarted? && r.payload.index.profile.id != profile)
                                      || (r.payload.DeltaMerged? && r.payload.index.profile.id != profile)))
  {
    hide Legal;
    TurnsAreNamed(cfg, w);
  }

  // ---------------------------------------------------------------- session documents

  datatype SessionDocument = SessionDocument(id: Option<SessionId>, events: seq<Record>)

  /** The document's id is taken from hub events only. */
  function HeaderId(r: Record): Option<SessionId> {
    if r.origin == FromHub then r.session else None
  }

  /** The events of the document last flushed: all accepted up to the last session_completed that was. */
  function Flushed(c: BackendConfig, log: seq<Record>): Option<seq<Record>> {
    if log == [] then None
    else
      var k := |log| - 1;
      if Selects(c, log[k]) && log[k].payload.SessionCompleted? then Some(Filter(c, log))
      else Flushed(c, log[..k])
  }

  predicate Closes(c: BackendConfig, log: seq<Record>, n: nat) {
    0 < n <= |log| && Selects(c, log[n - 1]) && log[n - 1].payload.SessionCompleted?
  }

  /** A document exists exactly when a session_completed was accepted, and holds what was accepted up to the
      last one. */
  lemma {:induction false} FlushedAtCompletion(c: BackendConfig, log: seq<Record>)
    ensures Flushed(c, log).Some? <==> exists n: nat :: Closes(c, log, n)
    ensures Flushed(c, log).Some? ==>
              exists n: nat :: Closes(c, log, n) && Flushed(c, log).value == Filter(c, log[..n])
                               && forall m: nat | Closes(c, log, m) :: m <= n
  {
    if log != [] {
      var k := |log| - 1;
      if Selects(c, log[k]) && log[k].payload.SessionCompleted? {
        assert Closes(c, log, |log|) && log[..|log|] == log;
      } else {
        FlushedAtCompletion(c, log[..k]);
        forall m: nat
          ensures Closes(c, log, m) <==> Closes(c, log[..k], m)
        {
        }
        if Flushed(c, log).Some? {
          var n: nat :| Closes(c, log[..k], n) && Flushed(c, log).value == Filter(c, log[..k][..n])
                        && forall m: nat | Closes(c, log[..k], m) :: m <= n;
          assert log[..k][..n] == log[..n];
        }
      }
    }
  }

  /** A durable run whose hub has just closed has flushed everything: each document holds the whole log its backend
      admits. */
  lemma ClosedSessionIsDocumented(cfg: Config, w: World, c: BackendConfig)
    requires Legal(cfg, w) && w.hub.closed && w.hist != [] && w.hist[|w.hist| - 1].Finish?
    requires c.types.None? || "session_completed" in c.types.value
    ensures Flushed(c, w.persister.log) == Some(Filter(c, w.persister.log))
  {
    hide Legal, Filter;
    CompletionStaysLast(cfg, w, w);
  }

  /** session_completed is always a Purpose's event. */
  ghost predicate CompletionsFromPurposes(log: seq<Record>) {
    forall i | 0 <= i < |log| && log[i].payload.SessionCompleted? :: log[i].origin != FromHub
  }

  lemma CompletionsStep(cfg: Config, w: World, a: Act)
    requires CompletionsFromPurposes(w.persister.log) && Enabled(cfg, w, a)
    ensures CompletionsFromPurposes(Apply(cfg, w, a).persister.log)
  {
    hide HubAfter, PurposesAfter, ClosureAfter;
  }

  /** So the id of every flushed document is null, in every run, although its session_completed has a session. */
  lemma {:induction false} DocumentsHaveNoId(cfg: Config, w: World, i: nat)
    requires Legal(cfg, w) && i < |w.persister.log| && w.persister.log[i].payload.SessionCompleted?
    ensures HeaderId(w.persister.log[i]) == None
  {
    CompletionsAreFromPurposes(cfg, w);
  }

  lemma {:induction false} CompletionsAreFromPurposes(cfg: Config, w: World)
    requires Legal(cfg, w)
    ensures CompletionsFromPurposes(w.persister.log)
    decreases |w.hist|
  {
    hide Legal, Enabled, Apply;
    if w.hist == [] {
      Beginning(cfg, w);
    } else {
      var p, a := Before(cfg, w);
      CompletionsAreFromPurposes(cfg, p);
      CompletionsStep(cfg, p, a);
    }
  }

  // ---------------------------------------------------------------- the objects

  /** A backend: a JSONL file gets a line an event; a session document is written when session_completed arrives. */
  class Backend {
    const documents: bool
    const durable: bool
    var records: seq<Record>
    var document: Option<SessionDocument>

    constructor (documents: bool, durable: bool)
      ensures this.documents == documents && this.durable == durable && records == [] && document == None
    {
      this.documents, this.durable, records, document := documents, durable, [], None;
    }

    /** `accept`. */
    method Accept(r: Record)
      modifies this
      ensures records == old(records) + [r]
      ensures document == if documents && r.payload.SessionCompleted? then Some(SessionDocument(HeaderId(r), records))
                          else old(document)
    {
      records := records + [r];
      if documents && r.payload.SessionCompleted? {
        document := Some(SessionDocument(HeaderId(r), records));
      }
    }
  }

  /** The fan-out of a record to the backends from position i, of which those named raise when they are given one: what
      each backend then holds, and whether none raised. The first to raise ends it. */
  function FanOut(configs: seq<BackendConfig>, failing: set<nat>, r: Record, held: seq<seq<Record>>,
                  i: nat): (seq<seq<Record>>, bool)
    requires |held| == |configs| && i <= |configs|
    decreases |configs| - i
  {
    if i == |configs| then (held, true)
    else if !Selects(configs[i], r) then FanOut(configs, failing, r, held, i + 1)
    else if i in failing then (held, false)
    else FanOut(configs, failing, r, held[i := held[i] + [r]], i + 1)
  }

  /** This backend is the first of those from position i on that admit the record and raise on it; exactly those that
      admit it before have got it. */
  ghost predicate StoppedAt(configs: seq<BackendConfig>, failing: set<nat>, r: Record, held: seq<seq<Record>>,
                      after: seq<seq<Record>>, i: nat, f: nat)
    requires |held| == |after| == |configs|
  {
    && i <= f < |configs| && Wanted(configs[f], r) && f in failing
    && (forall k | i <= k < f && Wanted(configs[k], r) :: k !in failing)
    && forall k | i <= k < |configs| :: after[k] == held[k] + (if Wanted(configs[k], r) && k < f then [r] else [])
  }

  /** Exactly what one more record leaves: every backend that admits it has it, after what it held, if and only if
      none of those raises; if one does, exactly those that admit it before the first to raise have it. */
  lemma {:induction false} FanOutOutcome(configs: seq<BackendConfig>, failing: set<nat>, r: Record,
                                         held: seq<seq<Record>>, i: nat)
    requires |held| == |configs| && i <= |configs|
    ensures var (after, ok) := FanOut(configs, failing, r, held, i);
            && |after| == |held| && (forall k | 0 <= k < i :: after[k] == held[k])
            && (ok <==> forall k | i <= k < |configs| && Wanted(configs[k], r) :: k !in failing)
            && (ok <==> forall k | i <= k < |configs| && Wanted(configs[k], r) :: after[k] == held[k] + [r])
            && (ok ==> forall k | i <= k < |configs| && !Wanted(configs[k], r) :: after[k] == held[k])
            && (!ok ==> exists f: nat :: StoppedAt(configs, failing, r, held, after, i, f))
    decreases |configs| - i
  {
    if i < |configs| { SelectsExactly(configs[i], r); }
    if i == |configs| {
    } else if Selects(configs[i], r) && i in failing {
      assert StoppedAt(configs, failing, r, held, held, i, i);
      assert |held[i]| != |held[i] + [r]|;
    } else {
      var next := if Selects(configs[i], r) then held[i := held[i] + [r]] else held;
      FanOutOutcome(configs, failing, r, next, i + 1);
      var (after, ok) := FanOut(configs, failing, r, next, i + 1);
      if !ok {
        var f: nat :| StoppedAt(configs, failing, r, next, after, i + 1, f);
        assert StoppedAt(configs, failing, r, held, after, i, f);
        assert |held[f]| != |held[f] + [r]|;
      }
    }
  }

  class Archivist {
    const configs: seq<BackendConfig>
    const backends: seq<Backend>

    constructor (configs: seq<BackendConfig>, backends: seq<Backend>)
      requires |configs| == |backends|
      requires forall i, j | 0 <= i < j < |backends| :: backends[i] != backends[j]
      requires forall k | 0 <= k < |backends| :: backends[k].records == [] && backends[k].document == None
      ensures this.configs == configs && this.backends == backends
      ensures Holds([])
    {
      this.configs, this.backends := configs, backends;
    }

    /** One configuration a backend, and no backend twice. */
    ghost predicate Paired()
    {
      && |configs| == |backends|
      && forall i, j | 0 <= i < j < |backends| :: backends[i] != backends[j]
    }

    /** Every backend has exactly what its configuration admits of this log, and its document what was accepted when
        session_completed last was. */
    ghost predicate Holds(log: seq<Record>)
      reads backends
    {
      && Paired()
      && forall k | 0 <= k < |backends| ::
           && backends[k].records == Filter(configs[k], log)
           && (if backends[k].document.Some? then Some(backends[k].document.value.events) else None)
                == if backends[k].documents then Flushed(configs[k], log) else None
    }

    /** `is_durable`: whether any backend is. */
    method IsDurable() returns (durable: bool)
      ensures durable <==> exists k :: 0 <= k < |backends| && backends[k].durable
    {
      var i := 0;
      while i < |backends|
        invariant 0 <= i <= |backends|
        invariant forall k | 0 <= k < i :: !backends[k].durable
      {
        if backends[i].durable { return true; }
        i := i + 1;
      }
      return false;
    }

    /** What the backends hold. */
    ghost function Held(): (held: seq<seq<Record>>)
      reads backends
      ensures |held| == |backends|
    {
      seq(|backends|, k requires 0 <= k < |backends| reads backends => backends[k].records)
    }

    /** `_route_to_backends`; the backends named as failing raise when they are called, which ends the loop. Each
        backend that has got the record, and no other, has written its document if the record is session_completed. */
    method Route(r: Record, failing: set<nat>) returns (ok: bool)
      requires Paired()
      modifies backends
      ensures (Held(), ok) == FanOut(configs, failing, r, old(Held()), 0)
      ensures ok <==> forall k | 0 <= k < |backends| && Wanted(configs[k], r) ::
                backends[k].records == old(backends[k].records) + [r]
      ensures !ok ==> exists f: nat :: StoppedAt(configs, failing, r, old(Held()), Held(), 0, f)
      ensures forall k | 0 <= k < |backends| ::
                backends[k].document
                  == if backends[k].documents && r.payload.SessionCompleted?
                    && backends[k].records != old(backends[k].records)
                     then Some(SessionDocument(HeaderId(r), backends[k].records)) else old(backends[k].document)
    {
      ok := true;
      var i := 0;
      while ok && i < |backends|
        invariant 0 <= i <= |backends|
        invariant ok ==> FanOut(configs, failing, r, Held(), i) == FanOut(configs, failing, r, old(Held()), 0)
        invariant !ok ==> (Held(), ok) == FanOut(configs, failing, r, old(Held()), 0)
        invariant forall k | 0 <= k < |backends| :: k < i ==>
                    backends[k].document
                      == if backends[k].documents && r.payload.SessionCompleted?
                        && backends[k].records != old(backends[k].records)
                         then Some(SessionDocument(HeaderId(r), backends[k].records)) else old(backends[k].document)
        invariant forall k | i <= k < |backends| ::
                    backends[k].records == old(backends[k].records) && backends[k].document == old(backends[k].document)
      {
        if Selects(configs[i], r) {
          if i in failing {
            ok := false;
          } else {
            ghost var held := Held();
            backends[i].Accept(r);
            assert backends[i].records[|held[i]|..] == [r];
            assert Held() == held[i := held[i] + [r]];
            i := i + 1;
          }
        } else {
          i := i + 1;
        }
      }
      FanOutOutcome(configs, failing, r, old(Held()), 0);
      assert forall k | 0 <= k < |backends| ::
               Held()[k] == backends[k].records && old(Held())[k] == old(backends[k].records);
    }

    /** Fan-out is filtering: storing the next event of a log, with no backend failing, gives it to exactly those that
        want it, and keeps every backend at the order-preserving filter of the log. */
    method Store(r: Record, ghost log: seq<Record>)
      requires Holds(log)
      modifies backends
      ensures Holds(log + [r])
      ensures forall k | 0 <= k < |backends| ::
                backends[k].records == old(backends[k].records) + (if Wanted(configs[k], r) then [r] else [])
    {
      forall k | 0 <= k < |backends|
        ensures Selects(configs[k], r) <==> Wanted(configs[k], r)
      {
        SelectsExactly(configs[k], r);
      }
      assert (log + [r])[..|log|] == log;
      FanOutOutcome(configs, {}, r, Held(), 0);
      var ok := Route(r, {});
    }
  }
}
