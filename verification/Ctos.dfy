/** Canonical Turn Objects, Deltas and the append-only merge (cto.py, delta.py, hub.py `_merge_delta`). */
module Ctos {
  import opened Wrappers
  import opened Json

  // UUIDs are drawn from one counter; the synonyms only name what they identify.
  type PurposeId = nat
  type SessionId = nat
  type TurnId = nat
  type EventId = nat

  /** `content_profile`: the version is kept as the value it was given as. */
  datatype ProfileRef = ProfileRef(id: string, version: Value)

  type Entries = seq<Dict>
  type Observations = map<string, Entries>

  datatype CTO = CTO(
    turn: TurnId, session: SessionId, createdAt: int, profile: ProfileRef, content: Dict,
    observations: Observations, lastEvent: Option<EventId>)

  /** The routing reference events carry in place of the CTO. */
  datatype CTOIndex = CTOIndex(
    turn: TurnId, session: SessionId, profile: ProfileRef, createdAt: int, lastEvent: Option<EventId>)

  function ToIndex(c: CTO): CTOIndex {
    CTOIndex(c.turn, c.session, c.profile, c.createdAt, c.lastEvent)
  }

  /** A patch is a dict, so its keys come in insertion order. */
  type Patch = seq<(string, Value)>

  datatype Delta = Delta(
    id: nat, session: SessionId, turn: TurnId, name: string, author: PurposeId, patch: Patch, basedOn: Option<EventId>)

  /** Every patch value is a list: what the hub checks before merging. */
  predicate IsListPatch(patch: Patch) {
    forall i | 0 <= i < |patch| :: patch[i].1.List?
  }

  /** The entry one patch item becomes. */
  function Entry(key: string, v: Value): Dict {
    map["key" := Str(key), "value" := v]
  }

  function EntriesOf(key: string, items: seq<Value>): (es: Entries)
    ensures |es| == |items|
    ensures forall i | 0 <= i < |items| :: es[i] == Entry(key, items[i])
  {
    if items == [] then [] else [Entry(key, items[0])] + EntriesOf(key, items[1..])
  }

  /** The entries a patch appends, in patch order. */
  function PatchEntries(patch: Patch): Entries {
    if patch == [] then []
    else (if patch[0].1.List? then EntriesOf(patch[0].0, patch[0].1.items) else []) + PatchEntries(patch[1..])
  }

  function PatchSize(patch: Patch): nat {
    if patch == [] then 0
    else (if patch[0].1.List? then |patch[0].1.items| else 0) + PatchSize(patch[1..])
  }

  /** A namespace that is not there yet reads as empty. */
  function Namespace(obs: Observations, name: string): Entries {
    if name in obs then obs[name] else []
  }

  /** What `_merge_delta` makes of the observations. */
  function MergeObs(obs: Observations, d: Delta): Observations {
    obs[d.name := Namespace(obs, d.name) + PatchEntries(d.patch)]
  }

  function MergeAll(obs: Observations, ds: seq<Delta>): Observations
    decreases ds
  {
    if ds == [] then obs else MergeAll(MergeObs(obs, ds[0]), ds[1..])
  }

  /** The deltas that name one namespace, in order. */
  function InNamespace(ds: seq<Delta>, name: string): seq<Delta> {
    if ds == [] then []
    else (if ds[0].name == name then [ds[0]] else []) + InNamespace(ds[1..], name)
  }

  function AllEntries(ds: seq<Delta>): Entries {
    if ds == [] then [] else PatchEntries(ds[0].patch) + AllEntries(ds[1..])
  }

  /** A merge appends exactly as many entries as the patch has items. */
  lemma {:induction false} PatchEntriesSize(patch: Patch)
    ensures |PatchEntries(patch)| == PatchSize(patch)
  {
    if patch != [] {
      PatchEntriesSize(patch[1..]);
    }
  }

  /** The entry at position k is this one. */
  predicate StandsAt(es: Entries, k: nat, entry: Dict) {
    k < |es| && es[k] == entry
  }

  /** What a namespace list has gained by a patch: after the entries it had, one for every item of every value that is a
      list, keys in patch order and items in list order, each naming its key and holding the item. */
  ghost predicate Appended(before: Entries, after: Entries, patch: Patch) {
    && before <= after && |before| + PatchSize(patch) <= |after|
    && forall i: nat, j: nat | i < |patch| && patch[i].1.List? && j < |patch[i].1.items| ::
         StandsAt(after, |before| + PatchSize(patch[..i]) + j,
                  map["key" := Str(patch[i].0), "value" := patch[i].1.items[j]])
  }

  lemma {:induction false} PatchItemStands(patch: Patch, i: nat, j: nat)
    requires i < |patch| && patch[i].1.List? && j < |patch[i].1.items|
    ensures StandsAt(PatchEntries(patch), PatchSize(patch[..i]) + j,
                     map["key" := Str(patch[i].0), "value" := patch[i].1.items[j]])
  {
    var rest := patch[1..];
    if i > 0 {
      PatchItemStands(rest, i - 1, j);
      assert patch[..i][0] == patch[0] && patch[..i][1..] == rest[..i - 1];
    }
  }

  /** Exactly those entries are appended, and no more. */
  lemma PatchIsAppended(before: Entries, patch: Patch)
    ensures Appended(before, before + PatchEntries(patch), patch)
    ensures |before + PatchEntries(patch)| == |before| + PatchSize(patch)
  {
    PatchEntriesSize(patch);
    forall i: nat, j: nat | i < |patch| && patch[i].1.List? && j < |patch[i].1.items|
      ensures StandsAt(before + PatchEntries(patch), |before| + PatchSize(patch[..i]) + j,
                       map["key" := Str(patch[i].0), "value" := patch[i].1.items[j]])
    {
      PatchItemStands(patch, i, j);
    }
  }

  /** Later entries do not disturb them. */
  lemma AppendedStays(before: Entries, after: Entries, later: Entries, patch: Patch)
    requires Appended(before, after, patch) && after <= later
    ensures Appended(before, later, patch)
  {
    forall i: nat, j: nat | i < |patch| && patch[i].1.List? && j < |patch[i].1.items|
      ensures StandsAt(later, |before| + PatchSize(patch[..i]) + j,
                       map["key" := Str(patch[i].0), "value" := patch[i].1.items[j]])
    {
      assert StandsAt(after, |before| + PatchSize(patch[..i]) + j,
                      map["key" := Str(patch[i].0), "value" := patch[i].1.items[j]]);
    }
  }

  /** What a later state of a turn has of a delta merged into it: identity and content as they were, the namespace its
      old entries and then the patch's, and every other namespace at least its old entries. */
  ghost predicate MergedInto(c: CTO, later: CTO, d: Delta) {
    && later.turn == c.turn && later.session == c.session && later.createdAt == c.createdAt
    && later.profile == c.profile && later.content == c.content
    && d.name in later.observations
    && Appended(if d.name in c.observations then c.observations[d.name] else [], later.observations[d.name], d.patch)
    && forall name | name in c.observations && name != d.name ::
         name in later.observations && c.observations[name] <= later.observations[name]
  }

  /** Of one that has just been merged there is nothing else. */
  ghost predicate JustMerged(c: CTO, later: CTO, d: Delta) {
    && MergedInto(c, later, d)
    && |later.observations[d.name]| == |if d.name in c.observations then c.observations[d.name] else []|
                                       + PatchSize(d.patch)
    && later.observations == c.observations[d.name := later.observations[d.name]]
  }

  lemma MergeIsMerged(c: CTO, d: Delta, id: EventId)
    ensures JustMerged(c, c.(observations := MergeObs(c.observations, d), lastEvent := Some(id)), d)
  {
    PatchIsAppended(Namespace(c.observations, d.name), d.patch);
  }

  lemma MergedStays(c: CTO, merged: CTO, later: CTO, d: Delta)
    requires MergedInto(c, merged, d) && Extends(merged.observations, later.observations)
    requires later == merged.(observations := later.observations, lastEvent := later.lastEvent)
    ensures MergedInto(c, later, d)
  {
    AppendedStays(if d.name in c.observations then c.observations[d.name] else [], merged.observations[d.name],
                  later.observations[d.name], d.patch);
    forall name | name in c.observations && name != d.name
      ensures name in later.observations && c.observations[name] <= later.observations[name]
    {
      assert c.observations[name] <= merged.observations[name] <= later.observations[name];
    }
  }

  /** Folding any deltas in: each namespace is its old list followed by the entries of the deltas naming it, and the
      namespaces present are the old ones and those named. */
  lemma {:induction false} MergeAllByNamespace(obs: Observations, ds: seq<Delta>, name: string)
    ensures Namespace(MergeAll(obs, ds), name) == Namespace(obs, name) + AllEntries(InNamespace(ds, name))
    ensures name in MergeAll(obs, ds) <==> name in obs || InNamespace(ds, name) != []
    decreases ds
  {
    if ds == [] {
    } else {
      var d, rest := ds[0], ds[1..];
      MergeAllByNamespace(MergeObs(obs, d), rest, name);
      var tail := InNamespace(rest, name);
      if d.name == name {
        assert InNamespace(ds, name) == [d] + tail;
        assert ([d] + tail)[1..] == tail;
        assert (Namespace(obs, name) + PatchEntries(d.patch)) + AllEntries(tail)
            == Namespace(obs, name) + (PatchEntries(d.patch) + AllEntries(tail));
      } else {
        assert InNamespace(ds, name) == tail;
      }
    }
  }

  /** Merge order does not matter across namespaces: two interleavings of the same per-namespace delta sequences give
      the same observations. */
  lemma MergeOrderIndependence(obs: Observations, ds: seq<Delta>, es: seq<Delta>)
    requires forall name :: InNamespace(ds, name) == InNamespace(es, name)
    ensures MergeAll(obs, ds) == MergeAll(obs, es)
  {
    var m, n := MergeAll(obs, ds), MergeAll(obs, es);
    forall name
      ensures name in m <==> name in n
      ensures Namespace(m, name) == Namespace(n, name)
    {
      MergeAllByNamespace(obs, ds, name);
      MergeAllByNamespace(obs, es, name);
    }
    assert m.Keys == n.Keys;
    forall name | name in m
      ensures m[name] == n[name]
    {
      assert Namespace(m, name) == Namespace(n, name);
    }
  }

  /** Each namespace list of `a` is a prefix of its list in `b`. */
  ghost predicate Extends(a: Observations, b: Observations) {
    forall name | name in a :: name in b && a[name] <= b[name]
  }

  lemma ExtendsTransitive(a: Observations, b: Observations, c: Observations)
    requires Extends(a, b) && Extends(b, c)
    ensures Extends(a, c)
  {
    forall name | name in a
      ensures name in c && a[name] <= c[name]
    {
      assert name in b && a[name] <= b[name] && b[name] <= c[name];
    }
  }

  /** The loop of `_merge_delta` over the patch items. */
  method ExtendNamespace(existing: Entries, patch: Patch) returns (entries: Entries)
    ensures entries == existing + PatchEntries(patch)
    ensures Appended(existing, entries, patch) && |entries| == |existing| + PatchSize(patch)
  {
    PatchIsAppended(existing, patch);
    entries := existing;
    var i := 0;
    while i < |patch|
      invariant 0 <= i <= |patch|
      invariant entries + PatchEntries(patch[i..]) == existing + PatchEntries(patch)
    {
      assert patch[i..][1..] == patch[i + 1..];
      if patch[i].1.List? {
        var key, items := patch[i].0, patch[i].1.items;
        ghost var before := entries;
        var j := 0;
        while j < |items|
          invariant 0 <= j <= |items|
          invariant entries == before + EntriesOf(key, items)[..j]
        {
          entries := entries + [Entry(key, items[j])];
          j := j + 1;
        }
        assert EntriesOf(key, items)[..j] == EntriesOf(key, items);
      }
      i := i + 1;
    }
  }
}
