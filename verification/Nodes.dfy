/**
 Dictionaries in memory, and what one write along a path does to them: which dictionary it reaches, what it leaves to be
 read, and which reads it cannot change (profile.py).
 */
module Nodes {
  import opened Wrappers
  import opened Json
  import opened Profiles

  /** A dictionary; its values are plain or dictionaries of their own. */
  class Node {
    var fields: map<string, Slot>

    /** How often it has been written to. */
    ghost var writes: nat

    constructor (fields: map<string, Slot>)
      ensures this.fields == fields && writes == 0
    {
      this.fields, writes := fields, 0;
    }

    /** `node[key] = value`: the only way a dictionary changes. */
    method Put(key: string, slot: Slot)
      modifies this
      ensures fields == old(fields)[key := slot] && writes == old(writes) + 1
    {
      fields := fields[key := slot];
      writes := writes + 1;
    }
  }

  datatype Slot = Leaf(value: Value) | Sub(node: Node)

  const NONE := Leaf(Null)

  /** `node.get(key)`. */
  function ValueAt(fields: map<string, Slot>, key: string): Slot {
    if key in fields then fields[key] else NONE
  }

  /** What a set of dictionaries holds at some moment. */
  type Memory = map<Node, map<string, Slot>>

  ghost function MemoryOf(nodes: set<Node>): (h: Memory)
    reads nodes
    ensures h.Keys == nodes
  {
    map n | n in nodes :: n.fields
  }

  /** A dictionary found in the memory is in it. */
  ghost predicate Known(h: Memory, s: Slot) {
    s.Sub? ==> s.node in h
  }

  /** Whatever a dictionary of the memory holds is in it too. */
  ghost predicate Closed(h: Memory) {
    forall n, k | n in h && k in h[n] :: Known(h, h[n][k])
  }

  /** What a path reads from its position t on, starting at a dictionary. */
  ghost function ReadFrom(h: Memory, n: Node, path: Path, t: nat): Slot
    requires Closed(h) && n in h && t < |path|
    decreases |path| - t
  {
    var s := ValueAt(h[n], path[t]);
    if t == |path| - 1 then s else if s.Leaf? then NONE else ReadFrom(h, s.node, path, t + 1)
  }

  /** The dictionary a write along the path reaches, and the position of the key it is written at: the last one, or the
      first at which there is no dictionary. */
  ghost function Target(h: Memory, n: Node, path: Path, t: nat): (r: (Node, nat))
    requires Closed(h) && n in h && t < |path|
    ensures r.0 in h && t <= r.1 < |path|
    decreases |path| - t
  {
    var s := ValueAt(h[n], path[t]);
    if t == |path| - 1 || s.Leaf? then (n, t) else Target(h, s.node, path, t + 1)
  }

  /** What a write puts at position t of its path: the value at the last one, elsewhere a dictionary of the next. */
  ghost predicate Links(s: Slot, path: Path, t: nat, slot: Slot, made: map<Node, nat>) {
    if t == |path| - 1 then s == slot else s.Sub? && s.node in made && made[s.node] == t + 1
  }

  ghost predicate LinksAlone(fields: map<string, Slot>, path: Path, t: nat, slot: Slot, made: map<Node, nat>) {
    t < |path| && fields.Keys == {path[t]} && Links(fields[path[t]], path, t, slot, made)
  }

  /** What one write does: the dictionary it reaches is the only one that changes, and of it only the key at position j;
      the new ones hold a key each, down to the value. */
  ghost predicate Written(h: Memory, h': Memory, d: Node, j: nat, path: Path, slot: Slot, made: map<Node, nat>) {
    && d in h && j < |path| && made.Keys !! h.Keys && h'.Keys == h.Keys + made.Keys
    && (forall n | n in h && n != d :: h'[n] == h[n])
    && path[j] in h'[d] && h'[d] == h[d][path[j] := h'[d][path[j]]] && Links(h'[d][path[j]], path, j, slot, made)
    && (forall c {:trigger h'[c]} | c in made :: j < made[c] && LinksAlone(h'[c], path, made[c], slot, made))
  }

  lemma WrittenIsClosed(h: Memory, h': Memory, d: Node, j: nat, path: Path, slot: Slot, made: map<Node, nat>)
    requires Closed(h) && Written(h, h', d, j, path, slot, made) && Known(h, slot)
    ensures Closed(h')
  {
    forall n, k | n in h' && k in h'[n]
      ensures Known(h', h'[n][k])
    {
      if n in made { assert LinksAlone(h'[n], path, made[n], slot, made); }
      else { assert k in h[n] ==> Known(h, h[n][k]); }
    }
  }

  // ---------------------------------------------------------------- the dictionaries that are one's own

  /** Where each dictionary of one's own is to be found: the keys that lead to it from the root. */
  type Homes = map<Node, seq<string>>

  /** One's own dictionaries form a tree, and nobody else's dictionary holds one of them. */
  ghost predicate Tree(h: Memory, root: Node, homes: Homes) {
    && Closed(h) && root in homes && homes[root] == [] && homes.Keys <= h.Keys
    && (forall n, k | n in h && k in h[n] && h[n][k].Sub? && h[n][k].node in homes ::
          n in homes && homes[h[n][k].node] == homes[n] + [k])
  }

  /** Along this path one meets no dictionary of anyone else's, except perhaps as the value at its end. */
  ghost predicate Private(h: Memory, homes: Homes, path: Path) {
    forall n, k | n in homes && n in h && k in h[n] && h[n][k].Sub? && h[n][k].node !in homes ::
        !(homes[n] + [k] < path)
  }

  lemma PrefixStep(path: seq<string>, t: nat)
    requires t < |path|
    ensures path[..t] + [path[t]] == path[..t + 1] && (t < |path| - 1 ==> path[..t + 1] < path)
  {
  }

  /** The next dictionary on a private path is one's own. */
  lemma StaysHome(h: Memory, root: Node, homes: Homes, path: Path, n: Node, t: nat)
    requires Tree(h, root, homes) && Private(h, homes, path) && n in homes && t < |path| - 1 && homes[n] == path[..t]
    requires ValueAt(h[n], path[t]).Sub?
    ensures var m := ValueAt(h[n], path[t]).node; m in homes && homes[m] == path[..t + 1]
  {
    PrefixStep(path, t);
    assert path[t] in h[n];
  }

  /** A write along a private path reaches a dictionary of one's own, the one its keys name. */
  lemma {:induction false} TargetIsHome(h: Memory, root: Node, homes: Homes, path: Path, n: Node, t: nat)
    requires Tree(h, root, homes) && Private(h, homes, path) && n in homes && t < |path| && homes[n] == path[..t]
    ensures var (d, j) := Target(h, n, path, t); d in homes && homes[d] == path[..j]
    decreases |path| - t
  {
    var s := ValueAt(h[n], path[t]);
    if t < |path| - 1 && s.Sub? {
      StaysHome(h, root, homes, path, n, t);
      TargetIsHome(h, root, homes, path, s.node, t + 1);
    }
  }

  /** From someone else's dictionary one reaches someone else's. */
  lemma {:induction false} TargetIsAway(h: Memory, root: Node, homes: Homes, path: Path, n: Node, t: nat)
    requires Tree(h, root, homes) && n in h && n !in homes && t < |path|
    ensures Target(h, n, path, t).0 !in homes
    decreases |path| - t
  {
    var s := ValueAt(h[n], path[t]);
    if t < |path| - 1 && s.Sub? {
      assert path[t] in h[n];
      TargetIsAway(h, root, homes, path, s.node, t + 1);
    }
  }

  /** A read along a private path is not changed by a write to a dictionary that is not on it. */
  lemma {:induction false} ReadsElsewhere(h: Memory, h': Memory, root: Node, homes: Homes, d: Node, path: Path,
                                          n: Node, t: nat)
    requires Tree(h, root, homes) && Closed(h') && Private(h, homes, path) && n in homes && t < |path|
             && homes[n] == path[..t]
    requires h.Keys <= h'.Keys && forall m | m in h && m != d :: h'[m] == h[m]
    requires d in homes ==> forall u | t <= u < |path| :: homes[d] != path[..u]
    ensures ReadFrom(h', n, path, t) == ReadFrom(h, n, path, t)
    decreases |path| - t
  {
    assert n != d;
    var s := ValueAt(h[n], path[t]);
    if t < |path| - 1 && s.Sub? {
      StaysHome(h, root, homes, path, n, t);
      ReadsElsewhere(h, h', root, homes, d, path, s.node, t + 1);
    }
  }

  /** Dictionaries that have not changed read the same. */
  lemma {:induction false} ReadsSame(h: Memory, h': Memory, path: Path, n: Node, t: nat)
    requires Closed(h) && Closed(h') && n in h && t < |path|
    requires h.Keys <= h'.Keys && forall m | m in h :: h'[m] == h[m]
    ensures ReadFrom(h', n, path, t) == ReadFrom(h, n, path, t)
    ensures Target(h', n, path, t) == Target(h, n, path, t)
    decreases |path| - t
  {
    var s := ValueAt(h[n], path[t]);
    if t < |path| - 1 && s.Sub? {
      assert path[t] in h[n];
      ReadsSame(h, h', path, s.node, t + 1);
    }
  }

  // ---------------------------------------------------------------- reading what was written

  lemma {:induction false} ReadsChain(h': Memory, path: Path, slot: Slot, made: map<Node, nat>, c: Node)
    requires Closed(h') && made.Keys <= h'.Keys && c in made && made[c] < |path|
    requires forall m {:trigger h'[m]} | m in made :: LinksAlone(h'[m], path, made[m], slot, made)
    ensures ReadFrom(h', c, path, made[c]) == slot
    decreases |path| - made[c]
  {
    var t := made[c];
    assert LinksAlone(h'[c], path, t, slot, made);
    if t < |path| - 1 {
      var next := h'[c][path[t]].node;
      assert next in made && made[next] == t + 1;
      ReadsChain(h', path, slot, made, next);
    }
  }

  /** A path apart from it finds nothing in the new dictionaries. */
  lemma {:induction false} ChainIsApart(h': Memory, path: Path, slot: Slot, made: map<Node, nat>, c: Node, other: Path)
    requires Closed(h') && made.Keys <= h'.Keys && c in made && made[c] < |path| && made[c] < |other|
    requires forall m {:trigger h'[m]} | m in made :: LinksAlone(h'[m], path, made[m], slot, made)
    requires Apart(path, other) && path[..made[c]] == other[..made[c]]
    ensures ReadFrom(h', c, other, made[c]) == NONE
    decreases |path| - made[c]
  {
    var t := made[c];
    assert LinksAlone(h'[c], path, t, slot, made);
    if path[t] == other[t] {
      ApartGoesOn(path, other, t);
      var next := h'[c][path[t]].node;
      assert LinksAlone(h'[next], path, t + 1, slot, made);
      ChainIsApart(h', path, slot, made, next, other);
    }
  }

  /** Paths apart that agree up to a key both go on after it. */
  lemma ApartGoesOn(path: Path, other: Path, t: nat)
    requires Apart(path, other) && t < |path| && t < |other| && path[..t] == other[..t] && path[t] == other[t]
    ensures t < |path| - 1 && t < |other| - 1 && path[..t + 1] == other[..t + 1]
  {
    PrefixStep(path, t);
    PrefixStep(other, t);
    assert path[..t + 1] <= other && other[..t + 1] <= path;
    assert t + 1 == |path| ==> path <= other;
    assert t + 1 == |other| ==> other <= path;
  }

  /** The path written along reads what was written. */
  lemma {:induction false} ReadsWritten(h: Memory, h': Memory, root: Node, homes: Homes, d: Node, j: nat, path: Path,
                                        slot: Slot, made: map<Node, nat>, n: Node, t: nat)
    requires Tree(h, root, homes) && Closed(h') && Private(h, homes, path) && Written(h, h', d, j, path, slot, made)
    requires n in homes && t < |path| && homes[n] == path[..t] && Target(h, n, path, t) == (d, j)
    ensures ReadFrom(h', n, path, t) == slot
    decreases |path| - t
  {
    if t == j {
      if j < |path| - 1 { ReadsChain(h', path, slot, made, h'[d][path[j]].node); }
    } else {
      StaysHome(h, root, homes, path, n, t);
      TargetIsHome(h, root, homes, path, n, t);
      assert |homes[n]| == t && |homes[d]| == j;
      ReadsWritten(h, h', root, homes, d, j, path, slot, made, h[n][path[t]].node, t + 1);
    }
  }

  /** Every private path apart from it reads as before. */
  lemma {:induction false} ReadsApart(h: Memory, h': Memory, root: Node, homes: Homes, d: Node, j: nat, path: Path,
                                      slot: Slot, made: map<Node, nat>, other: Path, n: Node, t: nat)
    requires Tree(h, root, homes) && Closed(h') && Private(h, homes, path) && Private(h, homes, other)
    requires Written(h, h', d, j, path, slot, made) && Apart(path, other)
    requires n in homes && t < |path| && t < |other| && homes[n] == path[..t] == other[..t]
    requires Target(h, n, path, t) == (d, j)
    ensures ReadFrom(h', n, other, t) == ReadFrom(h, n, other, t)
    decreases |path| - t
  {
    TargetIsHome(h, root, homes, path, n, t);
    if path[t] != other[t] {
      assert ValueAt(h'[n], other[t]) == ValueAt(h[n], other[t]);
      var s := ValueAt(h[n], other[t]);
      if t < |other| - 1 && s.Sub? {
        StaysHome(h, root, homes, other, n, t);
        Diverges(path, other, t, j);
        ReadsElsewhere(h, h', root, homes, d, other, s.node, t + 1);
      }
    } else {
      ApartGoesOn(path, other, t);
      if t == j {
        ChainIsApart(h', path, slot, made, h'[d][path[j]].node, other);
      } else {
        StaysHome(h, root, homes, path, n, t);
        ReadsApart(h, h', root, homes, d, j, path, slot, made, other, h[n][path[t]].node, t + 1);
      }
    }
  }

  lemma Diverges(path: Path, other: Path, t: nat, j: nat)
    requires t < |path| && t < |other| && path[t] != other[t] && j < |path|
    ensures forall u | t + 1 <= u < |other| :: path[..j] != other[..u]
  {
    forall u | t + 1 <= u < |other|
      ensures path[..j] != other[..u]
    {
      if j > t { assert path[..j][t] == path[t] && other[..u][t] == other[t]; }
    }
  }

  // ---------------------------------------------------------------- what a write keeps

  /** The new dictionaries are one's own, each at the keys that lead to it. */
  ghost function Housed(homes: Homes, path: Path, made: map<Node, nat>): Homes {
    homes + map c | c in made && made[c] <= |path| :: path[..made[c]]
  }

  /** What is written leads to a new dictionary, at the keys so far, or is the value. */
  lemma LinkLeadsOn(s: Slot, homes: Homes, path: Path, t: nat, slot: Slot, made: map<Node, nat>)
    requires t < |path| && Links(s, path, t, slot, made) && (slot.Sub? ==> slot.node !in Housed(homes, path, made))
    ensures s.Sub? && s.node in Housed(homes, path, made) ==> Housed(homes, path, made)[s.node] == path[..t] + [path[t]]
    ensures s.Sub? && s.node !in Housed(homes, path, made) ==> t == |path| - 1
  {
    PrefixStep(path, t);
  }

  /** A write to a dictionary of one's own leaves a tree. */
  lemma TreeGrows(h: Memory, h': Memory, root: Node, homes: Homes, d: Node, j: nat, path: Path, slot: Slot,
                  made: map<Node, nat>)
    requires Tree(h, root, homes) && Written(h, h', d, j, path, slot, made) && d in homes && homes[d] == path[..j]
    requires Known(h, slot) && (slot.Sub? ==> slot.node !in homes)
    ensures Tree(h', root, Housed(homes, path, made))
  {
    WrittenIsClosed(h, h', d, j, path, slot, made);
    hide Links;
    var homes' := Housed(homes, path, made);
    forall n, k | n in h' && k in h'[n] && h'[n][k].Sub? && h'[n][k].node in homes'
      ensures n in homes' && homes'[h'[n][k].node] == homes'[n] + [k]
    {
      if n in made {
        assert LinksAlone(h'[n], path, made[n], slot, made);
        LinkLeadsOn(h'[n][k], homes, path, made[n], slot, made);
      } else if n == d && k == path[j] {
        LinkLeadsOn(h'[n][k], homes, path, j, slot, made);
      } else {
        assert Known(h, h[n][k]);
      }
    }
  }

  /** A link to someone else's dictionary was there before, or is at the end of the path written along. */
  lemma LeadsAway(h: Memory, h': Memory, homes: Homes, d: Node, j: nat, path: Path, slot: Slot, made: map<Node, nat>,
                  n: Node, k: string)
    requires homes.Keys <= h.Keys && Written(h, h', d, j, path, slot, made) && d in homes && homes[d] == path[..j]
    requires n in Housed(homes, path, made) && k in h'[n] && h'[n][k].Sub?
    requires h'[n][k].node !in Housed(homes, path, made)
    ensures Housed(homes, path, made)[n] + [k] == path
            || (n in homes && k in h[n] && h[n][k] == h'[n][k] && Housed(homes, path, made)[n] == homes[n])
  {
    if n in made {
      assert LinksAlone(h'[n], path, made[n], slot, made);
      PrefixStep(path, made[n]);
    } else if n == d && k == path[j] {
      PrefixStep(path, j);
    }
  }

  /** Private paths stay private, if the path written along is none of their beginnings. */
  lemma PrivateStays(h: Memory, h': Memory, root: Node, homes: Homes, d: Node, j: nat, path: Path, slot: Slot,
                     made: map<Node, nat>, other: Path)
    requires Tree(h, root, homes) && Written(h, h', d, j, path, slot, made) && d in homes && homes[d] == path[..j]
    requires Private(h, homes, other) && !(path < other)
    ensures Private(h', Housed(homes, path, made), other)
  {
    var homes' := Housed(homes, path, made);
    forall n, k | n in homes' && n in h' && k in h'[n] && h'[n][k].Sub? && h'[n][k].node !in homes'
      ensures !(homes'[n] + [k] < other)
    {
      LeadsAway(h, h', homes, d, j, path, slot, made, n, k);
    }
  }

  /** A write to someone else's dictionary leaves one's own as they are. */
  lemma AwayWrite(h: Memory, h': Memory, root: Node, homes: Homes, d: Node, j: nat, path: Path, slot: Slot,
                  made: map<Node, nat>)
    requires Tree(h, root, homes) && Written(h, h', d, j, path, slot, made) && d !in homes
    requires Known(h, slot) && (slot.Sub? ==> slot.node !in homes)
    ensures Tree(h', root, homes)
    ensures forall other: Path | Private(h, homes, other) :: Private(h', homes, other)
  {
    WrittenIsClosed(h, h', d, j, path, slot, made);
    forall c | c in made
      ensures forall k | k in h'[c] && h'[c][k].Sub? :: h'[c][k].node !in homes
    {
      assert LinksAlone(h'[c], path, made[c], slot, made);
    }
  }
}
