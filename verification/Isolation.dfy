/**
 Which writes of defaulting stay within the copy of the caller's content (profile.py): the copy's own dictionaries are
 its top one and those right below it, and whatever the defaults add to them.
 */
module Isolation {
  import opened Wrappers
  import opened Json
  import opened Profiles
  import opened Nodes

  predicate SlotIs(s: Slot, t: PyType) {
    match s
    case Leaf(v) => IsInstance(v, t)
    case Sub(_) => t == DictType || t == ObjectType
  }

  /** The loop gives a field that reads this its default. */
  predicate Defaults(f: FieldSpec, was: Slot) {
    !f.required && !SlotIs(was, f.expected) && f.factory.Some?
  }

  /** The dictionary two keys down a path of three or more. */
  ghost function TwoDown(h: Memory, content: Node, path: Path): Option<Node>
    requires Closed(h) && content in h
  {
    if |path| < 3 then None
    else
      var s := ValueAt(h[content], path[0]);
      if s.Leaf? then None
      else
        var t := ValueAt(h[s.node], path[1]);
        if t.Leaf? then None else Some(t.node)
  }

  /** The default of this field is written into a dictionary of the caller's: it needs one, its path has three keys or
      more, and the content has a dictionary two keys down that path. */
  ghost predicate Escapes(h: Memory, content: Node, f: FieldSpec)
    requires Closed(h) && content in h
  {
    Defaults(f, ReadFrom(h, content, f.path, 0)) && TwoDown(h, content, f.path).Some?
  }

  /** The same plain value, or both a dictionary. */
  predicate Alike(a: Slot, b: Slot) {
    a == b || (a.Sub? && b.Sub?)
  }

  /** What becomes of one field: its default if it needs one, what it read before otherwise. */
  predicate Filled(f: FieldSpec, made: Slot, was: Slot, now: Slot) {
    if Defaults(f, was) then now == made else Alike(now, was)
  }

  // ---------------------------------------------------------------- the copy

  /** `out` is a copy of the content two levels deep: its own dictionaries, and nothing that was there has changed. */
  ghost predicate Copied(h0: Memory, h: Memory, content: Node, out: Node, homes: Homes) {
    && content in h0 && Closed(h0) && out in homes && homes[out] == [] && h.Keys == h0.Keys + homes.Keys
       && h0.Keys !! homes.Keys
    && (forall n | n in h0 :: h[n] == h0[n])
    && h[out].Keys == h0[content].Keys
    && (forall k | k in h0[content] && h0[content][k].Leaf? :: h[out][k] == h0[content][k])
    && (forall k | k in h0[content] && h0[content][k].Sub? ::
          h[out][k].Sub? && h[out][k].node in homes && homes[h[out][k].node] == [k]
            && h[h[out][k].node] == h0[h0[content][k].node])
    && (forall n | n in homes && n != out :: exists k :: k in h0[content] && h0[content][k].Sub? && h[out][k] == Sub(n))
  }

  /** A path with a dictionary of the caller's two keys down leads out of the copy there. */
  ghost predicate Anchored(h: Memory, out: Node, homes: Homes, path: Path, below: Node) {
    && |path| >= 3 && out in h && ValueAt(h[out], path[0]).Sub? && ValueAt(h[out], path[0]).node in homes
    && ValueAt(h[out], path[0]).node in h && ValueAt(h[ValueAt(h[out], path[0]).node], path[1]) == Sub(below)
    && below in h && below !in homes
  }

  /** A field's path stays within the copy, or leads out of it two keys down as it did in the content. */
  ghost predicate Placed(h0: Memory, h: Memory, content: Node, out: Node, homes: Homes, path: Path)
    requires Closed(h0) && content in h0
  {
    match TwoDown(h0, content, path)
    case None => Private(h, homes, path)
    case Some(below) => Anchored(h, out, homes, path, below)
  }

  ghost predicate Isolated(h0: Memory, h: Memory, content: Node, out: Node, homes: Homes, fields: seq<FieldSpec>) {
    && Closed(h0) && content in h0 && Tree(h, out, homes) && h0.Keys !! homes.Keys && h0.Keys <= h.Keys
    && forall j | 0 <= j < |fields| :: Placed(h0, h, content, out, homes, fields[j].path)
  }

  /** Nothing of the caller's has changed. */
  ghost predicate Untouched(h0: Memory, h: Memory, homes: Homes) {
    h.Keys == h0.Keys + homes.Keys && forall n | n in h0 :: h[n] == h0[n]
  }

  lemma CopyTree(h0: Memory, h: Memory, content: Node, out: Node, homes: Homes)
    requires Copied(h0, h, content, out, homes)
    ensures Tree(h, out, homes)
  {
    forall n, k | n in h && k in h[n]
      ensures Known(h, h[n][k])
      ensures h[n][k].Sub? && h[n][k].node in homes ==> n in homes && homes[h[n][k].node] == homes[n] + [k]
    {
      if n in h0 {
        assert Known(h0, h0[n][k]);
      } else if n == out {
        assert [] + [k] == [k];
      } else {
        var q :| q in h0[content] && h0[content][q].Sub? && h[out][q] == Sub(n);
        assert Known(h0, h0[content][q]);
        assert Known(h0, h0[h0[content][q].node][k]);
      }
    }
  }

  lemma CopyPlaces(h0: Memory, h: Memory, content: Node, out: Node, homes: Homes, path: Path)
    requires Copied(h0, h, content, out, homes)
    ensures Placed(h0, h, content, out, homes, path)
  {
    CopyTree(h0, h, content, out, homes);
    match TwoDown(h0, content, path)
    case Some(below) =>
      assert path[0] in h0[content] && Known(h0, h0[content][path[0]]);
      var c := h0[content][path[0]].node;
      assert path[1] in h0[c] && Known(h0, h0[c][path[1]]);
    case None =>
      forall n, k | n in homes && n in h && k in h[n] && h[n][k].Sub? && h[n][k].node !in homes
        ensures !(homes[n] + [k] < path)
      {
        var q :| q in h0[content] && h0[content][q].Sub? && h[out][q] == Sub(n);
        assert homes[n] + [k] == [q, k];
        var agrees := |path| >= 3 && path[0] == q && path[1] == k;
        assert [q, k] < path ==> agrees;
      }
  }

  /** To begin with the copy reads like the content, and its own dictionaries are apart from the caller's. */
  lemma CopyReads(h0: Memory, h: Memory, content: Node, out: Node, homes: Homes, path: Path)
    requires Copied(h0, h, content, out, homes) && Closed(h)
    ensures Alike(ReadFrom(h, out, path, 0), ReadFrom(h0, content, path, 0))
  {
    if |path| > 1 && ValueAt(h0[content], path[0]).Sub? {
      var c := h0[content][path[0]].node;
      assert Known(h0, h0[content][path[0]]);
      if |path| > 2 && ValueAt(h0[c], path[1]).Sub? {
        assert Known(h0, h0[c][path[1]]);
        ReadsSame(h0, h, path, h0[c][path[1]].node, 2);
      }
    }
  }

  lemma CopyIsIsolated(h0: Memory, h: Memory, content: Node, out: Node, homes: Homes, fields: seq<FieldSpec>)
    requires Copied(h0, h, content, out, homes)
    ensures Isolated(h0, h, content, out, homes, fields) && Untouched(h0, h, homes)
  {
    hide Tree, Placed;
    CopyTree(h0, h, content, out, homes);
    forall j | 0 <= j < |fields|
      ensures Placed(h0, h, content, out, homes, fields[j].path)
    {
      CopyPlaces(h0, h, content, out, homes, fields[j].path);
    }
  }

  // ---------------------------------------------------------------- one write

  /** Where it leads out of the copy, and while nothing of the caller's has changed, a path reads what the
      content read. */
  lemma AnchoredReads(h0: Memory, h: Memory, content: Node, out: Node, homes: Homes, path: Path)
    requires Closed(h0) && content in h0 && Tree(h, out, homes) && Untouched(h0, h, homes)
    requires TwoDown(h0, content, path).Some? && Placed(h0, h, content, out, homes, path)
    ensures ReadFrom(h, out, path, 0) == ReadFrom(h0, content, path, 0)
  {
    var c := h0[content][path[0]].node;
    assert Known(h0, h0[content][path[0]]);
    assert Known(h0, h0[c][path[1]]);
    ReadsSame(h0, h, path, h0[c][path[1]].node, 2);
    assert ReadFrom(h, out, path, 0) == ReadFrom(h, ValueAt(h[out], path[0]).node, path, 1);
    assert ReadFrom(h0, content, path, 0) == ReadFrom(h0, c, path, 1);
  }

  /** Such a path is written along into a dictionary that is not the copy's. */
  lemma AnchoredTarget(h: Memory, out: Node, homes: Homes, path: Path, below: Node)
    requires Tree(h, out, homes) && Anchored(h, out, homes, path, below)
    ensures Target(h, out, path, 0).0 !in homes
  {
    TargetIsAway(h, out, homes, path, below, 2);
    assert Target(h, out, path, 0) == Target(h, ValueAt(h[out], path[0]).node, path, 1);
  }

  // ---------------------------------------------------------------- what a default keeps

  /** Whoever's dictionary is written to along another path, one that leads out of the copy still does, at the same
      place. */
  lemma AnchorStays(h: Memory, h': Memory, out: Node, homes: Homes, d: Node, j: nat, path: Path, slot: Slot,
                    made: map<Node, nat>, other: Path, below: Node)
    requires Tree(h, out, homes) && Written(h, h', d, j, path, slot, made) && (d, j) == Target(h, out, path, 0)
    requires d in homes ==> homes[d] == path[..j]
    requires Anchored(h, out, homes, other, below) && (d in homes ==> Apart(path, other))
    ensures Anchored(h', out, homes, other, below) && below in h
  {
    var c := ValueAt(h[out], other[0]).node;
    assert homes[c] == [] + [other[0]];
    assert |path| == 1 && path[0] == other[0] ==> path <= other;
    assert |path| == 2 && path[0] == other[0] && path[1] == other[1] ==> path <= other;
    assert j > 0 ==> path[..j][0] == path[0];
    assert |path| > 1 && path[0] == other[0] ==> Target(h, out, path, 0) == Target(h, c, path, 1);
  }

  lemma ApartEither(fields: seq<FieldSpec>, i: nat, q: nat)
    requires PairwiseApart(fields) && i < |fields| && q < |fields| && q != i
    ensures Apart(fields[i].path, fields[q].path)
  {
    if q < i { assert Apart(fields[q].path, fields[i].path); }
  }

  lemma NotBefore(path: Path, other: Path)
    requires path == other || Apart(path, other)
    ensures !(path < other)
  {
  }

  lemma NewHomes(h: Memory, h': Memory, homes: Homes, d: Node, j: nat, path: Path, slot: Slot, made: map<Node, nat>)
    requires homes.Keys <= h.Keys && Written(h, h', d, j, path, slot, made)
    ensures var homes' := Housed(homes, path, made);
            && homes'.Keys == homes.Keys + made.Keys && (forall n | n in homes :: homes'[n] == homes[n])
               && h.Keys <= h'.Keys
            && h'.Keys == h.Keys + made.Keys && made.Keys !! h.Keys && forall n | n in h && n != d :: h'[n] == h[n]
  {
  }

  /** A dictionary that was there before is not a new one. */
  lemma AnchorIsOld(h: Memory, h': Memory, out: Node, homes: Homes, homes': Homes, path: Path, below: Node)
    requires Anchored(h', out, homes, path, below) && below in h && homes.Keys <= homes'.Keys
    requires (homes'.Keys - homes.Keys) !! h.Keys
    ensures Anchored(h', out, homes', path, below)
  {
  }

  /** A write within the copy: the copy stays apart from the caller's dictionaries, of which none has changed; the path
      reads the value, and every other field that stays within the copy reads as before. */
  lemma WriteAtHome(h0: Memory, h: Memory, h': Memory, content: Node, out: Node, homes: Homes, fields: seq<FieldSpec>,
                    i: nat, d: Node, j: nat, slot: Slot, made: map<Node, nat>)
    requires Isolated(h0, h, content, out, homes, fields) && PairwiseApart(fields) && i < |fields|
    requires var path := fields[i].path;
             TwoDown(h0, content, path).None? && (d, j) == Target(h, out, path, 0)
               && Written(h, h', d, j, path, slot, made)
    requires Known(h0, slot)
    ensures d in homes && Closed(h')
    ensures Isolated(h0, h', content, out, Housed(homes, fields[i].path, made), fields)
    ensures Untouched(h0, h, homes) ==> Untouched(h0, h', Housed(homes, fields[i].path, made))
    ensures ReadFrom(h', out, fields[i].path, 0) == slot
    ensures forall q | 0 <= q < |fields| && q != i && TwoDown(h0, content, fields[q].path).None? ::
              ReadFrom(h', out, fields[q].path, 0) == ReadFrom(h, out, fields[q].path, 0)
  {
    hide Written, Private, Target, ReadFrom, TwoDown, Anchored, Apart;
    var path := fields[i].path;
    assert Private(h, homes, path) && homes[out] == path[..0];
    TargetIsHome(h, out, homes, path, out, 0);
    WrittenIsClosed(h, h', d, j, path, slot, made);
    TreeGrows(h, h', out, homes, d, j, path, slot, made);
    ReadsWritten(h, h', out, homes, d, j, path, slot, made, out, 0);
    var homes' := Housed(homes, path, made);
    NewHomes(h, h', homes, d, j, path, slot, made);
    forall q | 0 <= q < |fields|
      ensures Placed(h0, h', content, out, homes', fields[q].path)
      ensures q != i && TwoDown(h0, content, fields[q].path).None? ==>
                ReadFrom(h', out, fields[q].path, 0) == ReadFrom(h, out, fields[q].path, 0)
    {
      var other := fields[q].path;
      assert Placed(h0, h, content, out, homes, other);
      if q != i { ApartEither(fields, i, q); }
      match TwoDown(h0, content, other)
      case None =>
        NotBefore(path, other);
        PrivateStays(h, h', out, homes, d, j, path, slot, made, other);
        if q != i { ReadsApart(h, h', out, homes, d, j, path, slot, made, other, out, 0); }
      case Some(below) =>
        AnchorStays(h, h', out, homes, d, j, path, slot, made, other, below);
        AnchorIsOld(h, h', out, homes, homes', other, below);
    }
  }

  /** A write into a dictionary of the caller's: the copy's own stay as they are, and so does what every field reads
      that stays within the copy. */
  lemma WriteAway(h0: Memory, h: Memory, h': Memory, content: Node, out: Node, homes: Homes, fields: seq<FieldSpec>,
                  i: nat, d: Node, j: nat, slot: Slot, made: map<Node, nat>)
    requires Isolated(h0, h, content, out, homes, fields) && i < |fields|
    requires var path := fields[i].path;
             TwoDown(h0, content, path).Some? && (d, j) == Target(h, out, path, 0)
               && Written(h, h', d, j, path, slot, made)
    requires Known(h0, slot)
    ensures d !in homes && Closed(h') && (Untouched(h0, h, homes) ==> d in h0)
    ensures Isolated(h0, h', content, out, homes, fields)
    ensures forall q | 0 <= q < |fields| && TwoDown(h0, content, fields[q].path).None? ::
              ReadFrom(h', out, fields[q].path, 0) == ReadFrom(h, out, fields[q].path, 0)
  {
    hide Written, Private, Target, ReadFrom, TwoDown, Anchored;
    var path := fields[i].path;
    var below := TwoDown(h0, content, path).value;
    assert Placed(h0, h, content, out, homes, path);
    AnchoredTarget(h, out, homes, path, below);
    NewHomes(h, h', homes, d, j, path, slot, made);
    WrittenIsClosed(h, h', d, j, path, slot, made);
    AwayWrite(h, h', out, homes, d, j, path, slot, made);
    forall q | 0 <= q < |fields|
      ensures Placed(h0, h', content, out, homes, fields[q].path)
      ensures TwoDown(h0, content, fields[q].path).None? ==>
                ReadFrom(h', out, fields[q].path, 0) == ReadFrom(h, out, fields[q].path, 0)
    {
      var other := fields[q].path;
      assert Placed(h0, h, content, out, homes, other);
      match TwoDown(h0, content, other)
      case None =>
        assert homes[out] == other[..0];
        ReadsElsewhere(h, h', out, homes, d, other, out, 0);
      case Some(m) =>
        AnchorStays(h, h', out, homes, d, j, path, slot, made, other, m);
    }
  }
}
