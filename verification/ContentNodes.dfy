/** Defaulting in place, on a copy of the caller's content, and exactly when it writes into the caller's own
    (profile.py). */
module ContentNodes {
  import opened Wrappers
  import opened Json
  import opened Profiles
  import opened Nodes
  import opened Isolation

  /** `_get_by_path`: a local walks down the dictionaries. */
  method Lookup(content: Node, path: Path, ghost nodes: set<Node>) returns (s: Slot)
    requires content in nodes && Closed(MemoryOf(nodes))
    ensures s == ReadFrom(MemoryOf(nodes), content, path, 0)
  {
    s := Sub(content);
    var i := 0;
    while i < |path|
      invariant 0 <= i <= |path|
      invariant i < |path| && s.Sub? ==>
                  s.node in nodes && ReadFrom(MemoryOf(nodes), s.node, path, i)
                    == ReadFrom(MemoryOf(nodes), content, path, 0)
      invariant i < |path| && s.Leaf? ==> ReadFrom(MemoryOf(nodes), content, path, 0) == NONE
      invariant i == |path| ==> s == ReadFrom(MemoryOf(nodes), content, path, 0)
    {
      if s.Leaf? { return NONE; }
      assert forall k | k in MemoryOf(nodes)[s.node] :: Known(MemoryOf(nodes), MemoryOf(nodes)[s.node][k]);
      s := ValueAt(s.node.fields, path[i]);
      i := i + 1;
    }
  }

  /** A write half done: the new dictionaries made so far are linked up, and the last of them, for position i, is
      empty. */
  ghost predicate Underway(h: Memory, m: Memory, d: Node, j: nat, path: Path, slot: Slot, made: map<Node, nat>,
                           node: Node, i: nat) {
    && d in h && j < i < |path| && made.Keys !! h.Keys && m.Keys == h.Keys + made.Keys
    && (forall n | n in h && n != d :: m[n] == h[n])
    && path[j] in m[d] && m[d] == h[d][path[j] := m[d][path[j]]] && Links(m[d][path[j]], path, j, slot, made)
    && node in made && made[node] == i && m[node] == map[]
    && (forall c {:trigger m[c]} | c in made && c != node ::
        j < made[c] < i && LinksAlone(m[c], path, made[c], slot, made))
  }

  lemma FirstMade(h: Memory, d: Node, j: nat, path: Path, slot: Slot, created: Node)
    requires d in h && created !in h && j < |path| - 1
    ensures var m := h[d := h[d][path[j] := Sub(created)]][created := map[]];
            Underway(h, m, d, j, path, slot, map[created := j + 1], created, j + 1)
  {
  }

  lemma LinksMore(s: Slot, path: Path, t: nat, slot: Slot, made: map<Node, nat>, made': map<Node, nat>)
    requires Links(s, path, t, slot, made) && forall c | c in made :: c in made' && made'[c] == made[c]
    ensures Links(s, path, t, slot, made')
  {
  }

  lemma LinksAloneMore(fields: map<string, Slot>, path: Path, t: nat, slot: Slot, made: map<Node, nat>,
                       made': map<Node, nat>)
    requires LinksAlone(fields, path, t, slot, made) && forall c | c in made :: c in made' && made'[c] == made[c]
    ensures LinksAlone(fields, path, t, slot, made')
  {
    LinksMore(fields[path[t]], path, t, slot, made, made');
  }

  lemma OneLink(path: Path, t: nat, slot: Slot, made: map<Node, nat>, next: Node)
    requires t < |path| - 1 && next in made && made[next] == t + 1
    ensures LinksAlone(map[path[t] := Sub(next)], path, t, slot, made)
  {
  }

  lemma NextMade(h: Memory, m: Memory, d: Node, j: nat, path: Path, slot: Slot, made: map<Node, nat>, node: Node,
                 i: nat, created: Node)
    requires Underway(h, m, d, j, path, slot, made, node, i) && i < |path| - 1 && created !in m
    ensures var m' := m[node := m[node][path[i] := Sub(created)]][created := map[]];
            Underway(h, m', d, j, path, slot, made[created := i + 1], created, i + 1)
  {
    hide Links, LinksAlone;
    var m', made' := m[node := m[node][path[i] := Sub(created)]][created := map[]], made[created := i + 1];
    LinksMore(m[d][path[j]], path, j, slot, made, made');
    OneLink(path, i, slot, made', created);
    assert m'[node] == map[path[i] := Sub(created)];
    forall c | c in made' && c != created
      ensures j < made'[c] < i + 1 && LinksAlone(m'[c], path, made'[c], slot, made')
    {
      if c != node { LinksAloneMore(m[c], path, made[c], slot, made, made'); }
    }
  }

  lemma LastMade(h: Memory, m: Memory, d: Node, j: nat, path: Path, slot: Slot, made: map<Node, nat>, node: Node)
    requires Underway(h, m, d, j, path, slot, made, node, |path| - 1)
    ensures Written(h, m[node := m[node][path[|path| - 1] := slot]], d, j, path, slot, made)
  {
    hide LinksAlone, Links;
    var m' := m[node := m[node][path[|path| - 1] := slot]];
    LastLink(path, slot, made);
    assert m'[node] == map[path[|path| - 1] := slot];
    assert forall c | c in made && c != node :: m'[c] == m[c];
  }

  lemma LastLink(path: Path, slot: Slot, made: map<Node, nat>)
    ensures LinksAlone(map[path[|path| - 1] := slot], path, |path| - 1, slot, made)
  {
  }

  lemma NoneMade(h: Memory, d: Node, path: Path, slot: Slot)
    requires d in h
    ensures Written(h, h[d := h[d][path[|path| - 1] := slot]], d, |path| - 1, path, slot, map[])
  {
  }

  lemma TargetStep(h: Memory, n: Node, path: Path, t: nat)
    requires Closed(h) && n in h && t < |path|
    ensures t == |path| - 1 || ValueAt(h[n], path[t]).Leaf? ==> Target(h, n, path, t) == (n, t)
    ensures t < |path| - 1 && ValueAt(h[n], path[t]).Sub? ==>
              path[t] in h[n] && ValueAt(h[n], path[t]).node in h
              && Target(h, ValueAt(h[n], path[t]).node, path, t + 1) == Target(h, n, path, t)
  {
  }

  /** `node[key] = {}`. */
  method PutEmpty(node: Node, key: string, ghost nodes: set<Node>) returns (created: Node)
    requires node in nodes
    modifies node
    ensures fresh(created) && node.writes == old(node.writes) + 1
    ensures var m := old(MemoryOf(nodes));
            MemoryOf(nodes + {created}) == m[node := m[node][key := Sub(created)]][created := map[]]
  {
    created := new Node(map[]);
    node.Put(key, Sub(created));
  }

  /** `node[key] = value`. */
  method PutValue(node: Node, key: string, slot: Slot, ghost nodes: set<Node>)
    requires node in nodes
    modifies node
    ensures node.writes == old(node.writes) + 1
    ensures var m := old(MemoryOf(nodes)); MemoryOf(nodes) == m[node := m[node][key := slot]]
  {
    node.Put(key, slot);
  }

  /** `_set_by_path`: walks down, putting a new dictionary where there is none, and writes at the end. Of the
      dictionaries that were there before it writes to one, once. */
  method SetByPath(content: Node, path: Path, slot: Slot, ghost nodes: set<Node>)
    returns (ghost d: Node, ghost j: nat, ghost made: map<Node, nat>)
    requires content in nodes && Closed(MemoryOf(nodes))
    modifies Target(MemoryOf(nodes), content, path, 0).0
    ensures (d, j) == old(Target(MemoryOf(nodes), content, path, 0)) && d.writes == old(d.writes) + 1
    ensures forall c | c in made :: fresh(c)
    ensures Written(old(MemoryOf(nodes)), MemoryOf(nodes + made.Keys), d, j, path, slot, made)
  {
    hide Target, Closed, Written, Underway;
    ghost var h := MemoryOf(nodes);
    ghost var all, missing := nodes, false;
    made := map[];
    d, j := Target(h, content, path, 0).0, Target(h, content, path, 0).1;
    var node := content;
    var i := 0;
    while i < |path| - 1
      invariant 0 <= i <= |path| - 1 && node in all && all == nodes + made.Keys
      invariant !missing ==>
                  made == map[] && Target(h, node, path, i) == (d, j) && MemoryOf(nodes) == h
                    && d.writes == old(d.writes)
      invariant missing ==> Underway(h, MemoryOf(all), d, j, path, slot, made, node, i)
      invariant missing ==> node.fields == map[] && d.writes == old(d.writes) + 1 && fresh(node)
      invariant forall c | c in made :: fresh(c)
    {
      assert MemoryOf(all)[node] == node.fields;
      if !missing { TargetStep(h, node, path, i); }
      if ValueAt(node.fields, path[i]).Leaf? {
        ghost var m := MemoryOf(all);
        var created := PutEmpty(node, path[i], all);
        if !missing {
          FirstMade(h, d, j, path, slot, created);
        } else {
          NextMade(h, m, d, j, path, slot, made, node, i, created);
        }
        all, made, missing, node := all + {created}, made[created := i + 1], true, created;
      } else {
        node := node.fields[path[i]].node;
      }
      i := i + 1;
    }
    assert MemoryOf(all)[node] == node.fields;
    if !missing {
      TargetStep(h, node, path, i);
      NoneMade(h, d, path, slot);
    } else {
      LastMade(h, MemoryOf(all), d, j, path, slot, made, node);
    }
    PutValue(node, path[i], slot, all);
  }

  // ---------------------------------------------------------------- copying

  /** `_deep_copy_content`: the top dictionary and those right below it are new, each its own; what lies deeper is
      shared. */
  method Copy(content: Node, ghost world: set<Node>) returns (out: Node, ghost homes: Homes)
    requires content in world && Closed(MemoryOf(world))
    ensures forall n | n in homes :: fresh(n)
    ensures Copied(old(MemoryOf(world)), MemoryOf(world + homes.Keys), content, out, homes)
  {
    var copied: map<string, Slot> := map[];
    var left := content.fields.Keys;
    homes := map[];
    while left != {}
      invariant left <= content.fields.Keys && copied.Keys == content.fields.Keys - left
      invariant forall n | n in homes :: fresh(n) && exists k ::
                  k in copied && content.fields[k].Sub? && copied[k] == Sub(n)
      invariant forall k | k in copied && content.fields[k].Leaf? :: copied[k] == content.fields[k]
      invariant forall k | k in copied && content.fields[k].Sub? ::
                  && copied[k].Sub? && copied[k].node in homes && homes[copied[k].node] == [k]
                  && copied[k].node.fields == content.fields[k].node.fields
    {
      var k :| k in left;
      match content.fields[k] {
        case Leaf(v) => copied := copied[k := Leaf(v)];
        case Sub(n) =>
          var m := new Node(n.fields);
          copied, homes := copied[k := Sub(m)], homes[m := [k]];
      }
      left := left - {k};
    }
    out := new Node(copied);
    homes := homes[out := []];
    assert forall k | k in content.fields :: Known(MemoryOf(world), content.fields[k]);
  }

  // ---------------------------------------------------------------- defaulting

  /** What has become of the fields up to position i, as far as they stay within the copy. */
  ghost predicate DoneTo(h0: Memory, h: Memory, content: Node, out: Node, fields: seq<FieldSpec>, made: seq<Slot>,
                         i: nat)
    requires Closed(h0) && content in h0 && |made| == |fields|
  {
    && Closed(h) && out in h
    && forall q | 0 <= q < |fields| && TwoDown(h0, content, fields[q].path).None? ::
         var was, now := ReadFrom(h0, content, fields[q].path, 0), ReadFrom(h, out, fields[q].path, 0);
         if q < i then Filled(fields[q], made[q], was, now) else Alike(now, was)
  }

  /** Among the first i fields there is one whose default is written into a dictionary of the caller's. */
  ghost predicate SomeEscape(h0: Memory, content: Node, fields: seq<FieldSpec>, i: nat)
    requires Closed(h0) && content in h0
  {
    exists q :: 0 <= q < i && q < |fields| && Escapes(h0, content, fields[q])
  }

  lemma OneMore(h0: Memory, content: Node, fields: seq<FieldSpec>, i: nat)
    requires Closed(h0) && content in h0 && i < |fields|
    ensures SomeEscape(h0, content, fields, i + 1) <==>
              SomeEscape(h0, content, fields, i) || Escapes(h0, content, fields[i])
  {
    hide Escapes;
    if q :| 0 <= q < i && q < |fields| && Escapes(h0, content, fields[q]) {
      assert SomeEscape(h0, content, fields, i + 1);
    }
  }

  /** The loop finds of the field at position i what the content had, unless the caller's dictionaries have changed
      and it reads one of them. */
  lemma Finds(h0: Memory, h: Memory, content: Node, out: Node, homes: Homes, fields: seq<FieldSpec>,
              made: seq<Slot>, i: nat)
    requires Isolated(h0, h, content, out, homes, fields) && |made| == |fields| && i < |fields|
    requires DoneTo(h0, h, content, out, fields, made, i)
    requires TwoDown(h0, content, fields[i].path).None? || Untouched(h0, h, homes)
    ensures Defaults(fields[i], ReadFrom(h, out, fields[i].path, 0))
         == Defaults(fields[i], ReadFrom(h0, content, fields[i].path, 0))
  {
    hide Placed, ReadFrom, TwoDown;
    if TwoDown(h0, content, fields[i].path).Some? {
      AnchoredReads(h0, h, content, out, homes, fields[i].path);
    }
  }

  lemma CopyIsReady(h0: Memory, h: Memory, content: Node, out: Node, homes: Homes, fields: seq<FieldSpec>,
                    made: seq<Slot>)
    requires Copied(h0, h, content, out, homes) && |made| == |fields|
    ensures DoneTo(h0, h, content, out, fields, made, 0) && !SomeEscape(h0, content, fields, 0)
  {
    hide ReadFrom, TwoDown;
    CopyTree(h0, h, content, out, homes);
    forall q | 0 <= q < |fields|
      ensures Alike(ReadFrom(h, out, fields[q].path, 0), ReadFrom(h0, content, fields[q].path, 0))
    {
      CopyReads(h0, h, content, out, homes, fields[q].path);
    }
  }

  lemma DoneIsClosed(h0: Memory, h: Memory, content: Node, out: Node, fields: seq<FieldSpec>, made: seq<Slot>, i: nat)
    requires Closed(h0) && content in h0 && |made| == |fields| && DoneTo(h0, h, content, out, fields, made, i)
    ensures Closed(h) && out in h
  {
  }

  lemma EscapesOf(h0: Memory, content: Node, f: FieldSpec)
    requires Closed(h0) && content in h0
    ensures Escapes(h0, content, f) <==>
              Defaults(f, ReadFrom(h0, content, f.path, 0)) && TwoDown(h0, content, f.path).Some?
  {
  }

  /** A field that needs no default is done. */
  lemma Skipped(h0: Memory, h: Memory, content: Node, out: Node, fields: seq<FieldSpec>, made: seq<Slot>, i: nat)
    requires Closed(h0) && content in h0 && |made| == |fields| && i < |fields|
             && DoneTo(h0, h, content, out, fields, made, i)
    requires TwoDown(h0, content, fields[i].path).None? ==>
               !Defaults(fields[i], ReadFrom(h0, content, fields[i].path, 0))
    ensures DoneTo(h0, h, content, out, fields, made, i + 1)
  {
    hide ReadFrom, TwoDown;
  }

  /** The default of a field within the copy is written, */
  lemma DoneAtHome(h0: Memory, h: Memory, h': Memory, content: Node, out: Node, homes: Homes, fields: seq<FieldSpec>,
                   made: seq<Slot>, i: nat, d: Node, j: nat, added: map<Node, nat>)
    requires Isolated(h0, h, content, out, homes, fields) && PairwiseApart(fields) && |made| == |fields| && i < |fields|
    requires DoneTo(h0, h, content, out, fields, made, i) && Known(h0, made[i])
    requires var path := fields[i].path;
             && TwoDown(h0, content, path).None? && Defaults(fields[i], ReadFrom(h0, content, path, 0))
             && (d, j) == Target(h, out, path, 0) && Written(h, h', d, j, path, made[i], added)
    ensures d in homes && d !in h0 && Isolated(h0, h', content, out, Housed(homes, fields[i].path, added), fields)
    ensures Untouched(h0, h, homes) ==> Untouched(h0, h', Housed(homes, fields[i].path, added))
    ensures DoneTo(h0, h', content, out, fields, made, i + 1)
  {
    hide Written, Target, ReadFrom, TwoDown, Placed, Untouched, Housed, PairwiseApart;
    WriteAtHome(h0, h, h', content, out, homes, fields, i, d, j, made[i], added);
  }

  /** or that of a field that leads out of it. */
  lemma DoneAway(h0: Memory, h: Memory, h': Memory, content: Node, out: Node, homes: Homes, fields: seq<FieldSpec>,
                 made: seq<Slot>, i: nat, d: Node, j: nat, added: map<Node, nat>)
    requires Isolated(h0, h, content, out, homes, fields) && |made| == |fields| && i < |fields|
    requires DoneTo(h0, h, content, out, fields, made, i) && Known(h0, made[i])
    requires var path := fields[i].path;
             TwoDown(h0, content, path).Some? && (d, j) == Target(h, out, path, 0)
               && Written(h, h', d, j, path, made[i], added)
    ensures d !in homes && Isolated(h0, h', content, out, homes, fields) && (Untouched(h0, h, homes) ==> d in h0)
    ensures DoneTo(h0, h', content, out, fields, made, i + 1)
  {
    hide Written, Target, ReadFrom, TwoDown, Placed, Untouched;
    WriteAway(h0, h, h', content, out, homes, fields, i, d, j, made[i], added);
  }

  /** At the end every field is filled that stays within the copy, and without an escape every field. */
  lemma Finished(h0: Memory, h: Memory, content: Node, out: Node, homes: Homes, fields: seq<FieldSpec>,
                 made: seq<Slot>, i: nat)
    requires Isolated(h0, h, content, out, homes, fields) && |made| == |fields| && i < |fields|
    requires DoneTo(h0, h, content, out, fields, made, |fields|)
    requires TwoDown(h0, content, fields[i].path).None?
             || (Untouched(h0, h, homes) && !SomeEscape(h0, content, fields, |fields|))
    ensures Filled(fields[i], made[i], ReadFrom(h0, content, fields[i].path, 0), ReadFrom(h, out, fields[i].path, 0))
  {
    hide ReadFrom, TwoDown, Placed;
    if TwoDown(h0, content, fields[i].path).Some? {
      AnchoredReads(h0, h, content, out, homes, fields[i].path);
      assert !Escapes(h0, content, fields[i]);
    }
  }

  lemma StillTheirs(h0: Memory, h: Memory, homes: Homes, world: set<Node>)
    requires Untouched(h0, h, homes) && h0.Keys == world
    ensures world <= h.Keys && forall n | n in world :: h[n] == h0[n]
  {
  }

  /** The default of the field at position i is written, to a dictionary of the copy's or of the caller's. */
  method WriteDefault(fields: seq<FieldSpec>, made: seq<Slot>, i: nat, content: Node, out: Node, ghost h0: Memory,
                      ghost all: set<Node>, ghost homes: Homes)
    returns (ghost d: Node, ghost all': set<Node>, ghost homes': Homes)
    requires Isolated(h0, MemoryOf(all), content, out, homes, fields) && PairwiseApart(fields) && |made| == |fields|
             && i < |fields|
    requires DoneTo(h0, MemoryOf(all), content, out, fields, made, i) && Known(h0, made[i])
    requires TwoDown(h0, content, fields[i].path).None? ==>
               Defaults(fields[i], ReadFrom(h0, content, fields[i].path, 0))
    modifies Target(MemoryOf(all), out, fields[i].path, 0).0
    ensures d == old(Target(MemoryOf(all), out, fields[i].path, 0)).0 && d in all && d.writes == old(d.writes) + 1
    ensures all <= all' && forall n | n in all' && n !in all :: fresh(n)
    ensures Isolated(h0, MemoryOf(all'), content, out, homes', fields)
            && DoneTo(h0, MemoryOf(all'), content, out, fields, made, i + 1)
    ensures TwoDown(h0, content, fields[i].path).None? ==>
              d !in h0 && (old(Untouched(h0, MemoryOf(all), homes)) ==> Untouched(h0, MemoryOf(all'), homes'))
    ensures TwoDown(h0, content, fields[i].path).Some? && old(Untouched(h0, MemoryOf(all), homes)) ==> d in h0
  {
    var path := fields[i].path;
    ghost var h := MemoryOf(all);
    ghost var private := TwoDown(h0, content, path).None?;
    hide *;
    ghost var j, added;
    d, j, added := SetByPath(out, path, made[i], all);
    all' := all + added.Keys;
    if private {
      DoneAtHome(h0, h, MemoryOf(all'), content, out, homes, fields, made, i, d, j, added);
      homes' := Housed(homes, path, added);
    } else {
      DoneAway(h0, h, MemoryOf(all'), content, out, homes, fields, made, i, d, j, added);
      homes' := homes;
    }
  }

  /** `apply_defaults`, in place on a copy, for any profile no path of which leads to another. `made` are the values
      the factories return, some of which may be dictionaries of the caller's; `world` holds all of those. A
      dictionary of the caller's is written to if and only if some field that needs its default has a path of three or
      more keys and the content holds a dictionary two keys down that path. Every field without such a dictionary, and
      with no such write every field, ends as declared. */
  method FillInPlace(fields: seq<FieldSpec>, made: seq<Slot>, content: Node, ghost world: set<Node>)
    returns (out: Node, ghost all: set<Node>)
    requires |made| == |fields| && PairwiseApart(fields)
    requires content in world && Closed(MemoryOf(world)) && forall i | 0 <= i < |made| ::
               Known(MemoryOf(world), made[i])
    modifies world
    ensures fresh(out) && out in all && world <= all && Closed(MemoryOf(all))
    ensures var escape := old(SomeEscape(MemoryOf(world), content, fields, |fields|));
            && (escape <==> exists n :: n in world && n.writes != old(n.writes))
            && (!escape ==> MemoryOf(world) == old(MemoryOf(world)))
            && forall i | 0 <= i < |fields|
               && (!escape || old(TwoDown(MemoryOf(world), content, fields[i].path)).None?) ::
                 Filled(fields[i], made[i], old(ReadFrom(MemoryOf(world), content, fields[i].path, 0)),
                        ReadFrom(MemoryOf(all), out, fields[i].path, 0))
  {
    hide Isolated, Untouched, Copied, Escapes, SomeEscape, DoneTo, Written, Target, ReadFrom, TwoDown, PairwiseApart;
    hide Closed;
    ghost var h0 := MemoryOf(world);
    ghost var homes;
    out, homes := Copy(content, world);
    all := world + homes.Keys;
    CopyIsIsolated(h0, MemoryOf(all), content, out, homes, fields);
    CopyIsReady(h0, MemoryOf(all), content, out, homes, fields, made);
    ghost var escaped := false;
    var i := 0;
    while i < |fields|
      invariant 0 <= i <= |fields| && world <= all && (forall n | n in all && n !in world :: fresh(n))
      invariant Isolated(h0, MemoryOf(all), content, out, homes, fields)
      invariant DoneTo(h0, MemoryOf(all), content, out, fields, made, i)
      invariant escaped == SomeEscape(h0, content, fields, i)
      invariant forall n | n in world :: n.writes >= old(n.writes)
      invariant escaped ==> exists n :: n in world && n.writes > old(n.writes)
      invariant !escaped ==> Untouched(h0, MemoryOf(all), homes) && forall n | n in world :: n.writes == old(n.writes)
    {
      var f := fields[i];
      ghost var h := MemoryOf(all);
      ghost var private := TwoDown(h0, content, f.path).None?;
      DoneIsClosed(h0, h, content, out, fields, made, i);
      OneMore(h0, content, fields, i);
      EscapesOf(h0, content, f);
      if private || !escaped { Finds(h0, h, content, out, homes, fields, made, i); }
      if f.required {
        Skipped(h0, h, content, out, fields, made, i);
      } else {
        var s := Lookup(out, f.path, all);
        if !SlotIs(s, f.expected) && f.factory.Some? {
          ghost var d;
          d, all, homes := WriteDefault(fields, made, i, content, out, h0, all, homes);
          escaped := escaped || !private;
        } else {
          Skipped(h0, h, content, out, fields, made, i);
        }
      }
      i := i + 1;
    }
    DoneIsClosed(h0, MemoryOf(all), content, out, fields, made, i);
    if !escaped { StillTheirs(h0, MemoryOf(all), homes, world); }
    forall q | 0 <= q < |fields| && (!escaped || TwoDown(h0, content, fields[q].path).None?)
      ensures Filled(fields[q], made[q], ReadFrom(h0, content, fields[q].path, 0),
                     ReadFrom(MemoryOf(all), out, fields[q].path, 0))
    {
      Finished(h0, MemoryOf(all), content, out, homes, fields, made, q);
    }
  }
}
