/** Profiles: declared fields, path walking, validation and defaulting (profile.py). */
module Profiles {
  import opened Wrappers
  import opened Json

  type Path = p: seq<string> | |p| > 0 witness ["text"]

  /** Calls a default factory: it sees the content and the session context and may change the context. */
  type Factory = (Dict, Dict) -> (Value, Dict)

  datatype FieldSpec = FieldSpec(name: string, path: Path, required: bool, expected: PyType, factory: Option<Factory>)

  datatype Profile = Profile(id: string, version: int, fields: seq<FieldSpec>, strict: bool)

  // ---------------------------------------------------------------- paths

  /** `_get_by_path`: None when a key is absent or something on the way is not a dict. */
  function GetPath(v: Value, path: seq<string>): Value
    decreases path
  {
    if path == [] then v
    else if !v.Obj? then Null
    else GetPath(Get(v.fields, path[0]), path[1..])
  }

  /** `_set_by_path`: creates intermediate dicts, replacing anything that is not one. */
  function SetPath(d: Dict, path: Path, v: Value): Dict
    decreases path
  {
    if |path| == 1 then d[path[0] := v]
    else
      var inner := Get(d, path[0]);
      d[path[0] := Obj(SetPath(if inner.Obj? then inner.fields else map[], path[1..], v))]
  }

  /** Neither path lies on the way to the other. */
  predicate Apart(p: seq<string>, q: seq<string>) {
    !(p <= q) && !(q <= p)
  }

  lemma {:induction false} GetAfterSet(d: Dict, path: Path, v: Value)
    ensures GetPath(Obj(SetPath(d, path, v)), path) == v
    decreases path
  {
    if |path| == 1 {
      assert path[1..] == [];
    } else {
      var inner := Get(d, path[0]);
      GetAfterSet(if inner.Obj? then inner.fields else map[], path[1..], v);
    }
  }

  /** Writing at one path leaves every path apart from it reading the same. */
  lemma {:induction false} GetFrame(d: Dict, path: Path, v: Value, other: Path)
    requires Apart(path, other)
    ensures GetPath(Obj(SetPath(d, path, v)), other) == GetPath(Obj(d), other)
    decreases path
  {
    if path[0] == other[0] {
      assert |path| == 1 ==> path <= other;
      assert |other| == 1 ==> other <= path;
      var p, o := path[1..], other[1..];
      assert Apart(p, o) by {
        assert path == [path[0]] + p && other == [path[0]] + o;
      }
      var inner := Get(d, path[0]);
      var base := if inner.Obj? then inner.fields else map[];
      GetFrame(base, p, v, o);
      if !inner.Obj? {
        GetPathOfEmpty(o);
      }
    }
  }

  lemma GetPathOfEmpty(path: Path)
    ensures GetPath(Obj(map[]), path) == Null
  {
    if |path| > 1 {
      assert GetPath(Null, path[1..]) == Null;
    }
  }

  // ---------------------------------------------------------------- validation

  function TopLevel(fields: seq<FieldSpec>): set<string> {
    set i | 0 <= i < |fields| :: fields[i].path[0]
  }

  predicate FieldHolds(f: FieldSpec, content: Dict) {
    IsInstance(GetPath(Obj(content), f.path), f.expected)
  }

  /** `Profile.validate`: every required field present and well typed; in strict mode no unknown top-level key. */
  predicate Validates(p: Profile, content: Dict, strict: bool) {
    && (forall i | 0 <= i < |p.fields| && p.fields[i].required :: FieldHolds(p.fields[i], content))
    && (strict || p.strict ==> content.Keys <= TopLevel(p.fields))
  }

  /** Python's idea of a value's type: a bool is an int, and anything is an object. */
  ghost predicate IsOf(v: Value, t: PyType) {
    || (t.StrType? && v.Str?) || (t.IntType? && (v.Int? || v.Bool?)) || (t.BoolType? && v.Bool?)
    || (t.ListType? && v.List?) || (t.DictType? && v.Obj?) || t.ObjectType?
  }

  /** The content has every required field, of its type, and if the caller or the profile is strict it has no key that
      is not the first of some field's path. */
  ghost predicate Conforms(p: Profile, content: Dict, strict: bool) {
    && (forall f | f in p.fields && f.required :: IsOf(GetPath(Obj(content), f.path), f.expected))
    && (strict || p.strict ==> forall key | key in content :: exists f :: f in p.fields && f.path[0] == key)
  }

  /** Validation comes to exactly that. */
  lemma ValidatesExactly(p: Profile, content: Dict, strict: bool)
    ensures Validates(p, content, strict) <==> Conforms(p, content, strict)
  {
    assert forall f | f in p.fields :: f.path[0] in TopLevel(p.fields) by {
      forall f | f in p.fields
        ensures f.path[0] in TopLevel(p.fields)
      {
        var i :| 0 <= i < |p.fields| && p.fields[i] == f;
      }
    }
    assert forall i | 0 <= i < |p.fields| :: p.fields[i] in p.fields;
  }

  // ---------------------------------------------------------------- defaults

  /** One round of the loop in `apply_defaults`. */
  function DefaultField(f: FieldSpec, content: Dict, ctx: Dict): (Dict, Dict) {
    if f.required || FieldHolds(f, content) || f.factory.None? then (content, ctx)
    else
      var (v, ctx') := f.factory.value(content, ctx);
      (SetPath(content, f.path, v), ctx')
  }

  function DefaultFields(fields: seq<FieldSpec>, content: Dict, ctx: Dict): (Dict, Dict) {
    if |fields| == 0 then (content, ctx)
    else
      var (c, x) := DefaultField(fields[0], content, ctx);
      DefaultFields(fields[1..], c, x)
  }

  /** `Profile.apply_defaults`: the new content and the session context it leaves behind. */
  function ApplyDefaults(p: Profile, content: Dict, ctx: Dict): (Dict, Dict) {
    DefaultFields(p.fields, content, ctx)
  }

  ghost predicate PairwiseApart(fields: seq<FieldSpec>) {
    forall i, j | 0 <= i < j < |fields| :: Apart(fields[i].path, fields[j].path)
  }

  /** The factory returns the type its field declares. */
  ghost predicate TypedFactory(f: FieldSpec) {
    f.factory.Some? ==> forall c: Dict, x: Dict :: IsInstance(f.factory.value(c, x).0, f.expected)
  }

  ghost predicate TypedFactories(fields: seq<FieldSpec>) {
    forall i | 0 <= i < |fields| :: TypedFactory(fields[i])
  }

  /** Field paths pairwise apart and factories well typed: the profiles defaulting is correct for. */
  ghost predicate WellBehaved(p: Profile) {
    PairwiseApart(p.fields) && TypedFactories(p.fields)
  }

  /** The loop leaves this field alone. */
  predicate Settled(f: FieldSpec, content: Dict) {
    f.required || FieldHolds(f, content) || f.factory.None?
  }

  /** What defaulting one field does to that field and to every path apart from it. */
  lemma DefaultFieldEffect(f: FieldSpec, content: Dict, ctx: Dict)
    requires TypedFactory(f)
    ensures var (c, x) := DefaultField(f, content, ctx);
            && (Settled(f, content) ==> c == content && x == ctx)
            && Settled(f, c)
            && (forall q: Path | Apart(f.path, q) :: GetPath(Obj(c), q) == GetPath(Obj(content), q))
            && c.Keys <= content.Keys + {f.path[0]}
  {
    if !Settled(f, content) {
      var (v, x) := f.factory.value(content, ctx);
      GetAfterSet(content, f.path, v);
      forall q: Path | Apart(f.path, q)
        ensures GetPath(Obj(SetPath(content, f.path, v)), q) == GetPath(Obj(content), q)
      {
        GetFrame(content, f.path, v, q);
      }
    }
  }

  lemma {:induction false} SettledIsFixed(fields: seq<FieldSpec>, content: Dict, ctx: Dict)
    requires forall i | 0 <= i < |fields| :: Settled(fields[i], content)
    ensures DefaultFields(fields, content, ctx) == (content, ctx)
  {
    if |fields| > 0 {
      SettledIsFixed(fields[1..], content, ctx);
    }
  }

  /** A path apart from every field reads the same after the loop, and only declared top-level keys are added. */
  lemma {:induction false} DefaultFieldsFrame(fields: seq<FieldSpec>, content: Dict, ctx: Dict)
    requires TypedFactories(fields)
    ensures var c := DefaultFields(fields, content, ctx).0;
            && (forall q: Path | (forall i | 0 <= i < |fields| :: Apart(fields[i].path, q)) ::
                  GetPath(Obj(c), q) == GetPath(Obj(content), q))
            && c.Keys <= content.Keys + TopLevel(fields)
  {
    if |fields| > 0 {
      var (c1, x1) := DefaultField(fields[0], content, ctx);
      DefaultFieldEffect(fields[0], content, ctx);
      DefaultFieldsFrame(fields[1..], c1, x1);
      assert TopLevel(fields[1..]) <= TopLevel(fields);
      var c := DefaultFields(fields, content, ctx).0;
      forall q: Path | forall i | 0 <= i < |fields| :: Apart(fields[i].path, q)
        ensures GetPath(Obj(c), q) == GetPath(Obj(content), q)
      {
        assert forall i | 0 <= i < |fields[1..]| :: fields[1..][i] == fields[i + 1];
      }
    }
  }

  /** The loop settles every field and leaves those already settled reading as they did. */
  lemma {:induction false} DefaultFieldsEffect(fields: seq<FieldSpec>, content: Dict, ctx: Dict)
    requires PairwiseApart(fields) && TypedFactories(fields)
    ensures var c := DefaultFields(fields, content, ctx).0;
            forall i | 0 <= i < |fields| ::
              && Settled(fields[i], c)
              && (Settled(fields[i], content) ==>
                    GetPath(Obj(c), fields[i].path) == GetPath(Obj(content), fields[i].path))
  {
    if |fields| > 0 {
      var f, rest := fields[0], fields[1..];
      var (c1, x1) := DefaultField(f, content, ctx);
      DefaultFieldEffect(f, content, ctx);
      DefaultFieldsEffect(rest, c1, x1);
      DefaultFieldsFrame(rest, c1, x1);
      var c := DefaultFields(rest, c1, x1).0;
      assert GetPath(Obj(c), f.path) == GetPath(Obj(c1), f.path) by {
        assert forall i | 0 <= i < |rest| :: Apart(rest[i].path, f.path) by {
          forall i | 0 <= i < |rest| ensures Apart(rest[i].path, f.path) {
            assert Apart(fields[0].path, fields[i + 1].path);
          }
        }
      }
      forall i | 0 < i < |fields|
        ensures && Settled(fields[i], c)
                && (Settled(fields[i], content) ==>
                      GetPath(Obj(c), fields[i].path) == GetPath(Obj(content), fields[i].path))
      {
        assert rest[i - 1] == fields[i];
        assert Apart(f.path, fields[i].path);
      }
    }
  }

  /** Defaulting validated content: it still validates, keeps every well-typed supplied field, leaves every field with a
      factory well typed, and a second application changes neither content nor context. */
  lemma DefaultingIsCorrect(p: Profile, content: Dict, ctx: Dict, strict: bool)
    requires WellBehaved(p) && Validates(p, content, strict)
    ensures var (c, x) := ApplyDefaults(p, content, ctx);
            && Validates(p, c, strict)
            && (forall i | 0 <= i < |p.fields| && FieldHolds(p.fields[i], content) ::
                  GetPath(Obj(c), p.fields[i].path) == GetPath(Obj(content), p.fields[i].path))
            && (forall i | 0 <= i < |p.fields| && p.fields[i].factory.Some? :: FieldHolds(p.fields[i], c))
            && ApplyDefaults(p, c, x) == (c, x)
  {
    var (c, x) := ApplyDefaults(p, content, ctx);
    DefaultFieldsEffect(p.fields, content, ctx);
    DefaultFieldsFrame(p.fields, content, ctx);
    SettledIsFixed(p.fields, c, x);
  }

  // ---------------------------------------------------------------- accessors

  /** `fields[name]`; the fields of a profile are keyed by accessor name. */
  function FieldNamed(fields: seq<FieldSpec>, name: string): Option<FieldSpec> {
    if |fields| == 0 then None else if fields[0].name == name then Some(fields[0]) else FieldNamed(fields[1..], name)
  }

  /** `Profile.resolve`; None is the KeyError of an unknown accessor. */
  function ResolveAccessor(p: Profile, name: string, content: Dict): Option<Value> {
    var f := FieldNamed(p.fields, name);
    if f.Some? then Some(GetPath(Obj(content), f.value.path)) else None
  }

  /** An accessor is unknown exactly when no field bears its name. */
  lemma {:induction false} UnknownAccessor(p: Profile, name: string, content: Dict)
    ensures ResolveAccessor(p, name, content).None? <==> forall f | f in p.fields :: f.name != name
  {
    FieldNamedSomewhere(p.fields, name);
  }

  lemma {:induction false} FieldNamedSomewhere(fields: seq<FieldSpec>, name: string)
    ensures FieldNamed(fields, name).None? <==> forall f | f in fields :: f.name != name
  {
    if |fields| > 0 {
      FieldNamedSomewhere(fields[1..], name);
      assert forall f :: f in fields <==> f == fields[0] || f in fields[1..];
    }
  }

  lemma {:induction false} FieldNamedIsDeclared(fields: seq<FieldSpec>, i: nat)
    requires i < |fields| && forall j | 0 <= j < i :: fields[j].name != fields[i].name
    ensures FieldNamed(fields, fields[i].name) == Some(fields[i])
  {
    if i > 0 {
      assert fields[1..][i - 1] == fields[i];
      forall j | 0 <= j < i - 1
        ensures fields[1..][j].name != fields[i].name
      {
        assert fields[1..][j] == fields[j + 1];
      }
      FieldNamedIsDeclared(fields[1..], i - 1);
    }
  }

  /** On a turn that was validated and defaulted every accessor of a required field, or of one with a default, gives a
      value of the declared type, and supplied values come back as they were. */
  lemma AccessorsOfDefaultedContent(p: Profile, content: Dict, ctx: Dict, strict: bool, i: nat)
    requires WellBehaved(p) && Validates(p, content, strict) && i < |p.fields|
    requires forall j | 0 <= j < i :: p.fields[j].name != p.fields[i].name
    ensures var f, c := p.fields[i], ApplyDefaults(p, content, ctx).0;
            var v := ResolveAccessor(p, f.name, c);
            && v.Some?
            && (f.required || f.factory.Some? ==> IsInstance(v.value, f.expected))
            && (FieldHolds(f, content) ==> v == ResolveAccessor(p, f.name, content))
  {
    FieldNamedIsDeclared(p.fields, i);
    DefaultingIsCorrect(p, content, ctx, strict);
  }

  // ---------------------------------------------------------------- the loops

  /** `_get_by_path`, walking a local down the path. */
  method WalkPath(content: Dict, path: seq<string>) returns (v: Value)
    ensures v == GetPath(Obj(content), path)
  {
    v := Obj(content);
    var i := 0;
    while i < |path|
      invariant 0 <= i <= |path|
      invariant GetPath(v, path[i..]) == GetPath(Obj(content), path)
    {
      if !v.Obj? { return Null; }
      assert path[i..][1..] == path[i + 1..];
      v := Get(v.fields, path[i]);
      i := i + 1;
    }
  }

  /** `Profile.validate`. */
  method Validate(p: Profile, content: Dict, strict: bool) returns (ok: bool)
    ensures ok == Validates(p, content, strict)
    ensures ok <==> Conforms(p, content, strict)
  {
    ValidatesExactly(p, content, strict);
    var known := {};
    var i := 0;
    while i < |p.fields|
      invariant 0 <= i <= |p.fields|
      invariant forall j | 0 <= j < i && p.fields[j].required :: FieldHolds(p.fields[j], content)
      invariant known == set j | 0 <= j < i :: p.fields[j].path[0]
    {
      if p.fields[i].required {
        var v := WalkPath(content, p.fields[i].path);
        if !IsInstance(v, p.fields[i].expected) { return false; }
      }
      known := known + {p.fields[i].path[0]};
      i := i + 1;
    }
    return !(strict || p.strict) || content.Keys <= known;
  }

  /** `Profile.apply_defaults`: the loop over the fields, with the session context as it goes. */
  method FillDefaults(p: Profile, content: Dict, ctx: Dict) returns (out: Dict, ctx': Dict)
    ensures (out, ctx') == ApplyDefaults(p, content, ctx)
  {
    out, ctx' := content, ctx;
    var i := 0;
    while i < |p.fields|
      invariant 0 <= i <= |p.fields|
      invariant DefaultFields(p.fields[i..], out, ctx') == DefaultFields(p.fields, content, ctx)
    {
      var f := p.fields[i];
      assert p.fields[i..][0] == f && p.fields[i..][1..] == p.fields[i + 1..];
      if !f.required {
        var v := WalkPath(out, f.path);
        if !IsInstance(v, f.expected) && f.factory.Some? {
          var made := f.factory.value(out, ctx');
          out, ctx' := SetPath(out, f.path, made.0), made.1;
        }
      }
      i := i + 1;
    }
  }
}
