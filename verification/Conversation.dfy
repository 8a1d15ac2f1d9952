/** The conversation profile and its speaker ordinals (profiles/conversation.py). */
module Conversation {
  import opened Wrappers
  import opened Json
  import opened Profiles
  import Text

  const SPEAKERS := "conversation.speakers"
  const ID_PATH: Path := ["speaker", "id"]
  const ROLE_PATH: Path := ["speaker", "role"]
  const LABEL_PATH: Path := ["speaker", "label"]
  const TEXT_PATH: Path := ["text"]

  /** The speaker a turn's content names. */
  function SpeakerOf(content: Dict): string {
    var id := GetPath(Obj(content), ID_PATH);
    if id.Str? then id.s else ""
  }

  /** The session's registry of speakers; none is there before the first default. */
  function Speakers(ctx: Dict): Dict {
    var s := Get(ctx, SPEAKERS);
    if s.Obj? then s.fields else map[]
  }

  function Enrol(speakers: Dict, id: string): Dict {
    if id in speakers then speakers else speakers[id := Int(|speakers| + 1)]
  }

  function Ordinal(speakers: Dict, id: string): nat {
    if id in speakers && speakers[id].Int? && speakers[id].i >= 0 then speakers[id].i else 0
  }

  function Label(n: nat): string {
    "speaker_" + Text.Decimal(n)
  }

  /** `_speaker_label_default`. */
  function LabelDefault(content: Dict, ctx: Dict): (Value, Dict) {
    var speakers := Enrol(Speakers(ctx), SpeakerOf(content));
    (Str(Label(Ordinal(speakers, SpeakerOf(content)))), ctx[SPEAKERS := Obj(speakers)])
  }

  function RoleDefault(content: Dict, ctx: Dict): (Value, Dict) {
    (Str("speaker"), ctx)
  }

  /** `build`. */
  function Build(): Profile {
    Profile("conversation", 1,
            [FieldSpec("speaker_id", ID_PATH, true, StrType, None),
             FieldSpec("speaker_role", ROLE_PATH, false, StrType, Some(RoleDefault)),
             FieldSpec("speaker_label", LABEL_PATH, false, StrType, Some(LabelDefault)),
             FieldSpec("text", TEXT_PATH, true, StrType, None)],
            false)
  }

  /** The profile is one defaulting is correct for. */
  lemma ConversationIsWellBehaved()
    ensures WellBehaved(Build())
  {
    assert Apart(ID_PATH, ROLE_PATH) by { assert ID_PATH[1] != ROLE_PATH[1]; }
    assert Apart(ID_PATH, LABEL_PATH) by { assert ID_PATH[1] != LABEL_PATH[1]; }
    assert Apart(ROLE_PATH, LABEL_PATH) by { assert ROLE_PATH[1] != LABEL_PATH[1]; }
    assert Apart(ID_PATH, TEXT_PATH) && Apart(ROLE_PATH, TEXT_PATH) && Apart(LABEL_PATH, TEXT_PATH) by {
      assert TEXT_PATH[0] != ID_PATH[0] && TEXT_PATH[0] != ROLE_PATH[0] && TEXT_PATH[0] != LABEL_PATH[0];
    }
  }

  // ---------------------------------------------------------------- the registry

  /** The registry is a bijection between its speakers and 1..n. */
  ghost predicate Numbered(speakers: Dict) {
    && (forall id | id in speakers :: speakers[id].Int? && 1 <= speakers[id].i <= |speakers|)
    && (forall a, b | a in speakers && b in speakers && speakers[a] == speakers[b] :: a == b)
    && (forall n | 1 <= n <= |speakers| :: exists id :: id in speakers && speakers[id] == Int(n))
  }

  /** Ordinals once given stay. */
  predicate Keeps(speakers: Dict, later: Dict) {
    forall id | id in speakers :: id in later && later[id] == speakers[id]
  }

  lemma EnrolKeeps(speakers: Dict, id: string)
    ensures var later := Enrol(speakers, id);
            && Keeps(speakers, later) && later.Keys == speakers.Keys + {id}
            && |later| == |speakers| + (if id in speakers then 0 else 1)
            && (id !in speakers ==> later[id] == Int(|later|))
  {
  }

  /** Every ordinal up to the new one is somebody's. */
  lemma EnrolIsOnto(speakers: Dict, id: string, n: nat)
    requires Numbered(speakers) && 1 <= n <= |Enrol(speakers, id)|
    ensures exists k :: k in Enrol(speakers, id) && Enrol(speakers, id)[k] == Int(n)
  {
    hide Enrol;
    EnrolKeeps(speakers, id);
    if n <= |speakers| {
      var k :| k in speakers && speakers[k] == Int(n);
      assert Enrol(speakers, id)[k] == Int(n);
    }
  }

  lemma EnrolNumbered(speakers: Dict, id: string)
    requires Numbered(speakers)
    ensures Numbered(Enrol(speakers, id)) && Keeps(speakers, Enrol(speakers, id))
    ensures Enrol(speakers, id).Keys == speakers.Keys + {id}
  {
    hide Enrol;
    EnrolKeeps(speakers, id);
    forall n | 1 <= n <= |Enrol(speakers, id)|
      ensures exists k :: k in Enrol(speakers, id) && Enrol(speakers, id)[k] == Int(n)
    {
      EnrolIsOnto(speakers, id, n);
    }
  }

  // ---------------------------------------------------------------- one turn

  /** The content leaves the label to the default. */
  predicate Unlabelled(content: Dict) {
    !GetPath(Obj(content), LABEL_PATH).Str?
  }

  function Defaulted(content: Dict, ctx: Dict): (Dict, Dict) {
    ApplyDefaults(Build(), content, ctx)
  }

  lemma RoleStep(content: Dict, ctx: Dict)
    requires Validates(Build(), content, false)
    ensures var (c, x) := DefaultField(Build().fields[1], content, ctx);
            x == ctx && SpeakerOf(c) == SpeakerOf(content)
            && GetPath(Obj(c), LABEL_PATH) == GetPath(Obj(content), LABEL_PATH)
  {
    assert ROLE_PATH[1] != ID_PATH[1] && ROLE_PATH[1] != LABEL_PATH[1];
    GetFrame(content, ROLE_PATH, Str("speaker"), ID_PATH);
    GetFrame(content, ROLE_PATH, Str("speaker"), LABEL_PATH);
  }

  lemma DefaultedUnfolds(content: Dict, ctx: Dict)
    ensures var fs := Build().fields;
            var (c1, x1) := DefaultField(fs[1], content, ctx);
            Defaulted(content, ctx) == DefaultField(fs[2], c1, x1)
  {
    var fs := Build().fields;
    var (c0, x0) := DefaultField(fs[0], content, ctx);
    assert c0 == content && x0 == ctx;
    var (c1, x1) := DefaultField(fs[1], c0, x0);
    var (c2, x2) := DefaultField(fs[2], c1, x1);
    assert fs[1..][0] == fs[1] && fs[1..][1..] == fs[2..];
    assert fs[2..][0] == fs[2] && fs[2..][1..] == fs[3..];
    assert fs[3..][0] == fs[3] && fs[3..][1..] == [];
    assert DefaultField(fs[3], c2, x2) == (c2, x2);
    SettledIsFixed(fs[3..], c2, x2);
    assert DefaultFields(fs[2..], c1, x1) == DefaultFields(fs[3..], c2, x2);
    assert DefaultFields(fs[1..], c0, x0) == DefaultFields(fs[2..], c1, x1);
  }

  /** What defaulting one turn does: a supplied label is kept and nobody enrolled; otherwise the speaker is enrolled and
      the label is the speaker's ordinal. */
  lemma TurnEffect(content: Dict, ctx: Dict)
    requires Validates(Build(), content, false)
    ensures var (c, x) := Defaulted(content, ctx);
            var id := SpeakerOf(content);
            && SpeakerOf(c) == id
            && if Unlabelled(content)
               then && Speakers(x) == Enrol(Speakers(ctx), id)
                    && GetPath(Obj(c), LABEL_PATH) == Str(Label(Ordinal(Speakers(x), id)))
               else x == ctx && GetPath(Obj(c), LABEL_PATH) == GetPath(Obj(content), LABEL_PATH)
  {
    RoleStep(content, ctx);
    DefaultedUnfolds(content, ctx);
    var f := Build().fields[2];
    var (c1, x1) := DefaultField(Build().fields[1], content, ctx);
    if Unlabelled(content) {
      var (v, x) := LabelDefault(c1, x1);
      assert f.factory.value(c1, x1) == (v, x);
      GetAfterSet(c1, LABEL_PATH, v);
      assert LABEL_PATH[1] != ID_PATH[1];
      GetFrame(c1, LABEL_PATH, v, ID_PATH);
    }
  }

  // ---------------------------------------------------------------- the declared profile

  /** Under this path the content holds a text. */
  predicate HasText(content: Dict, path: seq<string>) {
    GetPath(Obj(content), path).Str?
  }

  /** A turn of a conversation is one that names its speaker and has a text; in strict mode it has nothing beside
      `speaker` and `text`. Each accessor reads its field. */
  lemma ConversationTakes(content: Dict, strict: bool)
    ensures Build().id == "conversation" && Build().version == 1
    ensures Validates(Build(), content, strict) <==>
              && HasText(content, ["speaker", "id"]) && HasText(content, ["text"])
              && (strict ==> content.Keys <= {"speaker", "text"})
    ensures ResolveAccessor(Build(), "speaker_id", content) == Some(GetPath(Obj(content), ["speaker", "id"]))
    ensures ResolveAccessor(Build(), "speaker_role", content) == Some(GetPath(Obj(content), ["speaker", "role"]))
    ensures ResolveAccessor(Build(), "speaker_label", content) == Some(GetPath(Obj(content), ["speaker", "label"]))
    ensures ResolveAccessor(Build(), "text", content) == Some(GetPath(Obj(content), ["text"]))
    ensures forall name: string | name !in {"speaker_id", "speaker_role", "speaker_label", "text"} ::
              ResolveAccessor(Build(), name, content).None?
  {
    hide GetPath;
    var fs := Build().fields;
    assert TopLevel(fs) == {"speaker", "text"} by {
      assert fs[0].path[0] == "speaker" && fs[3].path[0] == "text";
    }
    assert fs[0].required && fs[3].required && !fs[1].required && !fs[2].required;
    forall name: string | name !in {"speaker_id", "speaker_role", "speaker_label", "text"}
      ensures ResolveAccessor(Build(), name, content).None?
    {
      UnknownAccessor(Build(), name, content);
    }
    FieldNamedIsDeclared(fs, 0);
    FieldNamedIsDeclared(fs, 1);
    FieldNamedIsDeclared(fs, 2);
    FieldNamedIsDeclared(fs, 3);
  }

  /** The session's registry, under its own key of the context. */
  predicate Registers(ctx: Dict, id: string, n: nat) {
    && "conversation.speakers" in ctx && ctx["conversation.speakers"].Obj?
    && id in ctx["conversation.speakers"].fields && ctx["conversation.speakers"].fields[id] == Int(n)
  }

  /** What is filled in: a role that is no text becomes "speaker", and a label that is none becomes "speaker_" and the
      speaker's number in the session's registry; speaker and text stay as they are. */
  lemma ConversationFills(content: Dict, ctx: Dict)
    requires Validates(Build(), content, false) && Numbered(Speakers(ctx))
    ensures var (c, x) := Defaulted(content, ctx);
            && (forall path: Path | path in {["speaker", "id"], ["text"]} ::
                  GetPath(Obj(c), path) == GetPath(Obj(content), path))
            && GetPath(Obj(c), ["speaker", "role"])
                 == (if HasText(content, ["speaker", "role"]) then GetPath(Obj(content), ["speaker", "role"])
                     else Str("speaker"))
            && if HasText(content, ["speaker", "label"])
               then GetPath(Obj(c), ["speaker", "label"]) == GetPath(Obj(content), ["speaker", "label"]) && x == ctx
               else exists n: nat :: GetPath(Obj(c), ["speaker", "label"]) == Str("speaker_" + Text.Decimal(n))
                                     && Registers(x, GetPath(Obj(content), ["speaker", "id"]).s, n)
  {
    hide GetPath, Validates, Numbered, Enrol;
    ConversationTakes(content, false);
    ConversationIsWellBehaved();
    DefaultingIsCorrect(Build(), content, ctx, false);
    TurnEffect(content, ctx);
    assert Build().fields[0].path == ID_PATH && Build().fields[3].path == TEXT_PATH;
    assert Build().fields[2].path == LABEL_PATH && FieldHolds(Build().fields[0], content)
           && FieldHolds(Build().fields[3], content);
    RoleFilled(content, ctx);
    if !HasText(content, ["speaker", "label"]) {
      EnrolNumbered(Speakers(ctx), SpeakerOf(content));
      LabelIsRegistered(content, ctx);
    }
  }

  lemma RoleFilled(content: Dict, ctx: Dict)
    ensures GetPath(Obj(Defaulted(content, ctx).0), ["speaker", "role"])
         == if HasText(content, ["speaker", "role"]) then GetPath(Obj(content), ["speaker", "role"]) else Str("speaker")
  {
    DefaultedUnfolds(content, ctx);
    var fs := Build().fields;
    var (c1, x1) := DefaultField(fs[1], content, ctx);
    assert fs[1].path == ROLE_PATH && fs[2].path == LABEL_PATH;
    if !HasText(content, ROLE_PATH) {
      assert fs[1].factory.value(content, ctx) == (Str("speaker"), ctx);
      GetAfterSet(content, ROLE_PATH, Str("speaker"));
    }
    if !Settled(fs[2], c1) {
      assert LABEL_PATH[1] != ROLE_PATH[1];
      GetFrame(c1, LABEL_PATH, fs[2].factory.value(c1, x1).0, ROLE_PATH);
    }
  }

  lemma LabelIsRegistered(content: Dict, ctx: Dict)
    requires Validates(Build(), content, false) && Unlabelled(content)
    requires Numbered(Enrol(Speakers(ctx), SpeakerOf(content)))
    ensures var x, id := Defaulted(content, ctx).1, SpeakerOf(content);
            && Speakers(x) == Enrol(Speakers(ctx), id) && id in Speakers(x)
            && Registers(x, id, Ordinal(Speakers(x), id))
            && Label(Ordinal(Speakers(x), id)) == "speaker_" + Text.Decimal(Ordinal(Speakers(x), id))
  {
    TurnEffect(content, ctx);
  }

  // ---------------------------------------------------------------- a session

  /** The contexts a session goes through as its turns are defaulted, whether or not they are then accepted. */
  function ContextAfter(contents: seq<Dict>, ctx: Dict): Dict {
    if contents == [] then ctx
    else Defaulted(contents[|contents| - 1], ContextAfter(contents[..|contents| - 1], ctx)).1
  }

  /** The label turn k ends up with. */
  function LabelOf(contents: seq<Dict>, ctx: Dict, k: nat): Value
    requires k < |contents|
  {
    GetPath(Obj(Defaulted(contents[k], ContextAfter(contents[..k], ctx)).0), LABEL_PATH)
  }

  ghost predicate AllValid(contents: seq<Dict>) {
    forall k | 0 <= k < |contents| :: Validates(Build(), contents[k], false)
  }

  /** The speakers whose label was left to the default. */
  function Unnamed(contents: seq<Dict>): set<string> {
    set k | 0 <= k < |contents| && Unlabelled(contents[k]) :: SpeakerOf(contents[k])
  }

  lemma RegistryStep(content: Dict, ctx: Dict)
    requires Validates(Build(), content, false) && Numbered(Speakers(ctx))
    ensures var later := Speakers(Defaulted(content, ctx).1);
            && Numbered(later) && Keeps(Speakers(ctx), later)
            && later.Keys == Speakers(ctx).Keys + (if Unlabelled(content) then {SpeakerOf(content)} else {})
  {
    hide Validates, Build, Numbered, Enrol, Defaulted, Unlabelled, Speakers;
    TurnEffect(content, ctx);
    EnrolNumbered(Speakers(ctx), SpeakerOf(content));
  }

  /** Over any turns of a session the registry is a bijection between 1..n and the speakers whose labels were left to
      the default. */
  lemma {:induction false} RegistryIsNumbered(contents: seq<Dict>)
    requires AllValid(contents)
    ensures Numbered(Speakers(ContextAfter(contents, map[])))
    ensures Speakers(ContextAfter(contents, map[])).Keys == Unnamed(contents)
    decreases |contents|
  {
    hide Validates, Build, Numbered, Keeps, Enrol, Defaulted, Unlabelled, Speakers, Unnamed;
    if contents == [] {
      NobodyEnrolled();
    } else {
      var n := |contents| - 1;
      RegistryIsNumbered(contents[..n]);
      RegistryStep(contents[n], ContextAfter(contents[..n], map[]));
      UnnamedGrows(contents);
    }
  }

  /** No ordinal ever changes. */
  lemma {:induction false} OrdinalsAreKept(contents: seq<Dict>, k: nat)
    requires AllValid(contents) && k <= |contents|
    ensures Keeps(Speakers(ContextAfter(contents[..k], map[])), Speakers(ContextAfter(contents, map[])))
    decreases |contents|
  {
    hide Validates, Build, Numbered, Keeps, Enrol, Defaulted, Unlabelled, Speakers;
    var n := |contents| - 1;
    if k > n {
      assert contents[..k] == contents;
      NobodyEnrolled();
    } else {
      var earlier, before := ContextAfter(contents[..k], map[]), ContextAfter(contents[..n], map[]);
      OrdinalsAreKept(contents[..n], k);
      assert contents[..n][..k] == contents[..k];
      RegistryIsNumbered(contents[..n]);
      RegistryStep(contents[n], before);
      KeepsTransitive(Speakers(earlier), Speakers(before), Speakers(ContextAfter(contents, map[])));
    }
  }

  lemma NobodyEnrolled()
    ensures Speakers(map[]) == map[] && Numbered(map[])
    ensures forall s: Dict :: Keeps(s, s)
    ensures Unnamed([]) == {}
  {
  }

  lemma KeepsTransitive(a: Dict, b: Dict, c: Dict)
    ensures Keeps(a, b) && Keeps(b, c) ==> Keeps(a, c)
  {
  }

  lemma UnnamedGrows(contents: seq<Dict>)
    requires |contents| > 0
    ensures var n := |contents| - 1;
            Unnamed(contents)
              == Unnamed(contents[..n]) + (if Unlabelled(contents[n]) then {SpeakerOf(contents[n])} else {})
  {
    var n := |contents| - 1;
    assert forall k | 0 <= k < n :: contents[..n][k] == contents[k];
    assert Unnamed(contents[..n]) <= Unnamed(contents);
  }

  lemma LabelIsOrdinal(contents: seq<Dict>, k: nat)
    requires AllValid(contents) && k < |contents| && Unlabelled(contents[k])
    ensures var speakers := Speakers(ContextAfter(contents, map[]));
            && SpeakerOf(contents[k]) in speakers
            && LabelOf(contents, map[], k) == Str(Label(Ordinal(speakers, SpeakerOf(contents[k]))))
  {
    hide Validates, Build, Defaulted, Label;
    var prefix := contents[..k + 1];
    assert prefix[..k] == contents[..k] && prefix[k] == contents[k];
    OrdinalsAreKept(contents, k + 1);
    RegistryIsNumbered(prefix);
    TurnEffect(contents[k], ContextAfter(contents[..k], map[]));
    assert SpeakerOf(contents[k]) in Unnamed(prefix);
  }

  /** Two turns of a session whose labels were left to the default get the same label exactly when their speakers are
      the same: a speaker's label never changes and no two speakers share one. */
  lemma DefaultLabelsTellSpeakersApart(contents: seq<Dict>, j: nat, k: nat)
    requires AllValid(contents) && j < |contents| && k < |contents|
    requires Unlabelled(contents[j]) && Unlabelled(contents[k])
    ensures LabelOf(contents, map[], j) == LabelOf(contents, map[], k) <==>
              SpeakerOf(contents[j]) == SpeakerOf(contents[k])
  {
    hide Validates, Build, Defaulted, Label;
    LabelIsOrdinal(contents, j);
    LabelIsOrdinal(contents, k);
    RegistryIsNumbered(contents);
    var speakers := Speakers(ContextAfter(contents, map[]));
    var m, n := Ordinal(speakers, SpeakerOf(contents[j])), Ordinal(speakers, SpeakerOf(contents[k]));
    if Label(m) == Label(n) { LabelInjective(m, n); }
  }

  lemma LabelInjective(m: nat, n: nat)
    requires Label(m) == Label(n)
    ensures m == n
  {
    assert Label(m)[|"speaker_"|..] == Text.Decimal(m);
    assert Label(n)[|"speaker_"|..] == Text.Decimal(n);
    Text.DecimalInjective(m, n);
  }

  // ---------------------------------------------------------------- the context as an object

  /** The mutable context the hub keeps for a session. */
  class SessionContext {
    var entries: Dict

    constructor ()
      ensures entries == map[]
    {
      entries := map[];
    }

    /** `_speaker_label_default`, which updates the session's speaker dictionary. */
    method SpeakerLabel(content: Dict) returns (text: Value)
      modifies this
      ensures (text, entries) == LabelDefault(content, old(entries))
    {
      var id := SpeakerOf(content);
      var speakers := Speakers(entries);
      if id !in speakers { speakers := speakers[id := Int(|speakers| + 1)]; }
      entries := entries[SPEAKERS := Obj(speakers)];
      text := Str(Label(Ordinal(speakers, id)));
    }
  }
}
