/** Speaker ordinals over whole runs of a hub, whose start_turn calls share one context a session. */
module SpeakersInRuns {
  import opened Wrappers
  import opened Json
  import opened Profiles
  import opened Ctos
  import opened World
  import opened Conversation
  import opened History

  /** No profile but the conversation profile touches the speaker registry. */
  ghost predicate OnlyConversationNumbers(cfg: Config) {
    forall key | key in cfg.registry :: cfg.registry[key] == Build() || LeavesSpeakers(cfg.registry[key])
  }

  ghost predicate LeavesSpeakers(p: Profile) {
    forall content: Dict, ctx: Dict :: Speakers(ApplyDefaults(p, content, ctx).1) == Speakers(ctx)
  }

  lemma ContextsAfter(cfg: Config, w: World, a: Act, sid: SessionId)
    ensures ContextOf(Apply(cfg, w, a), sid) == if a.SetContext? && a.sid == sid then a.ctx else ContextOf(w, sid)
  {
  }

  lemma DefaultingEnabled(cfg: Config, w: World, a: Act)
    requires a.SetContext? && Enabled(cfg, w, a)
    ensures ProfileFor(cfg, a.used).Some? && Validates(ProfileFor(cfg, a.used).value, a.given, false)
    ensures a.ctx == ApplyDefaults(ProfileFor(cfg, a.used).value, a.given, ContextOf(w, a.sid)).1
  {
  }

  /** One action keeps the numbering of every session, and every ordinal. */
  lemma NumberedStep(cfg: Config, w: World, a: Act, sid: SessionId)
    requires OnlyConversationNumbers(cfg) && Enabled(cfg, w, a) && Numbered(Speakers(ContextOf(w, sid)))
    ensures var later := Speakers(ContextOf(Apply(cfg, w, a), sid));
            Numbered(later) && Keeps(Speakers(ContextOf(w, sid)), later)
  {
    hide Apply, Enabled, Numbered, Speakers, Build, Validates, ApplyDefaults;
    ContextsAfter(cfg, w, a, sid);
    if a.SetContext? && a.sid == sid {
      DefaultingEnabled(cfg, w, a);
      var p := ProfileFor(cfg, a.used).value;
      if p == Build() {
        RegistryStep(a.given, ContextOf(w, sid));
      } else {
        assert LeavesSpeakers(p);
      }
    }
  }

  /** At every point of every run each session's registry numbers its speakers 1..n. */
  lemma {:induction false} SpeakersAreNumbered(cfg: Config, w: World, sid: SessionId)
    requires Legal(cfg, w) && OnlyConversationNumbers(cfg)
    ensures Numbered(Speakers(ContextOf(w, sid)))
    decreases |w.hist|
  {
    hide Legal, Enabled, Apply, Numbered, OnlyConversationNumbers;
    if w.hist == [] {
      Beginning(cfg, w);
      NobodyEnrolled();
    } else {
      var p, a := Before(cfg, w);
      SpeakersAreNumbered(cfg, p, sid);
      NumberedStep(cfg, p, a, sid);
    }
  }

  /** And between two points of a run no ordinal changes. */
  lemma {:induction false} OrdinalsKeptInRun(cfg: Config, w: World, w': World, sid: SessionId)
    requires Legal(cfg, w) && Legal(cfg, w') && w.hist <= w'.hist && OnlyConversationNumbers(cfg)
    ensures Keeps(Speakers(ContextOf(w, sid)), Speakers(ContextOf(w', sid)))
    decreases |w'.hist|
  {
    hide Legal, Enabled, Apply, Numbered, OnlyConversationNumbers, Speakers;
    if |w.hist| == |w'.hist| {
      SameHistory(cfg, w, w');
    } else {
      var p, a := Before(cfg, w');
      OrdinalsKeptInRun(cfg, w, p, sid);
      SpeakersAreNumbered(cfg, p, sid);
      NumberedStep(cfg, p, a, sid);
      KeepsTransitive(Speakers(ContextOf(w, sid)), Speakers(ContextOf(p, sid)), Speakers(ContextOf(w', sid)));
    }
  }

  /** Two conversation turns of one session, however far apart in a run, whose labels are left to the default get the
      same label exactly when they name the same speaker. */
  lemma LabelsTellSpeakersApartInRun(cfg: Config, w: World, a: Act, w': World, given: Dict)
    requires Legal(cfg, w) && Legal(cfg, w') && OnlyConversationNumbers(cfg)
    requires a.SetContext? && Enabled(cfg, w, a) && ProfileFor(cfg, a.used) == Some(Build()) && w.hist + [a] <= w'.hist
    requires Validates(Build(), given, cfg.strict) && Unlabelled(a.given) && Unlabelled(given)
    ensures var first := GetPath(Obj(Defaulted(a.given, ContextOf(w, a.sid)).0), LABEL_PATH);
            var second := GetPath(Obj(Defaulted(given, ContextOf(w', a.sid)).0), LABEL_PATH);
            first == second <==> SpeakerOf(a.given) == SpeakerOf(given)
  {
    hide Legal, Apply, Enabled, Build, Numbered, OnlyConversationNumbers, ApplyDefaults, Speakers, Label, Enrol;
    hide Unlabelled;
    var v := Apply(cfg, w, a);
    LegalEffect(cfg, w, a);
    HistoryOf(cfg, w, a);
    DefaultingEnabled(cfg, w, a);
    ContextsAfter(cfg, w, a, a.sid);
    SpeakersAreNumbered(cfg, w, a.sid);
    SpeakersAreNumbered(cfg, w', a.sid);
    OrdinalsKeptInRun(cfg, v, w', a.sid);
    LenientValidation(given, cfg.strict);
    TurnEffect(a.given, ContextOf(w, a.sid));
    TurnEffect(given, ContextOf(w', a.sid));
    EnrolNumbered(Speakers(ContextOf(w, a.sid)), SpeakerOf(a.given));
    EnrolNumbered(Speakers(ContextOf(w', a.sid)), SpeakerOf(given));
    var early, late := Speakers(ContextOf(v, a.sid)), Speakers(Defaulted(given, ContextOf(w', a.sid)).1);
    KeepsTransitive(early, Speakers(ContextOf(w', a.sid)), late);
    OrdinalsDiffer(early, late, SpeakerOf(a.given), SpeakerOf(given));
    var m, n := Ordinal(early, SpeakerOf(a.given)), Ordinal(late, SpeakerOf(given));
    if Label(m) == Label(n) { LabelInjective(m, n); }
  }

  lemma LenientValidation(given: Dict, strict: bool)
    requires Validates(Build(), given, strict)
    ensures Validates(Build(), given, false)
  {
  }

  lemma OrdinalsDiffer(early: Dict, late: Dict, a: string, b: string)
    requires Keeps(early, late) && Numbered(late) && a in early && b in late
    ensures Ordinal(early, a) == Ordinal(late, b) <==> a == b
  {
  }
}
