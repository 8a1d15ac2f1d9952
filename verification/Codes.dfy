/** Session codes: what the code of a session is, told by the turns that brought one. */
module Codes {
  import opened Wrappers
  import opened Ctos
  import opened Events
  import opened World
  import opened Invariants

  /** The action stores a turn of this session, and with it a code for the session. */
  predicate GivesCode(a: Act, sid: SessionId) {
    a.StoreTurn? && a.seed.session == sid && a.seed.code.Some?
  }

  /** The code last given to a session by a turn stored in this history. */
  ghost function CodeGiven(hist: seq<Act>, sid: SessionId): Option<string> {
    if hist == [] then None
    else
      var a := hist[|hist| - 1];
      if GivesCode(a, sid) then a.seed.code else CodeGiven(hist[..|hist| - 1], sid)
  }

  /** The stored codes are those given. */
  ghost predicate CodesGiven(w: World) {
    forall sid ::
      (sid in w.hub.codes <==> CodeGiven(w.hist, sid).Some?)
      && (sid in w.hub.codes ==> CodeGiven(w.hist, sid) == Some(w.hub.codes[sid]))
  }

  lemma CodesAfter(cfg: Config, w: World, a: Act)
    ensures Apply(cfg, w, a).hist == w.hist + [a]
    ensures Apply(cfg, w, a).hub.codes
         == if a.StoreTurn? && a.seed.code.Some? then w.hub.codes[a.seed.session := a.seed.code.value] else w.hub.codes
  {
  }

  lemma CodesStep(cfg: Config, w: World, a: Act)
    requires CodesGiven(w)
    ensures CodesGiven(Apply(cfg, w, a))
  {
    hide Apply;
    CodesAfter(cfg, w, a);
    assert (w.hist + [a])[..|w.hist|] == w.hist;
  }

  lemma {:induction false} CodesAreGiven(cfg: Config, w: World)
    requires Legal(cfg, w)
    ensures CodesGiven(w)
    decreases |w.hist|
  {
    hide Legal, Enabled, Apply, CodesGiven;
    if w.hist == [] {
      NoCodesYet(cfg, w);
    } else {
      var p, a := Before(cfg, w);
      CodesAreGiven(cfg, p);
      CodesStep(cfg, p, a);
    }
  }

  lemma NoCodesYet(cfg: Config, w: World)
    requires Legal(cfg, w) && w.hist == []
    ensures CodesGiven(w)
  {
  }

  /** At every point of every run the code read for a session is the one last given to it, and none if none was. */
  lemma CodeIsGiven(cfg: Config, w: World, sid: SessionId)
    requires Legal(cfg, w)
    ensures CodeOf(w, sid) == CodeGiven(w.hist, sid)
  {
    hide Legal;
    CodesAreGiven(cfg, w);
  }

  /** A code given is the session's until another turn of it brings one. */
  lemma {:induction false} GivenLast(hist: seq<Act>, n: nat, sid: SessionId)
    requires n < |hist| && GivesCode(hist[n], sid)
    requires forall m | n < m < |hist| :: !GivesCode(hist[m], sid)
    ensures CodeGiven(hist, sid) == hist[n].seed.code
  {
    var k := |hist| - 1;
    if n < k {
      assert hist[..k][n] == hist[n];
      GivenLast(hist[..k], n, sid);
    }
  }
}
