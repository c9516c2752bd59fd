/** Launching one browser: two known data gaps of third parties each cost one
    degraded retry, and the loop of three never runs out of both. */
module CamoufoxLaunch {

  /** What a launch under some settings answers, an arbitrary oracle. */
  datatype Answer = Up | NoExitIp | PresetGap | Broken

  /** `preset`: the fingerprint preset setting, as given, is still in use; any
      given value can meet the gap, so only a spent fallback rules a retry out. */
  datatype Settings = Settings(geoip: bool, preset: bool)

  datatype Outcome = Launched | Raised(why: Answer) | RanOut

  /** The settings after some answers: each gap gives up its own and no other. */
  function After(start: Settings, answers: seq<Answer>): Settings {
    if answers == [] then start
    else Degraded(After(start, answers[..|answers| - 1]), answers[|answers| - 1])
  }

  function Degraded(s: Settings, a: Answer): Settings {
    match a
    case NoExitIp => s.(geoip := false)
    case PresetGap => s.(preset := false)
    case _ => s
  }

  /** The answers come from launches made with just those settings. */
  ghost predicate Follows(start: Settings, answer: (nat, Settings) -> Answer, answers: seq<Answer>) {
    answers != [] ==>
      var init := answers[..|answers| - 1];
      Follows(start, answer, init) && answers[|answers| - 1] == answer(|init|, After(start, init))
  }

  function Times(answers: seq<Answer>, a: Answer): nat {
    if answers == [] then 0 else Times(answers[..|answers| - 1], a) + if answers[|answers| - 1] == a then 1 else 0
  }

  lemma FollowsAdd(start: Settings, answer: (nat, Settings) -> Answer, answers: seq<Answer>, a: Answer)
    requires Follows(start, answer, answers) && a == answer(|answers|, After(start, answers))
    ensures Follows(start, answer, answers + [a])
    ensures After(start, answers + [a]) == Degraded(After(start, answers), a)
    ensures forall b: Answer :: Times(answers + [a], b) == Times(answers, b) + if a == b then 1 else 0
  {
    assert (answers + [a])[..|answers|] == answers;
  }

  /** What each launch is made with: geoip until a launch found no exit address, the
      preset until one met the fingerprint gap. */
  lemma {:induction false} AfterMeans(start: Settings, answers: seq<Answer>)
    ensures After(start, answers) == Settings(start.geoip && NoExitIp !in answers, start.preset && PresetGap !in answers)
    decreases |answers|
  {
    if answers != [] {
      AfterMeans(start, answers[..|answers| - 1]);
      assert answers == answers[..|answers| - 1] + [answers[|answers| - 1]];
    }
  }

  lemma {:induction false} FollowsAt(start: Settings, answer: (nat, Settings) -> Answer, answers: seq<Answer>, i: nat)
    requires Follows(start, answer, answers) && i < |answers|
    ensures answers[i] == answer(i, Settings(start.geoip && NoExitIp !in answers[..i], start.preset && PresetGap !in answers[..i]))
    decreases |answers|
  {
    var init := answers[..|answers| - 1];
    if i < |init| {
      FollowsAt(start, answer, init, i);
      assert init[..i] == answers[..i];
    } else {
      AfterMeans(start, init);
    }
  }

  /** For every oracle: at most three launches, the loop never runs out, and a
      gap's error is raised only once its fallback is spent. */
  method LaunchWithFallback(start: Settings, answer: (nat, Settings) -> Answer) returns (outcome: Outcome, answers: seq<Answer>)
    ensures outcome != RanOut && 1 <= |answers| <= 3 && (!start.geoip ==> |answers| <= 2)
    ensures Follows(start, answer, answers)
    ensures forall i :: 0 <= i < |answers| ==>
      answers[i] == answer(i, Settings(start.geoip && NoExitIp !in answers[..i], start.preset && PresetGap !in answers[..i]))
    ensures var last := answers[|answers| - 1]; outcome == if last == Up then Launched else Raised(last)
    ensures outcome == Raised(NoExitIp) ==> Times(answers, NoExitIp) == if start.geoip then 2 else 1
    ensures outcome == Raised(PresetGap) ==> Times(answers, PresetGap) == 2
  {
    var s, spent := start, false;
    answers := [];
    for attempt := 0 to 3
      invariant |answers| == attempt && Follows(start, answer, answers) && s == After(start, answers)
      invariant Times(answers, NoExitIp) == if start.geoip && !s.geoip then 1 else 0
      invariant Times(answers, PresetGap) == if spent then 1 else 0
      invariant attempt == Times(answers, NoExitIp) + Times(answers, PresetGap) && (!start.geoip ==> !s.geoip)
    {
      var a := answer(attempt, s);
      FollowsAdd(start, answer, answers, a);
      answers := answers + [a];
      forall i | 0 <= i < |answers| { FollowsAt(start, answer, answers, i); }
      if a == Up { return Launched, answers; }
      if a == Broken || (a == NoExitIp && !s.geoip) || (a == PresetGap && spent) { return Raised(a), answers; }
      s := Degraded(s, a);
      spent := spent || a == PresetGap;
    }
    return RanOut, answers;
  }
}
