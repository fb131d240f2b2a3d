/**
 * The IAM policy logic engine on the core-services page: an interval
 * advances the stage through request, policy, evaluation and result and
 * back, every 3000 ms; the dots and cards highlight the current stage.
 */
module CoreServices {
  datatype IamStage = Request | Policy | Eval | Result

  /** The stage the visualiser opens on. */
  const InitialStage: IamStage := Request

  /** The four progress dots, in order; each stands for one stage. */
  const Dots: seq<IamStage> := [Request, Policy, Eval, Result]

  /** The interval's `setStage(prev => …)` successor. */
  function Next(prev: IamStage): IamStage {
    if prev == Request then Policy
    else if prev == Policy then Eval
    else if prev == Eval then Result
    else Request
  }

  /** The position of a stage among the dots. */
  function Position(s: IamStage): (r: nat)
    ensures r < |Dots| && Dots[r] == s
  {
    match s
    case Request => 0
    case Policy => 1
    case Eval => 2
    case Result => 3
  }

  /** The successor moves one dot to the right, wrapping from the last to the first. */
  lemma NextIsRotation(s: IamStage)
    ensures Position(Next(s)) == (Position(s) + 1) % 4
  {
  }

  /** The stage after `ticks` firings of the interval. */
  function StageAfter(start: IamStage, ticks: nat): IamStage {
    if ticks == 0 then start else Next(StageAfter(start, ticks - 1))
  }

  /** After `ticks` firings the stage is `ticks` dots to the right of where it started, wrapping around. */
  lemma {:induction false} StageAfterIsRotation(start: IamStage, ticks: nat)
    ensures Position(StageAfter(start, ticks)) == (Position(start) + ticks) % 4
  {
    if ticks > 0 {
      StageAfterIsRotation(start, ticks - 1);
      NextIsRotation(StageAfter(start, ticks - 1));
    }
  }

  /** Four firings return any stage to itself; from the opening stage, the stage at tick n is the n-th dot modulo 4. */
  lemma CycleOfFour(start: IamStage, ticks: nat)
    ensures StageAfter(start, ticks + 4) == StageAfter(start, ticks)
    ensures StageAfter(InitialStage, ticks) == Dots[ticks % 4]
  {
    StageAfterIsRotation(start, ticks + 4);
    StageAfterIsRotation(start, ticks);
    StageAfterIsRotation(InitialStage, ticks);
    PositionInjective(StageAfter(start, ticks + 4), StageAfter(start, ticks));
    PositionInjective(StageAfter(InitialStage, ticks), Dots[ticks % 4]);
  }

  lemma PositionInjective(a: IamStage, b: IamStage)
    ensures Position(a) == Position(b) ==> a == b
  {
  }

  /** `stage === s` for the dot of stage `s`. */
  predicate DotLit(stage: IamStage, dot: nat)
    requires dot < |Dots|
  {
    stage == Dots[dot]
  }

  /** Exactly one dot is lit: the one at the current stage's position. */
  lemma ExactlyOneDotLit(stage: IamStage, dot: nat)
    requires dot < |Dots|
    ensures DotLit(stage, dot) <==> dot == Position(stage)
  {
  }

  // The cards' highlighting.
  predicate RequestCardActive(stage: IamStage) { stage == Request }
  predicate PolicyCardActive(stage: IamStage) { stage == Policy || stage == Eval }
  predicate MatchChecksShown(stage: IamStage) { stage == Eval }
  predicate ResultBadgeGreen(stage: IamStage) { stage == Result }

  /** Over the cycle from the opening stage: the request card at ticks 0 mod 4, the policy card at 1 and 2, the match checks at 2, the green badge at 3. */
  lemma HighlightsOverTicks(ticks: nat)
    ensures RequestCardActive(StageAfter(InitialStage, ticks)) <==> ticks % 4 == 0
    ensures PolicyCardActive(StageAfter(InitialStage, ticks)) <==> ticks % 4 == 1 || ticks % 4 == 2
    ensures MatchChecksShown(StageAfter(InitialStage, ticks)) <==> ticks % 4 == 2
    ensures ResultBadgeGreen(StageAfter(InitialStage, ticks)) <==> ticks % 4 == 3
  {
    CycleOfFour(InitialStage, ticks);
  }
}
