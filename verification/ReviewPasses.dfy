/**
  The Gemini part of `process_review`: a scoring pass over the media, then a best-effort pass that
  personalises the text, both against the job's deadline. Prompts, the SDK and the response schemas
  are oracles; parsing takes no time.
 */
module ReviewPasses {
  import opened Wrappers
  import opened Messages
  import opened RetryLoop
  import opened RetryClaims

  datatype Review<+S> = Review(narrative: string, tips: seq<string>, scores: S)

  datatype Refinement = Refinement(narrative: string, tips: seq<string>)

  /** A Gemini call with its parsing: the answer or the error raised for it, and when. */
  datatype Answer<+T> = Answer(result: Result<T, KnownError>, ends: real)

  /** The retry policy and deadline, and what the two calls would meet and how their texts parse. */
  datatype Gemini<S> = Gemini(
    policy: Policy,
    deadline: Option<real>,
    scoring: nat -> Try<string>,
    refining: nat -> Try<string>,
    parseReview: string -> Option<Review<S>>,
    parseRefinement: string -> Option<Refinement>)

  const TIPS := 3
  const FILLER_TIP := "Continue praticando e grave mais sessões para um feedback mais detalhado."

  /** Every error of the call becomes one, and so does every error of the parser. */
  function Interpreted<T>(run: Run<string>, parse: string -> Option<T>): Result<T, KnownError> {
    match run.outcome
    case Value(text) =>
      (match parse(text)
       case Some(value) => Ok(value)
       case None => Err(AIParseFailed))
    case _ => Err(AIGenerationFailed)
  }

  function Asked<T>(p: Policy, deadline: Option<real>, world: nat -> Try<string>, parse: string -> Option<T>,
                    start: real): Answer<T>
  {
    var run := Whole(p, deadline, world, start);
    Answer(Interpreted(run, parse), run.ends)
  }

  function First<S>(g: Gemini<S>, start: real): Answer<Review<S>> {
    Asked(g.policy, g.deadline, g.scoring, g.parseReview, start)
  }

  function Second<S>(g: Gemini<S>, start: real): Answer<Refinement> {
    Asked(g.policy, g.deadline, g.refining, g.parseRefinement, start)
  }

  method Ask<T>(p: Policy, deadline: Option<real>, world: nat -> Try<string>, parse: string -> Option<T>, start: real)
    returns (answer: Answer<T>)
    ensures answer == Asked(p, deadline, world, parse, start)
  {
    var run := GenerateContentWithRetry(p, deadline, world, start);
    answer := Answer(Interpreted(run, parse), run.ends);
  }

  /** Cut the tips to three, or pad them. */
  method FitTips(given: seq<string>) returns (tips: seq<string>)
    ensures |tips| == TIPS
    ensures forall i :: 0 <= i < TIPS ==> tips[i] == if i < |given| then given[i] else FILLER_TIP
  {
    tips := given;
    if |tips| > TIPS { tips := tips[..TIPS]; }
    while |tips| < TIPS
      invariant |tips| <= TIPS && (|given| <= TIPS ==> |given| <= |tips|) && (|given| > TIPS ==> |tips| == TIPS)
      invariant forall i :: 0 <= i < |tips| ==> tips[i] == if i < |given| then given[i] else FILLER_TIP
    {
      tips := tips + [FILLER_TIP];
    }
  }

  /** The review a pass left, with its tips made three. */
  ghost predicate Fitted<S>(raw: Review<S>, review: Review<S>) {
    && review.narrative == raw.narrative && review.scores == raw.scores
    && |review.tips| == TIPS
    && forall i :: 0 <= i < TIPS ==> review.tips[i] == if i < |raw.tips| then raw.tips[i] else FILLER_TIP
  }

  /** The refined text over the scores of the first pass, or the first pass when the second fails. */
  function Merged<S>(scored: Review<S>, refined: Result<Refinement, KnownError>): Review<S> {
    if refined.Ok? then Review(refined.value.narrative, refined.value.tips, scored.scores) else scored
  }

  /** Whether the second pass is made. */
  predicate Refines<S>(singlePass: bool, described: bool, scored: Result<Review<S>, KnownError>) {
    !singlePass && described && scored.Ok?
  }

  /**
    What a review comes to: it fails exactly when the scoring pass does; the second pass is made
    after a first that succeeded, for a described session, and can only change the text.
   */
  ghost predicate Reviews<S>(g: Gemini<S>, singlePass: bool, described: bool, start: real,
                                 review: Result<Review<S>, KnownError>, ends: real)
  {
    var first := First(g, start);
    var second := Second(g, first.ends);
    var twice := Refines(singlePass, described, first.result);
    && ends == (if twice then second.ends else first.ends)
    && match first.result
       case Err(e) => review == Err(e)
       case Ok(scored) => review.Ok? && Fitted(if twice then Merged(scored, second.result) else scored, review.value)
  }

  method ReviewMedia<S>(g: Gemini<S>, singlePass: bool, described: bool, start: real)
    returns (review: Result<Review<S>, KnownError>, ends: real)
    ensures Reviews(g, singlePass, described, start, review, ends)
  {
    var first := Ask(g.policy, g.deadline, g.scoring, g.parseReview, start);
    ends := first.ends;
    if first.result.Err? { return Err(first.result.error), ends; }
    var output := first.result.value;
    if !singlePass && described {
      var second := Ask(g.policy, g.deadline, g.refining, g.parseRefinement, first.ends);
      ends := second.ends;
      if second.result.Ok? {
        output := Review(second.result.value.narrative, second.result.value.tips, output.scores);
      }
    }
    if |output.tips| != TIPS {
      var tips := FitTips(output.tips);
      output := Review(output.narrative, tips, output.scores);
    }
    review := Ok(output);
  }

  // ---- Claims --------------------------------------------------------------

  /** A model output that no retry could get, or that does not parse, is the one error of the review. */
  lemma ReviewFailsWith<S>(g: Gemini<S>, singlePass: bool, described: bool, start: real,
                           review: Result<Review<S>, KnownError>, ends: real)
    requires Reviews(g, singlePass, described, start, review, ends)
    ensures var run := Whole(g.policy, g.deadline, g.scoring, start);
      && (review == Err(AIGenerationFailed) <==> !run.outcome.Value?)
      && (review == Err(AIParseFailed) <==> run.outcome.Value? && g.parseReview(run.outcome.value).None?)
      && (review.Ok? <==> run.outcome.Value? && g.parseReview(run.outcome.value).Some?)
      && (review.Err? ==> ends == run.ends)
  {}

  /** Three texts: the first of those given, then fillers. */
  predicate Three(given: seq<string>, tips: seq<string>) {
    && |tips| == 3
    && tips[0] == (if |given| >= 1 then given[0] else FILLER_TIP)
    && tips[1] == (if |given| >= 2 then given[1] else FILLER_TIP)
    && tips[2] == if |given| >= 3 then given[2] else FILLER_TIP
  }

  /**
    The scores are always the first pass's. Its text is replaced by the second pass's exactly when that
    pass was wanted, was made for a described session, and came to an answer that parses; a second pass
    starts where the first ended, and costs its time whatever comes of it.
   */
  lemma ReviewIsMadeOf<S>(g: Gemini<S>, singlePass: bool, described: bool, start: real,
                          review: Result<Review<S>, KnownError>, ends: real)
    requires Reviews(g, singlePass, described, start, review, ends) && review.Ok?
    ensures var run := Whole(g.policy, g.deadline, g.scoring, start);
      var scored := g.parseReview(run.outcome.value).value;
      var again := Whole(g.policy, g.deadline, g.refining, run.ends);
      && review.value.scores == scored.scores
      && (if singlePass || !described
          then ends == run.ends && review.value.narrative == scored.narrative && Three(scored.tips, review.value.tips)
          else
            && ends == again.ends
            && if again.outcome.Value? && g.parseRefinement(again.outcome.value).Some?
               then
                 var refined := g.parseRefinement(again.outcome.value).value;
                 review.value.narrative == refined.narrative && Three(refined.tips, review.value.tips)
               else review.value.narrative == scored.narrative && Three(scored.tips, review.value.tips))
  {
    ReviewFailsWith(g, singlePass, described, start, review, ends);
  }

  /**
    Both passes share the deadline: when attempts keep to their timeouts, the review is over by
    deadline - min(margin, min_attempt), or at once if it is entered too late for one attempt.
   */
  lemma BothPassesEndInTime<S>(g: Gemini<S>, singlePass: bool, described: bool, start: real,
                                   review: Result<Review<S>, KnownError>, ends: real)
    requires Reviews(g, singlePass, described, start, review, ends) && g.deadline.Some?
    requires Punctual(Whole(g.policy, g.deadline, g.scoring, start))
    requires Refines(singlePass, described, First(g, start).result) ==>
      Punctual(Whole(g.policy, g.deadline, g.refining, First(g, start).ends))
    ensures ends <= g.deadline.value - Min(g.policy.deadlineMargin, g.policy.minAttempt) || ends == start
  {
    ExitsByTheDeadline(g.policy, g.deadline.value, g.scoring, start);
    if Refines(singlePass, described, First(g, start).result) {
      ExitsByTheDeadline(g.policy, g.deadline.value, g.refining, First(g, start).ends);
    }
  }
}
