/** The result channel every network-backed repository call reports through:
    a flow that emits `Loading` and then one terminal `Success` or `Error`,
    decided from the backend's `{error, message}` envelope. */
module ResultFlow {
  import opened Common

  /** `ResultState`: the three states a caller observes. */
  datatype ResultState<+T> = Loading | Success(data: T) | Error(message: string)

  /** A backend response: the `error` and `message` fields every response
      type carries (`CommonResponse`, `LoginResponse`, `StoriesResponse`),
      and the rest of the response as `payload`. */
  datatype Envelope<+P> = Envelope(error: Option<bool>, message: Option<string>, payload: P)

  /** The error body of an `HttpException` as Gson reads it: parsed into the
      response type, or absent/malformed so that reading it throws. */
  datatype ErrorBody<+P> = ParsedBody(envelope: Envelope<P>) | UnparsableBody

  /** What the suspended API call does: returns a response, throws an
      `HttpException`, or throws any other exception. */
  datatype CallOutcome<+P> =
    | Responded(response: Envelope<P>)
    | HttpFailure(body: ErrorBody<P>)
    | OtherFailure

  /** Everything one collection of a result flow yields: the values emitted,
      and whether an exception escaped the flow after them. */
  datatype FlowRun<+T> = FlowRun(emitted: seq<ResultState<T>>, threw: bool)

  /** The `if (response.error == true)` decision on a response that arrived. */
  function Classify<P>(response: Envelope<P>): (r: ResultState<Envelope<P>>)
    ensures r != Loading
  {
    if response.error == Some(true) then Error(NullableText(response.message))
    else Success(response)
  }

  /** The terminal value of one call, or `None` when the exception is not
      caught (any non-HTTP exception, or an error body Gson cannot read). */
  function Terminal<P>(outcome: CallOutcome<P>): (r: Option<ResultState<Envelope<P>>>)
    ensures r.Some? ==> r.value != Loading
  {
    match outcome
    case Responded(response) => Some(Classify(response))
    case HttpFailure(ParsedBody(body)) => Some(Error(NullableText(body.message)))
    case HttpFailure(UnparsableBody) => None
    case OtherFailure => None
  }

  /** The whole flow: `emit(Loading)` and then the terminal value, if any. */
  function Run<P>(outcome: CallOutcome<P>): (run: FlowRun<Envelope<P>>)
    ensures 1 <= |run.emitted| <= 2 && run.emitted[0] == Loading
    ensures |run.emitted| == 2 <==> !run.threw
  {
    match Terminal(outcome)
    case Some(t) => FlowRun([Loading, t], false)
    case None => FlowRun([Loading], true)
  }

  /** Every flow emits `Loading` first, and `Loading` only once. */
  lemma LoadingFirst<P>(outcome: CallOutcome<P>)
    ensures |Run(outcome).emitted| >= 1 && Run(outcome).emitted[0] == Loading
    ensures forall i :: 1 <= i < |Run(outcome).emitted| ==> Run(outcome).emitted[i] != Loading
  {
  }

  /** A flow emits exactly two values when no exception escapes it, and only
      `Loading` when one does; only `HttpException` is caught. */
  lemma ExactlyTwoEmissions<P>(outcome: CallOutcome<P>)
    ensures |Run(outcome).emitted| == 2 <==> !Run(outcome).threw
    ensures |Run(outcome).emitted| == 1 <==> Run(outcome).threw
    ensures Run(outcome).threw <==> (outcome.OtherFailure? || outcome == HttpFailure(UnparsableBody))
  {
  }

  /** A response with `error == true` ends the flow with `Error` carrying
      `message.toString()`; a missing message becomes the text "null". */
  lemma ErrorFlagGivesError<P>(response: Envelope<P>)
    requires response.error == Some(true)
    ensures Run(Responded(response)).emitted == [Loading, Error(NullableText(response.message))]
    ensures response.message.None? ==> Run(Responded(response)).emitted[1] == Error("null")
  {
  }

  /** A response whose `error` is false or absent ends the flow with
      `Success` carrying the response unchanged. */
  lemma NoErrorFlagGivesSuccess<P>(response: Envelope<P>)
    requires response.error != Some(true)
    ensures Run(Responded(response)).emitted == [Loading, Success(response)]
  {
  }

  /** An `HttpException` whose body parses ends the flow with `Error`
      carrying the parsed body's message. */
  lemma HttpFailureGivesBodyMessage<P>(body: Envelope<P>)
    ensures Run(HttpFailure(ParsedBody(body))).emitted == [Loading, Error(NullableText(body.message))]
  {
  }

  /** A flow ends in `Success(response)` exactly when the call responded with
      that very response and its `error` flag is not `true`. */
  lemma {:induction false} SuccessCharacterised<P>(outcome: CallOutcome<P>, response: Envelope<P>)
    ensures Terminal(outcome) == Some(Success(response)) <==>
      outcome == Responded(response) && response.error != Some(true)
  {
    match outcome
    case Responded(r) =>
    case HttpFailure(body) =>
    case OtherFailure =>
  }

  /** A flow ends in `Error(message)` exactly when the response carried the
      error flag with that message, or the HTTP error body parsed and carried
      it. */
  lemma {:induction false} ErrorCharacterised<P>(outcome: CallOutcome<P>, message: string)
    ensures Terminal(outcome) == Some(Error(message)) <==>
      || (outcome.Responded? && outcome.response.error == Some(true)
          && message == NullableText(outcome.response.message))
      || (outcome.HttpFailure? && outcome.body.ParsedBody?
          && message == NullableText(outcome.body.envelope.message))
  {
    match outcome
    case Responded(r) =>
    case HttpFailure(body) =>
    case OtherFailure =>
  }

  /** The output stream a flow builder emits into during one collection. */
  class FlowCollector<T> {
    var emitted: seq<ResultState<T>>

    constructor ()
      ensures emitted == []
    {
      emitted := [];
    }

    /** `emit(value)`: appends one value to the stream. */
    method Emit(value: ResultState<T>)
      modifies this
      ensures emitted == old(emitted) + [value]
    {
      emitted := emitted + [value];
    }
  }

  /** The body shared by every repository flow: `emit(Loading)`, try the call,
      classify the response or the HTTP error body, `emit` the terminal value.
      `threw` reports an exception leaving the flow. */
  method Collect<P>(collector: FlowCollector<Envelope<P>>, outcome: CallOutcome<P>) returns (threw: bool)
    modifies collector
    ensures collector.emitted == old(collector.emitted) + Run(outcome).emitted
    ensures threw == Run(outcome).threw
  {
    collector.Emit(Loading);
    match outcome {
      case Responded(response) =>
        if response.error == Some(true) {
          collector.Emit(Error(NullableText(response.message)));
        } else {
          collector.Emit(Success(response));
        }
        threw := false;
      case HttpFailure(body) =>
        match body {
          case ParsedBody(errorResponse) =>
            collector.Emit(Error(NullableText(errorResponse.message)));
            threw := false;
          case UnparsableBody =>
            threw := true;
        }
      case OtherFailure =>
        threw := true;
    }
  }
}
