/**
 * `rateUpdatesV3.cli` and `fetchRateStrategyParamsV3`: for every selected
 * asset, in selection order, four percent prompts fill one record.
 *
 * The interactive prompts are an input: the selection prompt's result is a
 * parameter, and the operator's answers to the percent prompts are a script
 * read in the order the prompts are awaited.
 */
module Collector {
  import opened Wrappers
  import opened RateTypes

  /** How one awaited percent prompt settles: with a value (undefined when left empty), or rejected. */
  datatype Answer = Resolved(value: Option<Percent>) | Rejected

  /** One call `percentPrompt({message, required})`; `required == None` is an undefined option. */
  datatype PercentRequest = PercentRequest(message: string, required: Option<bool>)

  /** The prompt messages, one per rate field, in the order they are asked. */
  const ParamNames: seq<string> := ["optimalUtilizationRate", "baseVariableBorrowRate", "variableRateSlope1", "variableRateSlope2"]

  /** The four requests of one `fetchRateStrategyParamsV3(required)`, in order, all with the same `required`. */
  function ParamRequests(required: Option<bool>): seq<PercentRequest>
  {
    [ PercentRequest(ParamNames[0], required),
      PercentRequest(ParamNames[1], required),
      PercentRequest(ParamNames[2], required),
      PercentRequest(ParamNames[3], required) ]
  }

  /** The requests of `n` prompts issued by `cli`: the four field prompts over and over, `required` left undefined. */
  function RequestLog(n: nat): seq<PercentRequest>
  {
    seq(n, k => PercentRequest(ParamNames[k % 4], None))
  }

  /** How the `k`-th percent prompt settles; once the script is exhausted, the operator aborts and it is rejected. */
  function AnswerAt(script: seq<Answer>, k: nat): Answer
  {
    if k < |script| then script[k] else Rejected
  }

  /** The value the `k`-th prompt resolves with (nothing when it is rejected). */
  function ValueAt(script: seq<Answer>, k: nat): Option<Percent>
  {
    match AnswerAt(script, k)
    case Resolved(v) => v
    case Rejected => None
  }

  /** Prompts `from` to `from + count - 1` all resolve. */
  predicate ResolvedRange(script: seq<Answer>, from: nat, count: nat)
  {
    forall k :: from <= k < from + count ==> AnswerAt(script, k).Resolved?
  }

  /** The record four prompts starting at `at` fill: one field per prompt, in field order. */
  function ParamsAt(script: seq<Answer>, at: nat): RateParams
  {
    RateParams(ValueAt(script, at), ValueAt(script, at + 1), ValueAt(script, at + 2), ValueAt(script, at + 3))
  }

  /**
   * `fetchRateStrategyParamsV3(required)` answered from position `at` of the
   * script: four prompts awaited one after the other, each passed the same
   * `required`. It returns the record of the four values when all resolve;
   * the first rejection ends it, and no later prompt is asked.
   */
  method FetchRateStrategyParams(required: Option<bool>, script: seq<Answer>, at: nat)
    returns (r: Outcome<RateParams>, asked: seq<PercentRequest>)
    ensures 1 <= |asked| <= 4 && asked == ParamRequests(required)[..|asked|]
    ensures r.Done? <==> ResolvedRange(script, at, 4)
    ensures r.Done? ==> |asked| == 4 && r.value == ParamsAt(script, at)
    ensures r.Failed? ==> ResolvedRange(script, at, |asked| - 1) && AnswerAt(script, at + |asked| - 1).Rejected?
  {
    var requests := ParamRequests(required);
    asked := [requests[0]];
    var optimalUtilizationRate := AnswerAt(script, at);
    if optimalUtilizationRate.Rejected? {
      return Failed, asked;
    }
    asked := asked + [requests[1]];
    var baseVariableBorrowRate := AnswerAt(script, at + 1);
    if baseVariableBorrowRate.Rejected? {
      return Failed, asked;
    }
    asked := asked + [requests[2]];
    var variableRateSlope1 := AnswerAt(script, at + 2);
    if variableRateSlope1.Rejected? {
      return Failed, asked;
    }
    asked := asked + [requests[3]];
    var variableRateSlope2 := AnswerAt(script, at + 3);
    if variableRateSlope2.Rejected? {
      return Failed, asked;
    }
    r := Done(RateParams(
      optimalUtilizationRate.value,
      baseVariableBorrowRate.value,
      variableRateSlope1.value,
      variableRateSlope2.value));
  }

  /**
   * `rateUpdatesV3.cli`: for each selected asset, in order, fetch its rate
   * fields (with `required` undefined) and push `{asset, params}`. The result
   * has one record per selected asset, in selection order, the `i`-th filled
   * by prompts `4 * i` to `4 * i + 3`. A rejected prompt (or selection)
   * rejects the whole call: no partial list is returned.
   */
  method Cli(selection: Outcome<seq<Asset>>, script: seq<Answer>)
    returns (r: Outcome<seq<RateStrategyUpdate>>, asked: seq<PercentRequest>)
    ensures asked == RequestLog(|asked|)
    ensures selection.Failed? ==> r.Failed? && asked == []
    ensures selection.Done? ==> (r.Done? <==> ResolvedRange(script, 0, 4 * |selection.value|))
    ensures r.Done? ==>
      selection.Done? && |asked| == 4 * |selection.value| && |r.value| == |selection.value|
      && forall i :: 0 <= i < |r.value| ==>
           r.value[i] == RateStrategyUpdate(selection.value[i], ParamsAt(script, 4 * i))
    ensures r.Failed? && selection.Done? ==>
      0 < |asked| <= 4 * |selection.value|
      && ResolvedRange(script, 0, |asked| - 1) && AnswerAt(script, |asked| - 1).Rejected?
  {
    if selection.Failed? {
      return Failed, [];
    }
    var assets := selection.value;
    var response: seq<RateStrategyUpdate> := [];
    asked := [];
    for i := 0 to |assets|
      invariant |response| == i
      invariant forall k :: 0 <= k < i ==> response[k] == RateStrategyUpdate(assets[k], ParamsAt(script, 4 * k))
      invariant asked == RequestLog(4 * i)
      invariant ResolvedRange(script, 0, 4 * i)
    {
      var params, log := FetchRateStrategyParams(None, script, 4 * i);
      asked := asked + log;
      if params.Failed? {
        return Failed, asked;
      }
      response := response + [RateStrategyUpdate(assets[i], params.value)];
    }
    r := Done(response);
  }
}
