/**
 * The MVI view model of the node list: intents start one fetch each, and the
 * fetch's result is reduced to one of a fixed set of view states; a refresh
 * also emits a one-shot effect.
 */
module LightningViewModel {
  import opened LightningNodes
  import opened LightningRepository

  datatype Intent = FetchNodes | RefreshNodes

  datatype ViewState =
    | Loading
    | Empty
    | Success(nodes: seq<LightningNodeViewObject>, isLoading: bool, error: Option<string>)
    | Error(message: string)

  datatype ViewEffect =
    | ShowErrorMessage(message: string)
    | ShowSuccessMessage(message: string)
    | RefreshComplete

  /** Prefix of the message of the Error state. */
  const ErrorStatePrefix: string := "Error: "

  /** The view state a fetch result ends in. */
  function ReduceResult(result: Result<seq<LightningNodeViewObject>>): (s: ViewState)
    ensures s.Success? <==> result.Success? && result.data != []
    ensures s.Success? ==> s.nodes == result.data && !s.isLoading && s.error.None?
    ensures s.Empty? <==> result.Success? && result.data == []
    ensures s.Error? <==> result.Error?
    ensures s.Error? ==> s.message == ErrorStatePrefix + result.message
  {
    match result
    case Success(nodes) => if |nodes| == 0 then Empty else ViewState.Success(nodes, false, None)
    case Error(message) => ViewState.Error(ErrorStatePrefix + message)
  }

  /** The state an intent ends in when its one API call produced `outcome`. */
  function FinalState(outcome: ApiOutcome, platform: Platform): ViewState {
    ReduceResult(GetNodes(outcome, platform))
  }

  /** The effects an intent emits. */
  function EffectsOf(intent: Intent): seq<ViewEffect> {
    match intent
    case FetchNodes => []
    case RefreshNodes => [RefreshComplete]
  }

  /** What the view observes of the view model: its current state and the effects emitted so far. */
  datatype Machine = Machine(state: ViewState, effects: seq<ViewEffect>)

  const Initial: Machine := Machine(Empty, [])

  /** One intent, run to completion, with the outcome of its API call. */
  datatype Request = Request(intent: Intent, outcome: ApiOutcome)

  /**
   * The observable effect of one intent run to completion: it never ends in
   * Loading, keeps the effects emitted before, and only a refresh adds one.
   */
  function Step(m: Machine, request: Request, platform: Platform): (r: Machine)
    ensures r.state != Loading
    ensures |r.effects| >= |m.effects| && r.effects[..|m.effects|] == m.effects
    ensures request.intent == FetchNodes ==> r.effects == m.effects
    ensures request.intent == RefreshNodes ==> r.effects == m.effects + [RefreshComplete]
  {
    Machine(FinalState(request.outcome, platform), m.effects + EffectsOf(request.intent))
  }

  /**
   * The observable effect of a sequence of intents, each run to completion
   * before the next: effects are only ever appended, and a non-empty script
   * never ends in Loading.
   */
  function Run(m: Machine, script: seq<Request>, platform: Platform): (r: Machine)
    ensures |r.effects| >= |m.effects| && r.effects[..|m.effects|] == m.effects
    ensures script != [] ==> r.state != Loading
    decreases |script|
  {
    if script == [] then m else Run(Step(m, script[0], platform), script[1..], platform)
  }

  /** The number of refresh intents in a script. */
  function RefreshCount(script: seq<Request>): nat {
    if script == [] then 0
    else (if script[0].intent == RefreshNodes then 1 else 0) + RefreshCount(script[1..])
  }

  /** What happens during an intent, in order: state writes, API calls, effect emissions. */
  datatype Event =
    | StateWritten(state: ViewState)
    | ApiCalled(outcome: ApiOutcome)
    | EffectEmitted(effect: ViewEffect)

  /**
   * The events of one intent: Loading is written, the API is called, a refresh
   * emits its effect, and the final state is written.
   */
  function IntentTrace(request: Request, platform: Platform): seq<Event> {
    [StateWritten(Loading), ApiCalled(request.outcome)]
      + (if request.intent == RefreshNodes then [EffectEmitted(RefreshComplete)] else [])
      + [StateWritten(FinalState(request.outcome, platform))]
  }

  /** The events of a script of intents, each run to completion before the next. */
  function RunTrace(script: seq<Request>, platform: Platform): seq<Event> {
    if script == [] then [] else IntentTrace(script[0], platform) + RunTrace(script[1..], platform)
  }

  /** The number of API calls among some events. */
  function ApiCallCount(events: seq<Event>): nat {
    if events == [] then 0 else (if events[0].ApiCalled? then 1 else 0) + ApiCallCount(events[1..])
  }

  /**
   * `LightningNodeViewModel`. `state` is the value of the state flow and
   * `effects` the effects emitted on the effect flow; `trace` records, for the
   * proofs, every state write, API call and effect emission in order.
   */
  class LightningNodeViewModel {
    const platform: Platform
    var state: ViewState
    var effects: seq<ViewEffect>
    ghost var trace: seq<Event>

    constructor (platform: Platform)
      ensures this.platform == platform
      ensures state == Empty && effects == [] && trace == []
    {
      this.platform := platform;
      state := Empty;
      effects := [];
      trace := [];
    }

    function Current(): Machine
      reads this
    {
      Machine(state, effects)
    }

    /** `processUserIntent`, where `outcome` is what the intent's one API call produces. */
    method ProcessUserIntent(intent: Intent, outcome: ApiOutcome)
      modifies this
      ensures Current() == Step(old(Current()), Request(intent, outcome), platform)
      ensures trace == old(trace) + IntentTrace(Request(intent, outcome), platform)
    {
      match intent
      case FetchNodes => LoadLightningNodes(outcome);
      case RefreshNodes => RefreshLightningNodes(outcome);
    }

    /** `loadLightningNodes`: a fetch without effects. */
    method LoadLightningNodes(outcome: ApiOutcome)
      modifies this
      ensures Current() == Step(old(Current()), Request(FetchNodes, outcome), platform)
      ensures trace == old(trace) + IntentTrace(Request(FetchNodes, outcome), platform)
    {
      PerformFetchNodesOperation(FetchNodes, outcome);
    }

    /** `refreshLightningNodes`: a fetch that emits RefreshComplete once the result is in. */
    method RefreshLightningNodes(outcome: ApiOutcome)
      modifies this
      ensures Current() == Step(old(Current()), Request(RefreshNodes, outcome), platform)
      ensures trace == old(trace) + IntentTrace(Request(RefreshNodes, outcome), platform)
    {
      PerformFetchNodesOperation(RefreshNodes, outcome);
    }

    /**
     * The fetch operation passed to `performFetchNodesOperation`: one call of
     * the use case (which delegates to the repository), followed, for a
     * refresh, by the RefreshComplete effect.
     */
    method FetchOperation(intent: Intent, outcome: ApiOutcome) returns (result: Result<seq<LightningNodeViewObject>>)
      modifies this`effects, this`trace
      ensures result == GetNodes(outcome, platform)
      ensures effects == old(effects) + EffectsOf(intent)
      ensures trace == old(trace) + [ApiCalled(outcome)]
        + (if intent == RefreshNodes then [EffectEmitted(RefreshComplete)] else [])
    {
      result := GetNodes(outcome, platform);
      trace := trace + [ApiCalled(outcome)];
      if intent == RefreshNodes {
        effects := effects + [RefreshComplete];
        trace := trace + [EffectEmitted(RefreshComplete)];
      }
    }

    /** `performFetchNodesOperation`: write Loading, run the fetch, reduce its result. */
    method PerformFetchNodesOperation(intent: Intent, outcome: ApiOutcome)
      modifies this
      ensures state == ReduceResult(GetNodes(outcome, platform))
      ensures effects == old(effects) + EffectsOf(intent)
      ensures trace == old(trace) + IntentTrace(Request(intent, outcome), platform)
    {
      state := Loading;
      trace := trace + [StateWritten(state)];
      var result := FetchOperation(intent, outcome);
      match result {
        case Success(nodes) =>
          state := if |nodes| == 0 then Empty else ViewState.Success(nodes, false, None);
        case Error(message) =>
          state := ViewState.Error(ErrorStatePrefix + message);
      }
      trace := trace + [StateWritten(state)];
    }
  }

  /** The final state of an intent depends on its own API outcome only, never on the prior state. */
  lemma StepIgnoresPriorState(m1: Machine, m2: Machine, request: Request, platform: Platform)
    ensures Step(m1, request, platform).state == Step(m2, request, platform).state
    ensures Step(m1, request, platform).state != Loading
  {
  }

  /** After a script, the state is the one the last intent's outcome gives, whatever came before. */
  lemma {:induction false} RunEndsInLastOutcome(m: Machine, script: seq<Request>, platform: Platform)
    requires script != []
    ensures Run(m, script, platform).state == FinalState(script[|script| - 1].outcome, platform)
    decreases |script|
  {
    if |script| > 1 {
      RunEndsInLastOutcome(Step(m, script[0], platform), script[1..], platform);
    }
  }

  /**
   * A script appends exactly one RefreshComplete per refresh intent to the
   * effects, and nothing else: fetches emit nothing, and no message effect is
   * ever emitted.
   */
  lemma {:induction false} RunEffects(m: Machine, script: seq<Request>, platform: Platform)
    ensures |Run(m, script, platform).effects| == |m.effects| + RefreshCount(script)
    ensures Run(m, script, platform).effects[..|m.effects|] == m.effects
    ensures forall i :: |m.effects| <= i < |Run(m, script, platform).effects| ==>
      Run(m, script, platform).effects[i] == RefreshComplete
    decreases |script|
  {
    if script != [] {
      var m' := Step(m, script[0], platform);
      RunEffects(m', script[1..], platform);
      var r := Run(m, script, platform);
      assert r == Run(m', script[1..], platform);
      assert r.effects[..|m.effects|] == m'.effects[..|m.effects|];
    }
  }

  /** From the initial state, the only effects ever emitted are RefreshComplete, one per refresh. */
  lemma OnlyRefreshCompleteEmitted(script: seq<Request>, platform: Platform)
    ensures |Run(Initial, script, platform).effects| == RefreshCount(script)
    ensures forall e :: e in Run(Initial, script, platform).effects ==> e == RefreshComplete
  {
    RunEffects(Initial, script, platform);
  }

  lemma {:induction false} ApiCallCountAppend(a: seq<Event>, b: seq<Event>)
    ensures ApiCallCount(a + b) == ApiCallCount(a) + ApiCallCount(b)
    decreases |a|
  {
    if a == [] {
      assert a + b == b;
    } else {
      ApiCallCountAppend(a[1..], b);
      assert (a + b)[1..] == a[1..] + b;
    }
  }

  /**
   * Each intent writes Loading first and its final state last, calls the API
   * exactly once, and a refresh emits its effect after the call and before the
   * final state is written.
   */
  lemma IntentTraceOrder(request: Request, platform: Platform)
    ensures IntentTrace(request, platform)[0] == StateWritten(Loading)
    ensures IntentTrace(request, platform)[1] == ApiCalled(request.outcome)
    ensures IntentTrace(request, platform)[|IntentTrace(request, platform)| - 1]
      == StateWritten(FinalState(request.outcome, platform))
    ensures ApiCallCount(IntentTrace(request, platform)) == 1
    ensures request.intent == RefreshNodes ==>
      |IntentTrace(request, platform)| == 4 && IntentTrace(request, platform)[2] == EffectEmitted(RefreshComplete)
    ensures request.intent == FetchNodes ==>
      forall e :: e in IntentTrace(request, platform) ==> !e.EffectEmitted?
  {
    var t := IntentTrace(request, platform);
    assert t[1..][1..] == t[2..];
    if request.intent == RefreshNodes {
      assert t[2..][1..] == t[3..] && t[3..][1..] == [];
      assert ApiCallCount(t[3..]) == 0;
      assert ApiCallCount(t[2..]) == 0;
    } else {
      assert t[2..][1..] == [];
      assert ApiCallCount(t[2..]) == 0;
    }
    assert ApiCallCount(t[1..]) == 1;
  }

  /** A script of n intents calls the API exactly n times: no retries, no skipped fetches. */
  lemma {:induction false} OneApiCallPerIntent(script: seq<Request>, platform: Platform)
    ensures ApiCallCount(RunTrace(script, platform)) == |script|
    decreases |script|
  {
    if script != [] {
      IntentTraceOrder(script[0], platform);
      OneApiCallPerIntent(script[1..], platform);
      ApiCallCountAppend(IntentTrace(script[0], platform), RunTrace(script[1..], platform));
    }
  }

  /** Whatever the current state, the next intent can end in each non-loading state: none is terminal. */
  lemma NoTerminalState(m: Machine, intent: Intent, node: LightningNode, platform: Platform)
    ensures Step(m, Request(intent, Responded(200, "OK", Some([]))), platform).state == Empty
    ensures Step(m, Request(intent, Responded(200, "OK", Some([node]))), platform).state
      == ViewState.Success([ToViewObject(node, platform.formatDate)], false, None)
    ensures Step(m, Request(intent, ThrowsIO), platform).state == ViewState.Error(ErrorStatePrefix + NetworkErrorMessage)
  {
    assert GetNodes(Responded(200, "OK", Some([node])), platform).data == [ToViewObject(node, platform.formatDate)];
  }

  /** A non-successful status, such as 500, always ends in the Error state. */
  lemma ErrorStatusEndsInError(m: Machine, request: Request, platform: Platform)
    requires request.outcome.Responded? && !IsSuccessful(request.outcome.code)
    ensures Step(m, request, platform).state
      == ViewState.Error(ErrorStatePrefix + platform.httpExceptionMessage(request.outcome.code, request.outcome.reason))
  {
  }
}
