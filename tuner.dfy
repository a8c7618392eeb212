/**
 * The objects of drone_backend/src/utils/llm_helper.py: the tuner that
 * rewrites a head detector's two threshold attributes in place, and the
 * module-level `parameter_tuner` / `current_llm_data` globals with the
 * functions that guard on them. Every method is proved against TunerSpec.
 */
module Tuner {
  import opened Wrappers
  import opened TunerSpec

  /**
   * The two attributes of the head detector the tuner reads and assigns
   * (head_size_forward_threshold, head_size_backward_threshold).
   */
  class HeadDetector {
    var forwardThreshold: int
    var backwardThreshold: int

    function Pair(): Thresholds
      reads this
    {
      Thresholds(forwardThreshold, backwardThreshold)
    }

    constructor (forward: int, backward: int)
      ensures Pair() == Thresholds(forward, backward)
    {
      forwardThreshold := forward;
      backwardThreshold := backward;
    }
  }

  /** LLMParameterTuner: the detector it tunes and the pair captured when it was built. */
  class LlmParameterTuner {
    const headDetector: HeadDetector
    const originals: Thresholds

    constructor (headDetector: HeadDetector)
      ensures this.headDetector == headDetector
      ensures originals == headDetector.Pair()
    {
      this.headDetector := headDetector;
      originals := headDetector.Pair();
    }

    method Store(pair: Thresholds)
      modifies headDetector
      ensures headDetector.Pair() == pair
    {
      headDetector.forwardThreshold := pair.forward;
      headDetector.backwardThreshold := pair.backward;
    }

    method AdjustDistanceThresholds(parameters: Parameters) returns (o: Outcome)
      modifies headDetector
      ensures headDetector.Pair() == AdjustDistance(old(headDetector.Pair()), parameters).0
      ensures o == AdjustDistance(old(headDetector.Pair()), parameters).1
    {
      var (pair, outcome) := AdjustDistance(headDetector.Pair(), parameters);
      if outcome.success {
        Store(pair);
      }
      o := outcome;
    }

    method MoveCloser() returns (o: Outcome)
      modifies headDetector
      ensures headDetector.Pair() == TunerSpec.MoveCloser(old(headDetector.Pair())).0
      ensures o == TunerSpec.MoveCloser(old(headDetector.Pair())).1
    {
      var moved := Shift(headDetector.Pair(), -MoveStep);
      if !ValidateThresholds(moved.forward, moved.backward) {
        return Outcome(false, CannotMoveCloser);
      }
      Store(moved);
      o := Outcome(true, MovedCloser(moved.forward, moved.backward));
    }

    method MoveFarther() returns (o: Outcome)
      modifies headDetector
      ensures headDetector.Pair() == TunerSpec.MoveFarther(old(headDetector.Pair())).0
      ensures o == TunerSpec.MoveFarther(old(headDetector.Pair())).1
    {
      var moved := Shift(headDetector.Pair(), MoveStep);
      if !ValidateThresholds(moved.forward, moved.backward) {
        return Outcome(false, CannotMoveFarther);
      }
      Store(moved);
      o := Outcome(true, MovedFarther(moved.forward, moved.backward));
    }

    method ResetThresholds() returns (o: Outcome)
      modifies headDetector
      ensures headDetector.Pair() == originals
      ensures o == TunerSpec.ResetThresholds(old(headDetector.Pair()), originals).1
    {
      Store(originals);
      o := Outcome(true, ResetToDefaults(originals.forward, originals.backward));
    }

    function GetCurrentThresholds(): (c: CurrentThresholds)
      reads headDetector
      ensures c == Current(headDetector.Pair())
    {
      var forward := headDetector.forwardThreshold;
      var backward := headDetector.backwardThreshold;
      CurrentThresholds(forward, backward, (forward + backward) as real / 2.0)
    }

    /**
     * process_llm_response: the actions in list order, each message filed
     * under applied changes or errors; an entry that raises abandons both
     * lists but keeps the changes already made.
     */
    method ProcessLlmResponse(actions: seq<Action>) returns (result: TuningResult)
      modifies headDetector
      ensures headDetector.Pair() == TunerSpec.ProcessLlmResponse(old(headDetector.Pair()), originals, actions).0
      ensures result == TunerSpec.ProcessLlmResponse(old(headDetector.Pair()), originals, actions).1
    {
      ghost var start := Progress(headDetector.Pair(), [], []);
      var applied: seq<Message> := [];
      var errors: seq<Message> := [];
      var i := 0;
      while i < |actions|
        invariant 0 <= i <= |actions|
        invariant Dispatch(Progress(headDetector.Pair(), applied, errors), originals, actions[i..])
                  == Dispatch(start, originals, actions)
      {
        ghost var before := Progress(headDetector.Pair(), applied, errors);
        assert actions[i..][0] == actions[i];
        assert actions[i..][1..] == actions[i + 1..];
        var o: Option<Outcome>;
        match actions[i] {
          case Malformed =>
            return TuningResult(false, [], [ProcessingError], GetCurrentThresholds());
          case Adjust(parameters) =>
            var adjusted := AdjustDistanceThresholds(parameters);
            o := Some(adjusted);
          case Closer =>
            var closer := MoveCloser();
            o := Some(closer);
          case Farther =>
            var farther := MoveFarther();
            o := Some(farther);
          case Reset =>
            var reset := ResetThresholds();
            o := Some(reset);
          case Settings =>
            o := Some(CurrentSettingsOf(headDetector.Pair()));
          case Unknown(_) =>
            o := None;
        }
        if o.Some? {
          if o.value.success {
            applied := applied + [o.value.message];
          } else {
            errors := errors + [o.value.message];
          }
        }
        assert Progress(headDetector.Pair(), applied, errors) == Perform(before, originals, actions[i]);
        i := i + 1;
      }
      result := TuningResult(|errors| == 0, applied, errors, GetCurrentThresholds());
    }
  }

  /** current_llm_data. */
  datatype LlmData = LlmData(
    lastTranscription: string,
    lastResponse: string,
    currentForward: int,
    currentBackward: int,
    lastAction: Option<seq<Message>>,
    tunerReady: bool)

  const InitialData := LlmData("", "", 100, 125, None, false)

  /** The LLM's answer: its `response` text ('' when absent) and its `actions` list ([] when absent). */
  datatype LlmResponse = LlmResponse(text: string, actions: seq<Action>)

  /** A reply of a module-level function, which refuses when no tuner exists. */
  datatype Reply<T> = NotInitialized | Reply(value: T)

  datatype TextReply = TextReply(
    success: bool,
    transcription: string,
    response: string,
    actionsTaken: seq<Message>,
    errors: seq<Message>,
    currentThresholds: CurrentThresholds)

  /** The module globals `parameter_tuner` and `current_llm_data`. */
  class TunerRegistry {
    var parameterTuner: LlmParameterTuner?
    var currentLlmData: LlmData

    constructor ()
      ensures parameterTuner == null && currentLlmData == InitialData
    {
      parameterTuner := null;
      currentLlmData := InitialData;
    }

    /** initialize_tuner: the first call builds the tuner; later calls keep it and its originals. */
    method InitializeTuner(headDetector: HeadDetector)
      modifies this
      ensures old(parameterTuner) != null ==>
                parameterTuner == old(parameterTuner) && currentLlmData == old(currentLlmData)
      ensures old(parameterTuner) == null ==>
                && parameterTuner != null && fresh(parameterTuner)
                && parameterTuner.headDetector == headDetector
                && parameterTuner.originals == headDetector.Pair()
                && currentLlmData == old(currentLlmData).(tunerReady := true,
                                                          currentForward := headDetector.forwardThreshold,
                                                          currentBackward := headDetector.backwardThreshold)
    {
      if parameterTuner != null {
        return;
      }
      parameterTuner := new LlmParameterTuner(headDetector);
      currentLlmData := currentLlmData.(tunerReady := true,
                                        currentForward := headDetector.forwardThreshold,
                                        currentBackward := headDetector.backwardThreshold);
    }

    /** The detector the registered tuner may rewrite (none without a tuner). */
    function Tuned(): set<object>
      reads this
    {
      if parameterTuner == null then {} else {parameterTuner.headDetector}
    }

    /**
     * process_text_request, with the LLM's answer to the request passed in:
     * without a tuner it refuses and changes nothing; otherwise it records
     * the text, applies the actions and mirrors the new thresholds.
     */
    method ProcessTextRequest(text: string, response: LlmResponse) returns (r: Reply<TextReply>)
      modifies this, Tuned()
      ensures parameterTuner == old(parameterTuner)
      ensures old(parameterTuner) == null ==> r == NotInitialized && currentLlmData == old(currentLlmData)
      ensures old(parameterTuner) != null ==>
                var (pair, result) := TunerSpec.ProcessLlmResponse(old(parameterTuner.headDetector.Pair()),
                                                                   parameterTuner.originals, response.actions);
                && parameterTuner.headDetector.Pair() == pair
                && r == Reply(TextReply(result.success, text, response.text, result.applied,
                                        result.errors, result.current))
                && currentLlmData == old(currentLlmData).(lastTranscription := text,
                                                          lastResponse := response.text,
                                                          currentForward := pair.forward,
                                                          currentBackward := pair.backward,
                                                          lastAction := Some(result.applied))
    {
      var tuner := parameterTuner;
      if tuner == null {
        return NotInitialized;
      }
      currentLlmData := currentLlmData.(lastTranscription := text, lastResponse := response.text);
      var result := tuner.ProcessLlmResponse(response.actions);
      currentLlmData := currentLlmData.(currentForward := result.current.forward,
                                        currentBackward := result.current.backward,
                                        lastAction := Some(result.applied));
      r := Reply(TextReply(result.success, text, response.text, result.applied, result.errors, result.current));
    }

    /** reset_parameters: without a tuner it refuses; otherwise the originals are restored and mirrored. */
    method ResetParameters() returns (r: Reply<Outcome>)
      modifies this, Tuned()
      ensures parameterTuner == old(parameterTuner)
      ensures old(parameterTuner) == null ==> r == NotInitialized && currentLlmData == old(currentLlmData)
      ensures old(parameterTuner) != null ==>
                && parameterTuner.headDetector.Pair() == parameterTuner.originals
                && r.Reply? && r.value.success
                && currentLlmData == old(currentLlmData).(currentForward := parameterTuner.originals.forward,
                                                          currentBackward := parameterTuner.originals.backward)
    {
      var tuner := parameterTuner;
      if tuner == null {
        return NotInitialized;
      }
      var o := tuner.ResetThresholds();
      if o.success {
        var thresholds := tuner.GetCurrentThresholds();
        currentLlmData := currentLlmData.(currentForward := thresholds.forward,
                                          currentBackward := thresholds.backward);
      }
      r := Reply(o);
    }

    /** get_current_thresholds: None without a tuner. */
    function GetCurrentThresholds(): (r: Option<CurrentThresholds>)
      reads this, Tuned()
      ensures r.None? <==> parameterTuner == null
      ensures r.Some? ==> r.value == Current(parameterTuner.headDetector.Pair())
    {
      if parameterTuner == null then None else Some(parameterTuner.GetCurrentThresholds())
    }
  }
}
