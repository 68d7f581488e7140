/**
 * The watchdog that returns the external resources of an implementation
 * platform when its session did not close normally within a delay: once
 * the wait is over and reaping was not stopped, a busy recognizer is
 * stopped, a busy speech output is cancelled, and the call is hung up.
 */
module Reaper {
  import opened Wrappers
  import opened Vxml

  /** The delay before the platform is reclaimed, in milliseconds. */
  const DEFAULT_REAPING_DELAY: long := 120 * 1000

  /** How output may be interrupted; the reaper only ever cancels speech. */
  datatype BargeInType = SPEECH | HOTWORD

  /** A spoken input or synthesized output the platform holds. */
  datatype Device = Device(id: nat)

  /** The calls the reaper makes on the input, the output and the platform. */
  datatype Call =
    | StopRecognition
    | CancelOutput(bargeIn: BargeInType)
    | TelephonyCallHungup      // with no hangup event

  /** How the timed wait on the lock ends. */
  datatype WaitOutcome =
    | WokeUp        // the delay ran out, or `stopReaping` notified the lock
    | Interrupted

  /** The calls of one forced return, given which devices are busy at that moment. */
  function ForcedCalls(input: Option<Device>, output: Option<Device>, inputBusy: bool, outputBusy: bool): seq<Call> {
    (if input.Some? && inputBusy then [StopRecognition] else [])
    + (if output.Some? && outputBusy then [CancelOutput(SPEECH)] else [])
    + [TelephonyCallHungup]
  }

  /** The calls of one run: a forced return, unless the wait was interrupted or reaping stopped. */
  function RunCalls(stopped: bool, wait: WaitOutcome, input: Option<Device>, output: Option<Device>,
                    inputBusy: bool, outputBusy: bool): seq<Call> {
    if wait.WokeUp? && !stopped then ForcedCalls(input, output, inputBusy, outputBusy) else []
  }

  function Count(calls: seq<Call>, c: Call): nat {
    if calls == [] then 0 else Count(calls[..|calls| - 1], c) + (if calls[|calls| - 1] == c then 1 else 0)
  }

  lemma {:induction false} CountConcat(a: seq<Call>, b: seq<Call>, c: Call)
    ensures Count(a + b, c) == Count(a, c) + Count(b, c)
    decreases |b|
  {
    if b == [] {
      assert a + b == a;
    } else {
      assert (a + b)[..|a + b| - 1] == a + b[..|b| - 1];
      CountConcat(a, b[..|b| - 1], c);
    }
  }

  /**
   * A forced return hangs up exactly once and last, whatever is busy; it
   * stops recognition at most once, and only for a present, busy input; it
   * cancels output at most once, with SPEECH, and only for a present, busy
   * output.
   */
  lemma {:induction false} ForcedCallsShape(input: Option<Device>, output: Option<Device>, inputBusy: bool, outputBusy: bool)
    ensures var calls := ForcedCalls(input, output, inputBusy, outputBusy);
            && Count(calls, TelephonyCallHungup) == 1 && calls[|calls| - 1] == TelephonyCallHungup
            && Count(calls, StopRecognition) == (if input.Some? && inputBusy then 1 else 0)
            && Count(calls, CancelOutput(SPEECH)) == (if output.Some? && outputBusy then 1 else 0)
            && Count(calls, CancelOutput(HOTWORD)) == 0
            && (StopRecognition in calls ==> calls[0] == StopRecognition)
  {
    var a := if input.Some? && inputBusy then [StopRecognition] else [];
    var b := if output.Some? && outputBusy then [CancelOutput(SPEECH)] else [];
    var h := [TelephonyCallHungup];
    assert ForcedCalls(input, output, inputBusy, outputBusy) == (a + b) + h;
    assert [] + [StopRecognition] == [StopRecognition];
    assert [] + [CancelOutput(SPEECH)] == [CancelOutput(SPEECH)];
    assert [] + [TelephonyCallHungup] == [TelephonyCallHungup];
    forall c: Call
      ensures Count((a + b) + h, c) == Count(a, c) + Count(b, c) + Count(h, c)
    {
      CountConcat(a + b, h, c);
      CountConcat(a, b, c);
    }
  }

  /** A run does nothing once reaping is stopped, and nothing after an interrupted wait. */
  lemma RunCallsQuiet(stopped: bool, wait: WaitOutcome, input: Option<Device>, output: Option<Device>,
                      inputBusy: bool, outputBusy: bool)
    ensures RunCalls(stopped, wait, input, output, inputBusy, outputBusy) == []
            <==> stopped || wait.Interrupted?
  {
    ForcedCallsShape(input, output, inputBusy, outputBusy);
  }

  class ImplementationPlatformReaper {
    /** Set when the platform closed normally. */
    var stopReaping: bool
    var reapingDelay: long
    const input: Option<Device>
    const output: Option<Device>
    /** The thread name, after the session. */
    const name: string
    /** The calls made so far. */
    var calls: seq<Call>

    /**
     * The input and output are those of the user input and the system
     * output, or absent when those are absent.
     */
    constructor (sessionId: string, userInput: Option<Device>, systemOutput: Option<Device>)
      ensures input == userInput && output == systemOutput
      ensures name == "platform-reaper-" + sessionId
      ensures !stopReaping && reapingDelay == DEFAULT_REAPING_DELAY && calls == []
    {
      input := userInput;
      output := systemOutput;
      name := "platform-reaper-" + sessionId;
      stopReaping := false;
      reapingDelay := DEFAULT_REAPING_DELAY;
      calls := [];
    }

    method SetReapingDelay(delay: long)
      modifies this`reapingDelay
      ensures reapingDelay == delay
    {
      reapingDelay := delay;
    }

    /**
     * After the wait on the lock, returns the resources unless reaping was
     * stopped; an interrupted wait ends the run at once. `inputBusy` and
     * `outputBusy` are what the devices report.
     */
    method Run(wait: WaitOutcome, inputBusy: bool, outputBusy: bool)
      modifies this`calls
      ensures calls == old(calls) + RunCalls(stopReaping, wait, input, output, inputBusy, outputBusy)
    {
      if wait.Interrupted? {
        return;
      }
      if !stopReaping {
        ForceReturnResources(inputBusy, outputBusy);
      }
    }

    /**
     * Stops a busy recognizer, cancels a busy output, then hangs up whatever
     * happened: a no-resource error from the cancel changes nothing that follows.
     */
    method ForceReturnResources(inputBusy: bool, outputBusy: bool)
      modifies this`calls
      ensures calls == old(calls) + ForcedCalls(input, output, inputBusy, outputBusy)
    {
      ghost var c0 := calls;
      if input.Some? && inputBusy {
        calls := calls + [StopRecognition];
      }
      if output.Some? && outputBusy {
        // a no-resource error from the cancel is logged and swallowed
        calls := calls + [CancelOutput(SPEECH)];
      }
      calls := calls + [TelephonyCallHungup];
      assert calls == c0 + ForcedCalls(input, output, inputBusy, outputBusy);
    }

    /** Marks the platform as closed normally and wakes the waiting run. */
    method StopReaping()
      modifies this`stopReaping
      ensures stopReaping
    {
      stopReaping := true;
    }
  }
}
