/**
 * The strategy that executes a `<throw>` element (section 5.2.1 of
 * VoiceXML 2.0): the event name comes from `event` or `eventexpr`, an
 * optional message from `message` or `messageexpr`, and executing the
 * element always throws a generic event of that name.
 */
module ThrowTag {
  import opened Wrappers
  import opened Vxml
  import opened Sequences

  const ATTRIBUTE_EVENT := "event"
  const ATTRIBUTE_EVENTEXPR := "eventexpr"
  const ATTRIBUTE_MESSAGE := "message"
  const ATTRIBUTE_MESSAGEEXPR := "messageexpr"

  /** The attributes the scripting environment evaluates before the element runs. */
  const EVAL_ATTRIBUTES := [ATTRIBUTE_EVENTEXPR, ATTRIBUTE_MESSAGEEXPR]

  /**
   * Exactly the two expression attributes are evaluated, the event's first;
   * the plain `event` and `message` attributes are taken literally.
   */
  function GetEvalAttributes(): (r: seq<string>)
    ensures |r| == 2 && r[0] == ATTRIBUTE_EVENT + "expr" && r[1] == ATTRIBUTE_MESSAGE + "expr"
    ensures NoDup(r) && ATTRIBUTE_EVENT !in r && ATTRIBUTE_MESSAGE !in r
  {
    EVAL_ATTRIBUTES
  }

  /**
   * The event `execute` throws as the code is written: the message is
   * dropped when there is one, and passed on when there is none, so it is
   * never attached.
   */
  function ThrownAsWritten(event: string, message: Option<string>): (e: Event)
    ensures e.Generic? && e.EventType() == event && e.message.None?
  {
    if message.Some? then Generic(event, None) else Generic(event, message)
  }

  /** The event `execute` is evidently meant to throw: the message attached when there is one. */
  function Thrown(event: string, message: Option<string>): (e: Event)
    ensures e.Generic? && e.EventType() == event
  {
    if message.Some? then Generic(event, message) else Generic(event, None)
  }

  /** The thrown event carries exactly the message the element specified. */
  lemma ThrownCarriesMessage(event: string, message: Option<string>)
    ensures Thrown(event, message).message == message
  {
    if message.Some? {
      assert Thrown(event, message) == Generic(event, message);
    }
  }

  /** As written, a `<throw>` with a message loses it. */
  lemma MessageLost()
    ensures ThrownAsWritten("com.example.fail", Some("detail")).message
            != Thrown("com.example.fail", Some("detail")).message
  {
    ThrownCarriesMessage("com.example.fail", Some("detail"));
  }

  class ThrowStrategy {
    /** The event to throw; none before the attributes are validated. */
    var event: Option<string>
    var message: Option<string>

    constructor ()
      ensures event.None? && message.None?
    {
      event := None;
      message := None;
    }

    /**
     * Stores the event name and the optional message. `eventValue` and
     * `messageValue` are what reading each attribute, or else evaluating its
     * expression, yields; an error event from the first leaves both fields
     * alone, one from the second leaves the message alone.
     */
    method ValidateAttributes(eventValue: Result<string, Event>, messageValue: Result<Option<string>, Event>)
      returns (error: Option<Event>)
      modifies this
      ensures eventValue.Err? ==> error == Some(eventValue.error) && event == old(event) && message == old(message)
      ensures eventValue.Ok? && messageValue.Err? ==>
                error == Some(messageValue.error) && event == Some(eventValue.value) && message == old(message)
      ensures eventValue.Ok? && messageValue.Ok? ==>
                error.None? && event == Some(eventValue.value) && message == messageValue.value
    {
      if eventValue.Err? {
        return Some(eventValue.error);
      }
      event := Some(eventValue.value);
      if messageValue.Err? {
        return Some(messageValue.error);
      }
      message := messageValue.value;
      error := None;
    }

    /** Throws, as the code is written; it never completes normally. */
    method Execute() returns (thrown: Event)
      requires event.Some?
      ensures thrown == ThrownAsWritten(event.value, message)
      ensures thrown.Generic? && thrown.EventType() == event.value && thrown.message.None?
    {
      if message.Some? {
        return Generic(event.value, None);
      }
      thrown := Generic(event.value, message);
    }

    /** Throws with the message attached, as evidently intended. */
    method ExecuteCorrected() returns (thrown: Event)
      requires event.Some?
      ensures thrown == Thrown(event.value, message)
      ensures thrown.Generic? && thrown.EventType() == event.value && thrown.message == message
    {
      if message.Some? {
        return Generic(event.value, message);
      }
      thrown := Generic(event.value, None);
    }
  }
}
