/**
 * Vocabulary shared by the event-handling model: values of the data model,
 * recognition results, events, scopes, form items and the document elements
 * (catch and filled) that the handlers are built from.
 */
module Vxml {
  import opened Wrappers

  /** A Java `long`. */
  newtype long = x: int | -0x8000_0000_0000_0000 <= x < 0x8000_0000_0000_0000

  /** A value read from the ECMAScript data model (`null` and `undefined` included). */
  datatype Value =
    | Null
    | Undefined
    | Str(s: string)
    | Num(n: int)
    | Real(r: real)
    | Recognized(result: RecognitionResult)

  /**
   * A recognition result. Evaluating its semantic interpretation against the
   * data model may fail with a semantic error, hence the Result.
   */
  datatype RecognitionResult = RecognitionResult(
    confidence: real,
    utterance: string,
    mode: string,
    interpretation: Result<Value, string>)

  /** Event types fixed by VoiceXML 2.0 (section 5.2.6) and by the interpreter. */
  const NOMATCH := "nomatch"
  const NOINPUT := "noinput"
  const HELP := "help"
  const CANCEL := "cancel"
  const FILLED := "filled"
  const SEMANTIC_ERROR := "error.semantic"
  /** Type of the platform's recognition event. */
  const RECOGNITION := "recognition"
  /** Type of the platform's hangup event. */
  const HANGUP := "connection.disconnect.hangup"
  /** Catch-all type given to a catch element with an empty event list. */
  const ANY_EVENT := "org.jvoicexml.event"

  /** The events that travel through the event bus and the event queue. */
  datatype Event =
    | Recognition(result: RecognitionResult)
    | Nomatch(result: RecognitionResult)
    | Help
    | Cancel
    | SemanticError(detail: string)
    | Generic(name: string, message: Option<string>)
    | Plain(name: string)
  {
    function EventType(): string {
      match this
      case Recognition(_) => RECOGNITION
      case Nomatch(_) => NOMATCH
      case Help => HELP
      case Cancel => CANCEL
      case SemanticError(_) => SEMANTIC_ERROR
      case Generic(n, _) => n
      case Plain(n) => n
    }

    /** The input result of an input event; None for the other events. */
    function InputResult(): Option<Value> {
      match this
      case Recognition(r) => Some(Recognized(r))
      case _ => None
    }
  }

  /** The scopes of the VoiceXML interpreter context. */
  datatype Scope = Session | Application | Document | Dialog | Anonymous

  /** The filled modes of a `<filled>` element. */
  datatype FilledMode = All | Any

  /** A `<filled>` element: where it sits, its mode and its namelist. */
  datatype Filled = Filled(id: nat, parentIsForm: bool, mode: FilledMode, namelist: seq<string>)

  /** A catch element (`<catch>`, `<noinput>`, ...): its node and its event list. */
  datatype CatchElement = CatchElement(node: nat, events: seq<string>)

  /**
   * A form item of the current dialog. Identity is object identity, as in the
   * source. The flags say which interfaces the item implements.
   */
  class FormItem {
    const name: string
    /** instanceof InputItem */
    const isInput: bool
    /** instanceof EventCountable */
    const countable: bool
    /** instanceof InitialFormItem */
    const initial: bool
    /** The item's own `<filled>` elements. */
    const filled: seq<Filled>
    /** The per-event-type occurrence counters of an EventCountable item. */
    var counters: map<string, nat>

    constructor (name: string, isInput: bool, countable: bool, initial: bool, filled: seq<Filled>)
      ensures this.name == name && this.isInput == isInput && this.countable == countable
      ensures this.initial == initial && this.filled == filled && counters == map[]
    {
      this.name := name;
      this.isInput := isInput;
      this.countable := countable;
      this.initial := initial;
      this.filled := filled;
      counters := map[];
    }
  }
}
