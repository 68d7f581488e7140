/**
 * The execution of a catch element for an event (catch, section 5.2.2 of
 * VoiceXML 2.0): for a nomatch the application's `lastresult$` is written,
 * then the anonymous scope is entered, `_event` is bound to the event's
 * type, the children run, and the scope is left again, whether or not the
 * children throw.
 */
module CatchStrategy {
  import opened Wrappers
  import opened Vxml

  /** The steps a catch takes, as the interpreter context and data model see them. */
  datatype Action =
    | WriteLastResult        // application.lastresult$ is rewritten
    | EnterAnonymous         // the anonymous scope is entered
    | CreateEvent(name: string)  // `_event` is created in it
    | RunChildren(node: nat)     // the children of the catch run
    | ExitAnonymous          // the anonymous scope is left

  /** Scopes entered minus scopes left. */
  function Depth(trace: seq<Action>): int {
    if trace == [] then 0
    else
      var last := trace[|trace| - 1];
      Depth(trace[..|trace| - 1]) + (if last.EnterAnonymous? then 1 else if last.ExitAnonymous? then -1 else 0)
  }

  lemma DepthSnoc(a: seq<Action>, x: Action)
    ensures Depth(a + [x]) == Depth(a) + (if x.EnterAnonymous? then 1 else if x.ExitAnonymous? then -1 else 0)
  {
    assert (a + [x])[..|a|] == a;
  }

  lemma DepthConcat(a: seq<Action>, b: seq<Action>)
    ensures Depth(a + b) == Depth(a) + Depth(b)
    decreases |b|
  {
    if b == [] {
      assert a + b == a;
    } else {
      assert (a + b)[..|a + b| - 1] == a + b[..|b| - 1];
      DepthConcat(a, b[..|b| - 1]);
    }
  }

  /**
   * The children of the catch are not part of this model: given the
   * variables of the fresh anonymous scope, they run and maybe throw.
   */
  type Children = map<string, Value> -> Option<Event>

  /** Whether the catch gets past the write of `lastresult$`. */
  predicate PastLastResult(event: Event) {
    !(event.Nomatch? && event.result.interpretation.Err?)
  }

  /**
   * The steps of one catch: none without a FIA; the `lastresult$` write for
   * a nomatch, which stops the catch when the interpretation fails; then the
   * scope is entered and, unless creating `_event` fails, the children run
   * and the scope is left.
   */
  function CatchTrace(event: Event, hasFia: bool, node: nat, createFails: Option<string>): seq<Action> {
    if !hasFia then []
    else
      var pre := if event.Nomatch? then [WriteLastResult] else [];
      if !PastLastResult(event) then pre
      else if createFails.Some? then pre + [EnterAnonymous]
      else pre + [EnterAnonymous, CreateEvent(event.EventType()), RunChildren(node), ExitAnonymous]
  }

  /** What the catch throws. */
  function CatchThrown(event: Event, hasFia: bool, createFails: Option<string>, children: Children): Option<Event> {
    if !hasFia then None
    else if !PastLastResult(event) then Some(SemanticError(event.result.interpretation.error))
    else if createFails.Some? then Some(SemanticError(createFails.value))
    else children(map["_event" := Str(event.EventType())])
  }

  /**
   * The scope stack is balanced on every path that reaches the children,
   * whatever they throw; only a failing creation of `_event` leaves the
   * anonymous scope entered.
   */
  lemma CatchBalanced(event: Event, hasFia: bool, node: nat, createFails: Option<string>)
    ensures var d := Depth(CatchTrace(event, hasFia, node, createFails));
            && (!hasFia || !PastLastResult(event) || createFails.None? ==> d == 0)
            && (hasFia && PastLastResult(event) && createFails.Some? ==> d == 1)
  {
    var pre := if event.Nomatch? then [WriteLastResult] else [];
    DepthSnoc([], WriteLastResult);
    assert [] + [WriteLastResult] == [WriteLastResult];
    var c := CreateEvent(event.EventType());
    var tail := [EnterAnonymous, c, RunChildren(node), ExitAnonymous];
    DepthSnoc([], EnterAnonymous);
    assert [] + [EnterAnonymous] == [EnterAnonymous];
    DepthSnoc([EnterAnonymous], c);
    assert [EnterAnonymous] + [c] == [EnterAnonymous, c];
    DepthSnoc([EnterAnonymous, c], RunChildren(node));
    assert [EnterAnonymous, c] + [RunChildren(node)] == [EnterAnonymous, c, RunChildren(node)];
    DepthSnoc([EnterAnonymous, c, RunChildren(node)], ExitAnonymous);
    assert [EnterAnonymous, c, RunChildren(node)] + [ExitAnonymous] == tail;
    assert Depth(tail) == 0;
    DepthConcat(pre, tail);
    DepthConcat(pre, [EnterAnonymous]);
  }

  /**
   * `lastresult$` is written exactly for a nomatch processed with a FIA, and
   * before the scope is entered; the children run at most once, after
   * `_event` is created for the event's type.
   */
  lemma CatchOrder(event: Event, hasFia: bool, node: nat, createFails: Option<string>)
    ensures var t := CatchTrace(event, hasFia, node, createFails);
            && (WriteLastResult in t <==> hasFia && event.Nomatch?)
            && (WriteLastResult in t ==> t[0] == WriteLastResult)
            && (RunChildren(node) in t <==> hasFia && PastLastResult(event) && createFails.None?)
            && (RunChildren(node) in t ==> exists k :: 0 < k < |t| && t[k] == RunChildren(node)
                                                       && t[k - 1] == CreateEvent(event.EventType()))
  {
    var t := CatchTrace(event, hasFia, node, createFails);
    var pre := if event.Nomatch? then [WriteLastResult] else [];
    if hasFia && PastLastResult(event) && createFails.None? {
      var k := |t| - 2;
      assert t[k] == RunChildren(node) && t[k - 1] == CreateEvent(event.EventType());
    }
  }

  /**
   * The single entry `lastresult$` is cut or grown to: the first old entry,
   * or a fresh one, with the confidence, the utterance and the input mode.
   */
  function LastResultEntry(lastResult: seq<map<string, Value>>, r: RecognitionResult): map<string, Value> {
    (if lastResult == [] then map[] else lastResult[0])
      ["confidence" := Real(r.confidence)]["utterance" := Str(r.utterance)]["inputmode" := Str(r.mode)]
  }

  /**
   * `application.lastresult$` after a nomatch: one entry, which also gets
   * the interpretation unless that fails.
   */
  function LastResultAfter(lastResult: seq<map<string, Value>>, r: RecognitionResult): seq<map<string, Value>> {
    match r.interpretation
    case Err(_) => [LastResultEntry(lastResult, r)]
    case Ok(v) => [LastResultEntry(lastResult, r)["interpretation" := v]]
  }

  /**
   * The application's flat copies after a nomatch: the four fields of the
   * result when the interpretation succeeds, nothing changed when it fails.
   */
  function ApplicationAfter(application: map<string, Value>, r: RecognitionResult): map<string, Value> {
    match r.interpretation
    case Err(_) => application
    case Ok(v) =>
      application["lastresult$.interpretation" := v]["lastresult$.confidence" := Real(r.confidence)]
        ["lastresult$.utterance" := Str(r.utterance)]["lastresult$.inputmode" := Str(r.mode)]
  }

  /**
   * `lastresult$` holds one entry with the result's confidence, utterance and
   * input mode, and its interpretation exactly when that succeeds; the other
   * fields of the old first entry are kept, and a fresh entry has no others.
   */
  lemma LastResultFields(lastResult: seq<map<string, Value>>, r: RecognitionResult)
    ensures var after := LastResultAfter(lastResult, r);
            && |after| == 1
            && "confidence" in after[0] && after[0]["confidence"] == Real(r.confidence)
            && "utterance" in after[0] && after[0]["utterance"] == Str(r.utterance)
            && "inputmode" in after[0] && after[0]["inputmode"] == Str(r.mode)
            && (r.interpretation.Ok? ==> "interpretation" in after[0]
                                         && after[0]["interpretation"] == r.interpretation.value)
            && (lastResult == [] ==> after[0].Keys == {"confidence", "utterance", "inputmode"}
                                     + (if r.interpretation.Ok? then {"interpretation"} else {}))
            && (lastResult != [] ==> forall k :: k in lastResult[0] && k !in ENTRY_FIELDS
                                                 ==> k in after[0] && after[0][k] == lastResult[0][k])
  {
  }

  /**
   * The flat copies: the four fields of the result are set exactly when the
   * interpretation succeeds, and no other variable of the application changes.
   */
  lemma ApplicationFields(application: map<string, Value>, r: RecognitionResult)
    ensures var after := ApplicationAfter(application, r);
            && (r.interpretation.Err? ==> after == application)
            && (r.interpretation.Ok? ==>
                  && after.Keys == application.Keys + FLAT_COPIES
                  && after["lastresult$.interpretation"] == r.interpretation.value
                  && after["lastresult$.confidence"] == Real(r.confidence)
                  && after["lastresult$.utterance"] == Str(r.utterance)
                  && after["lastresult$.inputmode"] == Str(r.mode))
            && forall k :: k in application && k !in FLAT_COPIES ==> k in after && after[k] == application[k]
  {
  }

  const ENTRY_FIELDS := {"confidence", "utterance", "inputmode", "interpretation"}

  const FLAT_COPIES := {"lastresult$.interpretation", "lastresult$.confidence", "lastresult$.utterance",
                        "lastresult$.inputmode"}

  /**
   * The part of the interpreter context a catch acts on: the scope stack
   * with the variables of each scope, the application's `lastresult$` array
   * and flat copies, and the steps taken so far.
   */
  class CatchContext {
    var scopes: seq<Scope>
    var frames: seq<map<string, Value>>
    var lastResult: seq<map<string, Value>>
    var application: map<string, Value>
    var trace: seq<Action>
    /** Whether the strategy holds a FIA. */
    const hasFia: bool

    ghost predicate Valid()
      reads this
    {
      |scopes| == |frames|
    }

    constructor (hasFia: bool, lastResult: seq<map<string, Value>>, application: map<string, Value>)
      ensures Valid()
      ensures scopes == [Session, Application, Document, Dialog] && frames == [map[], map[], map[], map[]]
      ensures this.lastResult == lastResult && this.application == application && trace == []
      ensures this.hasFia == hasFia
    {
      scopes := [Session, Application, Document, Dialog];
      frames := [map[], map[], map[], map[]];
      this.lastResult := lastResult;
      this.application := application;
      trace := [];
      this.hasFia := hasFia;
    }

    /**
     * Writes the recognition result of a nomatch to `application.lastresult$`:
     * the array is cut or grown to one entry, which gets the confidence, the
     * utterance and the input mode, then the interpretation; the flat copies
     * follow. A failing interpretation stops after the first three fields.
     */
    method SetApplicationLastResult(r: RecognitionResult) returns (err: Option<string>)
      modifies this`lastResult, this`application, this`trace
      ensures err == (if r.interpretation.Err? then Some(r.interpretation.error) else None)
      ensures lastResult == LastResultAfter(old(lastResult), r)
      ensures application == ApplicationAfter(old(application), r)
      ensures trace == old(trace) + [WriteLastResult]
    {
      trace := trace + [WriteLastResult];
      var value := if lastResult == [] then map[] else lastResult[0];
      value := value["confidence" := Real(r.confidence)];
      value := value["utterance" := Str(r.utterance)];
      value := value["inputmode" := Str(r.mode)];
      if r.interpretation.Err? {
        lastResult := [value];
        return Some(r.interpretation.error);
      }
      var interpretation := r.interpretation.value;
      value := value["interpretation" := interpretation];
      lastResult := [value];
      application := application["lastresult$.interpretation" := interpretation];
      application := application["lastresult$.confidence" := Real(r.confidence)];
      application := application["lastresult$.utterance" := Str(r.utterance)];
      application := application["lastresult$.inputmode" := Str(r.mode)];
      err := None;
    }

    /**
     * Processes `event` with the catch at `node`. `createFails` is the
     * semantic error, if any, with which creating `_event` fails.
     */
    method Process(event: Event, node: nat, createFails: Option<string>, children: Children)
      returns (thrown: Option<Event>)
      requires Valid()
      modifies this`scopes, this`frames, this`lastResult, this`application, this`trace
      ensures Valid()
      ensures trace == old(trace) + CatchTrace(event, hasFia, node, createFails)
      ensures thrown == CatchThrown(event, hasFia, createFails, children)
      ensures old(scopes) <= scopes && old(frames) <= frames
      ensures |scopes| == |old(scopes)| + Depth(CatchTrace(event, hasFia, node, createFails))
      ensures |scopes| > |old(scopes)| ==> scopes[|scopes| - 1] == Anonymous && frames[|frames| - 1] == map[]
      ensures !(hasFia && event.Nomatch?) ==> lastResult == old(lastResult) && application == old(application)
      ensures hasFia && event.Nomatch? ==>
                && lastResult == LastResultAfter(old(lastResult), event.result)
                && application == ApplicationAfter(old(application), event.result)
    {
      if !hasFia {
        return None;
      }
      if event.Nomatch? {
        var err := SetApplicationLastResult(event.result);
        if err.Some? {
          return Some(SemanticError(err.value));
        }
      }
      ghost var pre := if event.Nomatch? then [WriteLastResult] else [];
      ghost var t0 := old(trace);
      assert trace == t0 + pre;
      CatchBalanced(event, hasFia, node, createFails);
      ghost var t1 := trace;
      thrown := RunInAnonymousScope(event.EventType(), node, createFails, children);
      assert trace == t0 + (pre + trace[|t1|..]);
    }

    /**
     * Enters the anonymous scope, binds `_event` to `name` in it, runs the
     * children and leaves the scope, whether or not they throw. When
     * creating `_event` fails with `createFails`, the scope stays entered.
     */
    method RunInAnonymousScope(name: string, node: nat, createFails: Option<string>, children: Children)
      returns (thrown: Option<Event>)
      requires Valid()
      modifies this`scopes, this`frames, this`trace
      ensures Valid()
      ensures createFails.Some? ==>
                && trace == old(trace) + [EnterAnonymous]
                && thrown == Some(SemanticError(createFails.value))
                && scopes == old(scopes) + [Anonymous] && frames == old(frames) + [map[]]
      ensures createFails.None? ==>
                && trace == old(trace) + [EnterAnonymous, CreateEvent(name), RunChildren(node), ExitAnonymous]
                && thrown == children(map["_event" := Str(name)])
                && scopes == old(scopes) && frames == old(frames)
    {
      ghost var t0, s0, f0 := trace, scopes, frames;
      scopes := scopes + [Anonymous];
      frames := frames + [map[]];
      trace := trace + [EnterAnonymous];
      if createFails.Some? {
        return Some(SemanticError(createFails.value));
      }
      var frame := map["_event" := Str(name)];
      frames := frames[|frames| - 1 := frame];
      assert frames == f0 + [frame];
      trace := trace + [CreateEvent(name)];
      // the children run; the scope is left whether or not they throw
      trace := trace + [RunChildren(node)];
      thrown := children(frame);
      scopes := scopes[..|scopes| - 1];
      frames := frames[..|frames| - 1];
      assert scopes == s0 && frames == f0;
      trace := trace + [ExitAnonymous];
      assert trace == t0 + [EnterAnonymous, CreateEvent(name), RunChildren(node), ExitAnonymous];
    }
  }
}
