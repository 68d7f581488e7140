/**
 * The processing of an input event by the strategy of an input item: the
 * item variable is set, the item is marked just filled, and the `<filled>`
 * elements of the item and then of the dialog run, each behind its
 * all/any gate over its namelist (the `<filled>` element, section 2.4 of
 * VoiceXML 2.0).
 */
module FillGate {
  import opened Wrappers
  import opened Vxml
  import opened Sequences

  /** The variables of the data model that are declared, with their values. */
  type Vars = map<string, Value>

  /** A value that is neither null nor undefined. */
  predicate Defined(v: Value) {
    v != Null && v != Undefined
  }

  /** Reading a variable; an undeclared name is a semantic error naming it. */
  function ReadVariable(vars: Vars, name: string): (r: Result<Value, string>)
    ensures r.Ok? <==> name in vars
    ensures r.Ok? ==> r.value == vars[name]
    ensures r.Err? ==> r.error == name
  {
    if name in vars then Ok(vars[name]) else Err(name)
  }

  /** All tokens are filled: the scan stops at the first unfilled token or read error. */
  function AllFilled(vars: Vars, tokens: seq<string>): (r: Result<bool, string>)
    ensures r.Err? ==> r.error in tokens && r.error !in vars
  {
    if tokens == [] then Ok(true)
    else
      match ReadVariable(vars, tokens[0])
      case Err(n) => Err(n)
      case Ok(v) => if !Defined(v) then Ok(false) else AllFilled(vars, tokens[1..])
  }

  /** Some token is filled: the scan stops at the first filled token or read error. */
  function AnyFilled(vars: Vars, tokens: seq<string>): (r: Result<bool, string>)
    ensures r.Err? ==> r.error in tokens && r.error !in vars
  {
    if tokens == [] then Ok(false)
    else
      match ReadVariable(vars, tokens[0])
      case Err(n) => Err(n)
      case Ok(v) => if Defined(v) then Ok(true) else AnyFilled(vars, tokens[1..])
  }

  /** ALL holds exactly when every token is declared and defined; vacuously for no tokens. */
  lemma {:induction false} AllFilledIff(vars: Vars, tokens: seq<string>)
    ensures AllFilled(vars, tokens) == Ok(true) <==> forall t :: t in tokens ==> t in vars && Defined(vars[t])
  {
    if tokens != [] {
      AllFilledIff(vars, tokens[1..]);
      assert forall t :: t in tokens <==> t == tokens[0] || t in tokens[1..];
    }
  }

  /** With every token declared, ALL is a plain forall and ANY a plain exists. */
  lemma {:induction false} GatesOverDeclared(vars: Vars, tokens: seq<string>)
    requires forall t :: t in tokens ==> t in vars
    ensures AllFilled(vars, tokens) == Ok(forall t :: t in tokens ==> Defined(vars[t]))
    ensures AnyFilled(vars, tokens) == Ok(exists t :: t in tokens && Defined(vars[t]))
  {
    if tokens != [] {
      assert forall t :: t in tokens <==> t == tokens[0] || t in tokens[1..];
      GatesOverDeclared(vars, tokens[1..]);
    }
  }

  /** ANY holds only when some token is declared and defined, so never for no tokens. */
  lemma {:induction false} AnyFilledWitness(vars: Vars, tokens: seq<string>)
    requires AnyFilled(vars, tokens) == Ok(true)
    ensures exists t :: t in tokens && t in vars && Defined(vars[t])
  {
    if !Defined(vars[tokens[0]]) {
      AnyFilledWitness(vars, tokens[1..]);
      var t :| t in tokens[1..] && t in vars && Defined(vars[t]);
      assert t in tokens;
    }
  }

  /** On a non-empty namelist, ALL implies ANY. */
  lemma AllImpliesAny(vars: Vars, tokens: seq<string>)
    requires tokens != [] && AllFilled(vars, tokens) == Ok(true)
    ensures AnyFilled(vars, tokens) == Ok(true)
  {
    AllFilledIff(vars, tokens);
    assert tokens[0] in tokens;
  }

  /** The names of the input items among `items`, in order. */
  function InputNames(items: seq<FormItem>): seq<string> {
    if items == [] then []
    else InputNames(items[..|items| - 1]) + (if items[|items| - 1].isInput then [items[|items| - 1].name] else [])
  }

  lemma {:induction false} InputNamesMembers(items: seq<FormItem>, n: string)
    ensures n in InputNames(items) <==> exists i :: i in items && i.isInput && i.name == n
  {
    if items != [] {
      var init := items[..|items| - 1];
      assert items == init + [items[|items| - 1]];
      InputNamesMembers(init, n);
    }
  }

  /** The tokens a `<filled>` element is gated on: its namelist, or every input item's name. */
  function Tokens(f: Filled, items: seq<FormItem>): seq<string> {
    if f.namelist == [] then InputNames(items) else f.namelist
  }

  /** Whether a `<filled>` element runs; a read error is reported with the variable name. */
  function Gate(vars: Vars, f: Filled, items: seq<FormItem>): Result<bool, string> {
    if !f.parentIsForm then Ok(true)
    else if f.mode == All then AllFilled(vars, Tokens(f, items))
    else AnyFilled(vars, Tokens(f, items))
  }

  /**
   * The gate in plain terms, when its tokens are declared: a `<filled>` that
   * is not a child of a form always runs; otherwise mode ALL asks every token
   * to be defined and any other mode asks some token to be.
   */
  lemma GateMeaning(vars: Vars, f: Filled, items: seq<FormItem>)
    requires forall t :: t in Tokens(f, items) ==> t in vars
    ensures Gate(vars, f, items) == Ok(
              || !f.parentIsForm
              || (f.mode == All && forall t :: t in Tokens(f, items) ==> Defined(vars[t]))
              || (f.mode != All && exists t :: t in Tokens(f, items) && Defined(vars[t])))
  {
    GatesOverDeclared(vars, Tokens(f, items));
  }

  /** The outcome of running `<filled>` elements: the variables, the ids run, what was thrown. */
  datatype FilledRun = FilledRun(vars: Vars, executed: seq<nat>, thrown: Option<Event>)

  /**
   * The tag-strategy executor is not part of this model: running the children
   * of a `<filled>` gives the new variables and the event thrown, if any.
   */
  type Exec = (Filled, Vars) -> (Vars, Option<Event>)

  /** The ids of `list`, in order. */
  function Ids(list: seq<Filled>): seq<nat> {
    if list == [] then [] else Ids(list[..|list| - 1]) + [list[|list| - 1].id]
  }

  /**
   * The elements of `list` run in order, each behind its gate, until one
   * throws; a gate that fails to read a variable throws the semantic error.
   */
  function RunFilled(vars: Vars, list: seq<Filled>, items: seq<FormItem>, exec: Exec): FilledRun {
    if list == [] then FilledRun(vars, [], None)
    else Step(RunFilled(vars, list[..|list| - 1], items, exec), list[|list| - 1], items, exec)
  }

  /** One `<filled>` element after the run so far. */
  function Step(prev: FilledRun, f: Filled, items: seq<FormItem>, exec: Exec): FilledRun {
    if prev.thrown.Some? then prev
    else
      match Gate(prev.vars, f, items)
      case Err(n) => FilledRun(prev.vars, prev.executed, Some(SemanticError(n)))
      case Ok(run) =>
        if !run then prev
        else
          var (after, thrown) := exec(f, prev.vars);
          FilledRun(after, prev.executed + [f.id], thrown)
  }

  lemma RunFilledPrefix(vars: Vars, list: seq<Filled>, i: nat, items: seq<FormItem>, exec: Exec)
    requires i < |list|
    ensures RunFilled(vars, list[..i + 1], items, exec) == Step(RunFilled(vars, list[..i], items, exec), list[i], items, exec)
  {
    assert list[..i + 1][..i] == list[..i];
  }

  /** The elements run are a subsequence of the candidates, in their order. */
  lemma {:induction false} RunFilledInOrder(vars: Vars, list: seq<Filled>, items: seq<FormItem>, exec: Exec)
    ensures Subseq(RunFilled(vars, list, items, exec).executed, Ids(list))
  {
    if list != [] {
      var init := list[..|list| - 1];
      var prev := RunFilled(vars, init, items, exec);
      RunFilledInOrder(vars, init, items, exec);
      var r := RunFilled(vars, list, items, exec);
      if r.executed == prev.executed {
        assert Ids(list)[..|Ids(list)| - 1] == Ids(init);
      } else {
        assert r.executed == prev.executed + [list[|list| - 1].id];
        assert r.executed[..|r.executed| - 1] == prev.executed;
      }
    }
  }

  /** Once an element throws, the later elements do not run. */
  lemma {:induction false} RunFilledStops(vars: Vars, list: seq<Filled>, more: seq<Filled>, items: seq<FormItem>,
                                          exec: Exec)
    requires RunFilled(vars, list, items, exec).thrown.Some?
    ensures RunFilled(vars, list + more, items, exec) == RunFilled(vars, list, items, exec)
    decreases |more|
  {
    if more == [] {
      assert list + more == list;
    } else {
      var init := more[..|more| - 1];
      assert (list + more)[..|list + more| - 1] == list + init;
      RunFilledStops(vars, list, init, items, exec);
    }
  }

  lemma FinishAfterThrow(vars: Vars, list: seq<Filled>, i: nat, items: seq<FormItem>, exec: Exec)
    requires i < |list| && RunFilled(vars, list[..i + 1], items, exec).thrown.Some?
    ensures RunFilled(vars, list, items, exec) == RunFilled(vars, list[..i + 1], items, exec)
  {
    RunFilledStops(vars, list[..i + 1], list[i + 1..], items, exec);
    assert list[..i + 1] + list[i + 1..] == list;
  }

  /** When no element sits in a form and none throws, all of them run, in order. */
  lemma {:induction false} RunFilledAll(vars: Vars, list: seq<Filled>, items: seq<FormItem>, exec: Exec)
    requires forall f :: f in list ==> !f.parentIsForm
    requires forall f, v :: exec(f, v).1.None?
    ensures RunFilled(vars, list, items, exec).executed == Ids(list)
    ensures RunFilled(vars, list, items, exec).thrown.None?
  {
    if list != [] {
      var init := list[..|list| - 1];
      assert forall f :: f in init ==> f in list;
      RunFilledAll(vars, init, items, exec);
      assert list[|list| - 1] in list;
    }
  }

  /** How the processing of an input event ends. */
  datatype Outcome =
    | Aborted            // the item-specific handling asked to stop
    | Threw(event: Event)   // an event was thrown: by that handling, a gate or a `<filled>`
    | NotAnInput         // the event carries no input result: the cast fails
    | NoInterpreter      // there is no FIA: dereferencing it fails after the variable is set
    | Finished

  /**
   * The part of the interpreter the strategy acts on: the data model's
   * variables, the FIA's just-filled marks and form items, the dialog's
   * `<filled>` elements, and the executor's record of the elements run.
   */
  class FillContext {
    var vars: Vars
    var justFilled: set<FormItem>
    var executed: seq<nat>
    /** Whether the strategy holds a FIA. */
    const hasFia: bool
    const formItems: seq<FormItem>
    /** The dialog's `<filled>` elements; None when the dialog returns null. */
    const dialogFilled: Option<seq<Filled>>

    constructor (vars: Vars, hasFia: bool, formItems: seq<FormItem>, dialogFilled: Option<seq<Filled>>)
      ensures this.vars == vars && justFilled == {} && executed == []
      ensures this.hasFia == hasFia && this.formItems == formItems && this.dialogFilled == dialogFilled
    {
      this.vars := vars;
      justFilled := {};
      executed := [];
      this.hasFia := hasFia;
      this.formItems := formItems;
      this.dialogFilled := dialogFilled;
    }

    /** The ALL gate, scanning the tokens in order. */
    method AreAllFilled(tokens: seq<string>) returns (r: Result<bool, string>)
      ensures r == AllFilled(vars, tokens)
    {
      for i := 0 to |tokens|
        invariant AllFilled(vars, tokens) == AllFilled(vars, tokens[i..])
      {
        assert tokens[i..][1..] == tokens[i + 1..];
        if tokens[i] !in vars {
          return Err(tokens[i]);
        }
        if !Defined(vars[tokens[i]]) {
          return Ok(false);
        }
      }
      return Ok(true);
    }

    /** The ANY gate, scanning the tokens in order. */
    method IsAnyFilled(tokens: seq<string>) returns (r: Result<bool, string>)
      ensures r == AnyFilled(vars, tokens)
    {
      for i := 0 to |tokens|
        invariant AnyFilled(vars, tokens) == AnyFilled(vars, tokens[i..])
      {
        assert tokens[i..][1..] == tokens[i + 1..];
        if tokens[i] !in vars {
          return Err(tokens[i]);
        }
        if Defined(vars[tokens[i]]) {
          return Ok(true);
        }
      }
      return Ok(false);
    }

    /** Whether `f` runs: the gate over its namelist, or over all input items for an empty one. */
    method ShouldExecute(f: Filled) returns (r: Result<bool, string>)
      ensures r == Gate(vars, f, formItems)
    {
      if !f.parentIsForm {
        return Ok(true);
      }
      var tokens := f.namelist;
      if tokens == [] {
        for i := 0 to |formItems|
          invariant tokens == InputNames(formItems[..i])
        {
          assert formItems[..i + 1][..i] == formItems[..i];
          if formItems[i].isInput {
            tokens := tokens + [formItems[i].name];
          }
        }
        assert formItems[..|formItems|] == formItems;
      }
      if f.mode == All {
        r := AreAllFilled(tokens);
      } else {
        r := IsAnyFilled(tokens);
      }
    }

    /** Sets the item variable to the input result and, with a FIA, marks the item just filled. */
    method SetResult(item: FormItem, result: Value)
      modifies this`vars, this`justFilled
      ensures vars == old(vars)[item.name := result]
      ensures justFilled == if hasFia then old(justFilled) + {item} else old(justFilled)
    {
      vars := vars[item.name := result];
      if hasFia {
        justFilled := justFilled + {item};
      }
    }

    /** Runs the `<filled>` elements of `list` in order, each behind its gate, until one throws. */
    method ExecuteFilled(list: seq<Filled>, exec: Exec) returns (thrown: Option<Event>)
      modifies this`vars, this`executed
      ensures var run := RunFilled(old(vars), list, formItems, exec);
              vars == run.vars && executed == old(executed) + run.executed && thrown == run.thrown
    {
      ghost var vars0, executed0 := vars, executed;
      ghost var done: seq<nat> := [];
      for i := 0 to |list|
        invariant executed == executed0 + done
        invariant RunFilled(vars0, list[..i], formItems, exec) == FilledRun(vars, done, None)
      {
        RunFilledPrefix(vars0, list, i, formItems, exec);
        var f := list[i];
        var gate := ShouldExecute(f);
        if gate.Err? {
          thrown := Some(SemanticError(gate.error));
          FinishAfterThrow(vars0, list, i, formItems, exec);
          return;
        }
        if gate.value {
          var (after, t) := exec(f, vars);
          vars := after;
          executed := executed + [f.id];
          done := done + [f.id];
          if t.Some? {
            thrown := t;
            FinishAfterThrow(vars0, list, i, formItems, exec);
            return;
          }
        }
      }
      assert list[..|list|] == list;
      thrown := None;
    }

    /**
     * Processes `event` for `item`. `handled` is what the item-specific
     * handling returned or threw; `exec` runs the children of a `<filled>`.
     */
    method Process(item: FormItem, event: Event, handled: Result<bool, Event>, exec: Exec) returns (o: Outcome)
      modifies this`vars, this`justFilled, this`executed
      ensures handled.Err? ==> o == Threw(handled.error)
      ensures handled == Ok(false) ==> o == Aborted
      ensures handled == Ok(true) && event.InputResult().None? ==> o == NotAnInput
      ensures (handled != Ok(true) || event.InputResult().None?) ==>
                vars == old(vars) && justFilled == old(justFilled) && executed == old(executed)
      ensures handled == Ok(true) && event.InputResult().Some? && !hasFia ==>
                && o == NoInterpreter && vars == old(vars)[item.name := event.InputResult().value]
                && justFilled == old(justFilled) && executed == old(executed)
      ensures handled == Ok(true) && event.InputResult().Some? && hasFia ==>
                var run := RunFilled(old(vars)[item.name := event.InputResult().value],
                                     item.filled + dialogFilled.GetOr([]), formItems, exec);
                && justFilled == old(justFilled) + {item}
                && vars == run.vars
                && executed == old(executed) + run.executed
                && o == (if run.thrown.Some? then Threw(run.thrown.value) else Finished)
    {
      match handled {
        case Err(e) => return Threw(e);
        case Ok(go) =>
          if !go {
            return Aborted;
          }
      }
      var result := event.InputResult();
      if result.None? {
        return NotAnInput;
      }
      SetResult(item, result.value);
      var list := item.filled;
      if !hasFia {
        return NoInterpreter;
      }
      if dialogFilled.Some? {
        list := list + dialogFilled.value;
      }
      assert list == item.filled + dialogFilled.GetOr([]);
      o := Finished;
      if item in justFilled {
        var thrown := ExecuteFilled(list, exec);
        if thrown.Some? {
          o := Threw(thrown.value);
        }
      }
    }
  }
}
