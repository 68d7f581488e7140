/**
 * The event handler of the VoiceXML interpreter: the registry of event
 * strategies, its bookkeeping of event-bus subscriptions, the collection of
 * strategies from catch elements, the event queue, and the dispatch of one
 * event through the filter chain to the first surviving strategy.
 */
module EventHandler {
  import opened Wrappers
  import opened Vxml
  import opened Sequences

  // ---------------------------------------------------------------------------
  // Strategies
  // ---------------------------------------------------------------------------

  /** The kinds of event strategy the handler registers. */
  datatype Kind =
    | CatchKind(node: nat)     // a user-declared catch element
    | DefaultRepromptKind      // built-in noinput / nomatch / help handler
    | DefaultCancelKind        // built-in cancel handler
    | HangupKind               // registered by the constructor
    | InputItemKind            // the decorator for an input item

  /**
   * An event strategy: its kind, the event type it handles and the form item
   * it belongs to (null at document and dialog level). Two strategies are the
   * same strategy when these three agree.
   */
  datatype Strategy = Strategy(kind: Kind, eventType: string, item: FormItem?)

  /** The hangup strategy added by the constructor. */
  const HANGUP_STRATEGY := Strategy(HangupKind, HANGUP, null)

  /** The event types that get a default strategy (section 5.2.5 of VoiceXML 2.0). */
  const DEFAULT_TYPES := [NOINPUT, NOMATCH, HELP, CANCEL]

  /** The first registered strategy for type `t`, if any. */
  function FirstOfType(reg: seq<Strategy>, t: string): (r: Option<Strategy>)
    ensures r.None? <==> forall s :: s in reg ==> s.eventType != t
    ensures r.Some? ==> r.value in reg && r.value.eventType == t
  {
    if reg == [] then None
    else if reg[0].eventType == t then Some(reg[0])
    else FirstOfType(reg[1..], t)
  }

  /** The strategy found is the first of its type in registration order. */
  lemma {:induction false} FirstOfTypeIsFirst(reg: seq<Strategy>, t: string)
    requires HasType(reg, t)
    ensures exists k :: 0 <= k < |reg| && reg[k] == FirstOfType(reg, t).value && NoneOfTypeBefore(reg, t, k)
  {
    if reg[0].eventType == t {
      assert NoneOfTypeBefore(reg, t, 0);
    } else {
      FirstOfTypeIsFirst(reg[1..], t);
      var k :| 0 <= k < |reg| - 1 && reg[1..][k] == FirstOfType(reg[1..], t).value && NoneOfTypeBefore(reg[1..], t, k);
      assert NoneOfTypeBefore(reg, t, k + 1);
    }
  }

  predicate NoneOfTypeBefore(reg: seq<Strategy>, t: string, k: nat)
    requires k <= |reg|
  {
    forall j :: 0 <= j < k ==> reg[j].eventType != t
  }

  /** Whether `reg` holds a strategy for type `t`. */
  predicate HasType(reg: seq<Strategy>, t: string) {
    exists s :: s in reg && s.eventType == t
  }

  /** The set of event types of `xs`. */
  function TypesOf(xs: seq<Strategy>): set<string> {
    if xs == [] then {} else TypesOf(xs[..|xs| - 1]) + {xs[|xs| - 1].eventType}
  }

  lemma {:induction false} TypesOfMembers(xs: seq<Strategy>, t: string)
    ensures t in TypesOf(xs) <==> exists s :: s in xs && s.eventType == t
  {
    if xs != [] {
      var init := xs[..|xs| - 1];
      assert xs == init + [xs[|xs| - 1]];
      TypesOfMembers(init, t);
    }
  }

  /** Registration of one strategy: duplicates are rejected. */
  function Add(reg: seq<Strategy>, s: Strategy): seq<Strategy> {
    if s in reg then reg else reg + [s]
  }

  /** Registration of several strategies, one after another. */
  function AddAll(reg: seq<Strategy>, xs: seq<Strategy>): seq<Strategy> {
    if xs == [] then reg else Add(AddAll(reg, xs[..|xs| - 1]), xs[|xs| - 1])
  }

  lemma AddAllStep(reg: seq<Strategy>, xs: seq<Strategy>, x: Strategy)
    ensures AddAll(reg, xs + [x]) == Add(AddAll(reg, xs), x)
    ensures TypesOf(xs + [x]) == TypesOf(xs) + {x.eventType}
  {
    assert (xs + [x])[..|xs|] == xs;
  }

  lemma TypesOfStep(xs: seq<Strategy>, x: Strategy)
    ensures TypesOf(xs + [x]) == TypesOf(xs) + {x.eventType}
  {
    assert (xs + [x])[..|xs|] == xs;
  }

  lemma HasTypeAppendOther(reg: seq<Strategy>, s: Strategy, t: string)
    requires s.eventType != t
    ensures HasType(reg + [s], t) == HasType(reg, t)
  {
    assert forall x :: x in reg + [s] <==> x in reg || x == s;
  }

  // ---------------------------------------------------------------------------
  // Strategies built from catch elements
  // ---------------------------------------------------------------------------

  /** The strategies one catch element yields: one per listed type, or one catch-all. */
  function PerCatch(item: FormItem?, c: CatchElement): seq<Strategy> {
    if c.events == [] then [Strategy(CatchKind(c.node), ANY_EVENT, item)]
    else seq(|c.events|, i requires 0 <= i < |c.events| => Strategy(CatchKind(c.node), c.events[i], item))
  }

  /** The strategies a list of catch elements yields, in document order. */
  function CatchStrategies(item: FormItem?, cs: seq<CatchElement>): seq<Strategy> {
    if cs == [] then [] else CatchStrategies(item, cs[..|cs| - 1]) + PerCatch(item, cs[|cs| - 1])
  }

  /** A catch for `filled` on an initial form item is ignored. */
  predicate Ignored(item: FormItem, t: string) {
    t == FILLED && item.initial
  }

  /** One copy of `c` for each of the types in `ts` that is not ignored. */
  function Copies(item: FormItem, c: CatchElement, ts: seq<string>): seq<CatchElement> {
    if ts == [] then []
    else Copies(item, c, ts[..|ts| - 1]) + (if Ignored(item, ts[|ts| - 1]) then [] else [c])
  }

  /** The catch elements of an item that survive the item filter. */
  function FilteredCatches(item: FormItem, cs: seq<CatchElement>): seq<CatchElement> {
    if cs == [] then []
    else FilteredCatches(item, cs[..|cs| - 1]) + Copies(item, cs[|cs| - 1], cs[|cs| - 1].events)
  }

  /** The default strategy of `kind` for type `t`, unless `reg` has a strategy for `t`. */
  function DefaultFor(kind: Kind, t: string, item: FormItem?, reg: seq<Strategy>): seq<Strategy> {
    if HasType(reg, t) then [] else [Strategy(kind, t, item)]
  }

  /**
   * The default strategies for noinput, nomatch, help and cancel, added one
   * after another, each only when the registry as it then stands has no
   * strategy for its type.
   */
  function Defaults(item: FormItem?, reg: seq<Strategy>): seq<Strategy> {
    var a1 := DefaultFor(DefaultRepromptKind, NOINPUT, item, reg);
    var a2 := DefaultFor(DefaultRepromptKind, NOMATCH, item, reg + a1);
    var a3 := DefaultFor(DefaultRepromptKind, HELP, item, reg + a1 + a2);
    var a4 := DefaultFor(DefaultCancelKind, CANCEL, item, reg + a1 + a2 + a3);
    a1 + a2 + a3 + a4
  }

  /** A child node of the `<vxml>` element. */
  datatype DocNode = CatchNode(element: CatchElement) | OtherNode

  /** The catch elements among the children of `<vxml>`. */
  function CatchChildren(children: seq<DocNode>): seq<CatchElement> {
    if children == [] then []
    else
      var last := children[|children| - 1];
      CatchChildren(children[..|children| - 1]) + (if last.CatchNode? then [last.element] else [])
  }

  // ---------------------------------------------------------------------------
  // Subscriptions
  // ---------------------------------------------------------------------------

  /** The types of `items` for which no strategy of `reg` remains. */
  function Unused(items: seq<Strategy>, reg: seq<Strategy>): set<string> {
    if items == [] then {}
    else
      var last := items[|items| - 1];
      Unused(items[..|items| - 1], reg) + (if HasType(reg, last.eventType) then {} else {last.eventType})
  }

  lemma {:induction false} UnusedMembers(items: seq<Strategy>, reg: seq<Strategy>, t: string)
    ensures t in Unused(items, reg) <==> (exists s :: s in items && s.eventType == t) && !HasType(reg, t)
  {
    if items != [] {
      var init := items[..|items| - 1];
      assert items == init + [items[|items| - 1]];
      UnusedMembers(init, reg, t);
    }
  }

  // ---------------------------------------------------------------------------
  // Event transformation
  // ---------------------------------------------------------------------------

  /**
   * A recognition event whose semantic interpretation is "help" or "cancel"
   * becomes the built-in event; a failing interpretation becomes the semantic
   * error; every other event is left as it is.
   */
  function Transform(e: Event): (r: Event)
    ensures !e.Recognition? ==> r == e
    ensures e.Recognition? && e.result.interpretation.Err? ==> r == SemanticError(e.result.interpretation.error)
    ensures e.Recognition? ==> (r == Help <==> e.result.interpretation == Ok(Str(HELP)))
    ensures e.Recognition? ==> (r == Cancel <==> e.result.interpretation == Ok(Str(CANCEL)))
    ensures e.Recognition? && e.result.interpretation.Ok? && e.result.interpretation.value !in {Str(HELP), Str(CANCEL)}
            ==> r == e
  {
    match e
    case Recognition(res) =>
      (match res.interpretation
       case Err(detail) => SemanticError(detail)
       case Ok(v) => if v == Str(HELP) then Help else if v == Str(CANCEL) then Cancel else e)
    case _ => e
  }

  // ---------------------------------------------------------------------------
  // Filtering and dispatch
  // ---------------------------------------------------------------------------

  /** The event filters, in the order the constructor installs them. */
  datatype Filter = TypeFilter | ConditionFilter | CountFilter | HighestCountFilter

  /**
   * The filter implementations are not part of this model. A filter is
   * described by whether it keeps candidate `s` of the current candidates,
   * given the event, the item and the item's counters: so a filter can only
   * narrow the candidates and keeps their order.
   */
  type Keep = (Filter, Event, FormItem?, map<string, nat>, seq<Strategy>, Strategy) -> bool

  /** What running a strategy throws, if anything. */
  type Run = (Strategy, Event) -> Option<Event>

  /** The filter chain: the type filter alone when there is no item. */
  function Chain(item: FormItem?): seq<Filter> {
    if item == null then [TypeFilter] else [TypeFilter, ConditionFilter, CountFilter, HighestCountFilter]
  }

  function KeptBy(keep: Keep, f: Filter, e: Event, item: FormItem?, counters: map<string, nat>,
                  cands: seq<Strategy>): Strategy -> bool
  {
    s => keep(f, e, item, counters, cands, s)
  }

  /** One filter applied to the candidates. */
  function ApplyFilter(keep: Keep, f: Filter, e: Event, item: FormItem?, counters: map<string, nat>,
                       cands: seq<Strategy>): seq<Strategy>
  {
    Select(cands, KeptBy(keep, f, e, item, counters, cands))
  }

  /** The filters applied in order; None as soon as one leaves no candidate. */
  function Narrow(keep: Keep, chain: seq<Filter>, e: Event, item: FormItem?, counters: map<string, nat>,
                  cands: seq<Strategy>): (r: Option<seq<Strategy>>)
    ensures chain != [] && r.Some? ==> r.value != []
  {
    if chain == [] then Some(cands)
    else
      match Narrow(keep, chain[..|chain| - 1], e, item, counters, cands)
      case None => None
      case Some(ms) =>
        var next := ApplyFilter(keep, chain[|chain| - 1], e, item, counters, ms);
        if next == [] then None else Some(next)
  }

  function CountOf(counters: map<string, nat>, t: string): nat {
    if t in counters then counters[t] else 0
  }

  /** The counters after the event is counted: only an event-countable item counts. */
  function Bump(item: FormItem?, counters: map<string, nat>, e: Event): map<string, nat> {
    if item != null && item.countable then counters[e.EventType() := CountOf(counters, e.EventType()) + 1]
    else counters
  }

  /** How the dispatch of one event ends, with the strategies run, in order. */
  datatype Dispatch =
    | NoEvent                                   // the event was null
    | Done(ran: seq<Strategy>)                  // the last strategy run returned normally
    | Escalated(event: Event, ran: seq<Strategy>)   // no strategy matched: the event is rethrown
    | Propagated(event: Event, ran: seq<Strategy>)  // a strategy threw an event other than nomatch
    | OutOfFuel(ran: seq<Strategy>)             // the nomatch re-dispatch went deeper than the bound
  {
    function Ran(): seq<Strategy> {
      match this
      case NoEvent => []
      case Done(r) => r
      case Escalated(_, r) => r
      case Propagated(_, r) => r
      case OutOfFuel(r) => r
    }
  }

  function Prepend(s: Strategy, d: Dispatch): Dispatch {
    match d
    case NoEvent => Done([s])
    case Done(r) => Done([s] + r)
    case Escalated(e, r) => Escalated(e, [s] + r)
    case Propagated(e, r) => Propagated(e, [s] + r)
    case OutOfFuel(r) => OutOfFuel([s] + r)
  }

  /**
   * The dispatch of event `e` against the registry `reg`: the event is
   * counted, the candidates are narrowed, the first survivor runs, and a
   * nomatch it throws is dispatched again with the same item. `fuel` bounds
   * the depth of that re-dispatch, which the source does not bound.
   * Returns the outcome and the item's counters afterwards.
   */
  function DispatchSpec(reg: seq<Strategy>, keep: Keep, run: Run, item: FormItem?, counters: map<string, nat>,
                        e: Event, fuel: nat): (Dispatch, map<string, nat>)
    decreases fuel
  {
    var c := Bump(item, counters, e);
    match Narrow(keep, Chain(item), e, item, c, reg)
    case None => (Escalated(e, []), c)
    case Some(ms) =>
      var s := ms[0];
      match run(s, e)
      case None => (Done([s]), c)
      case Some(t) =>
        if !t.Nomatch? then (Propagated(t, [s]), c)
        else if fuel == 0 then (OutOfFuel([s]), c)
        else
          var inner := DispatchSpec(reg, keep, run, item, c, t, fuel - 1);
          (Prepend(s, inner.0), inner.1)
  }

  /** The filters only drop candidates: the survivors are a subsequence of the candidates. */
  lemma {:induction false} NarrowSubseq(keep: Keep, chain: seq<Filter>, e: Event, item: FormItem?,
                                        counters: map<string, nat>, cands: seq<Strategy>)
    requires Narrow(keep, chain, e, item, counters, cands).Some?
    ensures Subseq(Narrow(keep, chain, e, item, counters, cands).value, cands)
  {
    if chain == [] {
      SubseqRefl(cands);
    } else {
      var init := chain[..|chain| - 1];
      var ms := Narrow(keep, init, e, item, counters, cands).value;
      NarrowSubseq(keep, init, e, item, counters, cands);
      SelectIsSubseq(ms, KeptBy(keep, chain[|chain| - 1], e, item, counters, ms));
      SubseqTrans(Narrow(keep, chain, e, item, counters, cands).value, ms, cands);
    }
  }

  lemma {:induction false} NarrowMembers(keep: Keep, chain: seq<Filter>, e: Event, item: FormItem?,
                                         counters: map<string, nat>, cands: seq<Strategy>, x: Strategy)
    requires Narrow(keep, chain, e, item, counters, cands).Some?
    requires x in Narrow(keep, chain, e, item, counters, cands).value
    ensures x in cands
  {
    if chain != [] {
      var init := chain[..|chain| - 1];
      var ms := Narrow(keep, init, e, item, counters, cands).value;
      SelectMembership(ms, KeptBy(keep, chain[|chain| - 1], e, item, counters, ms), x);
      NarrowMembers(keep, init, e, item, counters, cands, x);
    }
  }

  /** Every strategy a dispatch runs is a registered strategy. */
  lemma {:induction false} DispatchRunsRegistered(reg: seq<Strategy>, keep: Keep, run: Run, item: FormItem?,
                                                  counters: map<string, nat>, e: Event, fuel: nat)
    ensures forall s :: s in DispatchSpec(reg, keep, run, item, counters, e, fuel).0.Ran() ==> s in reg
    decreases fuel
  {
    var c := Bump(item, counters, e);
    var n := Narrow(keep, Chain(item), e, item, c, reg);
    if n.Some? {
      var first := n.value[0];
      NarrowMembers(keep, Chain(item), e, item, c, reg, first);
      var t := run(first, e);
      if t.Some? && t.value.Nomatch? && fuel > 0 {
        var inner := DispatchSpec(reg, keep, run, item, c, t.value, fuel - 1);
        DispatchRunsRegistered(reg, keep, run, item, c, t.value, fuel - 1);
        assert DispatchSpec(reg, keep, run, item, counters, e, fuel).0 == Prepend(first, inner.0);
        PrependRan(first, inner.0);
      } else {
        assert DispatchSpec(reg, keep, run, item, counters, e, fuel).0.Ran() == [first];
      }
    }
  }

  /**
   * A dispatch escalates the event itself, without running anything, exactly
   * when the filter chain leaves no candidate; otherwise the first survivor
   * is the first strategy run.
   */
  lemma DispatchFirstStep(reg: seq<Strategy>, keep: Keep, run: Run, item: FormItem?,
                          counters: map<string, nat>, e: Event, fuel: nat)
    ensures var d := DispatchSpec(reg, keep, run, item, counters, e, fuel).0;
            var n := Narrow(keep, Chain(item), e, item, Bump(item, counters, e), reg);
            && (n.None? <==> d.Ran() == [])
            && (n.None? ==> d == Escalated(e, []))
            && (n.Some? ==> d.Ran()[0] == n.value[0])
  {
    var c := Bump(item, counters, e);
    var n := Narrow(keep, Chain(item), e, item, c, reg);
    if n.Some? {
      var t := run(n.value[0], e);
      if t.Some? && t.value.Nomatch? && fuel > 0 {
        var inner := DispatchSpec(reg, keep, run, item, c, t.value, fuel - 1);
        assert Prepend(n.value[0], inner.0).Ran() == [n.value[0]] + inner.0.Ran();
      }
    }
  }

  /**
   * An escalated event is the dispatched event or a nomatch thrown by a
   * strategy; a propagated event is never a nomatch.
   */
  lemma {:induction false} DispatchOutcomeEvents(reg: seq<Strategy>, keep: Keep, run: Run, item: FormItem?,
                                                 counters: map<string, nat>, e: Event, fuel: nat)
    ensures var d := DispatchSpec(reg, keep, run, item, counters, e, fuel).0;
            && (d.Escalated? ==> d.event == e || d.event.Nomatch?)
            && (d.Propagated? ==> !d.event.Nomatch?)
            && !d.NoEvent?
    decreases fuel
  {
    var c := Bump(item, counters, e);
    var n := Narrow(keep, Chain(item), e, item, c, reg);
    if n.Some? {
      var t := run(n.value[0], e);
      if t.Some? && t.value.Nomatch? && fuel > 0 {
        DispatchOutcomeEvents(reg, keep, run, item, c, t.value, fuel - 1);
      }
    }
  }

  /** The dispatch levels of an outcome: one per strategy run, and one more for an escalation. */
  function Levels(d: Dispatch): nat {
    |d.Ran()| + (if d.Escalated? then 1 else 0)
  }

  lemma PrependLevels(s: Strategy, d: Dispatch)
    ensures Levels(Prepend(s, d)) == Levels(d) + 1
  {
    PrependRan(s, d);
  }

  /**
   * Each dispatch level counts its event once: the first level counts the
   * dispatched event, every re-dispatch a nomatch. Only an event-countable
   * item has counters, and no other type's count changes.
   */
  lemma DispatchCounters(reg: seq<Strategy>, keep: Keep, run: Run, item: FormItem?,
                         counters: map<string, nat>, e: Event, fuel: nat)
    ensures var (d, c) := DispatchSpec(reg, keep, run, item, counters, e, fuel);
            && (item == null || !item.countable ==> c == counters)
            && (forall t :: CountOf(c, t) >= CountOf(counters, t))
            && (item != null && item.countable ==>
                  && (forall t :: t != e.EventType() && t != NOMATCH ==> CountOf(c, t) == CountOf(counters, t))
                  && (e.EventType() != NOMATCH ==>
                        && CountOf(c, e.EventType()) == CountOf(counters, e.EventType()) + 1
                        && CountOf(c, NOMATCH) + 1 == CountOf(counters, NOMATCH) + Levels(d))
                  && (e.EventType() == NOMATCH ==> CountOf(c, NOMATCH) == CountOf(counters, NOMATCH) + Levels(d)))
  {
    if item != null && item.countable {
      var (d, c) := DispatchSpec(reg, keep, run, item, counters, e, fuel);
      forall t ensures CountOf(c, t) == CountOf(counters, t) + Counted(e, d, t) {
        DispatchCountsExact(reg, keep, run, item, counters, e, fuel, t);
      }
    } else {
      DispatchCountsUnchanged(reg, keep, run, item, counters, e, fuel);
    }
  }

  lemma {:induction false} DispatchCountsUnchanged(reg: seq<Strategy>, keep: Keep, run: Run, item: FormItem?,
                                                   counters: map<string, nat>, e: Event, fuel: nat)
    requires item == null || !item.countable
    ensures DispatchSpec(reg, keep, run, item, counters, e, fuel).1 == counters
    decreases fuel
  {
    var n := Narrow(keep, Chain(item), e, item, counters, reg);
    if n.Some? {
      var t := run(n.value[0], e);
      if t.Some? && t.value.Nomatch? && fuel > 0 {
        DispatchCountsUnchanged(reg, keep, run, item, counters, t.value, fuel - 1);
      }
    }
  }

  /** How many times a dispatch ending in `d` counts type `t`: once for `e`, once per re-dispatched nomatch. */
  function Counted(e: Event, d: Dispatch, t: string): int {
    (if t == e.EventType() then 1 else 0) + (if t == NOMATCH then Levels(d) - 1 else 0)
  }

  lemma {:induction false} DispatchCountsExact(reg: seq<Strategy>, keep: Keep, run: Run, item: FormItem,
                                               counters: map<string, nat>, e: Event, fuel: nat, t: string)
    requires item.countable
    ensures Levels(DispatchSpec(reg, keep, run, item, counters, e, fuel).0) >= 1
    ensures CountOf(DispatchSpec(reg, keep, run, item, counters, e, fuel).1, t)
            == CountOf(counters, t) + Counted(e, DispatchSpec(reg, keep, run, item, counters, e, fuel).0, t)
    decreases fuel, 1
  {
    BumpCount(item, counters, e, t);
    if Redispatch(reg, keep, run, item, Bump(item, counters, e), e, fuel).Some? {
      RedispatchCounts(reg, keep, run, item, counters, e, fuel, t);
    } else {
      DispatchStops(reg, keep, run, item, counters, e, fuel);
    }
  }

  /** The re-dispatching case of DispatchCountsExact. */
  lemma {:induction false} RedispatchCounts(reg: seq<Strategy>, keep: Keep, run: Run, item: FormItem,
                                            counters: map<string, nat>, e: Event, fuel: nat, t: string)
    requires item.countable
    requires Redispatch(reg, keep, run, item, Bump(item, counters, e), e, fuel).Some?
    ensures Levels(DispatchSpec(reg, keep, run, item, counters, e, fuel).0) >= 1
    ensures CountOf(DispatchSpec(reg, keep, run, item, counters, e, fuel).1, t)
            == CountOf(counters, t) + Counted(e, DispatchSpec(reg, keep, run, item, counters, e, fuel).0, t)
    decreases fuel, 0
  {
    var c := Bump(item, counters, e);
    BumpCount(item, counters, e, t);
    var s, nomatch, inner := DispatchRedispatches(reg, keep, run, item, counters, e, fuel);
    DispatchCountsExact(reg, keep, run, item, c, nomatch, fuel - 1, t);
    CountedStep(CountOf(counters, t), CountOf(c, t), CountOf(inner.1, t), e, nomatch, s, inner.0, t);
  }

  /** Counting an event-countable item's event adds one to that event's type and no other. */
  lemma BumpCount(item: FormItem, counters: map<string, nat>, e: Event, t: string)
    requires item.countable
    ensures CountOf(Bump(item, counters, e), t) == CountOf(counters, t) + (if t == e.EventType() then 1 else 0)
  {
  }

  /** One more level in front of an inner dispatch of a nomatch counts the outer event once more. */
  lemma CountedStep(before: int, bumped: int, after: int, e: Event, nomatch: Event, s: Strategy,
                    inner: Dispatch, t: string)
    requires nomatch.Nomatch?
    requires bumped == before + (if t == e.EventType() then 1 else 0)
    requires Levels(inner) >= 1 && after == bumped + Counted(nomatch, inner, t)
    ensures Levels(Prepend(s, inner)) >= 1
    ensures after == before + Counted(e, Prepend(s, inner), t)
  {
    PrependLevels(s, inner);
  }

  /** The strategy and the nomatch it threw, when the first level of a dispatch re-dispatches. */
  function Redispatch(reg: seq<Strategy>, keep: Keep, run: Run, item: FormItem?, c: map<string, nat>,
                      e: Event, fuel: nat): (r: Option<(Strategy, Event)>)
    ensures r.Some? ==> r.value.1.Nomatch? && fuel > 0
  {
    match Narrow(keep, Chain(item), e, item, c, reg)
    case None => None
    case Some(ms) =>
      match run(ms[0], e)
      case Some(t) => if t.Nomatch? && fuel > 0 then Some((ms[0], t)) else None
      case None => None
  }

  /** A nomatch from the strategy run re-dispatches: the outcome is the inner one after that strategy. */
  lemma DispatchRedispatches(reg: seq<Strategy>, keep: Keep, run: Run, item: FormItem?,
                             counters: map<string, nat>, e: Event, fuel: nat)
    returns (s: Strategy, nomatch: Event, inner: (Dispatch, map<string, nat>))
    requires Redispatch(reg, keep, run, item, Bump(item, counters, e), e, fuel).Some?
    ensures fuel > 0 && nomatch.Nomatch?
    ensures inner == DispatchSpec(reg, keep, run, item, Bump(item, counters, e), nomatch, fuel - 1)
    ensures DispatchSpec(reg, keep, run, item, counters, e, fuel) == (Prepend(s, inner.0), inner.1)
  {
    var rd := Redispatch(reg, keep, run, item, Bump(item, counters, e), e, fuel).value;
    s, nomatch := rd.0, rd.1;
    inner := DispatchSpec(reg, keep, run, item, Bump(item, counters, e), nomatch, fuel - 1);
  }

  /** Otherwise the dispatch stops at its first level, with the event counted once. */
  lemma DispatchStops(reg: seq<Strategy>, keep: Keep, run: Run, item: FormItem?,
                      counters: map<string, nat>, e: Event, fuel: nat)
    requires Redispatch(reg, keep, run, item, Bump(item, counters, e), e, fuel).None?
    ensures DispatchSpec(reg, keep, run, item, counters, e, fuel).1 == Bump(item, counters, e)
    ensures Levels(DispatchSpec(reg, keep, run, item, counters, e, fuel).0) == 1
  {
  }

  /** More fuel changes nothing once a dispatch finishes within its bound. */
  lemma {:induction false} DispatchFuelMonotone(reg: seq<Strategy>, keep: Keep, run: Run, item: FormItem?,
                                                counters: map<string, nat>, e: Event, fuel: nat, more: nat)
    requires fuel <= more
    requires !DispatchSpec(reg, keep, run, item, counters, e, fuel).0.OutOfFuel?
    ensures DispatchSpec(reg, keep, run, item, counters, e, more) == DispatchSpec(reg, keep, run, item, counters, e, fuel)
    decreases fuel
  {
    var c := Bump(item, counters, e);
    var n := Narrow(keep, Chain(item), e, item, c, reg);
    if n.Some? {
      var t := run(n.value[0], e);
      if t.Some? && t.value.Nomatch? {
        DispatchFuelMonotone(reg, keep, run, item, c, t.value, fuel - 1, more - 1);
      }
    }
  }

  /** A dispatch runs at most one strategy per level of re-dispatch. */
  lemma {:induction false} DispatchRanBound(reg: seq<Strategy>, keep: Keep, run: Run, item: FormItem?,
                                            counters: map<string, nat>, e: Event, fuel: nat)
    ensures |DispatchSpec(reg, keep, run, item, counters, e, fuel).0.Ran()| <= fuel + 1
    decreases fuel
  {
    var c := Bump(item, counters, e);
    var n := Narrow(keep, Chain(item), e, item, c, reg);
    if n.Some? {
      var s := n.value[0];
      var t := run(s, e);
      if t.Some? && t.value.Nomatch? && fuel > 0 {
        var inner := DispatchSpec(reg, keep, run, item, c, t.value, fuel - 1);
        assert DispatchSpec(reg, keep, run, item, counters, e, fuel).0 == Prepend(s, inner.0);
        DispatchRanBound(reg, keep, run, item, c, t.value, fuel - 1);
        PrependRan(s, inner.0);
      }
    }
  }

  lemma PrependRan(s: Strategy, d: Dispatch)
    ensures Prepend(s, d).Ran() == [s] + d.Ran()
  {
  }

  // ---------------------------------------------------------------------------
  // Properties of the registry
  // ---------------------------------------------------------------------------

  lemma {:induction false} AddAllMembers(reg: seq<Strategy>, xs: seq<Strategy>, x: Strategy)
    ensures x in AddAll(reg, xs) <==> x in reg || x in xs
  {
    if xs != [] {
      var init := xs[..|xs| - 1];
      assert xs == init + [xs[|xs| - 1]];
      AddAllMembers(reg, init, x);
    }
  }

  /** Registration keeps what was registered, in place, and never registers a strategy twice. */
  lemma {:induction false} AddAllExtends(reg: seq<Strategy>, xs: seq<Strategy>)
    requires NoDup(reg)
    ensures reg <= AddAll(reg, xs)
    ensures NoDup(AddAll(reg, xs))
  {
    if xs != [] {
      AddAllExtends(reg, xs[..|xs| - 1]);
    }
  }

  /** Registering strategies that are all registered already changes nothing. */
  lemma {:induction false} AddAllRegistered(reg: seq<Strategy>, xs: seq<Strategy>)
    requires forall x :: x in xs ==> x in reg
    ensures AddAll(reg, xs) == reg
  {
    if xs != [] {
      var init := xs[..|xs| - 1];
      assert forall x :: x in init ==> x in xs;
      AddAllRegistered(reg, init);
    }
  }

  /** Collecting the same catch elements a second time registers nothing new. */
  lemma AddAllIdempotent(reg: seq<Strategy>, xs: seq<Strategy>)
    ensures AddAll(AddAll(reg, xs), xs) == AddAll(reg, xs)
  {
    forall x | x in xs
      ensures x in AddAll(reg, xs)
    {
      AddAllMembers(reg, xs, x);
    }
    AddAllRegistered(AddAll(reg, xs), xs);
  }

  /**
   * The strategies of one catch: all of its kind and item; their types are
   * the listed types, or the catch-all type for an empty list.
   */
  lemma PerCatchTypes(item: FormItem?, c: CatchElement)
    ensures forall s :: s in PerCatch(item, c) ==> s.kind == CatchKind(c.node) && s.item == item
    ensures c.events == [] ==> TypesOf(PerCatch(item, c)) == {ANY_EVENT}
    ensures c.events != [] ==> |PerCatch(item, c)| == |c.events|
    ensures c.events != [] ==> forall t :: t in TypesOf(PerCatch(item, c)) <==> t in c.events
  {
    var ps := PerCatch(item, c);
    forall t
      ensures t in TypesOf(ps) <==> exists s :: s in ps && s.eventType == t
    {
      TypesOfMembers(ps, t);
    }
    if c.events != [] {
      forall t | t in c.events
        ensures exists s :: s in ps && s.eventType == t
      {
        var i :| 0 <= i < |c.events| && c.events[i] == t;
        assert ps[i].eventType == t;
      }
    } else {
      assert [Strategy(CatchKind(c.node), ANY_EVENT, item)][..0] == [];
    }
  }

  lemma {:induction false} CopiesMembers(item: FormItem, c: CatchElement, ts: seq<string>, x: CatchElement)
    ensures x in Copies(item, c, ts) <==> x == c && exists t :: t in ts && !Ignored(item, t)
  {
    if ts != [] {
      var init := ts[..|ts| - 1];
      assert ts == init + [ts[|ts| - 1]];
      CopiesMembers(item, c, init, x);
    }
  }

  /**
   * A catch survives the item filter exactly when it lists a type that is
   * not `filled` on an initial item; a catch with no event list never does.
   */
  lemma {:induction false} FilteredCatchesMembers(item: FormItem, cs: seq<CatchElement>, x: CatchElement)
    ensures x in FilteredCatches(item, cs) <==> x in cs && exists t :: t in x.events && !Ignored(item, t)
  {
    if cs != [] {
      var init, last := cs[..|cs| - 1], cs[|cs| - 1];
      assert cs == init + [last];
      FilteredCatchesMembers(item, init, x);
      CopiesMembers(item, last, last.events, x);
    }
  }

  /**
   * The filter passes a catch on whole: a catch for both `filled` and
   * `noinput` on an initial item still yields a `filled` strategy.
   */
  lemma FilledKeptBesideOtherTypes(item: FormItem, node: nat)
    requires item.initial
    ensures Strategy(CatchKind(node), FILLED, item)
            in CatchStrategies(item, FilteredCatches(item, [CatchElement(node, [FILLED, NOINPUT])]))
  {
    var c := CatchElement(node, [FILLED, NOINPUT]);
    assert [c][..0] == [];
    assert c.events[..1] == [FILLED];
    assert c.events[..1][..0] == [];
    assert FILLED[0] != NOINPUT[0];
    assert !Ignored(item, NOINPUT);
    assert Copies(item, c, c.events[..1]) == [];
    assert Copies(item, c, c.events) == [c];
    assert PerCatch(item, c)[0] == Strategy(CatchKind(node), FILLED, item);
  }

  /** The defaults added are for default types that had no strategy, and owned by the item. */
  lemma DefaultsOnlyMissing(item: FormItem?, reg: seq<Strategy>)
    ensures |Defaults(item, reg)| <= 4
    ensures forall s :: s in Defaults(item, reg) ==>
              s.eventType in DEFAULT_TYPES && !HasType(reg, s.eventType) && s.item == item
    ensures forall t :: t in DEFAULT_TYPES && !HasType(reg, t) ==> HasType(Defaults(item, reg), t)
  {
    DefaultsMembers(item, reg);
    DefaultsCover(item, reg);
  }

  lemma DefaultsMembers(item: FormItem?, reg: seq<Strategy>)
    ensures |Defaults(item, reg)| <= 4
    ensures forall s :: s in Defaults(item, reg) ==>
              s.eventType in DEFAULT_TYPES && !HasType(reg, s.eventType) && s.item == item
  {
    assert NOINPUT[2] != NOMATCH[2];  // the four default types are distinct
    var a1 := DefaultFor(DefaultRepromptKind, NOINPUT, item, reg);
    var r1 := reg + a1;
    var a2 := DefaultFor(DefaultRepromptKind, NOMATCH, item, r1);
    var r2 := r1 + a2;
    var a3 := DefaultFor(DefaultRepromptKind, HELP, item, r2);
    var r3 := r2 + a3;
    var a4 := DefaultFor(DefaultCancelKind, CANCEL, item, r3);
    DefaultForFacts(DefaultRepromptKind, NOINPUT, item, reg);
    DefaultForFacts(DefaultRepromptKind, NOMATCH, item, r1);
    DefaultForFacts(DefaultRepromptKind, HELP, item, r2);
    DefaultForFacts(DefaultCancelKind, CANCEL, item, r3);
    HasTypeAppendAll(reg, a1, NOMATCH);
    HasTypeAppendAll(reg, a1, HELP);
    HasTypeAppendAll(reg, a1, CANCEL);
    HasTypeAppendAll(r1, a2, HELP);
    HasTypeAppendAll(r1, a2, CANCEL);
    HasTypeAppendAll(r2, a3, CANCEL);
    var d := a1 + a2 + a3 + a4;
    assert Defaults(item, reg) == d;
    forall s | s in d
      ensures s.eventType in DEFAULT_TYPES && !HasType(reg, s.eventType) && s.item == item
    {
      assert s in a1 || s in a2 || s in a3 || s in a4;
    }
  }

  lemma DefaultsCover(item: FormItem?, reg: seq<Strategy>)
    ensures forall t :: t in DEFAULT_TYPES && !HasType(reg, t) ==> HasType(Defaults(item, reg), t)
  {
    assert NOINPUT[2] != NOMATCH[2];  // the four default types are distinct
    var a1 := DefaultFor(DefaultRepromptKind, NOINPUT, item, reg);
    var r1 := reg + a1;
    var a2 := DefaultFor(DefaultRepromptKind, NOMATCH, item, r1);
    var r2 := r1 + a2;
    var a3 := DefaultFor(DefaultRepromptKind, HELP, item, r2);
    var r3 := r2 + a3;
    var a4 := DefaultFor(DefaultCancelKind, CANCEL, item, r3);
    DefaultForFacts(DefaultRepromptKind, NOINPUT, item, reg);
    DefaultForFacts(DefaultRepromptKind, NOMATCH, item, r1);
    DefaultForFacts(DefaultRepromptKind, HELP, item, r2);
    DefaultForFacts(DefaultCancelKind, CANCEL, item, r3);
    HasTypeAppendAll(reg, a1, NOMATCH);
    HasTypeAppendAll(reg, a1, HELP);
    HasTypeAppendAll(reg, a1, CANCEL);
    HasTypeAppendAll(r1, a2, HELP);
    HasTypeAppendAll(r1, a2, CANCEL);
    HasTypeAppendAll(r2, a3, CANCEL);
    var d := a1 + a2 + a3 + a4;
    assert Defaults(item, reg) == d;
    forall t | t in DEFAULT_TYPES && !HasType(reg, t)
      ensures HasType(d, t)
    {
      var s := if t == NOINPUT then Strategy(DefaultRepromptKind, NOINPUT, item)
               else if t == NOMATCH then Strategy(DefaultRepromptKind, NOMATCH, item)
               else if t == HELP then Strategy(DefaultRepromptKind, HELP, item)
               else Strategy(DefaultCancelKind, CANCEL, item);
      assert s in d;
      HasTypeOfMember(d, s);
    }
  }

  /** The default for `t` is that one strategy, present exactly when `reg` lacks the type. */
  lemma DefaultForFacts(kind: Kind, t: string, item: FormItem?, reg: seq<Strategy>)
    ensures |DefaultFor(kind, t, item, reg)| <= 1
    ensures forall s :: s in DefaultFor(kind, t, item, reg) ==> s == Strategy(kind, t, item) && !HasType(reg, t)
    ensures !HasType(reg, t) ==> Strategy(kind, t, item) in DefaultFor(kind, t, item, reg)
  {
  }

  /** A registry holding a strategy has a strategy of its type. */
  lemma HasTypeOfMember(reg: seq<Strategy>, s: Strategy)
    requires s in reg
    ensures HasType(reg, s.eventType)
  {
  }

  /** A second round of defaults adds nothing. */
  lemma DefaultsIdempotent(item: FormItem?, reg: seq<Strategy>)
    ensures Defaults(item, reg + Defaults(item, reg)) == []
  {
    var all := reg + Defaults(item, reg);
    DefaultsComplete(item, reg);
    DefaultsOnlyMissing(item, all);
    assert forall t :: t in DEFAULT_TYPES ==> HasType(all, t);
  }

  /** An item-level catch with no event list is dropped by the filter. */
  lemma CatchAllDroppedOnItems(item: FormItem, node: nat)
    ensures FilteredCatches(item, [CatchElement(node, [])]) == []
  {
    assert [CatchElement(node, [])][..0] == [];
  }

  // ---------------------------------------------------------------------------
  // The handler
  // ---------------------------------------------------------------------------

  /** How the waiting thread leaves one wait on the semaphore. */
  datatype Wakeup =
    | Notified(event: Event)   // a producer queued `event` and notified
    | Spurious                 // woke without a new event
    | Interrupted              // the waiting thread was interrupted

  /** The index of the first wakeup that is not spurious. */
  function FirstWake(wakeups: seq<Wakeup>): (k: nat)
    requires exists k :: 0 <= k < |wakeups| && !wakeups[k].Spurious?
    ensures k < |wakeups| && !wakeups[k].Spurious?
    ensures forall j :: 0 <= j < k ==> wakeups[j].Spurious?
  {
    if !wakeups[0].Spurious? then 0
    else
      assert exists k :: 0 <= k < |wakeups[1..]| && !wakeups[1..][k].Spurious? by {
        var k :| 0 <= k < |wakeups| && !wakeups[k].Spurious?;
        assert wakeups[1..][k - 1] == wakeups[k];
      }
      1 + FirstWake(wakeups[1..])
  }

  function NotOwnedBy(item: FormItem?): Strategy -> bool {
    (s: Strategy) => s.item != item
  }

  function OwnedBy(item: FormItem?): Strategy -> bool {
    (s: Strategy) => s.item == item
  }

  function NotIn(xs: seq<Strategy>): Strategy -> bool {
    (s: Strategy) => s !in xs
  }

  function InScope(scopes: map<Strategy, Scope>, scope: Scope): Strategy -> bool {
    s => s in scopes && scopes[s] == scope
  }

  function NotInScope(scopes: map<Strategy, Scope>, scope: Scope): Strategy -> bool {
    s => !(s in scopes && scopes[s] == scope)
  }

  /**
   * The scopes after a registration: the strategies registered before keep
   * their scope, and each newly registered one has `scope`.
   */
  predicate Extends(reg0: seq<Strategy>, scopes0: map<Strategy, Scope>,
                    reg: seq<Strategy>, scopes: map<Strategy, Scope>, scope: Scope)
  {
    && (forall s :: s in reg0 ==> s in reg)
    && (forall s :: s in reg0 && s in scopes0 ==> s in scopes && scopes[s] == scopes0[s])
    && (forall s :: s in reg && s !in reg0 ==> s in scopes && scopes[s] == scope)
  }

  lemma ExtendsRefl(reg: seq<Strategy>, scopes: map<Strategy, Scope>, scope: Scope)
    ensures Extends(reg, scopes, reg, scopes, scope)
  {
  }

  lemma ExtendsTrans(r0: seq<Strategy>, s0: map<Strategy, Scope>, r1: seq<Strategy>, s1: map<Strategy, Scope>,
                     r2: seq<Strategy>, s2: map<Strategy, Scope>, scope: Scope)
    requires Extends(r0, s0, r1, s1, scope) && Extends(r1, s1, r2, s2, scope)
    ensures Extends(r0, s0, r2, s2, scope)
  {
  }

  lemma HasTypeAppendAll(reg: seq<Strategy>, xs: seq<Strategy>, t: string)
    requires forall s :: s in xs ==> s.eventType != t
    ensures HasType(reg + xs, t) == HasType(reg, t)
  {
    assert forall x :: x in reg + xs <==> x in reg || x in xs;
  }

  lemma {:induction false} AddAllConcat(reg: seq<Strategy>, xs: seq<Strategy>, ys: seq<Strategy>)
    ensures AddAll(reg, xs + ys) == AddAll(AddAll(reg, xs), ys)
    decreases |ys|
  {
    if ys == [] {
      assert xs + ys == xs;
    } else {
      var init, last := ys[..|ys| - 1], ys[|ys| - 1];
      assert xs + ys == (xs + init) + [last];
      AddAllStep(reg, xs + init, last);
      AddAllConcat(reg, xs, init);
    }
  }

  lemma CatchStrategiesStep(item: FormItem?, cs: seq<CatchElement>, i: nat)
    requires i < |cs|
    ensures CatchStrategies(item, cs[..i + 1]) == CatchStrategies(item, cs[..i]) + PerCatch(item, cs[i])
  {
    assert cs[..i + 1][..i] == cs[..i];
  }

  lemma {:induction false} TypesOfConcat(xs: seq<Strategy>, ys: seq<Strategy>)
    ensures TypesOf(xs + ys) == TypesOf(xs) + TypesOf(ys)
    decreases |ys|
  {
    if ys == [] {
      assert xs + ys == xs;
    } else {
      var init, last := ys[..|ys| - 1], ys[|ys| - 1];
      assert xs + ys == (xs + init) + [last];
      TypesOfStep(xs + init, last);
      TypesOfConcat(xs, init);
    }
  }

  lemma DefaultsCompose(r0: seq<Strategy>, a1: seq<Strategy>, a2: seq<Strategy>, a3: seq<Strategy>, a4: seq<Strategy>)
    ensures r0 + a1 + a2 + a3 + a4 == r0 + (a1 + a2 + a3 + a4)
    ensures TypesOf(a1 + a2 + a3 + a4) == TypesOf(a1) + TypesOf(a2) + TypesOf(a3) + TypesOf(a4)
  {
    ConcatAssoc(r0, a1, a2);
    ConcatAssoc(r0, a1 + a2, a3);
    ConcatAssoc(r0, a1 + a2 + a3, a4);
    TypesOfConcat(a1, a2);
    TypesOfConcat(a1 + a2, a3);
    TypesOfConcat(a1 + a2 + a3, a4);
  }

  lemma ConcatAssoc(a: seq<Strategy>, b: seq<Strategy>, c: seq<Strategy>)
    ensures a + b + c == a + (b + c)
  {
  }

  /** The registry after the default for `t` is added to it. */
  function WithDefault(kind: Kind, t: string, item: FormItem?, reg: seq<Strategy>): seq<Strategy> {
    reg + DefaultFor(kind, t, item, reg)
  }

  /** Adding a default keeps every type the registry has, and adds the default's own. */
  lemma WithDefaultHas(kind: Kind, t: string, item: FormItem?, reg: seq<Strategy>, u: string)
    requires u == t || HasType(reg, u)
    ensures HasType(WithDefault(kind, t, item, reg), u)
  {
    if HasType(reg, u) {
      var s := FirstOfType(reg, u).value;
      assert s in WithDefault(kind, t, item, reg);
    } else {
      assert Strategy(kind, t, item) in WithDefault(kind, t, item, reg);
    }
  }

  /** A registry that has a strategy for `t` keeps one when strategies are appended. */
  lemma HasTypeGrows(reg: seq<Strategy>, xs: seq<Strategy>, t: string)
    requires HasType(reg, t)
    ensures HasType(reg + xs, t)
  {
    var s := FirstOfType(reg, t).value;
    assert s in reg + xs;
  }

  /** Every default type keeps a strategy when the decorator is registered after the defaults. */
  lemma DefaultsSurviveDecorator(item: FormItem?, reg: seq<Strategy>, d: seq<Strategy>)
    ensures forall t :: t in DEFAULT_TYPES ==> HasType(reg + Defaults(item, reg) + d, t)
  {
    DefaultsComplete(item, reg);
    forall t | t in DEFAULT_TYPES
      ensures HasType(reg + Defaults(item, reg) + d, t)
    {
      HasTypeGrows(reg + Defaults(item, reg), d, t);
    }
  }

  /** The defaults, as four registrations one after another. */
  lemma DefaultsNested(item: FormItem?, reg: seq<Strategy>)
    ensures reg + Defaults(item, reg)
            == WithDefault(DefaultCancelKind, CANCEL, item,
                 WithDefault(DefaultRepromptKind, HELP, item,
                   WithDefault(DefaultRepromptKind, NOMATCH, item,
                     WithDefault(DefaultRepromptKind, NOINPUT, item, reg))))
  {
    var a1 := DefaultFor(DefaultRepromptKind, NOINPUT, item, reg);
    var a2 := DefaultFor(DefaultRepromptKind, NOMATCH, item, reg + a1);
    var a3 := DefaultFor(DefaultRepromptKind, HELP, item, reg + a1 + a2);
    var a4 := DefaultFor(DefaultCancelKind, CANCEL, item, reg + a1 + a2 + a3);
    DefaultsCompose(reg, a1, a2, a3, a4);
  }

  /** The input-item decorator, when there is one and it is not yet registered in `reg`. */
  function DecoratorAdded(decorator: Option<Strategy>, reg: seq<Strategy>): seq<Strategy> {
    if decorator.Some? && decorator.value !in reg then [decorator.value] else []
  }

  /** A selection from a duplicate-free registry is duplicate-free and holds only registered strategies. */
  lemma RemoveKeepsValid(reg: seq<Strategy>, p: Strategy -> bool)
    requires NoDup(reg)
    ensures NoDup(Select(reg, p))
    ensures forall x :: x in Select(reg, p) ==> x in reg && p(x)
  {
    SelectNoDup(reg, p);
    forall x | x in Select(reg, p)
      ensures x in reg && p(x)
    {
      SelectMembership(reg, p, x);
    }
  }

  /** After the defaults are added, every default type has a strategy. */
  lemma DefaultsComplete(item: FormItem?, reg: seq<Strategy>)
    ensures forall t :: t in DEFAULT_TYPES ==> HasType(reg + Defaults(item, reg), t)
  {
    var r1 := WithDefault(DefaultRepromptKind, NOINPUT, item, reg);
    var r2 := WithDefault(DefaultRepromptKind, NOMATCH, item, r1);
    var r3 := WithDefault(DefaultRepromptKind, HELP, item, r2);
    var r4 := WithDefault(DefaultCancelKind, CANCEL, item, r3);
    DefaultsNested(item, reg);
    forall t | t in DEFAULT_TYPES
      ensures HasType(reg + Defaults(item, reg), t)
    {
      WithDefaultHas(DefaultRepromptKind, NOINPUT, item, reg, NOINPUT);
      if t != NOINPUT {
        WithDefaultHas(DefaultRepromptKind, NOMATCH, item, r1, NOMATCH);
      }
      if t == NOINPUT || t == NOMATCH {
        WithDefaultHas(DefaultRepromptKind, NOMATCH, item, r1, t);
        WithDefaultHas(DefaultRepromptKind, HELP, item, r2, t);
      } else {
        WithDefaultHas(DefaultRepromptKind, HELP, item, r2, HELP);
      }
      if t == CANCEL {
        WithDefaultHas(DefaultCancelKind, CANCEL, item, r3, CANCEL);
      } else {
        WithDefaultHas(DefaultCancelKind, CANCEL, item, r3, t);
      }
    }
  }

  /** The counters of an item; an absent item has none. */
  function CountersOf(item: FormItem?): map<string, nat>
    reads item
  {
    if item == null then map[] else item.counters
  }

  /** Once a prefix of the chain leaves no candidate, the whole chain leaves none. */
  lemma {:induction false} NarrowNoneExtends(keep: Keep, chain: seq<Filter>, n: nat, e: Event, item: FormItem?,
                                             counters: map<string, nat>, cands: seq<Strategy>)
    requires n <= |chain|
    requires Narrow(keep, chain[..n], e, item, counters, cands).None?
    ensures Narrow(keep, chain, e, item, counters, cands).None?
    decreases |chain| - n
  {
    if n < |chain| {
      assert chain[..n + 1][..n] == chain[..n];
      NarrowNoneExtends(keep, chain, n + 1, e, item, counters, cands);
    } else {
      assert chain[..n] == chain;
    }
  }

  class JVoiceXmlEventHandler {
    /** The registered strategies, in registration order. */
    var strategies: seq<Strategy>
    /** The scope each strategy was registered in (kept by the scoped collection). */
    var scopes: map<Strategy, Scope>
    /** The event types this handler is subscribed to on the event bus. */
    var subscribed: set<string>
    /** The queued events, oldest first. */
    var events: seq<Event>

    /**
     * No strategy is registered twice, each has a scope, and the type of each
     * is subscribed on the bus.
     */
    ghost predicate Valid()
      reads this
    {
      && NoDup(strategies)
      && (forall s :: s in strategies ==> s in scopes)
      && (forall s :: s in strategies ==> s.eventType in subscribed)
    }

    /** A new handler holds only the hangup strategy, registered in `scope`. */
    constructor (scope: Scope)
      ensures Valid()
      ensures strategies == [HANGUP_STRATEGY] && subscribed == {HANGUP} && events == []
      ensures scopes == map[HANGUP_STRATEGY := scope]
    {
      strategies := [];
      scopes := map[];
      subscribed := {};
      events := [];
      new;
      var _ := AddStrategy(Some(HANGUP_STRATEGY), scope);
    }

    /** The first registered strategy of type `t`, found by a scan in registration order. */
    method GetStrategy(t: string) returns (r: Option<Strategy>)
      ensures r == FirstOfType(strategies, t)
    {
      for i := 0 to |strategies|
        invariant FirstOfType(strategies, t) == FirstOfType(strategies[i..], t)
      {
        if strategies[i].eventType == t {
          return Some(strategies[i]);
        }
        assert strategies[i..][1..] == strategies[i + 1..];
      }
      return None;
    }

    method ContainsStrategy(t: string) returns (b: bool)
      ensures b <==> exists s :: s in strategies && s.eventType == t
    {
      var found := GetStrategy(t);
      b := found.Some?;
    }

    /**
     * Registers `strategy` in the current `scope` (as the scope observer
     * reports it). Null and already registered strategies are rejected
     * without any change; otherwise its type is subscribed and it is appended.
     */
    method AddStrategy(strategy: Option<Strategy>, scope: Scope) returns (added: bool)
      requires Valid()
      modifies this`strategies, this`scopes, this`subscribed
      ensures Valid()
      ensures added <==> strategy.Some? && strategy.value !in old(strategies)
      ensures added ==> strategies == old(strategies) + [strategy.value]
      ensures added ==> subscribed == old(subscribed) + {strategy.value.eventType}
      ensures added ==> scopes == old(scopes)[strategy.value := scope]
      ensures !added ==> strategies == old(strategies) && subscribed == old(subscribed) && scopes == old(scopes)
    {
      if strategy.None? {
        return false;
      }
      var s := strategy.value;
      if s in strategies {
        return false;
      }
      subscribed := subscribed + {s.eventType};
      strategies := strategies + [s];
      scopes := scopes[s := scope];
      added := true;
    }

    /** Registers `s` if it is new; the registry view used by the bulk registrations. */
    method Register(s: Strategy, scope: Scope)
      requires Valid()
      modifies this`strategies, this`scopes, this`subscribed
      ensures Valid()
      ensures strategies == Add(old(strategies), s)
      ensures subscribed == old(subscribed) + {s.eventType}
      ensures Extends(old(strategies), old(scopes), strategies, scopes, scope)
    {
      var _ := AddStrategy(Some(s), scope);
    }

    /** The strategies of one catch element, registered in order. */
    method AddStrategiesForCatch(item: FormItem?, c: CatchElement, scope: Scope)
      requires Valid()
      modifies this`strategies, this`scopes, this`subscribed
      ensures Valid()
      ensures strategies == AddAll(old(strategies), PerCatch(item, c))
      ensures subscribed == old(subscribed) + TypesOf(PerCatch(item, c))
      ensures Extends(old(strategies), old(scopes), strategies, scopes, scope)
    {
      ghost var reg0, scopes0 := strategies, scopes;
      ExtendsRefl(strategies, scopes, scope);
      var all := PerCatch(item, c);
      for j := 0 to |all|
        invariant Valid()
        invariant strategies == AddAll(reg0, all[..j])
        invariant subscribed == old(subscribed) + TypesOf(all[..j])
        invariant Extends(reg0, scopes0, strategies, scopes, scope)
      {
        var s := all[j];
        ghost var r, sc := strategies, scopes;
        Register(s, scope);
        AddAllStep(reg0, all[..j], s);
        assert all[..j + 1] == all[..j] + [s];
        ExtendsTrans(reg0, scopes0, r, sc, strategies, scopes, scope);
      }
      assert all[..|all|] == all;
    }

    /** One strategy per listed event type of each catch (one catch-all for an empty list). */
    method AddStrategiesForCatches(item: FormItem?, catches: seq<CatchElement>, scope: Scope)
      requires Valid()
      modifies this`strategies, this`scopes, this`subscribed
      ensures Valid()
      ensures strategies == AddAll(old(strategies), CatchStrategies(item, catches))
      ensures subscribed == old(subscribed) + TypesOf(CatchStrategies(item, catches))
      ensures Extends(old(strategies), old(scopes), strategies, scopes, scope)
    {
      ghost var reg0, scopes0 := strategies, scopes;
      ExtendsRefl(strategies, scopes, scope);
      for i := 0 to |catches|
        invariant Valid()
        invariant strategies == AddAll(reg0, CatchStrategies(item, catches[..i]))
        invariant subscribed == old(subscribed) + TypesOf(CatchStrategies(item, catches[..i]))
        invariant Extends(reg0, scopes0, strategies, scopes, scope)
      {
        ghost var r, sc := strategies, scopes;
        AddStrategiesForCatch(item, catches[i], scope);
        CatchStrategiesStep(item, catches, i);
        AddAllConcat(reg0, CatchStrategies(item, catches[..i]), PerCatch(item, catches[i]));
        TypesOfConcat(CatchStrategies(item, catches[..i]), PerCatch(item, catches[i]));
        ExtendsTrans(reg0, scopes0, r, sc, strategies, scopes, scope);
      }
      assert catches[..|catches|] == catches;
    }

    /** Adds the default strategy of the given kind for type `t` unless `t` has a strategy. */
    method AddDefaultIfMissing(kind: Kind, t: string, item: FormItem?, scope: Scope) returns (added: seq<Strategy>)
      requires Valid()
      modifies this`strategies, this`scopes, this`subscribed
      ensures Valid()
      ensures added == DefaultFor(kind, t, item, old(strategies))
      ensures strategies == old(strategies) + added
      ensures subscribed == old(subscribed) + TypesOf(added)
      ensures Extends(old(strategies), old(scopes), strategies, scopes, scope)
    {
      added := [];
      ExtendsRefl(strategies, scopes, scope);
      var present := ContainsStrategy(t);
      if !present {
        var s := Strategy(kind, t, item);
        var _ := AddStrategy(Some(s), scope);
        added := [s];
        assert TypesOf(added) == TypesOf([]) + {s.eventType};
      }
    }

    /** Adds a default strategy for each of noinput, nomatch, help and cancel that has none. */
    method AddDefaultStrategies(item: FormItem?, scope: Scope) returns (added: seq<Strategy>)
      requires Valid()
      modifies this`strategies, this`scopes, this`subscribed
      ensures Valid()
      ensures added == Defaults(item, old(strategies))
      ensures strategies == old(strategies) + added
      ensures subscribed == old(subscribed) + TypesOf(added)
      ensures Extends(old(strategies), old(scopes), strategies, scopes, scope)
    {
      ghost var r0, s0 := strategies, scopes;
      var a1 := AddDefaultIfMissing(DefaultRepromptKind, NOINPUT, item, scope);
      ghost var r1, s1 := strategies, scopes;
      var a2 := AddDefaultIfMissing(DefaultRepromptKind, NOMATCH, item, scope);
      ghost var r2, s2 := strategies, scopes;
      ExtendsTrans(r0, s0, r1, s1, r2, s2, scope);
      var a3 := AddDefaultIfMissing(DefaultRepromptKind, HELP, item, scope);
      ghost var r3, s3 := strategies, scopes;
      ExtendsTrans(r0, s0, r2, s2, r3, s3, scope);
      var a4 := AddDefaultIfMissing(DefaultCancelKind, CANCEL, item, scope);
      ExtendsTrans(r0, s0, r3, s3, strategies, scopes, scope);
      DefaultsCompose(r0, a1, a2, a3, a4);
      added := a1 + a2 + a3 + a4;
    }

    /** The catch elements among the children of the document's `<vxml>` element, in document order. */
    method CatchChildrenOf(children: seq<DocNode>) returns (catches: seq<CatchElement>)
      ensures catches == CatchChildren(children)
    {
      catches := [];
      for i := 0 to |children|
        invariant catches == CatchChildren(children[..i])
      {
        assert children[..i + 1][..i] == children[..i];
        if children[i].CatchNode? {
          catches := catches + [children[i].element];
        }
      }
      assert children[..|children|] == children;
    }

    /** Document level: a strategy for every catch child of `<vxml>`, owned by no item. */
    method CollectDocument(children: seq<DocNode>, scope: Scope)
      requires Valid()
      modifies this`strategies, this`scopes, this`subscribed
      ensures Valid()
      ensures strategies == AddAll(old(strategies), CatchStrategies(null, CatchChildren(children)))
      ensures subscribed == old(subscribed) + TypesOf(CatchStrategies(null, CatchChildren(children)))
      ensures Extends(old(strategies), old(scopes), strategies, scopes, scope)
    {
      var catches := CatchChildrenOf(children);
      AddStrategiesForCatches(null, catches, scope);
    }

    /** Dialog level: a strategy for every catch element of the dialog, owned by no item. */
    method CollectDialog(catches: seq<CatchElement>, scope: Scope)
      requires Valid()
      modifies this`strategies, this`scopes, this`subscribed
      ensures Valid()
      ensures strategies == AddAll(old(strategies), CatchStrategies(null, catches))
      ensures subscribed == old(subscribed) + TypesOf(CatchStrategies(null, catches))
      ensures Extends(old(strategies), old(scopes), strategies, scopes, scope)
    {
      AddStrategiesForCatches(null, catches, scope);
    }

    /**
     * The item-level filter of catch elements: a catch is passed on once per
     * listed type that is not `filled` on an initial item.
     */
    method FilterItemCatches(item: FormItem, catches: seq<CatchElement>) returns (filtered: seq<CatchElement>)
      ensures filtered == FilteredCatches(item, catches)
    {
      filtered := [];
      for i := 0 to |catches|
        invariant filtered == FilteredCatches(item, catches[..i])
      {
        var c := catches[i];
        assert catches[..i + 1][..i] == catches[..i];
        ghost var before := filtered;
        for j := 0 to |c.events|
          invariant filtered == before + Copies(item, c, c.events[..j])
        {
          assert c.events[..j + 1][..j] == c.events[..j];
          if !(c.events[j] == FILLED && item.initial) {
            filtered := filtered + [c];
          }
        }
        assert c.events[..|c.events|] == c.events;
      }
      assert catches[..|catches|] == catches;
    }

    /**
     * Item level: the item's filtered catches, then the missing defaults,
     * then the input-item decorator (absent when the factory has none).
     * Returns the defaults and the decorator that were actually added.
     */
    method CollectItem(item: FormItem, catches: seq<CatchElement>, decorator: Option<Strategy>, scope: Scope)
      returns (added: seq<Strategy>)
      requires Valid()
      modifies this`strategies, this`scopes, this`subscribed
      ensures Valid()
      ensures var r1 := AddAll(old(strategies), CatchStrategies(item, FilteredCatches(item, catches)));
              && added == Defaults(item, r1) + DecoratorAdded(decorator, r1 + Defaults(item, r1))
              && strategies == r1 + added
      ensures Extends(old(strategies), old(scopes), strategies, scopes, scope)
      ensures forall t :: t in DEFAULT_TYPES ==> HasType(strategies, t)
    {
      ghost var r0, s0 := strategies, scopes;
      var filtered := FilterItemCatches(item, catches);
      AddStrategiesForCatches(item, filtered, scope);
      ghost var r1, s1 := strategies, scopes;
      added := AddItemDefaults(item, decorator, scope);
      ExtendsTrans(r0, s0, r1, s1, strategies, scopes, scope);
    }

    /** The defaults of an item, then its input-item decorator when that is new. */
    method AddItemDefaults(item: FormItem, decorator: Option<Strategy>, scope: Scope) returns (added: seq<Strategy>)
      requires Valid()
      modifies this`strategies, this`scopes, this`subscribed
      ensures Valid()
      ensures added == Defaults(item, old(strategies)) + DecoratorAdded(decorator, old(strategies) + Defaults(item, old(strategies)))
      ensures strategies == old(strategies) + added
      ensures Extends(old(strategies), old(scopes), strategies, scopes, scope)
      ensures forall t :: t in DEFAULT_TYPES ==> HasType(strategies, t)
    {
      ghost var r1, s1 := strategies, scopes;
      var a := AddDefaultStrategies(item, scope);
      ghost var r2, s2 := strategies, scopes;
      var d := AddDecorator(decorator, scope);
      added := a + d;
      ConcatAssoc(r1, a, d);
      DefaultsSurviveDecorator(item, r1, d);
      ExtendsTrans(r1, s1, r2, s2, strategies, scopes, scope);
    }

    /** Registers the input-item decorator, when there is one and it is new. */
    method AddDecorator(decorator: Option<Strategy>, scope: Scope) returns (d: seq<Strategy>)
      requires Valid()
      modifies this`strategies, this`scopes, this`subscribed
      ensures Valid()
      ensures d == DecoratorAdded(decorator, old(strategies)) && strategies == old(strategies) + d
      ensures Extends(old(strategies), old(scopes), strategies, scopes, scope)
    {
      var ok := AddStrategy(decorator, scope);
      d := if ok then [decorator.value] else [];
    }

    /**
     * Forgets the strategies owned by `item`. The subscriptions are left as
     * they are.
     */
    method Clean(item: FormItem)
      requires Valid()
      modifies this`strategies
      ensures Valid()
      ensures strategies == Select(old(strategies), NotOwnedBy(item))
      ensures forall s :: s in strategies <==> s in old(strategies) && s.item != item
    {
      var toremove: seq<Strategy> := [];
      for i := 0 to |strategies|
        invariant toremove == Select(strategies[..i], OwnedBy(item))
      {
        assert strategies[..i + 1][..i] == strategies[..i];
        if strategies[i].item == item {
          toremove := toremove + [strategies[i]];
        }
      }
      assert strategies[..|strategies|] == strategies;
      forall x | x in strategies
        ensures NotIn(toremove)(x) == NotOwnedBy(item)(x)
      {
        SelectMembership(strategies, OwnedBy(item), x);
      }
      SelectAgree(strategies, NotIn(toremove), NotOwnedBy(item));
      RemoveKeepsValid(strategies, NotIn(toremove));
      strategies := Select(strategies, NotIn(toremove));
      forall x
        ensures x in strategies <==> x in old(strategies) && x.item != item
      {
        SelectMembership(old(strategies), NotOwnedBy(item), x);
      }
    }

    /**
     * Unsubscribes each type of `items` for which no strategy is registered
     * any more.
     */
    method MaybeUnsubscribeFromEventBus(items: seq<Strategy>)
      requires Valid()
      modifies this`subscribed
      ensures Valid()
      ensures subscribed == old(subscribed) - Unused(items, strategies)
      ensures forall s :: s in items ==> (s.eventType in subscribed <==> HasType(strategies, s.eventType))
    {
      for i := 0 to |items|
        invariant subscribed == old(subscribed) - Unused(items[..i], strategies)
      {
        assert items[..i + 1][..i] == items[..i];
        var other := GetStrategy(items[i].eventType);
        if other.None? {
          subscribed := subscribed - {items[i].eventType};
        }
      }
      assert items[..|items|] == items;
      forall s | s in strategies
        ensures s.eventType !in Unused(items, strategies)
      {
        UnusedMembers(items, strategies, s.eventType);
      }
      forall s | s in items
        ensures s.eventType in subscribed <==> HasType(strategies, s.eventType)
      {
        UnusedMembers(items, strategies, s.eventType);
      }
    }

    /**
     * Removes every strategy of `strats` (none when `strats` is null); only
     * when something was removed are the types of `strats` that lost their
     * last strategy unsubscribed.
     */
    method RemoveStrategies(strats: Option<seq<Strategy>>) returns (removed: bool)
      requires Valid()
      modifies this`strategies, this`subscribed
      ensures Valid()
      ensures strats.None? ==> !removed && strategies == old(strategies) && subscribed == old(subscribed)
      ensures strats.Some? ==> strategies == Select(old(strategies), NotIn(strats.value))
      ensures strats.Some? ==> (removed <==> exists s :: s in old(strategies) && s in strats.value)
      ensures removed ==> subscribed == old(subscribed) - Unused(strats.value, strategies)
      ensures removed ==> forall s :: s in strats.value ==> (s.eventType in subscribed <==> HasType(strategies, s.eventType))
      ensures !removed ==> subscribed == old(subscribed)
    {
      if strats.None? {
        return false;
      }
      var xs := strats.value;
      RemoveKeepsValid(strategies, NotIn(xs));
      var remaining := Select(strategies, NotIn(xs));
      removed := |remaining| < |strategies|;
      if exists s :: s in strategies && s in xs {
        var s :| s in strategies && s in xs;
        SelectDrops(strategies, NotIn(xs), s);
      } else {
        SelectKeepsAll(strategies, NotIn(xs));
      }
      strategies := remaining;
      if removed {
        MaybeUnsubscribeFromEventBus(xs);
      }
    }

    /**
     * The scope-change listener: the collection has already dropped `items`;
     * the types that lost their last strategy are unsubscribed.
     */
    method RemovedForScopeChange(items: seq<Strategy>)
      requires Valid()
      modifies this`subscribed
      ensures Valid()
      ensures subscribed == old(subscribed) - Unused(items, strategies)
      ensures forall s :: s in items ==> (s.eventType in subscribed <==> HasType(strategies, s.eventType))
    {
      MaybeUnsubscribeFromEventBus(items);
    }

    /**
     * Leaving `scope`: the scoped collection drops the strategies registered
     * in it and reports them to the listener above.
     */
    method ExitScope(scope: Scope) returns (items: seq<Strategy>)
      requires Valid()
      modifies this`strategies, this`subscribed
      ensures Valid()
      ensures items == Select(old(strategies), InScope(scopes, scope))
      ensures strategies == Select(old(strategies), NotInScope(scopes, scope))
      ensures subscribed == old(subscribed) - Unused(items, strategies)
      ensures forall s :: s in items ==> (s.eventType in subscribed <==> HasType(strategies, s.eventType))
    {
      items := Select(strategies, InScope(scopes, scope));
      RemoveKeepsValid(strategies, NotInScope(scopes, scope));
      strategies := Select(strategies, NotInScope(scopes, scope));
      RemovedForScopeChange(items);
    }

    // -------------------------------------------------------------------------
    // The event queue
    // -------------------------------------------------------------------------

    /** Queues an event from the bus; a null event is ignored. */
    method OnEvent(event: Option<Event>)
      modifies this`events
      ensures events == old(events) + (if event.Some? then [event.value] else [])
    {
      if event.Some? {
        events := events + [event.value];
      }
    }

    /** The head of the queue, transformed; None right away when the queue is empty. */
    method CheckEvent() returns (r: Option<Event>)
      modifies this`events
      ensures old(events) == [] ==> r.None? && events == []
      ensures old(events) != [] ==> r == Some(Transform(old(events)[0])) && events == old(events)[1..]
    {
      if events == [] {
        return None;
      }
      var queued := events[0];
      events := events[1..];
      r := Some(Transform(queued));
    }

    /**
     * Waits until the queue holds an event, then dequeues and transforms its
     * head. `wakeups` is how each wait on the semaphore ends; an interrupted
     * wait returns None and leaves the queue as it is.
     */
    method WaitEvent(wakeups: seq<Wakeup>) returns (r: Option<Event>)
      requires events != [] || exists k :: 0 <= k < |wakeups| && !wakeups[k].Spurious?
      modifies this`events
      ensures old(events) != [] ==> r == Some(Transform(old(events)[0])) && events == old(events)[1..]
      ensures old(events) == [] ==>
                var k := FirstWake(wakeups);
                match wakeups[k]
                case Interrupted => r.None? && events == []
                case Notified(e) => r == Some(Transform(e)) && events == []
                case Spurious => false
    {
      var i := 0;
      while events == []
        invariant 0 <= i <= |wakeups|
        invariant old(events) != [] ==> i == 0 && events == old(events)
        invariant old(events) == [] && events == [] ==> i <= FirstWake(wakeups)
        invariant old(events) == [] && events != [] ==>
                    i == FirstWake(wakeups) + 1 && wakeups[i - 1].Notified? && events == [wakeups[i - 1].event]
        decreases |wakeups| - i
      {
        match wakeups[i] {
          case Interrupted =>
            return None;
          case Spurious =>
          case Notified(e) =>
            events := events + [e];
        }
        i := i + 1;
      }
      var queued := events[0];
      events := events[1..];
      r := Some(Transform(queued));
    }

    /** Empties the queue. */
    method ClearEvents()
      modifies this`events
      ensures events == []
    {
      events := [];
    }

    // -------------------------------------------------------------------------
    // Dispatch
    // -------------------------------------------------------------------------

    /**
     * Processes one event for `item` (null outside a form item): counts it,
     * narrows the registered strategies through the filter chain, rethrows
     * the event when no candidate is left, and otherwise runs the first
     * survivor; a nomatch that the strategy throws is processed again.
     */
    method ProcessEvent(item: FormItem?, event: Option<Event>, keep: Keep, run: Run, fuel: nat)
      returns (d: Dispatch)
      modifies item
      decreases fuel
      ensures event.None? ==> d == NoEvent && (item != null ==> item.counters == old(item.counters))
      ensures event.Some? ==>
                var spec := DispatchSpec(strategies, keep, run, item, old(CountersOf(item)), event.value, fuel);
                d == spec.0 && (item != null ==> item.counters == spec.1)
    {
      if event.None? {
        return NoEvent;
      }
      var e := event.value;
      ghost var c0 := CountersOf(item);
      if item != null && item.countable {
        item.counters := item.counters[e.EventType() := CountOf(item.counters, e.EventType()) + 1];
      }
      var c := if item == null then map[] else item.counters;
      assert c == Bump(item, c0, e);
      var chain := if item == null then [TypeFilter] else [TypeFilter, ConditionFilter, CountFilter, HighestCountFilter];
      assert chain == Chain(item);
      var matching := strategies;
      for i := 0 to |chain|
        invariant Narrow(keep, chain[..i], e, item, c, strategies) == Some(matching)
      {
        assert chain[..i + 1][..i] == chain[..i];
        matching := ApplyFilter(keep, chain[i], e, item, c, matching);
        if matching == [] {
          assert Narrow(keep, chain[..i + 1], e, item, c, strategies).None?;
          NarrowNoneExtends(keep, chain, i + 1, e, item, c, strategies);
          return Escalated(e, []);
        }
      }
      assert chain[..|chain|] == chain;
      var s := matching[0];
      var thrown := run(s, e);
      if thrown.None? {
        return Done([s]);
      }
      var t := thrown.value;
      if !t.Nomatch? {
        return Propagated(t, [s]);
      }
      if fuel == 0 {
        return OutOfFuel([s]);
      }
      var inner := ProcessEvent(item, Some(t), keep, run, fuel - 1);
      d := Prepend(s, inner);
    }
  }
}
