# JVoiceXML event handling, modelled in Dafny

This project models the event-handling core of the JVoiceXML VoiceXML
interpreter and proves properties of the model:

- **The event handler** (`EventHandler.dfy`, class `JVoiceXmlEventHandler`).
  - It keeps a registry of event strategies. Each strategy is tagged with the scope it was registered in.
  - It keeps the set of event types it is subscribed to on the event bus.
  - It turns `<catch>` elements of documents, dialogs and form items into strategies and adds the default noinput/nomatch/help/cancel strategies.
  - It queues the events the bus delivers, and turns recognition results whose interpretation is "help" or "cancel" into those events.
  - It dispatches one event: the event is counted, a snapshot of the registry is narrowed by the filter chain, and the first survivor runs. A nomatch that survivor throws is dispatched again.
- **The input-item strategy** (`FillGate.dfy`, class `FillContext`). It sets the item variable, marks the item just filled, and runs the `<filled>` elements of the item and then of the dialog. Each element runs behind its all/any gate over its namelist.
- **The catch strategy** (`CatchStrategy.dfy`, class `CatchContext`).
  - For a nomatch it writes `application.lastresult$` first.
  - It then enters the anonymous scope, binds `_event`, runs the children and leaves the scope.
- **The DTMF recognizer properties** (`DtmfProperties.dfy`): defaults, update from a property map, setters and getters, and the string form.
- **The platform reaper** (`Reaper.dfy`). After its wait, unless reaping was stopped, it stops a busy recognizer, cancels busy speech output and hangs up.
- **The `<throw>` strategy** (`ThrowTag.dfy`): which event `execute` throws.
- **The UUID session identifier** (`SessionId.dfy`): its id and string forms, `equals` and `hashCode`.

Shared types live in `Vxml.dfy` (values, recognition results, events, scopes, `<filled>` and catch elements, form items), `Wrappers.dfy` (`Option`, `Result`) and `Sequences.dfy` (order-preserving selection and subsequences).

Collaborators whose code is not part of this model become parameters:

- the event filters become a keep-predicate `Keep`;
- running a strategy becomes `Run`;
- the children of a `<filled>` become `Exec`;
- the children of a catch become `Children`;
- the time parser becomes `TimeParser`;
- attribute evaluation becomes a `Result` per attribute;
- whether a device is busy, and how a wait on a lock ends, become parameters too.

Two facts about the code shape the model:

- **Subscriptions.**
  - `clean` removes an item's strategies without unsubscribing their types (`JVoiceXmlEventHandler.java:400-419`).
  - So a type can stay subscribed after its last strategy is gone, and `JVoiceXmlEventHandler.Valid` states only that every registered type is subscribed.
  - The methods that hand strategies to the unsubscribe step (a removal, a scope exit) state in their contracts which types they unsubscribe.
- **Nomatch re-dispatch.** The code dispatches a nomatch again by recursion, with no bound on the depth (`JVoiceXmlEventHandler.java:574-578`). The model takes a `fuel` bound as a parameter and proves that more fuel changes nothing once a dispatch finishes.

## Model

| member | source | states |
|---|---|---|
| EventHandler.FirstOfType | org.jvoicexml/src/main/java/org/jvoicexml/interpreter/event/JVoiceXmlEventHandler.java:428-436 | no strategy is found exactly when none has the type; a strategy found is registered and has the type |
| EventHandler.FirstOfTypeIsFirst | org.jvoicexml/src/main/java/org/jvoicexml/interpreter/event/JVoiceXmlEventHandler.java:428-436 | the strategy found is the first of its type in registration order |
| EventHandler.JVoiceXmlEventHandler.GetStrategy | org.jvoicexml/src/main/java/org/jvoicexml/interpreter/event/JVoiceXmlEventHandler.java:428-436 | the loop returns the first registered strategy of the type, or none |
| EventHandler.JVoiceXmlEventHandler.ContainsStrategy | org.jvoicexml/src/main/java/org/jvoicexml/interpreter/event/JVoiceXmlEventHandler.java:446-449 | true exactly when some registered strategy has the type |
| EventHandler.JVoiceXmlEventHandler.constructor | org.jvoicexml/src/main/java/org/jvoicexml/interpreter/event/JVoiceXmlEventHandler.java:119-138 | a new handler holds only the hangup strategy, is subscribed to hangup only, and has an empty queue |
| EventHandler.JVoiceXmlEventHandler.AddStrategy | org.jvoicexml/src/main/java/org/jvoicexml/interpreter/event/JVoiceXmlEventHandler.java:369-394 | null or already registered: rejected with no change; otherwise appended, its type subscribed and its scope recorded; no strategy is ever registered twice |
| EventHandler.AddAllExtends | org.jvoicexml/src/main/java/org/jvoicexml/interpreter/event/JVoiceXmlEventHandler.java:369-394 | registering strategies keeps what was registered, as a prefix, and never introduces a duplicate |
| EventHandler.AddAllMembers | org.jvoicexml/src/main/java/org/jvoicexml/interpreter/event/JVoiceXmlEventHandler.java:369-394 | after registration a strategy is registered exactly when it was before or was offered |
| EventHandler.AddAllRegistered | org.jvoicexml/src/main/java/org/jvoicexml/interpreter/event/JVoiceXmlEventHandler.java:377-384 | offering only registered strategies changes nothing |
| EventHandler.AddAllIdempotent | org.jvoicexml/src/main/java/org/jvoicexml/interpreter/event/JVoiceXmlEventHandler.java:287-301 | collecting the same catch strategies twice registers nothing new |
| EventHandler.PerCatchTypes | org.jvoicexml/src/main/java/org/jvoicexml/interpreter/event/JVoiceXmlEventHandler.java:287-301 | a catch yields one strategy per listed event type, or one for `org.jvoicexml.event` when it lists none, all owned by the item |
| EventHandler.JVoiceXmlEventHandler.AddStrategiesForCatch | org.jvoicexml/src/main/java/org/jvoicexml/interpreter/event/JVoiceXmlEventHandler.java:288-300 | the strategies of one catch are registered in order; their types are subscribed; older scopes are kept |
| EventHandler.JVoiceXmlEventHandler.AddStrategiesForCatches | org.jvoicexml/src/main/java/org/jvoicexml/interpreter/event/JVoiceXmlEventHandler.java:281-302 | the strategies of all catches are registered in document order, their types subscribed, in the given scope |
| EventHandler.JVoiceXmlEventHandler.CatchChildrenOf | org.jvoicexml/src/main/java/org/jvoicexml/interpreter/event/JVoiceXmlEventHandler.java:156-167 | the catch elements among the children of `<vxml>`, in order |
| EventHandler.JVoiceXmlEventHandler.CollectDocument | org.jvoicexml/src/main/java/org/jvoicexml/interpreter/event/JVoiceXmlEventHandler.java:153-181 | the document's catches become strategies with no item |
| EventHandler.JVoiceXmlEventHandler.CollectDialog | org.jvoicexml/src/main/java/org/jvoicexml/interpreter/event/JVoiceXmlEventHandler.java:187-201 | the dialog's catches become strategies with no item |
| EventHandler.JVoiceXmlEventHandler.FilterItemCatches | org.jvoicexml/src/main/java/org/jvoicexml/interpreter/event/JVoiceXmlEventHandler.java:250-270 | the loop yields one copy of a catch per listed type that is not `filled` on an initial item |
| EventHandler.FilteredCatchesMembers | org.jvoicexml/src/main/java/org/jvoicexml/interpreter/event/JVoiceXmlEventHandler.java:250-270 | a catch survives the item filter exactly when it lists a type other than `filled` on an initial item |
| EventHandler.CopiesMembers | org.jvoicexml/src/main/java/org/jvoicexml/interpreter/event/JVoiceXmlEventHandler.java:256-267 | the copies of one catch are that catch, present exactly when one of its types is not ignored |
| EventHandler.CatchAllDroppedOnItems | org.jvoicexml/src/main/java/org/jvoicexml/interpreter/event/JVoiceXmlEventHandler.java:255-268 | an item-level catch with no event list is dropped |
| EventHandler.FilledKeptBesideOtherTypes | org.jvoicexml/src/main/java/org/jvoicexml/interpreter/event/JVoiceXmlEventHandler.java:255-268 | a catch listing `filled` and `noinput` on an initial item is kept whole and still yields a `filled` strategy |
| EventHandler.JVoiceXmlEventHandler.AddDefaultIfMissing | org.jvoicexml/src/main/java/org/jvoicexml/interpreter/event/JVoiceXmlEventHandler.java:330-337 | a default strategy for the type is added exactly when the registry has none for it |
| EventHandler.JVoiceXmlEventHandler.AddDefaultStrategies | org.jvoicexml/src/main/java/org/jvoicexml/interpreter/event/JVoiceXmlEventHandler.java:324-363 | the defaults for noinput, nomatch, help and cancel are added in that order, each when its type is missing; the added list is returned |
| EventHandler.DefaultsOnlyMissing | org.jvoicexml/src/main/java/org/jvoicexml/interpreter/event/JVoiceXmlEventHandler.java:324-363 | at most four defaults, each for a default type that had no strategy and owned by the item; every missing default type gets one |
| EventHandler.DefaultsComplete | org.jvoicexml/src/main/java/org/jvoicexml/interpreter/event/JVoiceXmlEventHandler.java:324-363 | after the defaults every default type has a strategy |
| EventHandler.DefaultsIdempotent | org.jvoicexml/src/main/java/org/jvoicexml/interpreter/event/JVoiceXmlEventHandler.java:324-363 | a second round of defaults adds nothing |
| EventHandler.JVoiceXmlEventHandler.CollectItem | org.jvoicexml/src/main/java/org/jvoicexml/interpreter/event/JVoiceXmlEventHandler.java:207-241 | the filtered item catches are registered, then the defaults, then the decorator if new; the added list is the defaults and the decorator; every default type then has a strategy |
| EventHandler.JVoiceXmlEventHandler.AddItemDefaults | org.jvoicexml/src/main/java/org/jvoicexml/interpreter/event/JVoiceXmlEventHandler.java:228-240 | the defaults are registered, then the decorator when it is new; the added list is exactly those; every default type then has a strategy |
| EventHandler.JVoiceXmlEventHandler.Clean | org.jvoicexml/src/main/java/org/jvoicexml/interpreter/event/JVoiceXmlEventHandler.java:400-419 | exactly the strategies of the item are removed, the rest keep their order; subscriptions are untouched |
| EventHandler.UnusedMembers | org.jvoicexml/src/main/java/org/jvoicexml/interpreter/event/JVoiceXmlEventHandler.java:686-695 | a type is dropped from the bus exactly when a removed strategy has it and no remaining strategy does |
| EventHandler.JVoiceXmlEventHandler.MaybeUnsubscribeFromEventBus | org.jvoicexml/src/main/java/org/jvoicexml/interpreter/event/JVoiceXmlEventHandler.java:686-695 | for every type of the given strategies: subscribed afterwards exactly when a remaining strategy has it; nothing else changes |
| EventHandler.JVoiceXmlEventHandler.RemoveStrategies | org.jvoicexml/src/main/java/org/jvoicexml/interpreter/event/JVoiceXmlEventHandler.java:659-668 | null removes nothing; otherwise the given strategies are removed, the result says whether any was registered, and only then are unused types unsubscribed |
| EventHandler.JVoiceXmlEventHandler.RemovedForScopeChange | org.jvoicexml/src/main/java/org/jvoicexml/interpreter/event/JVoiceXmlEventHandler.java:675-678 | the types of the strategies removed with a scope are unsubscribed when no strategy needs them |
| EventHandler.JVoiceXmlEventHandler.ExitScope | org.jvoicexml/src/main/java/org/jvoicexml/interpreter/event/JVoiceXmlEventHandler.java:675-678 | the strategies of the scope are removed in order and handed over; their types are subscribed afterwards exactly when still needed |
| EventHandler.Transform | org.jvoicexml/src/main/java/org/jvoicexml/interpreter/event/JVoiceXmlEventHandler.java:632-653 | only recognition events change: to help or cancel exactly for those interpretations, to a semantic error when interpretation fails |
| EventHandler.JVoiceXmlEventHandler.OnEvent | org.jvoicexml/src/main/java/org/jvoicexml/interpreter/event/JVoiceXmlEventHandler.java:603-616 | a non-null event is appended to the queue; null is ignored |
| EventHandler.JVoiceXmlEventHandler.CheckEvent | org.jvoicexml/src/main/java/org/jvoicexml/interpreter/event/JVoiceXmlEventHandler.java:495-518 | an empty queue gives none; otherwise the head is dequeued and transformed |
| EventHandler.FirstWake | org.jvoicexml/src/main/java/org/jvoicexml/interpreter/event/JVoiceXmlEventHandler.java:460-471 | the first wakeup that is not spurious |
| EventHandler.JVoiceXmlEventHandler.WaitEvent | org.jvoicexml/src/main/java/org/jvoicexml/interpreter/event/JVoiceXmlEventHandler.java:455-489 | a queued head is dequeued and transformed; otherwise the first real wakeup decides: an interrupt gives none, a delivery gives that event transformed |
| EventHandler.JVoiceXmlEventHandler.ClearEvents | org.jvoicexml/src/main/java/org/jvoicexml/interpreter/event/JVoiceXmlEventHandler.java:590-594 | the queue is empty |
| EventHandler.JVoiceXmlEventHandler.ProcessEvent | org.jvoicexml/src/main/java/org/jvoicexml/interpreter/event/JVoiceXmlEventHandler.java:524-584 | null does nothing; otherwise outcome and counters are those of the dispatch specification over the registry |
| EventHandler.NarrowSubseq | org.jvoicexml/src/main/java/org/jvoicexml/interpreter/event/JVoiceXmlEventHandler.java:543-564 | the filter chain only drops candidates and keeps their order |
| EventHandler.NarrowNoneExtends | org.jvoicexml/src/main/java/org/jvoicexml/interpreter/event/JVoiceXmlEventHandler.java:554-564 | once a filter leaves no candidate the chain leaves none |
| EventHandler.DispatchFirstStep | org.jvoicexml/src/main/java/org/jvoicexml/interpreter/event/JVoiceXmlEventHandler.java:554-573 | nothing runs exactly when the chain empties, and then the event itself is rethrown; otherwise the first survivor runs first |
| EventHandler.DispatchRunsRegistered | org.jvoicexml/src/main/java/org/jvoicexml/interpreter/event/JVoiceXmlEventHandler.java:543-578 | every strategy a dispatch runs is registered |
| EventHandler.DispatchOutcomeEvents | org.jvoicexml/src/main/java/org/jvoicexml/interpreter/event/JVoiceXmlEventHandler.java:554-578 | a rethrown event is the dispatched one or a nomatch; a propagated one is never a nomatch |
| EventHandler.DispatchCounters | org.jvoicexml/src/main/java/org/jvoicexml/interpreter/event/JVoiceXmlEventHandler.java:533-536 | only an event-countable item's counters change, and never decrease; each dispatch level counts its event once: the first level the dispatched event's type, every re-dispatch a nomatch; no other type's count changes |
| EventHandler.DispatchFuelMonotone | org.jvoicexml/src/main/java/org/jvoicexml/interpreter/event/JVoiceXmlEventHandler.java:574-578 | a dispatch that finishes within its bound is unchanged by a larger bound |
| EventHandler.DispatchRanBound | org.jvoicexml/src/main/java/org/jvoicexml/interpreter/event/JVoiceXmlEventHandler.java:566-578 | at most fuel + 1 strategies run, the number of dispatch levels the bound allows |
| FillGate.AllFilled | org.jvoicexml/src/main/java/org/jvoicexml/interpreter/event/AbstractInputItemEventStrategy.java:197-215 | a failure names an undeclared token of the list |
| FillGate.AnyFilled | org.jvoicexml/src/main/java/org/jvoicexml/interpreter/event/AbstractInputItemEventStrategy.java:229-246 | a failure names an undeclared token of the list |
| FillGate.AllFilledIff | org.jvoicexml/src/main/java/org/jvoicexml/interpreter/event/AbstractInputItemEventStrategy.java:197-215 | all-mode succeeds exactly when every token is declared and neither null nor undefined |
| FillGate.GatesOverDeclared | org.jvoicexml/src/main/java/org/jvoicexml/interpreter/event/AbstractInputItemEventStrategy.java:197-246 | over declared tokens: all-mode is "every token defined", any-mode is "some token defined" |
| FillGate.AnyFilledWitness | org.jvoicexml/src/main/java/org/jvoicexml/interpreter/event/AbstractInputItemEventStrategy.java:229-246 | any-mode succeeds only with a declared, defined token |
| FillGate.AllImpliesAny | org.jvoicexml/src/main/java/org/jvoicexml/interpreter/event/AbstractInputItemEventStrategy.java:197-246 | on a non-empty list all-filled implies any-filled |
| FillGate.InputNamesMembers | org.jvoicexml/src/main/java/org/jvoicexml/interpreter/event/AbstractInputItemEventStrategy.java:169-176 | an empty namelist stands for the names of exactly the form's input items |
| FillGate.GateMeaning | org.jvoicexml/src/main/java/org/jvoicexml/interpreter/event/AbstractInputItemEventStrategy.java:158-183 | a `<filled>` outside a form always runs; in a form it runs by its mode over its tokens |
| FillGate.FillContext.AreAllFilled | org.jvoicexml/src/main/java/org/jvoicexml/interpreter/event/AbstractInputItemEventStrategy.java:197-215 | the loop computes the all-mode gate |
| FillGate.FillContext.IsAnyFilled | org.jvoicexml/src/main/java/org/jvoicexml/interpreter/event/AbstractInputItemEventStrategy.java:229-246 | the loop computes the any-mode gate |
| FillGate.FillContext.ShouldExecute | org.jvoicexml/src/main/java/org/jvoicexml/interpreter/event/AbstractInputItemEventStrategy.java:158-183 | the gate of one `<filled>`, its empty namelist filled with the input-item names |
| FillGate.FillContext.SetResult | org.jvoicexml/src/main/java/org/jvoicexml/interpreter/event/AbstractInputItemEventStrategy.java:260-273 | the item variable takes the result; the item is marked just filled when there is a FIA |
| FillGate.RunFilledInOrder | org.jvoicexml/src/main/java/org/jvoicexml/interpreter/event/AbstractInputItemEventStrategy.java:134-141 | the `<filled>` elements run are a subsequence of the list, in list order |
| FillGate.RunFilledStops | org.jvoicexml/src/main/java/org/jvoicexml/interpreter/event/AbstractInputItemEventStrategy.java:134-141 | once an element throws, later elements neither run nor change anything |
| FillGate.RunFilledAll | org.jvoicexml/src/main/java/org/jvoicexml/interpreter/event/AbstractInputItemEventStrategy.java:134-141 | outside a form, with children that never throw, every element runs once, in order |
| FillGate.FillContext.ExecuteFilled | org.jvoicexml/src/main/java/org/jvoicexml/interpreter/event/AbstractInputItemEventStrategy.java:134-141 | the loop leaves the variables, the record of elements run and the thrown event of the run specification |
| FillGate.FillContext.Process | org.jvoicexml/src/main/java/org/jvoicexml/interpreter/event/AbstractInputItemEventStrategy.java:98-145 | stopped or failed handling changes nothing; a non-input event fails the cast; with no FIA only the variable is set; otherwise the item and then the dialog `<filled>` elements run |
| CatchStrategy.CatchBalanced | org.jvoicexml/src/main/java/org/jvoicexml/interpreter/event/CatchEventStrategy.java:103-120 | the anonymous scope is left on every path that enters the children, whatever they throw; only a failing `_event` creation leaves it entered |
| CatchStrategy.CatchOrder | org.jvoicexml/src/main/java/org/jvoicexml/interpreter/event/CatchEventStrategy.java:86-121 | `lastresult$` is written exactly for a nomatch with a FIA, and first; the children run exactly when the catch gets that far, right after `_event` is created |
| CatchStrategy.CatchContext.SetApplicationLastResult | org.jvoicexml/src/main/java/org/jvoicexml/interpreter/event/CatchEventStrategy.java:132-154 | the array becomes `LastResultAfter` of the old array and the application `ApplicationAfter` of the old variables: one entry with confidence, utterance and mode, then the interpretation, then the four flat copies; a failing interpretation stops after the mode and returns its error |
| CatchStrategy.LastResultFields | org.jvoicexml/src/main/java/org/jvoicexml/interpreter/event/CatchEventStrategy.java:137-145 | one entry holding the result's confidence, utterance and mode, and its interpretation exactly when that succeeds; other fields of the old first entry are kept |
| CatchStrategy.ApplicationFields | org.jvoicexml/src/main/java/org/jvoicexml/interpreter/event/CatchEventStrategy.java:146-153 | the four flat copies are set exactly when the interpretation succeeds, and no other application variable changes |
| CatchStrategy.CatchContext.RunInAnonymousScope | org.jvoicexml/src/main/java/org/jvoicexml/interpreter/event/CatchEventStrategy.java:102-120 | the anonymous scope is entered with `_event` bound to the event name; after the children it is left again, the stacks as before, whatever the children throw; a failing `_event` creation leaves it entered |
| CatchStrategy.CatchContext.Process | org.jvoicexml/src/main/java/org/jvoicexml/interpreter/event/CatchEventStrategy.java:86-121 | the steps and the thrown event are those of the trace specification; the scope stack only grows by the anonymous scope; no lastresult change unless a nomatch with a FIA, and after one the array and the flat copies are those `SetApplicationLastResult` writes |
| DtmfProperties.DtmfRecognizerProperties.constructor | org.jvoicexml/src/main/java/org/jvoicexml/DtmfRecognizerProperties.java:87-92 | termchar '#', timeout 30000, inter-digit timeout 3000, term timeout the parse of "0s" |
| DtmfProperties.DtmfRecognizerProperties.SetProperties | org.jvoicexml/src/main/java/org/jvoicexml/DtmfRecognizerProperties.java:99-114 | each of the three keys sets its field when present; termchar only from a non-empty value, its first character; timeout never changes |
| DtmfProperties.DtmfRecognizerProperties.SetInterdigittimeout | org.jvoicexml/src/main/java/org/jvoicexml/DtmfRecognizerProperties.java:129-141 | the getter returns the parsed value |
| DtmfProperties.DtmfRecognizerProperties.SetTermtimeout | org.jvoicexml/src/main/java/org/jvoicexml/DtmfRecognizerProperties.java:147-158 | the getter returns the parsed value |
| DtmfProperties.DtmfRecognizerProperties.SetTermchar | org.jvoicexml/src/main/java/org/jvoicexml/DtmfRecognizerProperties.java:165-175 | the getter returns the character set |
| DtmfProperties.DtmfRecognizerProperties.SetTimeout | org.jvoicexml/src/main/java/org/jvoicexml/DtmfRecognizerProperties.java:182-194 | the getter returns the parsed value |
| DtmfProperties.DtmfRecognizerProperties.SetTimeoutMsec | org.jvoicexml/src/main/java/org/jvoicexml/DtmfRecognizerProperties.java:182-203 | the getter returns the milliseconds set |
| DtmfProperties.DtmfRecognizerProperties.ToString | org.jvoicexml/src/main/java/org/jvoicexml/DtmfRecognizerProperties.java:212-235 | the string starts with the class name and ends with "]" |
| DtmfProperties.DecimalRoundTrip | org.jvoicexml/src/main/java/org/jvoicexml/DtmfRecognizerProperties.java:219-227 | a number rendered in decimal reads back as itself |
| DtmfProperties.DescribeInjective | org.jvoicexml/src/main/java/org/jvoicexml/DtmfRecognizerProperties.java:212-235 | the string form determines all four properties |
| DtmfProperties.ToStringDeterminesProperties | org.jvoicexml/src/main/java/org/jvoicexml/DtmfRecognizerProperties.java:212-235 | two bags of one class render alike exactly when their four properties agree |
| Reaper.ImplementationPlatformReaper.constructor | org.jvoicexml/src/main/java/org/jvoicexml/implementation/jvxml/ImplementationPlatformReaper.java:66-86 | input and output are absent when the user input or system output is; the delay is 120000 ms; not stopped |
| Reaper.ImplementationPlatformReaper.SetReapingDelay | org.jvoicexml/src/main/java/org/jvoicexml/implementation/jvxml/ImplementationPlatformReaper.java:93-95 | the delay is the one given |
| Reaper.ImplementationPlatformReaper.Run | org.jvoicexml/src/main/java/org/jvoicexml/implementation/jvxml/ImplementationPlatformReaper.java:101-116 | the calls made are those of a forced return when the wait woke up and reaping is not stopped, otherwise none |
| Reaper.ImplementationPlatformReaper.ForceReturnResources | org.jvoicexml/src/main/java/org/jvoicexml/implementation/jvxml/ImplementationPlatformReaper.java:123-137 | the calls made are those of a forced return, whether or not cancelling fails |
| Reaper.ImplementationPlatformReaper.StopReaping | org.jvoicexml/src/main/java/org/jvoicexml/implementation/jvxml/ImplementationPlatformReaper.java:142-148 | reaping is stopped |
| Reaper.ForcedCallsShape | org.jvoicexml/src/main/java/org/jvoicexml/implementation/jvxml/ImplementationPlatformReaper.java:123-137 | one hangup, last; a stop only for a present busy input, first; one SPEECH cancel only for a present busy output; never another barge-in type |
| Reaper.RunCallsQuiet | org.jvoicexml/src/main/java/org/jvoicexml/implementation/jvxml/ImplementationPlatformReaper.java:106-113 | a run makes no call exactly when reaping was stopped or the wait was interrupted |
| ThrowTag.GetEvalAttributes | org.jvoicexml.profile.vxml21/src/main/java/org/jvoicexml/profile/vxml21/tagstrategy/ThrowStrategy.java:56-61 | exactly `eventexpr` then `messageexpr`; the plain attributes are not evaluated |
| ThrowTag.ThrowStrategy.ValidateAttributes | org.jvoicexml.profile.vxml21/src/main/java/org/jvoicexml/profile/vxml21/tagstrategy/ThrowStrategy.java:86-91 | the event name is stored, then the optional message; an error stops before the field it would set |
| ThrowTag.ThrownAsWritten | org.jvoicexml.profile.vxml21/src/main/java/org/jvoicexml/profile/vxml21/tagstrategy/ThrowStrategy.java:106-110 | as written: a generic event of the validated name, never carrying a message |
| ThrowTag.Thrown | org.jvoicexml.profile.vxml21/src/main/java/org/jvoicexml/profile/vxml21/tagstrategy/ThrowStrategy.java:106-110 | corrected: a generic event whose type is the validated name |
| ThrowTag.ThrowStrategy.Execute | org.jvoicexml.profile.vxml21/src/main/java/org/jvoicexml/profile/vxml21/tagstrategy/ThrowStrategy.java:98-112 | always throws a generic event of the validated name, with no message |
| ThrowTag.MessageLost | org.jvoicexml.profile.vxml21/src/main/java/org/jvoicexml/profile/vxml21/tagstrategy/ThrowStrategy.java:106-110 | a `<throw>` with a message loses it |
| ThrowTag.ThrownCarriesMessage | org.jvoicexml.profile.vxml21/src/main/java/org/jvoicexml/profile/vxml21/tagstrategy/ThrowStrategy.java:106-110 | corrected: the thrown event carries exactly the specified message |
| ThrowTag.ThrowStrategy.ExecuteCorrected | org.jvoicexml.profile.vxml21/src/main/java/org/jvoicexml/profile/vxml21/tagstrategy/ThrowStrategy.java:106-110 | corrected: a generic event of the validated name carrying the message |
| SessionId.GetId | org.jvoicexml/src/main/java/org/jvoicexml/UuidSessionIdentifier.java:49-51 | 36 characters with dashes after the 8th, 12th, 16th and 20th digit |
| SessionId.GetIdInjective | org.jvoicexml/src/main/java/org/jvoicexml/UuidSessionIdentifier.java:49-51 | two ids are equal exactly when the UUIDs are |
| SessionId.ToString | org.jvoicexml/src/main/java/org/jvoicexml/UuidSessionIdentifier.java:57-64 | the canonical class name, "[", the 36-character id, "]" |
| SessionId.ToStringInjective | org.jvoicexml/src/main/java/org/jvoicexml/UuidSessionIdentifier.java:57-64 | two string forms are equal exactly when the UUIDs are |
| SessionId.Equals | org.jvoicexml/src/main/java/org/jvoicexml/UuidSessionIdentifier.java:78-90 | the same reference is equal; an identifier with the same UUID is equal; nothing else is equal but an identifier or the same reference |
| SessionId.EqualsMeaning | org.jvoicexml/src/main/java/org/jvoicexml/UuidSessionIdentifier.java:78-90 | equal exactly to an identifier with the same UUID: same reference, null and other classes are decided first |
| SessionId.EqualsReflexive | org.jvoicexml/src/main/java/org/jvoicexml/UuidSessionIdentifier.java:79-84 | an identifier equals itself and not null |
| SessionId.EqualsSymmetric | org.jvoicexml/src/main/java/org/jvoicexml/UuidSessionIdentifier.java:78-90 | equality is symmetric |
| SessionId.EqualsTransitive | org.jvoicexml/src/main/java/org/jvoicexml/UuidSessionIdentifier.java:78-90 | equality is transitive |
| SessionId.EqualsAgreesWithHashAndString | org.jvoicexml/src/main/java/org/jvoicexml/UuidSessionIdentifier.java:70-90 | equal identifiers have equal hashes and string forms |
| SessionId.HashCode | org.jvoicexml/src/main/java/org/jvoicexml/UuidSessionIdentifier.java:70-72 | 31 plus `UUID.hashCode` of the UUID's two longs, in 32-bit arithmetic, as `Objects.hash` of the one UUID gives |
| SessionId.HashOfOne | org.jvoicexml/src/main/java/org/jvoicexml/UuidSessionIdentifier.java:70-72 | the hash is 31 plus the UUID's own hash: the UUID 0…01 hashes to 32 |

## Left out

- Threads and locks: the semaphore of the event queue, the `synchronized` blocks, `notify`, the reaper's thread, its `setDaemon` and the timed `lock.wait`. An interleaving of producers and the dispatcher is not modelled. A wait is modelled by how it ends (`Wakeup`, `WaitOutcome`).
- The event bus: it is a set of subscribed types. There is no listener list and no count of subscriptions.
- The event counter: `EventCountable.incrementEventCounter` is not part of this model. `Bump` takes it to add one to the counter of the event's own type and to change no other counter. The exact counts of `DispatchCounters` rest on that.
- The event filters: their decisions come from `Keep`, so nothing is proved about which strategy a filter prefers. `Chain` records only which filters run, in which order.
- The scoped collection: each strategy's scope is recorded when it is registered. `ExitScope` performs the removal the collection does when a scope is left. `ScopedCollection` is not part of this model; the registry is a sequence, taken to iterate in registration order, never to reorder, and to hold each strategy at most once. `FirstOfTypeIsFirst`, `DispatchFirstStep` and the order in which `Clean` selects strategies rest on that.
- Strategy identity: two strategies are the same when their kind, event type and item agree. `AbstractEventStrategy.equals` is not part of this model.
- Strategies' own effects: running a strategy comes from `Run` and yields only the event it throws, if any.
- The nomatch re-dispatch: the source does not bound its depth. `ProcessEvent` and `DispatchSpec` take a `fuel` bound and end in `OutOfFuel` when it runs out.
- The data model:
  - Undeclared variables are the keys missing from a map. Reading one fails with a semantic error.
  - Setting the form item variable cannot fail.
  - Scopes are a stack of maps.
  - Creating `_event` fails only as the `createFails` parameter says.
- CatchStrategy.CatchContext.SetApplicationLastResult: the data-model writes of `lastresult$` are taken never to fail: resizing and reading the array, creating its four fields, updating it, and creating the four flat copies. In the source each can throw a semantic error; only a failing interpretation is modelled.
  - A failing interpretation leaves the partly written `lastresult$` entry in place: the entry read from the array is taken to be the array's own object.
- Input events: the input result exists only for recognition events. Other kinds of input event are not modelled.
- The children of `<filled>`: their effects come from `Exec`.
- The children of `<catch>`: `Children` yields only the event they throw, if any. Their effects on the data model are not modelled.
- DtmfProperties:
  - `TimeParser` is not part of this model. It is a parameter.
  - Subclasses' extra properties and their string form are not modelled; both hooks are empty here.
  - The class name in the string form is a constructor parameter.
- DtmfProperties.DtmfRecognizerProperties.SetProperties: the terminating character is the first character of the value as a Dafny string, a Unicode scalar value. Java's `charAt(0)` takes the first UTF-16 code unit, which differs when the value starts with a character outside the Basic Multilingual Plane.
- Reaper.ImplementationPlatformReaper.SetReapingDelay: the delay is stored as a Java `long`, but no wait uses it, since the timed wait is modelled only by how it ends. In the source, `lock.wait` with a negative delay throws `IllegalArgumentException` out of `run`, which ends the thread with no calls, as `Interrupted` does here. A delay of 0 waits until notified. Neither case is tied to the delay here: the `WaitOutcome` parameter says how the wait ends.
- Reaper.ImplementationPlatformReaper.ForceReturnResources: the log entry for a failed cancel is not modelled. The call is recorded whether or not it fails.
- ThrowTag.ThrowStrategy.ValidateAttributes: the lookups of each attribute and its `…expr` alternative are not part of this model. Their outcome is a parameter.
- ThrowTag.ThrowStrategy.Execute: requires a validated event name. A null name before validation is not modelled.
- SessionId:
  - `UUID.randomUUID` and its randomness are not modelled; a UUID is 32 hexadecimal digits.
  - Its version and variant bits are not constrained.
  - References are compared by their `ref` number. `Equals` itself needs nothing of the heap; the lemmas about it assume a consistent heap, one where a reference denotes one object.

## Findings

| source | as written | input that shows it | evidently intended | confidence | as-written member | corrected member |
|---|---|---|---|---|---|---|
| org.jvoicexml.profile.vxml21/src/main/java/org/jvoicexml/profile/vxml21/tagstrategy/ThrowStrategy.java:106-110 | when a message is present the event is thrown without it; when absent it is thrown with the (null) message | `<throw event="com.example.fail" message="detail"/>` throws an event with no message | attach the message when there is one | not executed | ThrowTag.ThrownAsWritten, ThrowTag.MessageLost | ThrowTag.Thrown, ThrowTag.ThrownCarriesMessage |
