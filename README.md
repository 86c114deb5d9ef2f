# Aggregator: event dispatch and command-processor notification hooks

This project models two pieces of the Aggregator CQRS framework in Dafny and proves properties about them.

- **The event dispatcher** (`EventDispatcher<TEventBase>.Dispatch`), in `event_dispatcher.dfy`. It is given a batch of events. It opens one resolution scope and resolves the handler collection of each distinct exact event type once. It then calls every handler of an event's type with that very event, in batch order, and disposes the scope however the call ends. A null or empty batch does nothing. A dispatcher cannot be built without a scope factory. The dispatcher's own source is not part of this model. The model follows its test fixture (`EventDispatcherTests`). Where the fixture is silent, the model makes its own choices; "## Left out" lists them.
  - The scope is abstracted as a map from an exact type to the handler identifiers registered for it.
  - Events are pairs of an exact type and an instance identity.
  - The `EventDispatcher` class counts the scopes it creates and disposes. It logs each type it resolves and each `(handler, batch position, event)` call it makes. The fixture's mocks observe these same things.
  - `Dispatch` works in two phases, resolving and then invoking. Both phases are loops with invariants. Its contract ties the new state to specification functions:
    - `DistinctTypes`: the types resolved, in order of first occurrence;
    - `Expected`: the calls due;
    - `Performed`: the calls made when a handler throws;
    - `Verdict`: how the call ends.
  - Lemmas about those functions give the exactly-once and exact-type routing properties.
- **The notification hooks** (`CommandProcessorNotificationHandlers`), in `notification_handlers.dfy`.
  - The two settable callback properties are `Option`-valued fields of a class.
  - `OnPrepareContext` is a method that changes the command handling context only through the callback.
  - `OnEnrichEvent` is a function that returns the callback's result, or the event itself when the callback is unset.
  - `EnrichAll` lifts enrichment to a batch of events, keeping length and order.
  - The aggregate-identifier type carries Dafny's equality characteristic `(==)`, matching the `IEquatable<TIdentifier>` constraint.

`wrappers.dfy` holds `Option` (a null reference) and `Result` (an exception at construction).

When no handler throws, every pair of an event and one of its type's handlers is called exactly once, provided no handler identifier is listed twice for a type. `ExactlyOnce` states this for the calls due. `CompletedExactlyOnce` states it for the calls made. `DispatchCallsEachHandlerOnce` states it on the dispatcher's own call log after a completed `Dispatch`. After a handler throws, the calls due later are not made. In general, a call is due as often as the handler is listed for the event's type (`InvocationCount`). A handler listed twice is called twice.

## Model

| member | source | states |
|---|---|---|
| `EventDispatch.EventDispatcher.Create` | tests/Aggregator.Tests/Event/EventDispatcherTests.cs:41-42 | construction fails exactly when the scope factory is null, with an argument-null error naming `serviceScopeFactory`; otherwise a fresh dispatcher with no scope open and empty logs |
| `EventDispatch.ConstructWithoutFactory` | tests/Aggregator.Tests/Event/EventDispatcherTests.cs:37-43 | building a dispatcher from a null factory yields `ArgumentNullException("serviceScopeFactory")` |
| `EventDispatch.EventDispatcher.Dispatch` | tests/Aggregator.Tests/Event/EventDispatcherTests.cs:56-87 | per call, one scope is created and one disposed for a non-empty batch, and none for a null or empty one, also when a handler throws; the resolved types are the batch's distinct types; the calls made are the calls due, up to and including the first that throws; the outcome names that call or is `Completed` |
| `EventDispatch.EventDispatcher.ResolveAll` | tests/Aggregator.Tests/Event/EventDispatcherTests.cs:101-102 | the first phase resolves exactly the batch's distinct types, each once, and every event's type is then in the cache with the collection registered for exactly that type |
| `EventDispatch.EventDispatcher.InvokeAll` | tests/Aggregator.Tests/Event/EventDispatcherTests.cs:103-105 | the second phase makes the calls due, in batch order, stopping after the first that throws, and reports that call |
| `EventDispatch.DistinctTypes` | tests/Aggregator.Tests/Event/EventDispatcherTests.cs:117-121 | the types resolved for a batch have no duplicates and are exactly the types present in the batch |
| `EventDispatch.ResolvedExactlyOnce` | tests/Aggregator.Tests/Event/EventDispatcherTests.cs:101-102 | a type present in the batch is resolved exactly once and any other type never |
| `EventDispatch.ExpectedRouting` | tests/Aggregator.Tests/Event/EventDispatcherTests.cs:28-34 | every call pairs a handler with the batch event at the call's position, and the handler is registered for exactly that event's type |
| `EventDispatch.ExpectedInBatchOrder` | tests/Aggregator.Tests/Event/EventDispatcherTests.cs:117 | calls follow the batch order: no call for a later event comes before a call for an earlier one |
| `EventDispatch.InvocationCount` | tests/Aggregator.Tests/Event/EventDispatcherTests.cs:122-125 | a call `(h, i, e)` occurs exactly as often as `h` is listed for `e`'s type when `e` is the event at position `i`, and never otherwise |
| `EventDispatch.ExactlyOnce` | tests/Aggregator.Tests/Event/EventDispatcherTests.cs:122-125 | with no handler listed twice for a type, among the calls due each handler of an event's type is paired with that very instance exactly once, whatever the batch order, and any other handler never |
| `EventDispatch.ExactTypeRouting` | tests/Aggregator.Tests/Event/EventDispatcherTests.cs:103 | a handler registered for one type only is never called with an event of another type |
| `EventDispatch.UnregisteredTypeSkipped` | tests/Aggregator.Tests/Event/EventDispatcherTests.cs:29-34 | an event whose type has no handler causes no call |
| `EventDispatch.FaultAtMeaning` | tests/Aggregator.Tests/Event/EventDispatcherTests.cs:84-87 | the first fault position is within the run, no call before it throws, and the call at it throws |
| `EventDispatch.PerformedMeaning` | tests/Aggregator.Tests/Event/EventDispatcherTests.cs:84-87 | the calls made are a prefix of the calls due; only the last may have thrown; when none throws, all are made, and the outcome is `Completed` exactly then |
| `EventDispatch.CompletedExactlyOnce` | tests/Aggregator.Tests/Event/EventDispatcherTests.cs:122-125 | when no handler throws and none is listed twice for a type, each handler of an event's type is called with that instance exactly once among the calls made, and any other handler never |
| `EventDispatch.DispatchCallsEachHandlerOnce` | tests/Aggregator.Tests/Event/EventDispatcherTests.cs:117-125 | after a `Dispatch` that completes, the dispatcher's call log holds each handler of an event's type with that instance exactly once, and no other handler with it |
| `EventDispatch.PerformedAtMostOnce` | tests/Aggregator.Tests/Event/EventDispatcherTests.cs:122-125 | when a handler throws, no call is made more often than it is due |
| `EventDispatch.DispatchNullOrEmpty` | tests/Aggregator.Tests/Event/EventDispatcherTests.cs:46-54 | dispatching a null and then an empty batch completes both times and creates no scope, resolves nothing and calls nothing |
| `EventDispatch.DispatchCreatesAndDisposesScope` | tests/Aggregator.Tests/Event/EventDispatcherTests.cs:57-87 | a one-event batch creates exactly one scope and disposes it exactly once |
| `EventDispatch.DispatchSingleEvent` | tests/Aggregator.Tests/Event/EventDispatcherTests.cs:91-105 | for a single EventB only EventB's collection is resolved, and only its handler is called, once, with that instance |
| `EventDispatch.DispatchMultipleEvents` | tests/Aggregator.Tests/Event/EventDispatcherTests.cs:109-125 | for `[eventB, eventA]` each type is resolved once and each handler is called once with its own instance |
| `CommandNotifications.CommandProcessorNotificationHandlers.constructor` | src/Aggregator/Command/CommandProcessorNotificationHandlers.cs:25-38 | both callbacks start out unset |
| `CommandNotifications.CommandProcessorNotificationHandlers.SetPrepareContext` | src/Aggregator/Command/CommandProcessorNotificationHandlers.cs:25 | assigning `PrepareContext` replaces the callback later calls use |
| `CommandNotifications.CommandProcessorNotificationHandlers.SetEnrichEvent` | src/Aggregator/Command/CommandProcessorNotificationHandlers.cs:38 | assigning `EnrichEvent` replaces the callback later calls use |
| `CommandNotifications.CommandProcessorNotificationHandlers.OnPrepareContext` | src/Aggregator/Command/CommandProcessorNotificationHandlers.cs:32-33 | unset, the context is left unchanged; set, the context holds what one call of the callback with this command and context leaves |
| `CommandNotifications.CommandProcessorNotificationHandlers.OnEnrichEvent` | src/Aggregator/Command/CommandProcessorNotificationHandlers.cs:47-48 | unset, the event is returned unchanged; set, exactly the callback's result for (event, command, context) |
| `CommandNotifications.CommandProcessorNotificationHandlers.EnrichAll` | src/Aggregator/Command/CommandProcessorNotificationHandlers.cs:36-48 | enriching a batch event by event keeps its length and order, each position holding that event's enrichment |
| `CommandNotifications.EnrichAllUnsetIsIdentity` | src/Aggregator/Command/CommandProcessorNotificationHandlers.cs:47-48 | with the hook unset, a batch comes back unchanged |
| `CommandNotifications.EnrichAllSetIsMap` | src/Aggregator/Command/CommandProcessorNotificationHandlers.cs:48 | with the hook set, each position holds the callback's result for that event |
| `CommandNotifications.EnrichAllAppend` | src/Aggregator/Command/CommandProcessorNotificationHandlers.cs:36 | enriching two parts of a batch separately and joining them gives the enriched batch |
| `CommandNotifications.EnrichAfterReassignment` | src/Aggregator/Command/CommandProcessorNotificationHandlers.cs:38-48 | unset, enrichment returns the event; after assigning one callback and then another, each call uses the callback assigned last |
| `CommandNotifications.PrepareFreshContext` | src/Aggregator/Command/CommandProcessorNotificationHandlers.cs:25-33 | a freshly created context stays empty through `OnPrepareContext` with the hook unset, and holds the callback's result with it set |

## Left out

- Cancellation tokens are not modelled. `Dispatch` hands its token to every handler call, and nothing in the dispatcher decides anything by it.
- `Task`, `await` and asynchrony are not modelled. Calls are sequential and synchronous.
- The dependency-injection container is not modelled: `IServiceScopeFactory`, `IServiceScope`, `GetService` and the reflection that builds `IEnumerable<IEventHandler<T>>`. A scope is the map from exact type to handler identifiers, and `CreateScope`/`Dispose` are counters.
- Handler behaviour is not modelled. A handler is an identifier. A parameter `throws` says which calls raise an exception. Everything else a handler does is left out.
- The `EventDispatcher` source file is not part of this model. Two behaviours are this model's own choices. The test fixture neither confirms nor rules them out:
  - all types are resolved before any handler is called;
  - a handler exception ends the call after the scope is disposed.
- Exceptions raised by the `PrepareContext` or `EnrichEvent` callbacks are not modelled. Callbacks are total functions.
- OnPrepareContext: the callback is modelled as a function from (command, context contents) to new context contents. A callback with other side effects, or one that keeps a reference to the context, is not captured.
- The `CommandHandlingContext` type is not part of this model. Its contents are a map from keys to opaque values.
- Subclass overrides of the `virtual` `OnPrepareContext` are not modelled.
- The command processor pipeline is not modelled: aggregate repository, unit of work, event store and the order of their steps. Its sources are not part of this model. `EnrichAll` has no store or dispatch step, so it says nothing about when enrichment happens relative to them. It states only that a batch enriched event by event, with one command and one context, keeps its length and order, and that each position holds `OnEnrichEvent` of that event.
- OnEnrichEvent / EnrichAll: the `EnrichEvent` callback is modelled as a function of the context's contents, not of the context object. It cannot change the context. So every event of a batch is enriched against the same contents. A C# callback gets the context by reference and could write to it between events; that is not captured.
- Concurrent `Dispatch` or `Process` calls are not modelled.
