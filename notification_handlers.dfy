/**
  The notification hooks the command processor calls: `PrepareContext`, run
  right after the command handling context is created, and `EnrichEvent`, run
  on each event after it is taken from the unit of work and before it is
  stored and dispatched. Either hook may be unset: preparing then does
  nothing, and enriching returns the event unchanged.
*/
module CommandNotifications {
  import opened Wrappers

  /** A value stored in the command handling context; only its identity matters here. */
  type ContextValue

  /** The contents of a command handling context: values by key. */
  type ContextItems = map<string, ContextValue>

  /** `CommandHandlingContext`: one per processed command, passed by reference to both hooks. */
  class CommandHandlingContext {
    var items: ContextItems

    constructor ()
      ensures items == map[]
    {
      items := map[];
    }
  }

  /** The `PrepareContext` callback: the context contents it leaves, given the command and the contents it finds. */
  type PrepareCallback<-TCommand> = (TCommand, ContextItems) -> ContextItems

  /** The `EnrichEvent` callback: the event to use in place of the given one. */
  type EnrichCallback<!TEvent, -TCommand> = (TEvent, TCommand, ContextItems) -> TEvent

  /**
    `CommandProcessorNotificationHandlers<TIdentifier, TCommandBase, TEventBase>`.
    The aggregate identifier type must support equality; this is a constraint
    on the type argument, checked when the type is instantiated, not at run time.
  */
  class CommandProcessorNotificationHandlers<TIdentifier(==), TCommand, TEvent> {
    /** The settable `PrepareContext` property; `None` stands for null. */
    var prepareContext: Option<PrepareCallback<TCommand>>
    /** The settable `EnrichEvent` property; `None` stands for null. */
    var enrichEvent: Option<EnrichCallback<TEvent, TCommand>>

    /** Both callbacks start out unset. */
    constructor ()
      ensures prepareContext == None && enrichEvent == None
    {
      prepareContext := None;
      enrichEvent := None;
    }

    /** The `PrepareContext` setter: later calls of `OnPrepareContext` use `callback`. */
    method SetPrepareContext(callback: Option<PrepareCallback<TCommand>>)
      modifies this`prepareContext
      ensures prepareContext == callback
    {
      prepareContext := callback;
    }

    /** The `EnrichEvent` setter: later calls of `OnEnrichEvent` use `callback`. */
    method SetEnrichEvent(callback: Option<EnrichCallback<TEvent, TCommand>>)
      modifies this`enrichEvent
      ensures enrichEvent == callback
    {
      enrichEvent := callback;
    }

    /**
      Invokes `PrepareContext` once with the command and the context, if it is
      set; otherwise the context is left as it is.
    */
    method OnPrepareContext(command: TCommand, context: CommandHandlingContext)
      modifies context
      ensures prepareContext.None? ==> context.items == old(context.items)
      ensures prepareContext.Some? ==> context.items == prepareContext.value(command, old(context.items))
    {
      match prepareContext
      case None =>
      case Some(prepare) =>
        context.items := prepare(command, context.items);
    }

    /**
      The event to store and dispatch in place of `event`: the result of
      `EnrichEvent` if it is set, otherwise `event` itself.
    */
    function OnEnrichEvent(event: TEvent, command: TCommand, context: CommandHandlingContext): (r: TEvent)
      reads this, context
      ensures enrichEvent.None? ==> r == event
      ensures enrichEvent.Some? ==> r == enrichEvent.value(event, command, context.items)
    {
      if enrichEvent.Some? then enrichEvent.value(event, command, context.items) else event
    }

    /**
      The events taken from the unit of work, each enriched in turn with the
      same command and context, before any of them is stored or dispatched:
      the batch keeps its length and its order.
    */
    function EnrichAll(events: seq<TEvent>, command: TCommand, context: CommandHandlingContext): (r: seq<TEvent>)
      reads this, context
      ensures |r| == |events|
      ensures forall i :: 0 <= i < |events| ==> r[i] == OnEnrichEvent(events[i], command, context)
    {
      if events == [] then []
      else EnrichAll(events[..|events| - 1], command, context) + [OnEnrichEvent(events[|events| - 1], command, context)]
    }
  }

  /** The non-generic `CommandProcessorNotificationHandlers`: string identifiers, commands and events of any kind. */
  type DefaultNotificationHandlers = CommandProcessorNotificationHandlers<string, object, object>

  /** With `EnrichEvent` unset, enriching a batch returns it unchanged. */
  lemma EnrichAllUnsetIsIdentity<TId, TCommand, TEvent>(
    handlers: CommandProcessorNotificationHandlers<TId, TCommand, TEvent>,
    events: seq<TEvent>, command: TCommand, context: CommandHandlingContext)
    requires handlers.enrichEvent.None?
    ensures handlers.EnrichAll(events, command, context) == events
  {
  }

  /** With `EnrichEvent` set, enriching a batch applies the callback to each event, in place. */
  lemma EnrichAllSetIsMap<TId, TCommand, TEvent>(
    handlers: CommandProcessorNotificationHandlers<TId, TCommand, TEvent>,
    events: seq<TEvent>, command: TCommand, context: CommandHandlingContext)
    requires handlers.enrichEvent.Some?
    ensures var r := handlers.EnrichAll(events, command, context);
            |r| == |events| &&
            forall i :: 0 <= i < |events| ==> r[i] == handlers.enrichEvent.value(events[i], command, context.items)
  {
  }

  /** Enrichment is event by event: enriching two parts of a batch separately gives the enriched batch. */
  lemma {:induction false} EnrichAllAppend<TId, TCommand, TEvent>(
    handlers: CommandProcessorNotificationHandlers<TId, TCommand, TEvent>,
    a: seq<TEvent>, b: seq<TEvent>, command: TCommand, context: CommandHandlingContext)
    ensures handlers.EnrichAll(a + b, command, context) ==
            handlers.EnrichAll(a, command, context) + handlers.EnrichAll(b, command, context)
  {
  }

  /**
    Assigning a property takes effect on the next call: unset, the event comes
    back as it is; with `first` assigned, `first`'s result; after reassigning
    `second`, `second`'s result.
  */
  method EnrichAfterReassignment<TCommand, TEvent>(
    first: EnrichCallback<TEvent, TCommand>, second: EnrichCallback<TEvent, TCommand>,
    event: TEvent, command: TCommand) returns (unset: TEvent, before: TEvent, after: TEvent)
    ensures unset == event
    ensures before == first(event, command, map[])
    ensures after == second(event, command, map[])
  {
    var handlers := new CommandProcessorNotificationHandlers<int, TCommand, TEvent>();
    var context := new CommandHandlingContext();
    unset := handlers.OnEnrichEvent(event, command, context);
    handlers.SetEnrichEvent(Some(first));
    before := handlers.OnEnrichEvent(event, command, context);
    handlers.SetEnrichEvent(Some(second));
    after := handlers.OnEnrichEvent(event, command, context);
  }

  /**
    A freshly created context that goes through `OnPrepareContext` with the
    hook unset is still empty; with the hook set it holds what the hook left.
  */
  method PrepareFreshContext<TCommand, TEvent>(
    prepare: Option<PrepareCallback<TCommand>>, command: TCommand) returns (items: ContextItems)
    ensures prepare.None? ==> items == map[]
    ensures prepare.Some? ==> items == prepare.value(command, map[])
  {
    var handlers := new CommandProcessorNotificationHandlers<int, TCommand, TEvent>();
    handlers.SetPrepareContext(prepare);
    var context := new CommandHandlingContext();
    handlers.OnPrepareContext(command, context);
    items := context.items;
  }
}
