/**
  The event dispatcher of the framework: it takes a batch of events, opens one
  resolution scope, resolves the handler collection of every distinct exact
  event type once, invokes every handler of an event's type with that very
  event, in batch order, and disposes the scope on every way out.

  The dependency-injection scope is abstracted as the map from an exact type
  to the handlers registered for it; handlers are identifiers whose calls are
  recorded in a log.
*/
module EventDispatch {
  import opened Wrappers

  /** The exact runtime type of an event (no base-type or variance matching). */
  type TypeTag = string
  /** A handler object, known only by its identity. */
  type HandlerId = string
  /** The identity of an event instance. */
  type InstanceId = nat

  /** An event instance of a batch: its exact runtime type and its identity. */
  datatype Event = Event(tag: TypeTag, instance: InstanceId)

  /** One call `handler.Handle(event)`, where `event` sits at position `index` of the batch. */
  datatype Invocation = Invocation(handler: HandlerId, index: nat, event: Event)

  /** What a resolution scope answers: for each exact type, its handlers in registration order. */
  type Registrations = map<TypeTag, seq<HandlerId>>

  /** The scope factory the dispatcher is built with; every scope it creates resolves from `registrations`. */
  datatype ScopeFactory = ScopeFactory(registrations: Registrations)

  /** The missing-dependency error raised by the constructor, naming the offending parameter. */
  datatype ArgumentNullException = ArgumentNullException(paramName: string)

  /** How a `Dispatch` call ends: normally, or with the exception of the handler call that failed. */
  datatype Outcome = Completed | Faulted(failed: Invocation)

  // ---------------------------------------------------------------------------
  // Specification functions
  // ---------------------------------------------------------------------------

  /** A null batch is treated as an empty one. */
  function Batch(events: Option<seq<Event>>): seq<Event>
  {
    match events
    case None => []
    case Some(s) => s
  }

  /** The handler collection resolved for exact type `t`; an unregistered type resolves to an empty collection. */
  function Handlers(reg: Registrations, t: TypeTag): seq<HandlerId>
  {
    if t in reg then reg[t] else []
  }

  predicate NoDuplicates<T(==)>(s: seq<T>)
  {
    forall i, j :: 0 <= i < j < |s| ==> s[i] != s[j]
  }

  /** The exact types present in a batch. */
  function Tags(s: seq<Event>): set<TypeTag>
  {
    set e | e in s :: e.tag
  }

  /** The distinct exact types of a batch, in order of first occurrence: the types a `Dispatch` call resolves. */
  function DistinctTypes(s: seq<Event>): (r: seq<TypeTag>)
    ensures NoDuplicates(r)
    ensures forall t :: t in r <==> t in Tags(s)
  {
    if s == [] then []
    else
      var init, last := s[..|s| - 1], s[|s| - 1];
      assert s == init + [last];
      var p := DistinctTypes(init);
      if last.tag in p then p else p + [last.tag]
  }

  /** The calls of the handlers `hs`, in order, each with the event at position `i`. */
  function Pairs(hs: seq<HandlerId>, i: nat, e: Event): seq<Invocation>
  {
    seq(|hs|, k requires 0 <= k < |hs| => Invocation(hs[k], i, e))
  }

  /**
    Every call a `Dispatch` of batch `s` makes when no handler fails: for each
    event in batch order, each handler registered for its exact type.
  */
  function Expected(s: seq<Event>, reg: Registrations): seq<Invocation>
  {
    if s == [] then []
    else Expected(s[..|s| - 1], reg) + Pairs(Handlers(reg, s[|s| - 1].tag), |s| - 1, s[|s| - 1])
  }

  predicate Throws(inv: Invocation, throws: (HandlerId, Event) -> bool)
  {
    throws(inv.handler, inv.event)
  }


  /** The position of the first call in `run` that throws, or `|run|` when none does. */
  function FaultAt(run: seq<Invocation>, throws: (HandlerId, Event) -> bool): nat
  {
    if run == [] then 0
    else if Throws(run[0], throws) then 0
    else 1 + FaultAt(run[1..], throws)
  }

  /** No call of `run` throws (see `FaultAtMeaning`). */
  predicate NoneThrows(run: seq<Invocation>, throws: (HandlerId, Event) -> bool)
  {
    FaultAt(run, throws) == |run|
  }

  /**
    The calls actually made out of `run`: all of them, or those up to and
    including the first one that throws (the exception is not swallowed, so
    the calls after it are not made).
  */
  function Performed(run: seq<Invocation>, throws: (HandlerId, Event) -> bool): seq<Invocation>
  {
    var f := FaultAt(run, throws);
    if f < |run| then run[..f + 1] else run
  }

  /** How a run of calls ends: with the exception of its first throwing call, if any. */
  function Verdict(run: seq<Invocation>, throws: (HandlerId, Event) -> bool): Outcome
  {
    var f := FaultAt(run, throws);
    if f < |run| then Faulted(run[f]) else Completed
  }

  // ---------------------------------------------------------------------------
  // The dispatcher
  // ---------------------------------------------------------------------------

  /**
    `EventDispatcher<TEventBase>`. Besides the scope factory it records what
    the scope factory, the scope and the handlers observe: how many scopes
    were created and disposed, which types were resolved, and which handler
    calls were made.
  */
  class EventDispatcher {
    const factory: ScopeFactory
    var scopesCreated: nat
    var scopesDisposed: nat
    var resolvedLog: seq<TypeTag>
    var invocationLog: seq<Invocation>

    /** Between calls no scope is left open. */
    ghost predicate Valid()
      reads this
    {
      scopesDisposed == scopesCreated
    }

    constructor (factory: ScopeFactory)
      ensures this.factory == factory && Valid()
      ensures scopesCreated == 0 && resolvedLog == [] && invocationLog == []
    {
      this.factory := factory;
      scopesCreated, scopesDisposed := 0, 0;
      resolvedLog, invocationLog := [], [];
    }

    /** `new EventDispatcher(serviceScopeFactory)`: a null factory is refused at construction. */
    static method Create(factory: Option<ScopeFactory>) returns (r: Result<EventDispatcher, ArgumentNullException>)
      ensures r.Failure? <==> factory.None?
      ensures r.Failure? ==> r.error == ArgumentNullException("serviceScopeFactory")
      ensures r.Success? ==> fresh(r.value) && r.value.factory == factory.value && r.value.Valid()
      ensures r.Success? ==> r.value.scopesCreated == 0 && r.value.resolvedLog == [] && r.value.invocationLog == []
    {
      match factory
      case None =>
        r := Failure(ArgumentNullException("serviceScopeFactory"));
      case Some(f) =>
        var d := new EventDispatcher(f);
        r := Success(d);
    }

    method CreateScope() returns (scope: Registrations)
      modifies this`scopesCreated
      ensures scope == factory.registrations
      ensures scopesCreated == old(scopesCreated) + 1
    {
      scopesCreated := scopesCreated + 1;
      scope := factory.registrations;
    }

    method DisposeScope()
      modifies this`scopesDisposed
      ensures scopesDisposed == old(scopesDisposed) + 1
    {
      scopesDisposed := scopesDisposed + 1;
    }

    /** `scope.GetService(typeof(IEnumerable<IEventHandler<T>>))` for the exact type `t`. */
    method Resolve(scope: Registrations, t: TypeTag) returns (hs: seq<HandlerId>)
      modifies this`resolvedLog
      ensures hs == Handlers(scope, t)
      ensures resolvedLog == old(resolvedLog) + [t]
    {
      resolvedLog := resolvedLog + [t];
      hs := Handlers(scope, t);
    }

    /**
      One step of the first phase: the type of event `i` is resolved unless an
      earlier event of the batch already had it.
    */
    method ResolveNext(scope: Registrations, batch: seq<Event>, i: nat, cache: map<TypeTag, seq<HandlerId>>,
                       ghost before: seq<TypeTag>) returns (next: map<TypeTag, seq<HandlerId>>)
      requires i < |batch|
      requires cache.Keys == Tags(batch[..i])
      requires forall t :: t in cache ==> cache[t] == Handlers(scope, t)
      requires resolvedLog == before + DistinctTypes(batch[..i])
      modifies this`resolvedLog
      ensures next.Keys == Tags(batch[..i + 1])
      ensures forall t :: t in next ==> next[t] == Handlers(scope, t)
      ensures resolvedLog == before + DistinctTypes(batch[..i + 1])
    {
      var e := batch[i];
      ExtendBatch(batch, i);
      next := cache;
      if e.tag !in cache {
        var hs := Resolve(scope, e.tag);
        next := cache[e.tag := hs];
      }
    }

    /**
      The first phase of a call: the handler collection of each distinct
      exact type of the batch is resolved once, in order of first occurrence.
    */
    method ResolveAll(scope: Registrations, batch: seq<Event>) returns (cache: map<TypeTag, seq<HandlerId>>)
      modifies this`resolvedLog
      ensures cache.Keys == Tags(batch)
      ensures forall t :: t in cache ==> cache[t] == Handlers(scope, t)
      ensures forall k :: 0 <= k < |batch| ==> batch[k].tag in cache && cache[batch[k].tag] == Handlers(scope, batch[k].tag)
      ensures resolvedLog == old(resolvedLog) + DistinctTypes(batch)
    {
      cache := map[];
      var i := 0;
      while i < |batch|
        invariant 0 <= i <= |batch|
        invariant cache.Keys == Tags(batch[..i])
        invariant forall t :: t in cache ==> cache[t] == Handlers(scope, t)
        invariant resolvedLog == old(resolvedLog) + DistinctTypes(batch[..i])
      {
        cache := ResolveNext(scope, batch, i, cache, old(resolvedLog));
        i := i + 1;
      }
      assert batch[..|batch|] == batch;
      TagsCover(batch);
    }

    /** `handler.Handle(event)`; the call is made (and recorded) whether or not it then throws. */
    method Invoke(h: HandlerId, i: nat, e: Event, throws: (HandlerId, Event) -> bool) returns (ok: bool)
      modifies this`invocationLog
      ensures invocationLog == old(invocationLog) + [Invocation(h, i, e)]
      ensures ok <==> !throws(h, e)
    {
      invocationLog := invocationLog + [Invocation(h, i, e)];
      ok := !throws(h, e);
    }

    /** Calls the handlers `hs` in order with the event at position `i`, stopping at the first that throws. */
    method InvokeHandlers(hs: seq<HandlerId>, i: nat, e: Event, throws: (HandlerId, Event) -> bool) returns (outcome: Outcome)
      modifies this`invocationLog
      ensures invocationLog == old(invocationLog) + Performed(Pairs(hs, i, e), throws)
      ensures outcome == Verdict(Pairs(hs, i, e), throws)
    {
      var k := 0;
      while k < |hs|
        invariant 0 <= k <= |hs|
        invariant invocationLog == old(invocationLog) + Pairs(hs[..k], i, e)
        invariant forall j :: 0 <= j < k ==> !throws(hs[j], e)
      {
        var ok := Invoke(hs[k], i, e, throws);
        assert Pairs(hs[..k + 1], i, e) == Pairs(hs[..k], i, e) + [Invocation(hs[k], i, e)];
        if !ok {
          FaultAtPrefix(Pairs(hs, i, e), Pairs(hs[..k + 1], i, e), throws);
          outcome := Faulted(Invocation(hs[k], i, e));
          return;
        }
        k := k + 1;
      }
      assert hs[..k] == hs;
      FaultAtMeaning(Pairs(hs, i, e), throws);
      outcome := Completed;
    }

    /**
      One step of the second phase: the handlers of event `i` are called with
      it. Either all complete, and the calls so far are those of the first
      `i + 1` events, or one throws, and the calls so far are all the calls the
      batch makes.
    */
    method InvokeEvent(scope: Registrations, cache: map<TypeTag, seq<HandlerId>>, batch: seq<Event>, i: nat,
                       throws: (HandlerId, Event) -> bool, ghost before: seq<Invocation>) returns (outcome: Outcome)
      requires i < |batch| && batch[i].tag in cache && cache[batch[i].tag] == Handlers(scope, batch[i].tag)
      requires invocationLog == before + Expected(batch[..i], scope)
      requires NoneThrows(Expected(batch[..i], scope), throws)
      modifies this`invocationLog
      ensures outcome.Completed? ==>
                invocationLog == before + Expected(batch[..i + 1], scope) && NoneThrows(Expected(batch[..i + 1], scope), throws)
      ensures outcome.Faulted? ==>
                invocationLog == before + Performed(Expected(batch, scope), throws) && outcome == Verdict(Expected(batch, scope), throws)
    {
      var e := batch[i];
      outcome := InvokeHandlers(cache[e.tag], i, e, throws);
      if outcome.Faulted? {
        StepFaulted(batch, scope, i, throws);
      } else {
        StepCompleted(batch, scope, i, throws);
      }
    }

    /**
      The second phase of a call: every handler of each event's exact type is
      called with that event, in batch order, until one throws.
    */
    method InvokeAll(scope: Registrations, cache: map<TypeTag, seq<HandlerId>>, batch: seq<Event>,
                     throws: (HandlerId, Event) -> bool) returns (outcome: Outcome)
      requires forall k :: 0 <= k < |batch| ==> batch[k].tag in cache && cache[batch[k].tag] == Handlers(scope, batch[k].tag)
      modifies this`invocationLog
      ensures invocationLog == old(invocationLog) + Performed(Expected(batch, scope), throws)
      ensures outcome == Verdict(Expected(batch, scope), throws)
    {
      var i := 0;
      while i < |batch|
        invariant 0 <= i <= |batch|
        invariant invocationLog == old(invocationLog) + Expected(batch[..i], scope)
        invariant NoneThrows(Expected(batch[..i], scope), throws)
      {
        outcome := InvokeEvent(scope, cache, batch, i, throws, old(invocationLog));
        if outcome.Faulted? {
          return;
        }
        i := i + 1;
      }
      assert batch[..i] == batch;
      PerformedMeaning(Expected(batch, scope), throws);
      outcome := Completed;
    }

    /**
      `Dispatch(events, cancellationToken)`. `throws` tells which handler calls
      raise an exception.
    */
    method Dispatch(events: Option<seq<Event>>, throws: (HandlerId, Event) -> bool) returns (outcome: Outcome)
      requires Valid()
      modifies this
      ensures Valid()
      ensures var n := if Batch(events) == [] then 0 else 1;
              scopesCreated == old(scopesCreated) + n && scopesDisposed == old(scopesDisposed) + n
      ensures resolvedLog == old(resolvedLog) + DistinctTypes(Batch(events))
      ensures invocationLog == old(invocationLog) + Performed(Expected(Batch(events), factory.registrations), throws)
      ensures outcome == Verdict(Expected(Batch(events), factory.registrations), throws)
    {
      var batch := Batch(events);
      if batch == [] {
        outcome := Completed;
        return;
      }
      var scope := CreateScope();
      var cache := ResolveAll(scope, batch);
      outcome := InvokeAll(scope, cache, batch, throws);
      DisposeScope();
    }
  }

  // ---------------------------------------------------------------------------
  // Lemmas
  // ---------------------------------------------------------------------------

  /** Growing the prefix `batch[..i]` by one event adds its type to the types present and, if new, to the types resolved. */
  lemma ExtendBatch(batch: seq<Event>, i: nat)
    requires i < |batch|
    ensures Tags(batch[..i + 1]) == Tags(batch[..i]) + {batch[i].tag}
    ensures DistinctTypes(batch[..i + 1]) ==
            if batch[i].tag in Tags(batch[..i]) then DistinctTypes(batch[..i]) else DistinctTypes(batch[..i]) + [batch[i].tag]
  {
    assert batch[..i + 1] == batch[..i] + [batch[i]];
    assert batch[..i + 1][..i] == batch[..i];
  }

  /** Every event's type is among the types present in its batch. */
  lemma TagsCover(batch: seq<Event>)
    ensures forall k :: 0 <= k < |batch| ==> batch[k].tag in Tags(batch)
  {
    forall k | 0 <= k < |batch|
      ensures batch[k].tag in Tags(batch)
    {
      assert batch[k] in batch;
    }
  }

  /**
    Routing: every call of a batch pairs a handler with the event of the batch
    at the call's position, and the handler is registered for exactly that
    event's type.
  */
  lemma {:induction false} ExpectedRouting(s: seq<Event>, reg: Registrations)
    ensures forall inv :: inv in Expected(s, reg) ==>
              inv.index < |s| && inv.event == s[inv.index] && inv.handler in Handlers(reg, inv.event.tag)
  {
    if s != [] {
      var init := s[..|s| - 1];
      ExpectedRouting(init, reg);
      forall inv | inv in Expected(init, reg)
        ensures inv.index < |s| - 1 && inv.event == s[inv.index]
      {
        assert init[inv.index] == s[inv.index];
      }
    }
  }

  /** Calls follow the batch order: the calls for an event come after those for every earlier event. */
  lemma {:induction false} ExpectedInBatchOrder(s: seq<Event>, reg: Registrations)
    ensures forall a, b :: 0 <= a < b < |Expected(s, reg)| ==> Expected(s, reg)[a].index <= Expected(s, reg)[b].index
  {
    if s != [] {
      var init := s[..|s| - 1];
      var p, q := Expected(init, reg), Pairs(Handlers(reg, s[|s| - 1].tag), |s| - 1, s[|s| - 1]);
      ExpectedInBatchOrder(init, reg);
      ExpectedRouting(init, reg);
      assert forall a :: 0 <= a < |p| ==> p[a] in p;
      forall a, b | 0 <= a < b < |p + q|
        ensures (p + q)[a].index <= (p + q)[b].index
      {
        if b >= |p| && a < |p| {
          assert p[a] in p;
        }
      }
    }
  }

  /** `FaultAt` finds the first throwing call: none before it throws, and it throws unless it is past the end. */
  lemma {:induction false} FaultAtMeaning(run: seq<Invocation>, throws: (HandlerId, Event) -> bool)
    ensures FaultAt(run, throws) <= |run|
    ensures forall j :: 0 <= j < FaultAt(run, throws) ==> !Throws(run[j], throws)
    ensures FaultAt(run, throws) < |run| ==> Throws(run[FaultAt(run, throws)], throws)
  {
    if run != [] && !Throws(run[0], throws) {
      FaultAtMeaning(run[1..], throws);
      forall j | 1 <= j < FaultAt(run, throws)
        ensures !Throws(run[j], throws)
      {
        assert run[j] == run[1..][j - 1];
      }
    }
  }

  /**
    The calls made are a prefix of the calls due; all but the last completed;
    the last threw unless every call was made; and when no call throws, every
    call is made.
  */
  lemma PerformedMeaning(run: seq<Invocation>, throws: (HandlerId, Event) -> bool)
    ensures Performed(run, throws) <= run
    ensures forall j :: 0 <= j < |Performed(run, throws)| - 1 ==> !Throws(Performed(run, throws)[j], throws)
    ensures Performed(run, throws) != run ==>
              Performed(run, throws) != [] && Throws(Performed(run, throws)[|Performed(run, throws)| - 1], throws)
    ensures NoneThrows(run, throws) ==> Performed(run, throws) == run
    ensures Verdict(run, throws) == Completed <==> NoneThrows(run, throws)
  {
    FaultAtMeaning(run, throws);
  }

  /** The calls for the first `n` events are the start of the calls for the whole batch. */
  lemma {:induction false} ExpectedPrefix(s: seq<Event>, reg: Registrations, n: nat)
    requires n <= |s|
    ensures Expected(s[..n], reg) <= Expected(s, reg)
    decreases |s| - n
  {
    if n < |s| {
      ExpectedPrefix(s, reg, n + 1);
      assert s[..n + 1][..n] == s[..n];
    } else {
      assert s[..n] == s;
    }
  }

  /** The calls for the first `i + 1` events extend those for the first `i` by the calls for event `i`. */
  lemma ExpectedStep(s: seq<Event>, reg: Registrations, i: nat)
    requires i < |s|
    ensures Expected(s[..i + 1], reg) == Expected(s[..i], reg) + Pairs(Handlers(reg, s[i].tag), i, s[i])
  {
    assert s[..i + 1][..i] == s[..i];
  }

  /** A prefix of `run` whose only throwing call is its last one ends exactly at the first fault of `run`. */
  lemma FaultAtPrefix(run: seq<Invocation>, made: seq<Invocation>, throws: (HandlerId, Event) -> bool)
    requires made <= run && made != []
    requires forall j :: 0 <= j < |made| - 1 ==> !Throws(made[j], throws)
    requires Throws(made[|made| - 1], throws)
    ensures Performed(run, throws) == made
    ensures Verdict(run, throws) == Faulted(made[|made| - 1])
  {
    FaultAtMeaning(run, throws);
  }

  /** The first fault of a concatenation: in the first part if it has one, otherwise in the second. */
  lemma {:induction false} FaultAtConcat(a: seq<Invocation>, b: seq<Invocation>, throws: (HandlerId, Event) -> bool)
    ensures FaultAt(a + b, throws) == if FaultAt(a, throws) < |a| then FaultAt(a, throws) else |a| + FaultAt(b, throws)
  {
    if a == [] {
      assert a + b == b;
    } else {
      assert (a + b)[1..] == a[1..] + b;
      FaultAtConcat(a[1..], b, throws);
    }
  }

  /** Running two runs of calls one after the other: the second starts only if the first completes. */
  lemma VerdictConcat(a: seq<Invocation>, b: seq<Invocation>, throws: (HandlerId, Event) -> bool)
    ensures Verdict(a + b, throws) == if Verdict(a, throws).Faulted? then Verdict(a, throws) else Verdict(b, throws)
    ensures Performed(a + b, throws) == if Verdict(a, throws).Faulted? then Performed(a, throws) else a + Performed(b, throws)
  {
    FaultAtConcat(a, b, throws);
    FaultAtMeaning(a, throws);
    FaultAtMeaning(b, throws);
    var f := FaultAt(a, throws);
    if f < |a| {
      assert (a + b)[..f + 1] == a[..f + 1];
    } else {
      var g := FaultAt(b, throws);
      if g < |b| {
        assert (a + b)[..|a| + g + 1] == a + b[..g + 1];
      }
    }
  }

  /** Event `i` completes all its handler calls: the calls so far are those of the first `i + 1` events. */
  lemma StepCompleted(s: seq<Event>, reg: Registrations, i: nat, throws: (HandlerId, Event) -> bool)
    requires i < |s|
    requires NoneThrows(Expected(s[..i], reg), throws)
    requires Verdict(Pairs(Handlers(reg, s[i].tag), i, s[i]), throws) == Completed
    ensures Expected(s[..i], reg) + Performed(Pairs(Handlers(reg, s[i].tag), i, s[i]), throws) == Expected(s[..i + 1], reg)
    ensures NoneThrows(Expected(s[..i + 1], reg), throws)
  {
    var done, here := Expected(s[..i], reg), Pairs(Handlers(reg, s[i].tag), i, s[i]);
    ExpectedStep(s, reg, i);
    PerformedMeaning(done, throws);
    PerformedMeaning(here, throws);
    PerformedMeaning(done + here, throws);
    VerdictConcat(done, here, throws);
  }

  /** A handler of event `i` throws: the calls so far are all the calls the whole batch makes. */
  lemma StepFaulted(s: seq<Event>, reg: Registrations, i: nat, throws: (HandlerId, Event) -> bool)
    requires i < |s|
    requires NoneThrows(Expected(s[..i], reg), throws)
    requires Verdict(Pairs(Handlers(reg, s[i].tag), i, s[i]), throws).Faulted?
    ensures Expected(s[..i], reg) + Performed(Pairs(Handlers(reg, s[i].tag), i, s[i]), throws) == Performed(Expected(s, reg), throws)
    ensures Verdict(Pairs(Handlers(reg, s[i].tag), i, s[i]), throws) == Verdict(Expected(s, reg), throws)
  {
    var done, here := Expected(s[..i], reg), Pairs(Handlers(reg, s[i].tag), i, s[i]);
    ExpectedStep(s, reg, i);
    PerformedMeaning(done, throws);
    VerdictConcat(done, here, throws);
    ExpectedPrefix(s, reg, i + 1);
    var rest := Expected(s, reg)[|done + here|..];
    assert Expected(s, reg) == (done + here) + rest;
    VerdictConcat(done + here, rest, throws);
  }

  /** In a sequence without duplicates, every element occurs exactly once. */
  lemma {:induction false} NoDuplicatesCount<T>(s: seq<T>, x: T)
    requires NoDuplicates(s)
    ensures multiset(s)[x] == if x in s then 1 else 0
  {
    if s != [] {
      var init := s[..|s| - 1];
      assert s == init + [s[|s| - 1]];
      assert NoDuplicates(init);
      NoDuplicatesCount(init, x);
    }
  }

  /** Each exact type present in the batch is resolved exactly once; no other type is resolved. */
  lemma ResolvedExactlyOnce(s: seq<Event>, t: TypeTag)
    ensures multiset(DistinctTypes(s))[t] == if t in Tags(s) then 1 else 0
  {
    NoDuplicatesCount(DistinctTypes(s), t);
  }

  /** A handler `h` is called with event `i` as many times as it is registered for that event's exact type. */
  lemma {:induction false} PairsCount(hs: seq<HandlerId>, i: nat, e: Event, x: Invocation)
    ensures multiset(Pairs(hs, i, e))[x] == if x.index == i && x.event == e then multiset(hs)[x.handler] else 0
  {
    if hs != [] {
      var init := hs[..|hs| - 1];
      assert hs == init + [hs[|hs| - 1]];
      assert Pairs(hs, i, e) == Pairs(init, i, e) + [Invocation(hs[|hs| - 1], i, e)];
      PairsCount(init, i, e, x);
    }
  }

  /**
    How often a call occurs among the calls of a batch: it must pair an event
    with its own position, and then it occurs as often as the handler is
    registered for that event's exact type.
  */
  lemma {:induction false} InvocationCount(s: seq<Event>, reg: Registrations, x: Invocation)
    ensures multiset(Expected(s, reg))[x] ==
            if x.index < |s| && x.event == s[x.index] then multiset(Handlers(reg, x.event.tag))[x.handler] else 0
  {
    if s != [] {
      var init, last := s[..|s| - 1], s[|s| - 1];
      InvocationCount(init, reg, x);
      PairsCount(Handlers(reg, last.tag), |s| - 1, last, x);
    }
  }

  /**
    With no handler registered twice for a type, every (event, handler) pair of
    the batch is called exactly once, with the very event instance, whatever
    the order of the batch; a handler not registered for the event's type is
    never called with it.
  */
  lemma ExactlyOnce(s: seq<Event>, reg: Registrations, i: nat, h: HandlerId)
    requires i < |s|
    requires NoDuplicates(Handlers(reg, s[i].tag))
    ensures multiset(Expected(s, reg))[Invocation(h, i, s[i])] == if h in Handlers(reg, s[i].tag) then 1 else 0
  {
    InvocationCount(s, reg, Invocation(h, i, s[i]));
    NoDuplicatesCount(Handlers(reg, s[i].tag), h);
  }

  /**
    Exactly-once for the calls actually made: when no handler of the batch
    throws, each (event, handler) pair of an event's type is called exactly
    once, provided no handler is registered twice for that type.
  */
  lemma CompletedExactlyOnce(s: seq<Event>, reg: Registrations, throws: (HandlerId, Event) -> bool, i: nat, h: HandlerId)
    requires i < |s|
    requires NoDuplicates(Handlers(reg, s[i].tag))
    requires Verdict(Expected(s, reg), throws) == Completed
    ensures multiset(Performed(Expected(s, reg), throws))[Invocation(h, i, s[i])] ==
            if h in Handlers(reg, s[i].tag) then 1 else 0
  {
    PerformedMeaning(Expected(s, reg), throws);
    ExactlyOnce(s, reg, i, h);
  }

  /** A handler registered for only one exact type is never called with an event of another type. */
  lemma ExactTypeRouting(s: seq<Event>, reg: Registrations, h: HandlerId, t: TypeTag, inv: Invocation)
    requires forall u :: u in reg && u != t ==> h !in reg[u]
    requires inv in Expected(s, reg) && inv.handler == h
    ensures inv.index < |s| && inv.event == s[inv.index] && inv.event.tag == t
  {
    ExpectedRouting(s, reg);
  }

  /** An event whose exact type has no handler causes no call and no error. */
  lemma UnregisteredTypeSkipped(s: seq<Event>, reg: Registrations, i: nat)
    requires i < |s| && Handlers(reg, s[i].tag) == []
    ensures forall inv :: inv in Expected(s, reg) ==> inv.index != i
  {
    ExpectedRouting(s, reg);
  }

  /** When a handler throws, no call is made twice and no call outside the batch's calls is made. */
  lemma PerformedAtMostOnce(run: seq<Invocation>, throws: (HandlerId, Event) -> bool, x: Invocation)
    ensures multiset(Performed(run, throws))[x] <= multiset(run)[x]
  {
    PerformedMeaning(run, throws);
    var p := Performed(run, throws);
    assert run == p + run[|p|..];
  }

  // ---------------------------------------------------------------------------
  // The test fixture's scenarios, against the dispatcher's contract
  // ---------------------------------------------------------------------------

  /** Two event types, each with one handler, as the fixture's set-up registers them. */
  function FixtureFactory(): ScopeFactory
  {
    ScopeFactory(map["EventA" := ["HandlerA"], "EventB" := ["HandlerB"]])
  }

  function NeverThrows(): (HandlerId, Event) -> bool
  {
    (h: HandlerId, e: Event) => false
  }

  /** A null factory is refused, naming `serviceScopeFactory`. */
  method ConstructWithoutFactory() returns (r: Result<EventDispatcher, ArgumentNullException>)
    ensures r == Failure(ArgumentNullException("serviceScopeFactory"))
  {
    r := EventDispatcher.Create(None);
  }

  /**
    On the dispatcher's own call log: a `Dispatch` that completes has called
    each handler of event `i`'s type once with that instance, and no other
    handler with it.
  */
  method DispatchCallsEachHandlerOnce(d: EventDispatcher, batch: seq<Event>, throws: (HandlerId, Event) -> bool,
                                      i: nat, h: HandlerId) returns (outcome: Outcome)
    requires d.Valid()
    requires i < |batch| && NoDuplicates(Handlers(d.factory.registrations, batch[i].tag))
    modifies d
    ensures old(d.invocationLog) <= d.invocationLog
    ensures outcome == Completed ==>
            multiset(d.invocationLog[|old(d.invocationLog)|..])[Invocation(h, i, batch[i])] ==
            if h in Handlers(d.factory.registrations, batch[i].tag) then 1 else 0
  {
    outcome := d.Dispatch(Some(batch), throws);
    if outcome == Completed {
      CompletedExactlyOnce(batch, d.factory.registrations, throws, i, h);
      assert d.invocationLog[|old(d.invocationLog)|..] == Performed(Expected(batch, d.factory.registrations), throws);
    }
  }

  /** Null and empty batches complete normally and touch nothing. */
  method DispatchNullOrEmpty() returns (d: EventDispatcher, first: Outcome, second: Outcome)
    ensures first == Completed && second == Completed
    ensures d.scopesCreated == 0 && d.resolvedLog == [] && d.invocationLog == []
  {
    d := new EventDispatcher(FixtureFactory());
    first := d.Dispatch(None, NeverThrows());
    second := d.Dispatch(Some([]), NeverThrows());
  }

  /** A batch with one EventA creates exactly one scope and disposes it exactly once. */
  method DispatchCreatesAndDisposesScope() returns (d: EventDispatcher)
    ensures d.scopesCreated == 1 && d.scopesDisposed == 1
  {
    d := new EventDispatcher(FixtureFactory());
    var _ := d.Dispatch(Some([Event("EventA", 1)]), NeverThrows());
  }

  /** A single EventB: only EventB's collection is resolved, and its handler gets that instance once. */
  method DispatchSingleEvent() returns (d: EventDispatcher)
    ensures d.resolvedLog == ["EventB"]
    ensures d.invocationLog == [Invocation("HandlerB", 0, Event("EventB", 7))]
  {
    d := new EventDispatcher(FixtureFactory());
    var eventB := Event("EventB", 7);
    assert [eventB][..0] == [];
    var _ := d.Dispatch(Some([eventB]), NeverThrows());
  }

  /** The batch [eventB, eventA]: each type is resolved once and each handler gets its own instance once. */
  method DispatchMultipleEvents() returns (d: EventDispatcher)
    ensures d.resolvedLog == ["EventB", "EventA"]
    ensures d.invocationLog == [Invocation("HandlerB", 0, Event("EventB", 2)), Invocation("HandlerA", 1, Event("EventA", 1))]
  {
    d := new EventDispatcher(FixtureFactory());
    var eventA, eventB := Event("EventA", 1), Event("EventB", 2);
    var batch := [eventB, eventA];
    var reg := FixtureFactory().registrations;
    assert batch[..1] == [eventB] && [eventB][..0] == [];
    assert DistinctTypes([eventB]) == ["EventB"];
    assert Expected([eventB], reg) == [Invocation("HandlerB", 0, eventB)];
    assert Pairs(Handlers(reg, "EventA"), 1, eventA) == [Invocation("HandlerA", 1, eventA)];
    FaultAtMeaning(Expected(batch, reg), NeverThrows());
    var _ := d.Dispatch(Some(batch), NeverThrows());
  }
}
