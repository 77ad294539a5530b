/**
 A deferred result for asynchronous request processing (class Deferred of jooby).

 A Deferred is itself a Result (it extends Result) and, once a transport has
 attached a Handler to it, routes every value produced for it to that Handler.
 The Handler is observed only through a ghost log of the calls
 `handle(result, exception)` it receives; the Initializer is observed only
 through a ghost log of its runs.
 */
module Async {

  datatype Option<T> = None | Some(value: T)

  /** A response status carried by a Result. */
  type Status(==)
  /** A Throwable. */
  type Cause(==)
  /** Any Java object that is neither a Result nor a Throwable. */
  type Payload(==)
  /** The current request handed to an Initializer. */
  type Request(==)
  /** An implementation of Deferred.Handler. */
  type HandlerRef(==)
  /** An implementation of Deferred.Initializer (it receives the request). */
  type InitializerRef(==)
  /** An implementation of Deferred.Initializer0 (it does not receive the request). */
  type Initializer0Ref(==)
  /** A CheckedFunction0 block; each application may return or throw something else. */
  type Block(==)

  /** A Java reference as seen by the dispatch in `set` and `resolve`. */
  datatype Object =
    | Null
    | ThrowableObj(cause: Cause)
    | ResultObj(result: Result)
    | PlainObj(payload: Payload)

  /** A minimal Result: an optional status and a payload (`Null` when unset). */
  datatype Result = Result(status: Option<Status>, value: Object) {

    /** Result.set: replace the payload, keep the status. */
    function Set(v: Object): (r: Result)
      ensures r.value == v && r.status == status
    {
      this.(value := v)
    }

    /** Result.clone: a copy with the same status and payload. */
    function Clone(): (r: Result)
      ensures r.status == status && r.value == value
    {
      Result(status, value)
    }
  }

  /** What `new Result()` starts with: no status, no payload. */
  const EmptyResult: Result := Result(None, Null)

  /**
   The initializer a Deferred holds. An Initializer0 is wrapped in the lambda
   `(req, deferred) -> initializer.run(deferred)`; the wrapped reference may be null.
   */
  datatype Initializer =
    | Direct(impl: InitializerRef)
    | Adapted(target: Option<Initializer0Ref>)

  /** One call `handler.handle(result, exception)`. */
  datatype Delivery = Delivery(to: HandlerRef, result: Option<Result>, exception: Option<Cause>)

  /** One run `initializer.run(req, deferred)`. */
  datatype InitializerRun = InitializerRun(initializer: Initializer, req: Request, deferred: Deferred)

  /** What a produced value does: the deferred's own Result state afterwards and the call it makes. */
  datatype Settlement = Settlement(state: Result, result: Option<Result>, exception: Option<Cause>)

  /** The outcome of applying a CheckedFunction0 block: it returns a value or throws. */
  datatype Producer = Returns(value: Object) | Throws(cause: Cause)

  /** The Runnable returned by `run(block)`: bound to its deferred and its block. */
  datatype Task = Task(target: Deferred, block: Block)

  /** Specification of `resolve(Object)` on a deferred whose own Result state is `state`. */
  function Resolution(state: Result, v: Object): (s: Settlement)
    ensures s.exception == None
    ensures s.result.Some? <==> v != Null
    ensures v.ResultObj? ==> s.result == Some(v.result) && s.state == state
    ensures v == Null ==> s.state == state
    ensures v.ThrowableObj? || v.PlainObj? ==>
      s.state == Result(state.status, v) && s.result == Some(s.state)
  {
    match v
    case Null => Settlement(state, None, None)
    case ResultObj(r) => Settlement(state, Some(r), None)
    case _ => var own := state.Set(v); Settlement(own, Some(own.Clone()), None)
  }

  /** Specification of `reject(Throwable)`: the cause reaches the handler untouched. */
  function Rejection(state: Result, cause: Option<Cause>): (s: Settlement)
    ensures s.state == state && s.result == None && s.exception == cause
  {
    Settlement(state, None, cause)
  }

  /** Specification of `set(Object)`: a Throwable is rejected, anything else resolved. */
  function Setting(state: Result, v: Object): (s: Settlement)
    ensures v.ThrowableObj? ==> s == Rejection(state, Some(v.cause))
    ensures !v.ThrowableObj? ==> s == Resolution(state, v)
    ensures s.exception.Some? <==> v.ThrowableObj?
  {
    if v.ThrowableObj? then Rejection(state, Some(v.cause)) else Resolution(state, v)
  }

  /** Specification of `resolve(CheckedFunction0)`: a returned value is resolved, a thrown one rejected. */
  function BlockSettlement(state: Result, p: Producer): (s: Settlement)
    ensures p.Returns? ==> s == Resolution(state, p.value)
    ensures p.Throws? ==> s == Rejection(state, Some(p.cause))
    ensures !(s.result.Some? && s.exception.Some?)
    ensures s.exception.Some? <==> p.Throws?
  {
    match p
    case Returns(v) => Resolution(state, v)
    case Throws(x) => Rejection(state, Some(x))
  }

  /**
   Nothing guards against settling twice: setting the same value again leaves
   the same state and makes the same delivery again.
   */
  lemma SettleAgain(state: Result, v: Object)
    ensures Setting(Setting(state, v).state, v) == Setting(state, v)
  {
  }

  /**
   Only `set` rejects a Throwable value: a block that returns one resolves
   with it as payload, while a block that throws it rejects.
   */
  lemma ReturnedThrowableResolves(state: Result, c: Cause)
    ensures BlockSettlement(state, Returns(ThrowableObj(c))).result == Some(Result(state.status, ThrowableObj(c)))
    ensures BlockSettlement(state, Returns(ThrowableObj(c))).exception == None
    ensures BlockSettlement(state, Throws(c)) == Setting(state, ThrowableObj(c))
  {
  }

  class Deferred {
    /** Deferred initializer; optional. Fixed at construction. */
    const initializer: Option<Initializer>
    /** Name of the executor to run this deferred on; optional. */
    const executor: Option<string>
    /** Name of the thread that created this deferred. */
    const callerThread: Option<string>
    /** The handler the transport attached, if any. */
    var handler: Option<HandlerRef>
    /** The Result state this deferred has as a subclass of Result. */
    var state: Result
    /** Every call made to a handler, in order. */
    ghost var deliveries: seq<Delivery>
    /** Every run of the initializer, in order. */
    ghost var initializerRuns: seq<InitializerRun>

    /** `new Deferred(executor, Initializer)`; the initializer must not be null. */
    constructor WithExecutor(executor: Option<string>, initializer: InitializerRef, callerThread: string)
      ensures this.executor == executor
      ensures this.initializer == Some(Direct(initializer))
      ensures this.callerThread == Some(callerThread)
      ensures handler == None && state == EmptyResult
      ensures deliveries == [] && initializerRuns == []
    {
      this.executor := executor;
      this.initializer := Some(Direct(initializer));
      this.callerThread := Some(callerThread);
      handler := None;
      state := EmptyResult;
      deliveries := [];
      initializerRuns := [];
    }

    /** `new Deferred(Initializer)`: no executor. */
    constructor WithInitializer(initializer: InitializerRef, callerThread: string)
      ensures executor == None
      ensures this.initializer == Some(Direct(initializer))
      ensures this.callerThread == Some(callerThread)
      ensures handler == None && state == EmptyResult
      ensures deliveries == [] && initializerRuns == []
    {
      executor := None;
      this.initializer := Some(Direct(initializer));
      this.callerThread := Some(callerThread);
      handler := None;
      state := EmptyResult;
      deliveries := [];
      initializerRuns := [];
    }

    /**
     `new Deferred(executor, Initializer0)`: the Initializer0 is wrapped in a
     lambda, and the non-null check sees the lambda, so a null Initializer0 is accepted.
     */
    constructor WithExecutor0(executor: Option<string>, initializer: Option<Initializer0Ref>, callerThread: string)
      ensures this.executor == executor
      ensures this.initializer == Some(Adapted(initializer))
      ensures this.callerThread == Some(callerThread)
      ensures handler == None && state == EmptyResult
      ensures deliveries == [] && initializerRuns == []
    {
      this.executor := executor;
      this.initializer := Some(Adapted(initializer));
      this.callerThread := Some(callerThread);
      handler := None;
      state := EmptyResult;
      deliveries := [];
      initializerRuns := [];
    }

    /** `new Deferred(Initializer0)`: no executor, the Initializer0 wrapped as above. */
    constructor WithInitializer0(initializer: Option<Initializer0Ref>, callerThread: string)
      ensures executor == None
      ensures this.initializer == Some(Adapted(initializer))
      ensures this.callerThread == Some(callerThread)
      ensures handler == None && state == EmptyResult
      ensures deliveries == [] && initializerRuns == []
    {
      executor := None;
      this.initializer := Some(Adapted(initializer));
      this.callerThread := Some(callerThread);
      handler := None;
      state := EmptyResult;
      deliveries := [];
      initializerRuns := [];
    }

    /** `new Deferred()`: initializer, handler, executor and caller thread all null. */
    constructor ()
      ensures executor == None && initializer == None && callerThread == None
      ensures handler == None && state == EmptyResult
      ensures deliveries == [] && initializerRuns == []
    {
      executor := None;
      initializer := None;
      callerThread := None;
      handler := None;
      state := EmptyResult;
      deliveries := [];
      initializerRuns := [];
    }

    /** `executor()`: the executor name given at construction, absent when none was given. */
    function Executor(): (r: Option<string>)
      ensures r.Some? <==> executor.Some?
      ensures r.Some? ==> r.value == executor.value
    {
      executor
    }

    /** `callerThread()`: the creating thread's name, null for `new Deferred()`. */
    function CallerThread(): (r: Option<string>)
      ensures r.Some? <==> callerThread.Some?
      ensures r.Some? ==> r.value == callerThread.value
    {
      callerThread
    }

    /** `handler.handle(result, exception)`: dereferences the handler. */
    method Handle(result: Option<Result>, exception: Option<Cause>)
      requires handler.Some?
      modifies this`deliveries
      ensures deliveries == old(deliveries) + [Delivery(handler.value, result, exception)]
    {
      deliveries := deliveries + [Delivery(handler.value, result, exception)];
    }

    /** `set(Object)`: rejects a Throwable, resolves anything else; returns this deferred. */
    method Set(v: Object) returns (r: Deferred)
      requires handler.Some?
      modifies this`state, this`deliveries
      ensures r == this
      ensures state == Setting(old(state), v).state
      ensures deliveries == old(deliveries) +
        [Delivery(handler.value, Setting(old(state), v).result, Setting(old(state), v).exception)]
    {
      if v.ThrowableObj? {
        Reject(Some(v.cause));
      } else {
        Resolve(v);
      }
      r := this;
    }

    /** `resolve(Object)`: null, a Result, or any other value that becomes this deferred's payload. */
    method Resolve(v: Object)
      requires handler.Some?
      modifies this`state, this`deliveries
      ensures state == Resolution(old(state), v).state
      ensures deliveries == old(deliveries) +
        [Delivery(handler.value, Resolution(old(state), v).result, None)]
    {
      if v == Null {
        Handle(None, None);
      } else {
        var result: Result;
        if v.ResultObj? {
          result := v.result;
        } else {
          state := state.Set(v);
          result := state.Clone();
        }
        Handle(Some(result), None);
      }
    }

    /** `reject(Throwable)`: hands the cause, possibly null, to the handler as it is. */
    method Reject(cause: Option<Cause>)
      requires handler.Some?
      modifies this`deliveries
      ensures deliveries == old(deliveries) + [Delivery(handler.value, None, cause)]
    {
      Handle(None, cause);
    }

    /** `run(CheckedFunction0)`: a unit of work that, run later, resolves this deferred from the block. */
    function Run(block: Block): (t: Task)
      ensures t.target == this && t.block == block
    {
      Task(this, block)
    }

    /**
     `resolve(CheckedFunction0)`: apply the block once; `outcome` is what it
     returns or throws. Resolve the returned value or reject the thrown cause.
     */
    method ResolveBlock(outcome: Producer)
      requires handler.Some?
      modifies this`state, this`deliveries
      ensures state == BlockSettlement(old(state), outcome).state
      ensures deliveries == old(deliveries) +
        [Delivery(handler.value, BlockSettlement(old(state), outcome).result,
                  BlockSettlement(old(state), outcome).exception)]
    {
      match outcome
      case Returns(v) => Resolve(v);
      case Throws(x) => Reject(Some(x));
    }

    /**
     `handler(req, handler)`: store the handler, then run the initializer, if
     any, with the request and this deferred. Returns true when that run throws
     a NullPointerException because the wrapped Initializer0 was null. The
     initializer holds this deferred and may settle it before returning, so the
     contract admits any further deliveries to `h` and any new Result state.
     */
    method Handler(req: Request, h: HandlerRef) returns (npe: bool)
      modifies this`handler, this`initializerRuns, this`state, this`deliveries
      ensures handler == Some(h)
      ensures initializer.None? || npe ==> state == old(state) && deliveries == old(deliveries)
      ensures |old(deliveries)| <= |deliveries| && deliveries[..|old(deliveries)|] == old(deliveries)
      ensures forall i :: |old(deliveries)| <= i < |deliveries| ==> deliveries[i].to == h
      ensures initializer.None? ==> initializerRuns == old(initializerRuns)
      ensures initializer.Some? ==>
        initializerRuns == old(initializerRuns) + [InitializerRun(initializer.value, req, this)]
      ensures npe <==> initializer == Some(Adapted(None))
    {
      handler := Some(h);
      npe := false;
      if initializer.Some? {
        initializerRuns := initializerRuns + [InitializerRun(initializer.value, req, this)];
        npe := initializer.value == Adapted(None);
      }
    }
  }

  /**
   `Runnable.run()` of the unit of work made by `run(block)`. Every run applies
   `t.block` afresh; `outcome` is what that application returns or throws, and
   the run has the same effect as `resolve(block)` with that outcome.
   */
  method Execute(t: Task, outcome: Producer)
    requires t.target.handler.Some?
    modifies t.target`state, t.target`deliveries
    ensures t.target.state == BlockSettlement(old(t.target.state), outcome).state
    ensures t.target.deliveries == old(t.target.deliveries) +
      [Delivery(t.target.handler.value, BlockSettlement(old(t.target.state), outcome).result,
                BlockSettlement(old(t.target.state), outcome).exception)]
  {
    t.target.ResolveBlock(outcome);
  }

  /**
   A client: create with an executor and an initializer, arm, then resolve a
   plain value; the initializer ran once, and whatever it settled meanwhile, the
   last delivery carries the value to the handler.
   */
  method ArmThenResolve(init: InitializerRef, req: Request, h: HandlerRef, v: Payload)
  {
    var d := new Deferred.WithExecutor(Some("blocking"), init, "main");
    var npe := d.Handler(req, h);
    assert !npe && d.initializerRuns == [InitializerRun(Direct(init), req, d)];
    assert d.Executor() == Some("blocking") && d.CallerThread() == Some("main");
    var before := |d.deliveries|;
    d.Resolve(PlainObj(v));
    assert |d.deliveries| == before + 1;
    assert d.deliveries[before].to == h && d.deliveries[before].exception == None;
    assert d.deliveries[before].result == Some(d.state) && d.state.value == PlainObj(v);
  }

  /** A client: a block that throws is rejected, and there is no guard against settling twice. */
  method ThrowThenSettleAgain(h: HandlerRef, req: Request, b: Block, x: Cause, r: Result)
  {
    var d := new Deferred();
    var npe := d.Handler(req, h);
    assert !npe && d.initializerRuns == [];
    var t := d.Run(b);
    Execute(t, Throws(x));
    assert d.deliveries == [Delivery(h, None, Some(x))];
    var same := d.Set(ResultObj(r));
    assert same == d;
    assert d.deliveries == [Delivery(h, None, Some(x)), Delivery(h, Some(r), None)];
    assert d.state == EmptyResult;
  }

  /** A client: a null Initializer0 is accepted at construction and fails only at arming. */
  method NullInitializer0(req: Request, h: HandlerRef)
  {
    var d := new Deferred.WithInitializer0(None, "main");
    var npe := d.Handler(req, h);
    assert npe && d.handler == Some(h);
  }
}
