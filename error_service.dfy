/**
  The client's error service: one shared instance holding an append-only error
  log and a list of registered handlers, with helpers that turn wallet,
  transaction and program failures into logged errors.

  Handlers are identified by their identity (`HandlerId`); what a handler does
  when called is outside the model, so each call is recorded as a `Delivery`.
  The clock is a parameter.
*/
module ErrorService {
  import opened Wrappers
  import opened JsValues
  import opened Sequences

  /** The `ErrorCode` enumeration of the client's error types. */
  datatype ErrorCode =
    | WalletNotConnected | WalletConnectionFailed | WalletDisconnected | InsufficientBalance
    | TransactionFailed | TransactionTimeout | TransactionRejected | TransactionInvalid
    | ProgramNotInitialized | InvalidProgramId | InvalidAccount | InvalidInstruction
    | ProposalNotFound | ProposalAlreadyExists | ProposalEnded | ProposalNotStarted | InvalidProposalParams
    | VoteNotAllowed | AlreadyVoted | InvalidVoteOption
    | NetworkError | RpcError | Timeout
    | ValidationError | InvalidInput | RequiredField
    | UnknownError | InternalError

  type HandlerId = nat

  /**
    The error object `createError` builds. `name` and `code` are both the given
    code; `context` is the original error when `{ originalError }` was passed.
  */
  datatype ServiceError = ServiceError(
    name: ErrorCode,
    message: string,
    code: ErrorCode,
    details: Option<map<string, string>>,
    timestamp: int,
    context: Option<Caught>)

  /** One call `handler(error)`. */
  datatype Delivery = Delivery(handler: HandlerId, error: ServiceError)

  /** The calls `handlers.forEach(handler => handler(error))` makes, in order. */
  function Notify(handlers: seq<HandlerId>, e: ServiceError): (r: seq<Delivery>)
    ensures |r| == |handlers|
    ensures forall i | 0 <= i < |r| :: r[i] == Delivery(handlers[i], e)
  {
    seq(|handlers|, i requires 0 <= i < |handlers| => Delivery(handlers[i], e))
  }

  /** The arguments a helper passes to `createError`. */
  datatype Request = Request(code: ErrorCode, message: string, context: Option<Caught>)

  /**
    `handleWalletError(error)`: a falsy error (`undefined`, `null`, `""`, `0`, …)
    means the wallet is not connected; a message mentioning 'insufficient funds'
    means the balance is too low; anything else is a failed connection, reported
    with the original error.
  */
  function WalletRequest(error: Caught): (r: Request)
    ensures r.code == WalletNotConnected <==> error == Nullish || error == Falsy
    ensures r.code == InsufficientBalance <==> error.Thrown? && MessageContains(error.message, "insufficient funds")
    ensures r.code == WalletConnectionFailed <==>
              error.Thrown? && !MessageContains(error.message, "insufficient funds")
    ensures r.context.Some? <==> r.code == WalletConnectionFailed
    ensures r.context.Some? ==> r.context.value == error
  {
    if !error.Thrown? then Request(WalletNotConnected, "Wallet is not connected", None)
    else if MessageContains(error.message, "insufficient funds") then
      Request(InsufficientBalance, "Insufficient balance to complete the transaction", None)
    else Request(WalletConnectionFailed, "Failed to connect to wallet", Some(error))
  }

  /**
    `handleTransactionError(error)`: 'timeout' is checked before 'rejected', and
    anything else is a failed transaction reported with the original error.
    Reading `.message` of `undefined` or `null` raises a TypeError; any other
    falsy value has no message and is a failed transaction.
  */
  function TransactionRequest(error: Caught): (r: Result<Request, JsException>)
    ensures r.Failure? <==> error == Nullish
    ensures r.Success? ==>
              && (r.value.code == TransactionTimeout <==> MessageContains(MessageProperty(error), "timeout"))
              && (r.value.code == TransactionRejected <==>
                    !MessageContains(MessageProperty(error), "timeout") && MessageContains(MessageProperty(error), "rejected"))
              && (r.value.code == TransactionFailed <==>
                    !MessageContains(MessageProperty(error), "timeout") && !MessageContains(MessageProperty(error), "rejected"))
              && (r.value.context.Some? <==> r.value.code == TransactionFailed)
              && (r.value.context.Some? ==> r.value.context.value == error)
  {
    match MessageOf(error)
    case Failure(x) => Failure(x)
    case Success(m) =>
      if MessageContains(m, "timeout") then Success(Request(TransactionTimeout, "Transaction timed out", None))
      else if MessageContains(m, "rejected") then Success(Request(TransactionRejected, "Transaction was rejected", None))
      else Success(Request(TransactionFailed, "Transaction failed", Some(error)))
  }

  /**
    `handleProgramError(error)`: the code is PROGRAM_NOT_INITIALIZED whatever the
    message says; only the message and the context depend on 'not initialized'.
  */
  function ProgramRequest(error: Caught): (r: Result<Request, JsException>)
    ensures r.Failure? <==> error == Nullish
    ensures r.Success? ==> r.value.code == ProgramNotInitialized
    ensures r.Success? ==>
              (r.value.message == "Program is not initialized" <==> MessageContains(MessageProperty(error), "not initialized"))
  {
    match MessageOf(error)
    case Failure(x) => Failure(x)
    case Success(m) =>
      if MessageContains(m, "not initialized") then Success(Request(ProgramNotInitialized, "Program is not initialized", None))
      else Success(Request(ProgramNotInitialized, "Program error occurred", Some(error)))
  }

  class Service {
    /** The `errorHandlers` array, in registration order. */
    var handlers: seq<HandlerId>
    /** The `errorLog` array. */
    var log: seq<ServiceError>
    /** Every handler call made so far, in order. */
    var deliveries: seq<Delivery>

    constructor ()
      ensures handlers == [] && log == [] && deliveries == []
    {
      handlers, log, deliveries := [], [], [];
    }

    /**
      `createError`: builds the error, appends it to the log and calls every
      registered handler with it once, in registration order.
    */
    method CreateError(code: ErrorCode, message: string, context: Option<Caught>, details: Option<map<string, string>>, now: int)
      returns (e: ServiceError)
      modifies this
      ensures e == ServiceError(code, message, code, details, now, context)
      ensures log == old(log) + [e]
      ensures deliveries == old(deliveries) + Notify(handlers, e)
      ensures handlers == old(handlers)
    {
      e := ServiceError(code, message, code, details, now, context);
      log := log + [e];
      var i := 0;
      while i < |handlers|
        invariant 0 <= i <= |handlers|
        invariant deliveries == old(deliveries) + Notify(handlers[..i], e)
        invariant log == old(log) + [e] && handlers == old(handlers)
      {
        assert Notify(handlers[..i + 1], e) == Notify(handlers[..i], e) + [Delivery(handlers[i], e)];
        deliveries := deliveries + [Delivery(handlers[i], e)];
        i := i + 1;
      }
      assert handlers[..i] == handlers;
    }

    /** `registerHandler`: appends, so the same handler may be registered twice. */
    method RegisterHandler(h: HandlerId)
      modifies this
      ensures handlers == old(handlers) + [h]
      ensures log == old(log) && deliveries == old(deliveries)
    {
      handlers := handlers + [h];
    }

    /** `removeHandler`: drops every registration of `h` and keeps the others in their order. */
    method RemoveHandler(h: HandlerId)
      modifies this
      ensures handlers == Filter(old(handlers), (x: HandlerId) => x != h)
      ensures h !in handlers
      ensures forall x | x != h :: multiset(handlers)[x] == multiset(old(handlers))[x]
      ensures IsSubsequence(handlers, old(handlers))
      ensures log == old(log) && deliveries == old(deliveries)
    {
      handlers := Filter(handlers, (x: HandlerId) => x != h);
      if h in handlers {
        FilterMembership(old(handlers), (x: HandlerId) => x != h, h);
      }
    }

    /** `getErrorLog`: a fresh array holding the log, so writing to it cannot change the log. */
    method GetErrorLog() returns (copy: array<ServiceError>)
      ensures fresh(copy)
      ensures copy[..] == log
    {
      copy := new ServiceError[|log|](i requires 0 <= i < |log| reads this => log[i]);
    }

    /** `clearErrorLog`: the log becomes empty; the handlers stay registered. */
    method ClearErrorLog()
      modifies this
      ensures log == [] && handlers == old(handlers) && deliveries == old(deliveries)
    {
      log := [];
    }

    /** `handleWalletError`: logs and returns the error `WalletRequest` describes. */
    method HandleWalletError(error: Caught, now: int) returns (e: ServiceError)
      modifies this
      ensures var q := WalletRequest(error);
              e == ServiceError(q.code, q.message, q.code, None, now, q.context)
      ensures log == old(log) + [e] && deliveries == old(deliveries) + Notify(handlers, e)
      ensures handlers == old(handlers)
    {
      var q := WalletRequest(error);
      e := CreateError(q.code, q.message, q.context, None, now);
    }

    /** `handleTransactionError`: logs the error `TransactionRequest` describes; on `undefined` nothing is logged. */
    method HandleTransactionError(error: Caught, now: int) returns (r: Result<ServiceError, JsException>)
      modifies this
      ensures match TransactionRequest(error)
              case Failure(x) => r == Failure(x) && log == old(log) && deliveries == old(deliveries)
              case Success(q) =>
                && r == Success(ServiceError(q.code, q.message, q.code, None, now, q.context))
                && log == old(log) + [r.value] && deliveries == old(deliveries) + Notify(handlers, r.value)
      ensures handlers == old(handlers)
    {
      var q := TransactionRequest(error);
      if q.Failure? {
        return Failure(q.error);
      }
      var e := CreateError(q.value.code, q.value.message, q.value.context, None, now);
      r := Success(e);
    }

    /** `handleProgramError`: logs the error `ProgramRequest` describes; on `undefined` nothing is logged. */
    method HandleProgramError(error: Caught, now: int) returns (r: Result<ServiceError, JsException>)
      modifies this
      ensures match ProgramRequest(error)
              case Failure(x) => r == Failure(x) && log == old(log) && deliveries == old(deliveries)
              case Success(q) =>
                && r == Success(ServiceError(q.code, q.message, q.code, None, now, q.context))
                && log == old(log) + [r.value] && deliveries == old(deliveries) + Notify(handlers, r.value)
      ensures handlers == old(handlers)
    {
      var q := ProgramRequest(error);
      if q.Failure? {
        return Failure(q.error);
      }
      var e := CreateError(q.value.code, q.value.message, q.value.context, None, now);
      r := Success(e);
    }
  }

  /** The class-level `instance` slot of the singleton. */
  class Registry {
    var instance: Service?

    constructor ()
      ensures instance == null
    {
      instance := null;
    }

    /** `getInstance`: creates the service on the first call and returns that same service on every call. */
    method GetInstance() returns (s: Service)
      modifies this
      ensures old(instance) != null ==> s == old(instance)
      ensures old(instance) == null ==> fresh(s) && s.log == [] && s.handlers == []
      ensures instance == s
    {
      if instance == null {
        instance := new Service();
      }
      s := instance;
    }
  }

  /** Two calls of `getInstance` return the same service. */
  method GetInstanceTwice(registry: Registry) returns (a: Service, b: Service)
    modifies registry
    ensures a == b
  {
    a := registry.GetInstance();
    b := registry.GetInstance();
  }
}
