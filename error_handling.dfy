/**
  The client's error classifier: the `AppError` record with its constructor
  defaults, the table of error codes and user-facing messages, and `handleError`,
  which sorts an arbitrary caught value into one of four codes by the words its
  message contains.
*/
module ErrorHandling {
  import opened Wrappers
  import opened JsValues

  datatype ErrorType = Wallet | Network | Transaction | Validation | Unknown

  datatype ErrorCategory = User | System | Blockchain

  /** The keys of the `ErrorCodes` table. */
  datatype Code =
    | WalletNotConnected | WalletConnectionFailed | WalletDisconnected | WalletRejected
    | NetworkError | RpcError | Timeout
    | TransactionFailed | InsufficientFunds | TransactionRejected
    | InvalidInput | InvalidState | InvalidParameters
    | UnknownError

  /** `ErrorCodes[c]`: every code's value is its own name. */
  function CodeName(c: Code): (r: string)
    ensures r != [] && 'A' <= r[0] <= 'Z' && r[|r| - 1] != '_'
  {
    match c
    case WalletNotConnected => "WALLET_NOT_CONNECTED"
    case WalletConnectionFailed => "WALLET_CONNECTION_FAILED"
    case WalletDisconnected => "WALLET_DISCONNECTED"
    case WalletRejected => "WALLET_REJECTED"
    case NetworkError => "NETWORK_ERROR"
    case RpcError => "RPC_ERROR"
    case Timeout => "TIMEOUT"
    case TransactionFailed => "TRANSACTION_FAILED"
    case InsufficientFunds => "INSUFFICIENT_FUNDS"
    case TransactionRejected => "TRANSACTION_REJECTED"
    case InvalidInput => "INVALID_INPUT"
    case InvalidState => "INVALID_STATE"
    case InvalidParameters => "INVALID_PARAMETERS"
    case UnknownError => "UNKNOWN_ERROR"
  }

  /** `ErrorMessages[ErrorCodes[c]]`: a sentence for the user, ending in a full stop. */
  function Message(c: Code): (r: string)
    ensures |r| > 1 && r[|r| - 1] == '.'
  {
    match c
    case WalletNotConnected => "Wallet is not connected. Please connect your wallet to continue."
    case WalletConnectionFailed => "Failed to connect wallet. Please try again."
    case WalletDisconnected => "Wallet disconnected. Please reconnect to continue."
    case WalletRejected => "Wallet operation was rejected by the user."
    case NetworkError => "Network error occurred. Please check your connection and try again."
    case RpcError => "Error communicating with the blockchain. Please try again later."
    case Timeout => "Operation timed out. Please try again."
    case TransactionFailed => "Transaction failed. Please try again."
    case InsufficientFunds => "Insufficient funds to complete the transaction."
    case TransactionRejected => "Transaction was rejected."
    case InvalidInput => "Invalid input provided."
    case InvalidState => "Invalid application state."
    case InvalidParameters => "Invalid parameters provided."
    case UnknownError => "An unknown error occurred. Please try again."
  }

  /** The code names are pairwise distinct, so `ErrorMessages`, keyed by name, has one entry per code. */
  lemma CodeNameInjective(a: Code, b: Code)
    ensures CodeName(a) == CodeName(b) <==> a == b
  {
  }

  /** An `AppError`; `details` is the value the error was made from, when there is one. */
  datatype AppError = AppError(
    message: string,
    name: string,
    kind: ErrorType,
    category: ErrorCategory,
    code: string,
    details: Option<Caught>)

  /** `new AppError(message, type, category, code, details)`, with the constructor's default arguments. */
  function NewAppError(
    message: string,
    kind: ErrorType := ErrorType.Unknown,
    category: ErrorCategory := ErrorCategory.System,
    code: string := "UNKNOWN_ERROR",
    details: Option<Caught> := None)
    : (r: AppError)
    ensures r.name == "AppError"
    ensures r.message == message && r.kind == kind && r.category == category && r.code == code && r.details == details
  {
    AppError(message, "AppError", kind, category, code, details)
  }

  /** With only a message, the error is UNKNOWN, SYSTEM, 'UNKNOWN_ERROR', without details. */
  lemma ConstructorDefaults(message: string)
    ensures NewAppError(message) == AppError(message, "AppError", ErrorType.Unknown, System, CodeName(UnknownError), None)
  {
  }

  /** The code `handleError` chooses for a message: 'wallet' first, then 'network'/'fetch', then 'transaction'/'solana'. */
  function Classify(message: Option<string>): (c: Code)
    ensures c in {WalletNotConnected, NetworkError, TransactionFailed, UnknownError}
    ensures c == WalletNotConnected <==> MessageContains(message, "wallet")
    ensures c == NetworkError <==>
              !MessageContains(message, "wallet")
              && (MessageContains(message, "network") || MessageContains(message, "fetch"))
    ensures c == TransactionFailed <==>
              && !MessageContains(message, "wallet")
              && !MessageContains(message, "network") && !MessageContains(message, "fetch")
              && (MessageContains(message, "transaction") || MessageContains(message, "solana"))
    ensures message.None? ==> c == UnknownError
  {
    if MessageContains(message, "wallet") then WalletNotConnected
    else if MessageContains(message, "network") || MessageContains(message, "fetch") then NetworkError
    else if MessageContains(message, "transaction") || MessageContains(message, "solana") then TransactionFailed
    else UnknownError
  }

  /** The `ErrorType` `handleError` pairs with each of its four codes. */
  function TypeOf(c: Code): (r: ErrorType)
    ensures r == ErrorType.Wallet <==> c == WalletNotConnected
    ensures r == ErrorType.Network <==> c == NetworkError
    ensures r == ErrorType.Transaction <==> c == TransactionFailed
    ensures r != ErrorType.Validation
  {
    match c
    case WalletNotConnected => ErrorType.Wallet
    case NetworkError => ErrorType.Network
    case TransactionFailed => ErrorType.Transaction
    case _ => ErrorType.Unknown
  }

  /** The `ErrorCategory` `handleError` pairs with each of its four codes: only a wallet error is the user's. */
  function CategoryOf(c: Code): (r: ErrorCategory)
    ensures r == User <==> c == WalletNotConnected
    ensures r == Blockchain <==> c == TransactionFailed
  {
    match c
    case WalletNotConnected => User
    case TransactionFailed => Blockchain
    case _ => System
  }

  /** What `handleError` is given: an `AppError` already, or any other caught value. */
  datatype Handled = Existing(error: AppError) | Other(caught: Caught)

  /**
    `handleError(error)`: an `AppError` comes back unchanged; any other value
    becomes a fresh `AppError` whose code is chosen by `Classify`, whose message is
    that code's table message, and whose details are the value itself. Reading
    `.message` of `undefined` or `null` raises a TypeError; any other falsy value
    has no message and is an UNKNOWN_ERROR.
  */
  function HandleError(input: Handled): (r: Result<AppError, JsException>)
    ensures input.Existing? ==> r == Success(input.error)
    ensures r.Failure? <==> input == Other(Nullish)
    ensures input.Other? && input.caught != Nullish ==>
              var c := Classify(MessageProperty(input.caught));
              && r.Success?
              && r.value.code == CodeName(c)
              && r.value.message == Message(c)
              && r.value.kind == TypeOf(c) && r.value.category == CategoryOf(c)
              && r.value.details == Some(input.caught)
              && r.value.name == "AppError"
  {
    match input
    case Existing(e) => Success(e)
    case Other(caught) =>
      match MessageOf(caught)
      case Failure(x) => Failure(x)
      case Success(m) =>
        var c := Classify(m);
        Success(NewAppError(Message(c), TypeOf(c), CategoryOf(c), CodeName(c), Some(caught)))
  }

  /** The message of every error `handleError` makes is the table message of the code it carries. */
  lemma HandledMessageMatchesCode(caught: Caught)
    requires caught != Nullish
    ensures var e := HandleError(Other(caught)).value;
            exists c :: CodeName(c) == e.code && Message(c) == e.message
  {
    var c := Classify(MessageProperty(caught));
    assert CodeName(c) == HandleError(Other(caught)).value.code;
  }

  /** Handling an error a second time changes nothing. */
  lemma HandleErrorIdempotent(input: Handled)
    requires HandleError(input).Success?
    ensures HandleError(Existing(HandleError(input).value)) == HandleError(input)
  {
  }
}
