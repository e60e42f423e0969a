/**
  The client's transaction pipeline: a bounded retry loop with linear back-off
  around a submit operation, a registry of tracked transactions keyed by a fresh
  id, and the classification of each submission as confirmed or failed.

  The submit operation and the confirmation request are oracles: `operation(i)`
  is what the i-th call of the operation does, and `confirmation` is what the
  confirmation request does. Sleeps are returned as a list of delays in
  milliseconds, the clock is a parameter, and fresh ids come from a counter.
*/
module TransactionService {
  import opened Wrappers
  import opened JsValues
  import opened Sequences

  datatype TransactionStatus = Pending | Confirmed | Failed | Cancelled

  datatype TransactionType = CreateProposal | CastVote | UpdateProposal | CloseProposal

  type Metadata = map<string, string>

  datatype Transaction = Transaction(
    id: nat,
    kind: TransactionType,
    status: TransactionStatus,
    signature: string,
    timestamp: int,
    error: Option<string>,
    metadata: Option<Metadata>)

  datatype TransactionResult = TransactionResult(
    success: bool,
    error: Option<string>,
    signature: Option<string>,
    status: TransactionStatus)

  /** What one call of the submit operation does: resolve with a signature or throw. */
  datatype Attempt = Signed(signature: string) | Threw(error: Caught)

  /**
    What the confirmation request does: resolve with `value.err === null`
    (`Landed`), resolve with an error value (`LandedWithError`), or throw.
  */
  datatype Confirmation = Landed | LandedWithError | ConfirmThrew

  /** How the retry loop ends, and how many times it called the operation. */
  datatype RetryOutcome = Returned(signature: string, calls: nat) | Rethrown(error: Caught, calls: nat)

  const CONFIRM_FAILURE: string := "Transaction failed to confirm"
  const DEFAULT_MAX_RETRIES: int := 3

  /** `options?.maxRetries || 3`: an absent or zero budget becomes 3. */
  function EffectiveMaxRetries(configured: Option<int>): (r: int)
    ensures r != 0
    ensures configured.Some? && configured.value != 0 ==> r == configured.value
    ensures configured.None? || configured.value == 0 ==> r == DEFAULT_MAX_RETRIES
  {
    if configured.None? || configured.value == 0 then DEFAULT_MAX_RETRIES else configured.value
  }

  /**
    `waitForConfirmation`: true when the transaction landed with `err === null`;
    false when it landed with an error and when the request itself threw.
  */
  function WaitForConfirmation(c: Confirmation): (r: bool)
    ensures c == Landed ==> r
    ensures c == LandedWithError ==> !r
    ensures c == ConfirmThrew ==> !r
  {
    c == Landed
  }

  /** The sleeps taken before the n-th further attempt: 1000, 2000, ..., 1000 * n milliseconds. */
  function Backoff(n: nat): (r: seq<nat>)
    ensures |r| == n
    ensures n > 0 ==> r[0] == 1000
    ensures forall k | 0 < k < n :: r[k] == r[k - 1] + 1000
  {
    seq(n, k => 1000 * (k + 1))
  }

  /**
    The retry loop from iteration `i` on, with `lastError` the error caught so far.
    Stated for every starting point, so that the loop's invariant can use it.
  */
  function RetryFrom(operation: nat -> Attempt, maxRetries: int, i: nat, lastError: Caught): (r: RetryOutcome)
    ensures r.Returned? ==>
              && i < r.calls <= maxRetries
              && operation(r.calls - 1) == Signed(r.signature)
              && (forall j | i <= j < r.calls - 1 :: operation(j).Threw?)
    ensures r.Rethrown? ==>
              && r.calls == (if i < maxRetries then maxRetries else i)
              && (forall j | i <= j < maxRetries :: operation(j).Threw?)
              && (if i < maxRetries then operation(maxRetries - 1) == Threw(r.error) else r.error == lastError)
    decreases if i < maxRetries then maxRetries - i else 0
  {
    if i < maxRetries then
      match operation(i)
      case Signed(s) => Returned(s, i + 1)
      case Threw(e) => RetryFrom(operation, maxRetries, i + 1, e)
    else Rethrown(lastError, i)
  }

  /**
    `retryTransaction(operation, maxRetries)`: the operation is called at most
    `maxRetries` times; the first signature it returns is the result; if every call
    throws, the last error is rethrown, and with no call at all `undefined` is.
  */
  function Retry(operation: nat -> Attempt, maxRetries: int): (r: RetryOutcome)
    ensures r.calls <= (if maxRetries < 0 then 0 else maxRetries)
    ensures r.Returned? <==> exists j :: 0 <= j < maxRetries && operation(j).Signed?
    ensures r.Returned? ==>
              && 0 < r.calls
              && operation(r.calls - 1) == Signed(r.signature)
              && (forall j | 0 <= j < r.calls - 1 :: operation(j).Threw?)
    ensures r.Rethrown? && maxRetries > 0 ==> operation(maxRetries - 1) == Threw(r.error)
    ensures r.Rethrown? && maxRetries <= 0 ==> r == Rethrown(Nullish, 0)
  {
    RetryFrom(operation, maxRetries, 0, Nullish)
  }

  /**
    The delays the loop sleeps through before ending with `r`: one after every
    failed call except the last, so none when the first call decides.
  */
  function DelaysOf(r: RetryOutcome): (d: seq<nat>)
    ensures r.calls <= 1 ==> d == []
    ensures r.calls > 1 ==> |d| == r.calls - 1 && d[|d| - 1] == 1000 * (r.calls - 1)
    ensures forall k | 0 <= k < |d| :: d[k] == 1000 * (k + 1)
  {
    Backoff(if r.calls > 0 then r.calls - 1 else 0)
  }

  /**
    `sendTransaction`'s result for a retry outcome and a confirmation: success
    exactly when a signature came back and its confirmation landed without error;
    a failed confirmation keeps the signature and reports CONFIRM_FAILURE; a
    rethrown error reports its `message`, and `undefined` or `null` rethrown makes
    reading that message raise a TypeError.
  */
  function SendResult(retry: RetryOutcome, confirmation: Confirmation): (r: Result<TransactionResult, JsException>)
    ensures r.Failure? <==> retry.Rethrown? && retry.error == Nullish
    ensures r.Success? ==>
              && (r.value.success <==> retry.Returned? && confirmation == Landed)
              && (r.value.success <==> r.value.status == Confirmed)
              && (!r.value.success <==> r.value.status == Failed)
    ensures retry.Returned? ==>
              && r.Success? && r.value.signature == Some(retry.signature)
              && (r.value.success || r.value.error == Some(CONFIRM_FAILURE))
    ensures retry.Rethrown? && r.Success? ==>
              r.value == TransactionResult(false, MessageProperty(retry.error), None, Failed)
  {
    match retry
    case Returned(s, _) =>
      if WaitForConfirmation(confirmation) then Success(TransactionResult(true, None, Some(s), Confirmed))
      else Success(TransactionResult(false, Some(CONFIRM_FAILURE), Some(s), Failed))
    case Rethrown(e, _) =>
      match MessageOf(e)
      case Failure(x) => Failure(x)
      case Success(m) => Success(TransactionResult(false, m, None, Failed))
  }

  /** The records of `m` listed in the order of `ids`. */
  function Values(m: map<nat, Transaction>, ids: seq<nat>): (r: seq<Transaction>)
    requires forall k | 0 <= k < |ids| :: ids[k] in m
    ensures |r| == |ids|
    ensures forall k | 0 <= k < |ids| :: r[k] == m[ids[k]]
  {
    if ids == [] then [] else [m[ids[0]]] + Values(m, ids[1..])
  }

  /**
    The record `sendTransaction` leaves under `id` once the retry outcome `out`
    is known: the signature with CONFIRMED or FAILED by the confirmation, or,
    after exhausted retries, an empty signature, FAILED, and the error's message
    (never set when reading it throws).
  */
  function Settled(
    id: nat, kind: TransactionType, out: RetryOutcome, confirmation: Confirmation, metadata: Option<Metadata>, now: int)
    : Transaction
  {
    match out
    case Returned(sig, _) =>
      if WaitForConfirmation(confirmation) then Transaction(id, kind, Confirmed, sig, now, None, metadata)
      else Transaction(id, kind, Failed, sig, now, Some(CONFIRM_FAILURE), metadata)
    case Rethrown(e, _) =>
      Transaction(id, kind, Failed, "", now, MessageProperty(e), metadata)
  }

  /**
    A sent transaction's record is never left PENDING; it is CONFIRMED exactly
    when a signature was obtained and the confirmation landed; and a resolved
    result reports the record's status and signature.
  */
  lemma SettledRecord(
    id: nat, kind: TransactionType, out: RetryOutcome, confirmation: Confirmation, metadata: Option<Metadata>, now: int)
    ensures var t := Settled(id, kind, out, confirmation, metadata, now);
            && t.id == id && t.kind == kind && t.timestamp == now && t.metadata == metadata
            && t.status != Pending
            && (t.status == Confirmed <==> out.Returned? && confirmation == Landed)
            && (out.Returned? ==> t.signature == out.signature && (t.error.None? <==> confirmation == Landed))
            && (out.Rethrown? ==> t.signature == "" && t.status == Failed)
    ensures var t, r := Settled(id, kind, out, confirmation, metadata, now), SendResult(out, confirmation);
            && (out.Returned? ==> r.Success? && r.value.status == t.status && r.value.signature == Some(t.signature))
            && (out.Rethrown? ==> (r.Failure? <==> out.error == Nullish))
            && (r.Success? ==> r.value.error == t.error)
  {
  }

  /** Replacing a key's value twice leaves the second value. */
  lemma ReplaceTwice<K, V>(m: map<K, V>, k: K, a: V, b: V)
    ensures m[k := a][k := b] == m[k := b]
  {
  }

  class TransactionTracker {
    /** `context.options?.maxRetries`. */
    const configuredMaxRetries: Option<int>
    /** The `transactions` map. */
    var transactions: map<nat, Transaction>
    /** Insertion order of the map's keys, which is the order its values are listed in. */
    var order: seq<nat>
    /** The next fresh id. */
    var nextId: nat

    predicate Valid()
      reads this
    {
      && (forall id | id in transactions :: id < nextId && transactions[id].id == id && id in order)
      && (forall k | 0 <= k < |order| :: order[k] in transactions)
      && (forall j, k | 0 <= j < k < |order| :: order[j] < order[k])
    }

    constructor (configuredMaxRetries: Option<int>)
      ensures Valid()
      ensures this.configuredMaxRetries == configuredMaxRetries
      ensures transactions == map[] && order == []
    {
      this.configuredMaxRetries := configuredMaxRetries;
      transactions, order, nextId := map[], [], 0;
    }

    /** `retryTransaction`: the loop, proved to compute `Retry` and to sleep `DelaysOf` it. */
    method RetryTransaction(operation: nat -> Attempt, maxRetries: int) returns (out: RetryOutcome, delays: seq<nat>)
      ensures out == Retry(operation, maxRetries)
      ensures delays == DelaysOf(out)
    {
      var lastError := Nullish;
      delays := [];
      var i: nat := 0;
      while i < maxRetries
        invariant maxRetries > 0 ==> i <= maxRetries
        invariant maxRetries <= 0 ==> i == 0
        invariant RetryFrom(operation, maxRetries, i, lastError) == Retry(operation, maxRetries)
        invariant i < maxRetries ==> delays == Backoff(i)
        invariant 0 < i == maxRetries ==> delays == Backoff(i - 1)
        invariant i == 0 ==> delays == []
        decreases maxRetries - i
      {
        match operation(i)
        case Signed(s) =>
          return Returned(s, i + 1), delays;
        case Threw(e) =>
          lastError := e;
          if i < maxRetries - 1 {
            delays := delays + [1000 * (i + 1)];
          }
        i := i + 1;
      }
      return Rethrown(lastError, i), delays;
    }

    /** `createTransaction`: stores a PENDING record under a fresh id. */
    method CreateTransaction(kind: TransactionType, signature: string, metadata: Option<Metadata>, now: int)
      returns (t: Transaction)
      requires Valid()
      modifies this
      ensures Valid()
      ensures t.id == old(nextId) && t.id !in old(transactions)
      ensures t == Transaction(t.id, kind, Pending, signature, now, None, metadata)
      ensures transactions == old(transactions)[t.id := t]
      ensures order == old(order) + [t.id]
      ensures nextId == old(nextId) + 1
    {
      t := Transaction(nextId, kind, Pending, signature, now, None, metadata);
      transactions := transactions[t.id := t];
      order := order + [t.id];
      nextId := nextId + 1;
    }

    /**
      `sendTransaction`: one retry loop, then one new record under the next id,
      appended to the order, with nothing else changed. The record is stored
      before the confirmation is awaited and then settled to `Settled`.
    */
    method SendTransaction(
      kind: TransactionType, operation: nat -> Attempt, confirmation: Confirmation,
      metadata: Option<Metadata>, now: int)
      returns (r: Result<TransactionResult, JsException>, delays: seq<nat>)
      requires Valid()
      modifies this
      ensures Valid()
      ensures delays == DelaysOf(Retry(operation, EffectiveMaxRetries(configuredMaxRetries)))
      ensures r == SendResult(Retry(operation, EffectiveMaxRetries(configuredMaxRetries)), confirmation)
      ensures old(nextId) !in old(transactions)
      ensures transactions == old(transactions)[old(nextId) :=
                Settled(old(nextId), kind, Retry(operation, EffectiveMaxRetries(configuredMaxRetries)), confirmation, metadata, now)]
      ensures order == old(order) + [old(nextId)] && nextId == old(nextId) + 1
    {
      var out;
      out, delays := RetryTransaction(operation, EffectiveMaxRetries(configuredMaxRetries));
      if out.Returned? {
        r := RecordSigned(kind, out, confirmation, metadata, now);
      } else {
        r := RecordExhausted(kind, out, confirmation, metadata, now);
      }
    }

    /** A signature was obtained: store it PENDING, then settle it by the confirmation. */
    method RecordSigned(
      kind: TransactionType, out: RetryOutcome, confirmation: Confirmation, metadata: Option<Metadata>, now: int)
      returns (r: Result<TransactionResult, JsException>)
      requires Valid() && out.Returned?
      modifies this
      ensures Valid()
      ensures r == SendResult(out, confirmation)
      ensures old(nextId) !in old(transactions)
      ensures transactions == old(transactions)[old(nextId) := Settled(old(nextId), kind, out, confirmation, metadata, now)]
      ensures order == old(order) + [old(nextId)] && nextId == old(nextId) + 1
    {
      ghost var before := transactions;
      var t := CreateTransaction(kind, out.signature, metadata, now);
      if WaitForConfirmation(confirmation) {
        Update(t.(status := Confirmed));
        ReplaceTwice(before, t.id, t, t.(status := Confirmed));
        r := Success(TransactionResult(true, None, Some(out.signature), Confirmed));
      } else {
        Update(t.(status := Failed, error := Some(CONFIRM_FAILURE)));
        ReplaceTwice(before, t.id, t, t.(status := Failed, error := Some(CONFIRM_FAILURE)));
        r := Success(TransactionResult(false, Some(CONFIRM_FAILURE), Some(out.signature), Failed));
      }
    }

    /**
      The retries were exhausted: store a FAILED record with an empty signature,
      then read the error's `message`, which throws a TypeError on a nullish error.
    */
    method RecordExhausted(
      kind: TransactionType, out: RetryOutcome, confirmation: Confirmation, metadata: Option<Metadata>, now: int)
      returns (r: Result<TransactionResult, JsException>)
      requires Valid() && out.Rethrown?
      modifies this
      ensures Valid()
      ensures r == SendResult(out, confirmation)
      ensures old(nextId) !in old(transactions)
      ensures transactions == old(transactions)[old(nextId) := Settled(old(nextId), kind, out, confirmation, metadata, now)]
      ensures order == old(order) + [old(nextId)] && nextId == old(nextId) + 1
    {
      ghost var before := transactions;
      var created := CreateTransaction(kind, "", metadata, now);
      var t := created.(status := Failed);
      Update(t);
      ReplaceTwice(before, t.id, created, t);
      var message := MessageOf(out.error);
      if message.Failure? {
        return Failure(TypeError);
      }
      Update(t.(error := message.value));
      ReplaceTwice(before, t.id, t, t.(error := message.value));
      r := Success(TransactionResult(false, message.value, None, Failed));
    }

    /** Assigning fields of a stored record: the record under its id is replaced, nothing else changes. */
    method Update(t: Transaction)
      requires Valid() && t.id in transactions
      modifies this
      ensures Valid()
      ensures transactions == old(transactions)[t.id := t]
      ensures order == old(order) && nextId == old(nextId)
    {
      transactions := transactions[t.id := t];
    }

    /** `getTransaction(id)`. */
    function GetTransaction(id: nat): (r: Option<Transaction>)
      reads this
      requires Valid()
      ensures r.Some? <==> id in transactions
      ensures r.Some? ==> r.value == transactions[id] && r.value.id == id
    {
      if id in transactions then Some(transactions[id]) else None
    }

    /** `getAllTransactions()`: every stored record once, in insertion order. */
    function AllTransactions(): (r: seq<Transaction>)
      reads this
      requires Valid()
      ensures |r| == |transactions|
      ensures forall t :: t in r <==> t in transactions.Values
    {
      var r := Values(transactions, order);
      forall t | t in transactions.Values
        ensures t in r
      {
        var id :| id in transactions && transactions[id] == t;
        var k :| 0 <= k < |order| && order[k] == id;
        assert r[k] == t;
      }
      OrderCoversKeys();
      r
    }

    lemma OrderCoversKeys()
      requires Valid()
      ensures |order| == |transactions|
    {
      var ks := set k | 0 <= k < |order| :: order[k];
      assert ks == transactions.Keys;
      DistinctLength(order);
    }

    /** The stored records `keep` accepts, in insertion order: `getAllTransactions().filter(keep)`. */
    function Matching(keep: Transaction -> bool): (r: seq<Transaction>)
      reads this
      requires Valid()
      ensures forall t :: t in r <==> t in transactions.Values && keep(t)
      ensures IsSubsequence(r, AllTransactions())
    {
      var r := Filter(AllTransactions(), keep);
      forall t ensures t in r <==> t in transactions.Values && keep(t) {
        FilterMembership(AllTransactions(), keep, t);
      }
      r
    }

    /** `getTransactionsByType(kind)`: exactly the stored records of that type, in insertion order. */
    function GetTransactionsByType(kind: TransactionType): (r: seq<Transaction>)
      reads this
      requires Valid()
      ensures forall t :: t in r <==> t in transactions.Values && t.kind == kind
      ensures IsSubsequence(r, AllTransactions())
    {
      Matching((t: Transaction) => t.kind == kind)
    }

    /** `getTransactionsByStatus(status)`: exactly the stored records with that status, in insertion order. */
    function GetTransactionsByStatus(status: TransactionStatus): (r: seq<Transaction>)
      reads this
      requires Valid()
      ensures forall t :: t in r <==> t in transactions.Values && t.status == status
      ensures IsSubsequence(r, AllTransactions())
    {
      Matching((t: Transaction) => t.status == status)
    }
  }

  /** A strictly increasing list has as many elements as the set of its elements. */
  lemma {:induction false} DistinctLength(xs: seq<nat>)
    requires forall j, k | 0 <= j < k < |xs| :: xs[j] < xs[k]
    ensures |set k | 0 <= k < |xs| :: xs[k]| == |xs|
  {
    if xs != [] {
      DistinctLength(xs[1..]);
      var rest := set k | 0 <= k < |xs[1..]| :: xs[1..][k];
      var all := set k | 0 <= k < |xs| :: xs[k];
      assert all == {xs[0]} + rest;
      assert xs[0] !in rest;
    }
  }
}
