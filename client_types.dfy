/**
  Types shared by the client's services and components: the client's view of a
  proposal, what an awaited call produces, and the state a form's dialog shows.
*/
module ClientTypes {
  import opened Wrappers
  import opened JsValues

  /** `Math.floor(nowMs / 1000)`: the current Unix second. */
  function FloorSeconds(nowMs: int): (r: int)
    ensures r * 1000 <= nowMs < r * 1000 + 1000
  {
    nowMs / 1000
  }

  /** A public key in its printed (base58) form. */
  type Key = string

  /** `Proposal` of the client's type definitions; times are Unix seconds. */
  datatype ClientProposal = ClientProposal(
    id: string,
    title: string,
    description: string,
    options: seq<string>,
    startTime: int,
    endTime: int,
    totalVotes: int,
    isActive: bool,
    authority: Key,
    pubkey: Key)

  /** A value an awaited call resolves with: `null`, a string, or a `{ success, transactionHash }` record. */
  datatype JsReturn = Null | Str(s: string) | Record(success: bool, transactionHash: Option<string>)

  /**
    An awaited call: it resolves with a value, rejects with a caught value, or
    cannot be made because the callee is `undefined`, which raises a TypeError.
  */
  datatype Call = Resolved(value: JsReturn) | Rejected(error: Caught) | NotAFunction

  /** `result.success` is truthy: only a record whose flag is set. */
  predicate Succeeded(c: Call)
  {
    c.Resolved? && c.value.Record? && c.value.success
  }

  /**
    A `try` block that awaits the call and reads `result.success` throws: the call
    rejects, cannot be made, or resolves with `null`, whose `success` cannot be read.
  */
  predicate ThrowsReadingSuccess(c: Call)
  {
    c.Rejected? || c.NotAFunction? || c == Resolved(Null)
  }

  /** The transaction dialog's status. */
  datatype DialogStatus = StatusPending | StatusSuccess | StatusError

  /** The transaction dialog's state as a form keeps it: submitting, status, message, signature and visibility. */
  datatype DialogState = DialogState(isSubmitting: bool, status: DialogStatus, message: string, hash: Option<string>, showDialog: bool)

  /**
    What a component hands to `addError`: one of its own validation notices
    (type VALIDATION, category USER, code INVALID_INPUT), a caught value, or the
    TypeError the component itself raised.
  */
  datatype ReportedError = Invalid(message: string) | CaughtValue(error: Caught) | RaisedTypeError

  /** What the `catch` clause receives: the rejection itself, or a TypeError raised inside the `try` block. */
  function Reported(c: Call): ReportedError
  {
    if c.Rejected? then CaughtValue(c.error) else RaisedTypeError
  }
}
