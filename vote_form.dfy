/**
  The vote form of a proposal: whether it is shown, and the state updates of
  casting a vote and closing the dialog. The clock is a parameter (`nowMs`, in
  milliseconds) and the awaited `vote` call is an oracle.
*/
module VoteForm {
  import opened Wrappers
  import opened JsValues
  import opened ClientTypes

  const SELECT_OPTION: string := "Please select an option to vote"
  const SUBMITTING: string := "Submitting your vote..."
  const RECORDED: string := "Your vote has been successfully recorded!"
  const VOTE_FAILED: string := "Failed to submit your vote. Please try again."
  const VOTE_ERROR: string := "An error occurred while submitting your vote."

  /**
    `isProposalActive`: the current whole second lies in the proposal's window,
    both ends included; in milliseconds, from the start's first millisecond to
    the end's last one.
  */
  function IsProposalActive(p: ClientProposal, nowMs: int): (r: bool)
    ensures r <==> p.startTime <= FloorSeconds(nowMs) <= p.endTime
    ensures r <==> p.startTime * 1000 <= nowMs < p.endTime * 1000 + 1000
  {
    var now := FloorSeconds(nowMs);
    now >= p.startTime && now <= p.endTime
  }

  /** What the component renders: a notice, or the vote controls for the proposal's options. */
  datatype View = InactiveNotice | VoteControls(options: seq<string>)

  /** The vote controls, and with them any way to submit a vote, appear only while the proposal is active. */
  function Render(p: ClientProposal, nowMs: int): (v: View)
    ensures v.VoteControls? <==> IsProposalActive(p, nowMs)
    ensures v.VoteControls? ==> v.options == p.options
  {
    if !IsProposalActive(p, nowMs) then InactiveNotice else VoteControls(p.options)
  }

  class Form {
    var selectedOption: Option<nat>
    var isSubmitting: bool
    var status: DialogStatus
    var message: string
    var hash: Option<string>
    var showDialog: bool
    /** Everything handed to `addError`, in order. */
    var errors: seq<ReportedError>
    /** The option indexes `vote` was called with, in order. */
    var calls: seq<nat>
    /** How many times `onVoteCast` was called. */
    var votesCast: nat

    /** The transaction dialog's fields. */
    function Dialog(): DialogState
      reads this
    {
      DialogState(isSubmitting, status, message, hash, showDialog)
    }

    constructor ()
      ensures selectedOption == None && !isSubmitting && status == StatusPending && message == "" && hash == None
      ensures !showDialog && errors == [] && calls == [] && votesCast == 0
    {
      selectedOption, isSubmitting, status, message, hash := None, false, StatusPending, "", None;
      showDialog, errors, calls, votesCast := false, [], [], 0;
    }

    /** Choosing an option in the radio list. */
    method Select(index: nat)
      modifies this
      ensures selectedOption == Some(index)
      ensures Dialog() == old(Dialog()) && errors == old(errors) && calls == old(calls) && votesCast == old(votesCast)
    {
      selectedOption := Some(index);
    }

    /**
      `handleVote`: without a selection, a validation notice and no call. Otherwise
      `vote` is called once with the selection; on success the status is success,
      `onVoteCast` runs once and the selection is cleared; otherwise the status is
      error and the selection is kept. Submitting has ended either way.
    */
    method HandleVote(result: Call)
      modifies this
      ensures old(selectedOption).None? ==>
                && errors == old(errors) + [Invalid(SELECT_OPTION)]
                && calls == old(calls) && votesCast == old(votesCast)
                && selectedOption == None && Dialog() == old(Dialog())
      ensures old(selectedOption).Some? ==>
                && calls == old(calls) + [old(selectedOption).value]
                && !isSubmitting && showDialog
                && (Succeeded(result) ==>
                      && status == StatusSuccess && message == RECORDED && hash == result.value.transactionHash
                      && votesCast == old(votesCast) + 1 && selectedOption == None && errors == old(errors))
                && (!Succeeded(result) ==>
                      && status == StatusError && hash == old(hash) && votesCast == old(votesCast) && selectedOption == old(selectedOption))
                && (!Succeeded(result) && !ThrowsReadingSuccess(result) ==> message == VOTE_FAILED && errors == old(errors))
                && (ThrowsReadingSuccess(result) ==> message == VOTE_ERROR && errors == old(errors) + [Reported(result)])
    {
      if selectedOption.None? {
        errors := errors + [Invalid(SELECT_OPTION)];
        return;
      }
      isSubmitting := true;
      showDialog := true;
      status := StatusPending;
      message := SUBMITTING;
      calls := calls + [selectedOption.value];
      if ThrowsReadingSuccess(result) {
        status := StatusError;
        message := VOTE_ERROR;
        errors := errors + [Reported(result)];
      } else if result.value.Record? && result.value.success {
        status := StatusSuccess;
        message := RECORDED;
        hash := result.value.transactionHash;
        votesCast := votesCast + 1;
        selectedOption := None;
      } else {
        status := StatusError;
        message := VOTE_FAILED;
      }
      isSubmitting := false;
    }

    /** `handleDialogClose`: the dialog closes; the selection is cleared only after a success. */
    method HandleDialogClose()
      modifies this
      ensures Dialog() == old(Dialog()).(showDialog := false)
      ensures selectedOption == if old(status) == StatusSuccess then None else old(selectedOption)
      ensures errors == old(errors) && calls == old(calls) && votesCast == old(votesCast)
    {
      showDialog := false;
      if status == StatusSuccess {
        selectedOption := None;
      }
    }
  }

  /**
    The form as the application wires it: the hook it takes `vote` from does not
    provide one, so an attempt with a selection raises a TypeError that is handed
    to `addError`, ends in the error status, is never counted and keeps the
    selection; without a selection only the validation notice is added.
  */
  method VoteAsWritten(f: Form)
    modifies f
    ensures old(f.selectedOption).Some? ==>
              && f.errors == old(f.errors) + [RaisedTypeError]
              && f.status == StatusError && f.message == VOTE_ERROR && f.showDialog && !f.isSubmitting
              && f.hash == old(f.hash) && f.votesCast == old(f.votesCast) && f.selectedOption == old(f.selectedOption)
    ensures old(f.selectedOption).None? ==>
              && f.errors == old(f.errors) + [Invalid(SELECT_OPTION)]
              && f.Dialog() == old(f.Dialog()) && f.votesCast == old(f.votesCast) && f.selectedOption == None
  {
    f.HandleVote(NotAFunction);
  }
}
