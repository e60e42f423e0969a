/**
  A proposal's card: its Active / Ended / Upcoming status, choosing an option
  and voting. The card compares the exact current time in seconds (not
  rounded), which in milliseconds `nowMs` reads `start * 1000 <= nowMs`.
*/
module ProposalCard {
  import opened Wrappers
  import opened JsValues
  import opened ClientTypes

  datatype StatusLabel = Active | Ended | Upcoming

  /** `isActive`: started, and the end is still ahead (the end itself is excluded). */
  function IsActive(p: ClientProposal, nowMs: int): (r: bool)
    ensures r <==> p.startTime * 1000 <= nowMs < p.endTime * 1000
  {
    p.startTime * 1000 <= nowMs && p.endTime * 1000 > nowMs
  }

  /** `hasEnded`: the end has been reached. */
  function HasEnded(p: ClientProposal, nowMs: int): (r: bool)
    ensures r <==> p.endTime * 1000 <= nowMs
    ensures r ==> !IsActive(p, nowMs)
  {
    p.endTime * 1000 <= nowMs
  }

  /** The label: Active while active, else Ended once ended, else Upcoming, which means not yet started. */
  function Label(p: ClientProposal, nowMs: int): (r: StatusLabel)
    ensures r == Active <==> IsActive(p, nowMs)
    ensures r == Ended <==> HasEnded(p, nowMs)
    ensures r == Upcoming <==> nowMs < p.startTime * 1000 && nowMs < p.endTime * 1000
  {
    if IsActive(p, nowMs) then Active else if HasEnded(p, nowMs) then Ended else Upcoming
  }

  /** The vote button is shown only while the proposal is active and a wallet is connected. */
  function ShowsVoteButton(p: ClientProposal, nowMs: int, walletConnected: bool): (r: bool)
    ensures r ==> Label(p, nowMs) == Active && walletConnected
  {
    IsActive(p, nowMs) && walletConnected
  }

  class Card {
    const proposal: ClientProposal
    var selectedOption: Option<nat>
    /** The option indexes `vote` was called with, in order. */
    var calls: seq<nat>

    constructor (proposal: ClientProposal)
      ensures this.proposal == proposal && selectedOption == None && calls == []
    {
      this.proposal := proposal;
      selectedOption, calls := None, [];
    }

    /** Clicking option `index`: it becomes the selection only while the proposal is active. */
    method ClickOption(index: nat, nowMs: int)
      modifies this
      ensures selectedOption == if IsActive(proposal, nowMs) then Some(index) else old(selectedOption)
      ensures calls == old(calls)
    {
      if IsActive(proposal, nowMs) {
        selectedOption := Some(index);
      }
    }

    /**
      `handleVote`: nothing without a selection or a connected wallet. Otherwise
      `vote` is called once; once it resolves, whatever with, the selection is
      cleared; when it throws, the selection is kept.
    */
    method HandleVote(walletConnected: bool, result: Call)
      modifies this
      ensures old(selectedOption).None? || !walletConnected ==>
                selectedOption == old(selectedOption) && calls == old(calls)
      ensures old(selectedOption).Some? && walletConnected ==>
                && calls == old(calls) + [old(selectedOption).value]
                && selectedOption == if result.Resolved? then None else old(selectedOption)
    {
      if selectedOption.None? || !walletConnected {
        return;
      }
      calls := calls + [selectedOption.value];
      if result.Resolved? {
        selectedOption := None;
      }
    }
  }

  /**
    The card as the application wires it: the hook it takes `vote` from does not
    provide one, so a vote attempt always throws and the selection is never cleared.
  */
  method VoteAsWritten(card: Card, walletConnected: bool)
    modifies card
    ensures card.selectedOption == old(card.selectedOption)
    ensures card.calls ==
              if old(card.selectedOption).Some? && walletConnected then old(card.calls) + [old(card.selectedOption).value]
              else old(card.calls)
  {
    card.HandleVote(walletConnected, NotAFunction);
  }
}
