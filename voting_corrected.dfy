/**
  The three instructions whose account handling keeps the program from ever
  recording a vote, next to the definitions that do what the program evidently
  means, and the scenarios that tell the two apart.

  - `create_proposal` leaves `vote_counts` empty; the corrected version gives
    every option a zero count.
  - `cast_vote` re-derives the proposal's address from the current proposal
    counter; the corrected version accepts the proposal account it is given,
    which Anchor has already checked to be a Proposal owned by the program.
  - `finalize_proposal` re-derives the address from `created_at`; the
    corrected version relies on the same ownership check and on `has_one`.

  The other four instructions are unchanged.
*/
module VotingCorrected {
  import opened Wrappers
  import opened ProgramAccounts
  import opened VotingProgram
  import opened VotingProperties

  function Zeros(n: nat): (r: seq<u64>)
    ensures |r| == n && Sum(r) == 0
    ensures forall i | 0 <= i < n :: r[i] == 0
  {
    if n == 0 then [] else [0] + Zeros(n - 1)
  }

  /** No single count exceeds the sum of all counts. */
  lemma {:induction false} CountBelowSum(xs: seq<u64>, i: nat)
    requires i < |xs|
    ensures xs[i] <= Sum(xs)
  {
    if i > 0 {
      CountBelowSum(xs[1..], i - 1);
    }
  }

  // ---------------------------------------------------------------------------
  // Corrected instructions
  // ---------------------------------------------------------------------------

  /** `create_proposal` that also sets `vote_counts` to one zero per option. */
  function CreateProposalFixed(
    s: Accounts, signer: Pubkey, proposalAddr: Pubkey, globalAddr: Pubkey, profileAddr: Pubkey,
    args: ProposalArgs, now: i64): (r: Step)
    ensures r.outcome == CreateProposal(s, signer, proposalAddr, globalAddr, profileAddr, args, now).outcome
    ensures r.outcome.Err? ==> r.after == s
    ensures r.outcome.Ok? ==>
      && proposalAddr in r.after.proposals
      && var p := r.after.proposals[proposalAddr];
      && |p.voteCounts| == |p.options| == |args.options|
      && (forall i | 0 <= i < |p.voteCounts| :: p.voteCounts[i] == 0)
      && TallyConsistent(p)
  {
    var w := CreateProposal(s, signer, proposalAddr, globalAddr, profileAddr, args, now);
    if w.outcome.Err? then w
    else
      var p := NewProposal(signer, args, now).(voteCounts := Zeros(|args.options|));
      Step(Ok, w.after.(proposals := w.after.proposals[proposalAddr := p]))
  }

  /** `cast_vote` without re-deriving the proposal's address from the proposal counter. */
  function CastVoteFixed(
    s: Accounts, voter: Pubkey, proposalAddr: Pubkey, voteAddr: Pubkey, profileAddr: Pubkey, globalAddr: Pubkey,
    optionIndex: u8, voteWeight: u64, now: i64): (r: Step)
    ensures r.after.globals == s.globals && r.after.profiles == s.profiles
    ensures r.outcome.Err? ==> r.after == s
    ensures r.outcome.Ok? ==>
      && proposalAddr in s.proposals && r.after.proposals.Keys == s.proposals.Keys
      && var p := s.proposals[proposalAddr];
      && var p' := r.after.proposals[proposalAddr];
      && p.startTime <= now <= p.endTime && optionIndex < |p.options| && voteWeight > 0
      && voteAddr == VoteAddress(voter, proposalAddr) && !InUse(s, voteAddr)
      && r.after.votes == s.votes[voteAddr := Vote(voter, proposalAddr, optionIndex, voteWeight, now, true)]
      && (forall a | a in s.proposals && a != proposalAddr :: r.after.proposals[a] == s.proposals[a])
      && p'.totalVotes == p.totalVotes + voteWeight
      && |p'.voteCounts| == |p.voteCounts| && optionIndex < |p.voteCounts|
      && p.voteCounts[optionIndex] + voteWeight <= U64_MAX
      && p'.voteCounts == p.voteCounts[optionIndex := p.voteCounts[optionIndex] + voteWeight]
      && p' == p.(totalVotes := p'.totalVotes, voteCounts := p'.voteCounts)
  {
    if proposalAddr !in s.proposals || profileAddr !in s.profiles || globalAddr !in s.globals then
      Reject(s, AccountNotInitialized)
    else
      var p := s.proposals[proposalAddr];
      var g := s.globals[globalAddr];
      if voteAddr != VoteAddress(voter, proposalAddr) then Reject(s, ConstraintSeeds)
      else if InUse(s, voteAddr) then Reject(s, AccountAlreadyInUse)
      else if g.isEmergencyStopped then Reject(s, Program(EmergencyStopActive))
      else if profileAddr != UserProfileAddress(voter) then Reject(s, ConstraintSeeds)
      else if globalAddr != GlobalStateAddress() then Reject(s, ConstraintSeeds)
      else if !(p.startTime <= now <= p.endTime) then Reject(s, Voting(VotingError.ProposalNotActive))
      else if !(optionIndex < |p.options| % 256) then Reject(s, Voting(VotingError.InvalidOptionIndex))
      else if voteWeight == 0 then Reject(s, Voting(VotingError.InvalidVoteWeight))
      else if p.totalVotes + voteWeight > U64_MAX then Reject(s, Aborted)
      else if optionIndex >= |p.voteCounts| then Reject(s, Aborted)
      else if p.voteCounts[optionIndex] + voteWeight > U64_MAX then Reject(s, Aborted)
      else
        var vote := Vote(voter, proposalAddr, optionIndex, voteWeight, now, true);
        var p' := p.(totalVotes := p.totalVotes + voteWeight,
                     voteCounts := p.voteCounts[optionIndex := p.voteCounts[optionIndex] + voteWeight]);
        Step(Ok, s.(proposals := s.proposals[proposalAddr := p'], votes := s.votes[voteAddr := vote]))
  }

  /** `finalize_proposal` without re-deriving the address from `created_at`. */
  function FinalizeProposalFixed(s: Accounts, signer: Pubkey, proposalAddr: Pubkey, now: i64): (r: Step)
    ensures r.outcome.Err? ==> r.after == s
    ensures r.outcome.Ok? <==>
      && proposalAddr in s.proposals
      && s.proposals[proposalAddr].authority == signer
      && s.proposals[proposalAddr].isActive
      && now > s.proposals[proposalAddr].endTime
    ensures r.outcome.Ok? ==>
      r.after == s.(proposals := s.proposals[proposalAddr :=
        s.proposals[proposalAddr].(isActive := false, finalizedAt := Some(now))])
  {
    if proposalAddr !in s.proposals then Reject(s, AccountNotInitialized)
    else
      var p := s.proposals[proposalAddr];
      if p.authority != signer then Reject(s, ConstraintHasOne)
      else if !p.isActive then Reject(s, Program(ProposalAlreadyFinalized))
      else if now <= p.endTime then Reject(s, Program(VotingStillActive))
      else Step(Ok, s.(proposals := s.proposals[proposalAddr := p.(isActive := false, finalizedAt := Some(now))]))
  }

  function ExecuteFixed(s: Accounts, ix: Instruction): Step
  {
    match ix
    case CreateProposalIx(signer, p, g, u, args, now) => CreateProposalFixed(s, signer, p, g, u, args, now)
    case CastVoteIx(signer, p, v, u, g, i, w, now) => CastVoteFixed(s, signer, p, v, u, g, i, w, now)
    case FinalizeProposalIx(signer, p, now) => FinalizeProposalFixed(s, signer, p, now)
    case _ => Execute(s, ix)
  }

  function RunFixed(s: Accounts, trace: seq<Instruction>): Accounts
    decreases |trace|
  {
    if trace == [] then s else RunFixed(ExecuteFixed(s, trace[0]).after, trace[1..])
  }

  // ---------------------------------------------------------------------------
  // What the corrected program guarantees
  // ---------------------------------------------------------------------------

  /** Every proposal has one count per option and a total equal to their sum. */
  predicate TalliesSound(s: Accounts)
  {
    forall a | a in s.proposals ::
      && |s.proposals[a].options| <= MAX_OPTIONS
      && |s.proposals[a].voteCounts| == |s.proposals[a].options|
      && TallyConsistent(s.proposals[a])
  }

  /**
    With sound tallies a vote that passes the account checks and the three
    handler checks is recorded, unless the total would exceed u64, and the
    tally stays sound.
  */
  lemma {:induction false} CastVoteFixedRecords(
    s: Accounts, voter: Pubkey, proposalAddr: Pubkey, voteAddr: Pubkey, profileAddr: Pubkey, globalAddr: Pubkey,
    optionIndex: u8, voteWeight: u64, now: i64)
    requires TalliesSound(s)
    ensures var r := CastVoteFixed(s, voter, proposalAddr, voteAddr, profileAddr, globalAddr, optionIndex, voteWeight, now);
            && TalliesSound(r.after)
            && (r.outcome.Ok? <==>
                  && proposalAddr in s.proposals && profileAddr in s.profiles && globalAddr in s.globals
                  && voteAddr == VoteAddress(voter, proposalAddr) && !InUse(s, voteAddr)
                  && !s.globals[globalAddr].isEmergencyStopped
                  && profileAddr == UserProfileAddress(voter) && globalAddr == GlobalStateAddress()
                  && s.proposals[proposalAddr].startTime <= now <= s.proposals[proposalAddr].endTime
                  && optionIndex < |s.proposals[proposalAddr].options|
                  && voteWeight > 0
                  && s.proposals[proposalAddr].totalVotes + voteWeight <= U64_MAX)
  {
    var r := CastVoteFixed(s, voter, proposalAddr, voteAddr, profileAddr, globalAddr, optionIndex, voteWeight, now);
    if proposalAddr in s.proposals {
      var p := s.proposals[proposalAddr];
      assert |p.options| % 256 == |p.options|;
      if optionIndex < |p.voteCounts| {
        CountBelowSum(p.voteCounts, optionIndex);
      }
      if r.outcome.Ok? {
        var p' := r.after.proposals[proposalAddr];
        SumUpdate(p.voteCounts, optionIndex, p.voteCounts[optionIndex] + voteWeight);
        assert TallyConsistent(p');
        forall a | a in r.after.proposals
          ensures TallyConsistent(r.after.proposals[a])
        {
        }
      }
    }
  }

  lemma {:induction false} ExecuteFixedKeepsTallies(s: Accounts, ix: Instruction)
    requires TalliesSound(s)
    ensures TalliesSound(ExecuteFixed(s, ix).after)
  {
    match ix
    case CastVoteIx(signer, p, v, u, g, i, w, now) =>
      CastVoteFixedRecords(s, signer, p, v, u, g, i, w, now);
    case _ =>
  }

  lemma {:induction false} RunFixedKeepsTallies(s: Accounts, trace: seq<Instruction>)
    requires TalliesSound(s)
    ensures TalliesSound(RunFixed(s, trace))
    decreases |trace|
  {
    if trace != [] {
      ExecuteFixedKeepsTallies(s, trace[0]);
      RunFixedKeepsTallies(ExecuteFixed(s, trace[0]).after, trace[1..]);
    }
  }

  /** From an empty ledger, every proposal's total is the sum of its counts whatever is sent. */
  lemma TalliesAlwaysSound(trace: seq<Instruction>)
    ensures TalliesSound(RunFixed(Empty, trace))
  {
    RunFixedKeepsTallies(Empty, trace);
  }

  // ---------------------------------------------------------------------------
  // Create a proposal, then vote on it: as written and corrected
  // ---------------------------------------------------------------------------

  /**
    As written: right after a proposal is created, a vote on it by a user with
    a profile fails the proposal's seeds check, because the counter has moved on.
  */
  lemma {:induction false} CreateThenVoteRejected(
    s: Accounts, author: Pubkey, proposalAddr: Pubkey, globalAddr: Pubkey, authorProfile: Pubkey,
    args: ProposalArgs, created: i64,
    voter: Pubkey, voterProfile: Pubkey, optionIndex: u8, voteWeight: u64, now: i64)
    requires CreateProposal(s, author, proposalAddr, globalAddr, authorProfile, args, created).outcome.Ok?
    requires voterProfile in s.profiles && !InUse(s, VoteAddress(voter, proposalAddr))
    ensures var s' := CreateProposal(s, author, proposalAddr, globalAddr, authorProfile, args, created).after;
            CastVote(s', voter, proposalAddr, VoteAddress(voter, proposalAddr), voterProfile, globalAddr,
                     optionIndex, voteWeight, now).outcome == Err(ConstraintSeeds)
  {
    var c := s.globals[globalAddr].totalProposals;
    ProposalAddressesDistinct(author, c, c + 1);
  }

  /**
    Corrected: the same vote, cast inside the window on a valid option with a
    positive weight, is recorded and is the proposal's whole tally.
  */
  lemma {:induction false} CreateThenVoteRecorded(
    s: Accounts, author: Pubkey, proposalAddr: Pubkey, globalAddr: Pubkey, authorProfile: Pubkey,
    args: ProposalArgs, created: i64,
    voter: Pubkey, voterProfile: Pubkey, optionIndex: u8, voteWeight: u64, now: i64)
    requires CreateProposalFixed(s, author, proposalAddr, globalAddr, authorProfile, args, created).outcome.Ok?
    requires voterProfile in s.profiles && voterProfile == UserProfileAddress(voter)
    requires !InUse(s, VoteAddress(voter, proposalAddr))
    requires args.startTime <= now <= args.endTime && optionIndex < |args.options| && voteWeight > 0
    ensures var s' := CreateProposalFixed(s, author, proposalAddr, globalAddr, authorProfile, args, created).after;
            var r := CastVoteFixed(s', voter, proposalAddr, VoteAddress(voter, proposalAddr), voterProfile, globalAddr,
                                   optionIndex, voteWeight, now);
            && r.outcome.Ok?
            && r.after.proposals[proposalAddr].totalVotes == voteWeight
            && r.after.proposals[proposalAddr].voteCounts[optionIndex] == voteWeight
  {
    var w := CreateProposal(s, author, proposalAddr, globalAddr, authorProfile, args, created);
    var s' := CreateProposalFixed(s, author, proposalAddr, globalAddr, authorProfile, args, created).after;
    assert w.outcome.Ok?;
    assert s'.globals == w.after.globals && s'.profiles == w.after.profiles && s'.votes == s.votes;
    assert globalAddr == GlobalStateAddress() && globalAddr in s'.globals && !s'.globals[globalAddr].isEmergencyStopped;
    assert voterProfile in s'.profiles;
    assert !InUse(s', VoteAddress(voter, proposalAddr));
    var p := s'.proposals[proposalAddr];
    assert p == NewProposal(author, args, created).(voteCounts := Zeros(|args.options|));
    assert |p.options| % 256 == |p.options|;
  }

  /**
    As written: a vote on a proposal whose `vote_counts` is empty panics at the
    indexing once every check before it has passed.
  */
  lemma EmptyCountsAbort(
    s: Accounts, voter: Pubkey, proposalAddr: Pubkey, voteAddr: Pubkey, profileAddr: Pubkey, globalAddr: Pubkey,
    optionIndex: u8, voteWeight: u64, now: i64)
    requires CastVoteAccountsValid(s, voter, proposalAddr, voteAddr, profileAddr, globalAddr)
    requires s.proposals[proposalAddr].voteCounts == []
    requires s.proposals[proposalAddr].startTime <= now <= s.proposals[proposalAddr].endTime
    requires optionIndex < |s.proposals[proposalAddr].options| % 256 && voteWeight > 0
    requires s.proposals[proposalAddr].totalVotes + voteWeight <= U64_MAX
    ensures CastVote(s, voter, proposalAddr, voteAddr, profileAddr, globalAddr, optionIndex, voteWeight, now).outcome
            == Err(Aborted)
  {
  }

  /**
    As written: a proposal created at a time that differs, modulo 2^64, from
    the counter it was created under can never be finalized by its author.
  */
  lemma {:induction false} CreateThenFinalizeRejected(
    s: Accounts, author: Pubkey, proposalAddr: Pubkey, globalAddr: Pubkey, authorProfile: Pubkey,
    args: ProposalArgs, created: i64, now: i64)
    requires CreateProposal(s, author, proposalAddr, globalAddr, authorProfile, args, created).outcome.Ok?
    requires created % U64_LIMIT != s.globals[globalAddr].totalProposals
    ensures var s' := CreateProposal(s, author, proposalAddr, globalAddr, authorProfile, args, created).after;
            FinalizeProposal(s', author, proposalAddr, now).outcome == Err(ConstraintSeeds)
  {
    var c := s.globals[globalAddr].totalProposals;
    LeI64MatchesLeU64(created, c);
  }

  /** Corrected: its author finalizes it once voting has ended. */
  lemma CreateThenFinalizeAccepted(
    s: Accounts, author: Pubkey, proposalAddr: Pubkey, globalAddr: Pubkey, authorProfile: Pubkey,
    args: ProposalArgs, created: i64, now: i64)
    requires CreateProposalFixed(s, author, proposalAddr, globalAddr, authorProfile, args, created).outcome.Ok?
    requires now > args.endTime
    ensures var s' := CreateProposalFixed(s, author, proposalAddr, globalAddr, authorProfile, args, created).after;
            FinalizeProposalFixed(s', author, proposalAddr, now).outcome.Ok?
  {
  }
}
