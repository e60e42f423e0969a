/**
  The seven instructions of the voting program as functions from the ledger's
  accounts to an outcome and the accounts afterwards. Each function runs the
  checks Anchor derives from the instruction's `#[derive(Accounts)]` struct,
  then the handler's guards, then its writes. A failure of any kind (including a
  panic) leaves the accounts as they were, as a failed transaction does.

  Account checks run in three passes, as Anchor generates them: the accounts
  that already exist are loaded in field order, then each `init` account is
  derived and created, then the remaining accounts' constraints are checked in
  field order (per field: seeds, `has_one`, `constraint`).
*/
module VotingProgram {
  import opened Wrappers
  import opened ProgramAccounts

  /** Every account of the program, by address and kind. */
  datatype Accounts = Accounts(
    globals: map<Pubkey, GlobalState>,
    profiles: map<Pubkey, UserProfile>,
    proposals: map<Pubkey, Proposal>,
    votes: map<Pubkey, Vote>)

  const Empty: Accounts := Accounts(map[], map[], map[], map[])

  /** The result of one instruction. */
  datatype Step = Step(outcome: Outcome, after: Accounts)

  /** The arguments of `create_proposal`. */
  datatype ProposalArgs = ProposalArgs(
    title: Utf8,
    description: Utf8,
    options: seq<Utf8>,
    startTime: i64,
    endTime: i64)

  /** An address is in use when any account lives there, whatever its kind. */
  predicate InUse(s: Accounts, a: Pubkey)
  {
    a in s.globals || a in s.profiles || a in s.proposals || a in s.votes
  }

  function Reject(s: Accounts, e: ProgramError): (r: Step)
    ensures r.outcome.Err? && r.after == s
  {
    Step(Err(e), s)
  }

  /** Minimum and maximum voting periods `initialize` stores (1 hour and 1 week). */
  const MINIMUM_VOTING_PERIOD: i64 := 3600
  const MAXIMUM_VOTING_PERIOD: i64 := 604800

  const MAX_TITLE_LENGTH := 100
  const MAX_DESCRIPTION_LENGTH := 1000
  const MIN_OPTIONS := 2
  const MAX_OPTIONS := 10
  /** How far in the past `create_proposal` still accepts a start time, in seconds. */
  const START_TIME_GRACE := 60

  // ---------------------------------------------------------------------------
  // initialize
  // ---------------------------------------------------------------------------

  function Initialize(s: Accounts, signer: Pubkey, globalAddr: Pubkey): (r: Step)
    ensures r.outcome.Ok? <==> globalAddr == GlobalStateAddress() && !InUse(s, globalAddr)
    ensures r.outcome.Err? ==> r.after == s
    ensures r.outcome.Ok? ==>
      && r.after == s.(globals := r.after.globals)
      && r.after.globals.Keys == s.globals.Keys + {globalAddr}
      && var g := r.after.globals[globalAddr];
      && g.authority == signer
      && g.totalProposals == 0 && g.totalVotes == 0 && g.totalUsers == 0
      && g.minimumVotingPeriod == 3600 && g.maximumVotingPeriod == 604800
      && !g.isEmergencyStopped && g.emergencyStopTime == None
  {
    if globalAddr != GlobalStateAddress() then Reject(s, ConstraintSeeds)
    else if InUse(s, globalAddr) then Reject(s, AccountAlreadyInUse)
    else
      var g := GlobalState(signer, 0, 0, 0, MINIMUM_VOTING_PERIOD, MAXIMUM_VOTING_PERIOD, false, None);
      Step(Ok, s.(globals := s.globals[globalAddr := g]))
  }

  // ---------------------------------------------------------------------------
  // initialize_user_profile
  // ---------------------------------------------------------------------------

  function InitializeUserProfile(
    s: Accounts, signer: Pubkey, profileAddr: Pubkey, globalAddr: Pubkey, username: Utf8, now: i64): (r: Step)
    ensures r.outcome.Err? ==> r.after == s
    ensures r.outcome.Ok? ==>
      && globalAddr == GlobalStateAddress() && globalAddr in s.globals
      && profileAddr == UserProfileAddress(signer) && !InUse(s, profileAddr)
      && r.after.proposals == s.proposals && r.after.votes == s.votes
      && r.after.profiles == s.profiles[profileAddr := UserProfile(signer, username, 0, 0, 0, now)]
      && r.after.globals.Keys == s.globals.Keys
      && r.after.globals[globalAddr].totalUsers == s.globals[globalAddr].totalUsers + 1
      && r.after.globals[globalAddr] == s.globals[globalAddr].(totalUsers := r.after.globals[globalAddr].totalUsers)
  {
    if globalAddr !in s.globals then Reject(s, AccountNotInitialized)
    else
      var g := s.globals[globalAddr];
      if profileAddr != UserProfileAddress(signer) then Reject(s, ConstraintSeeds)
      else if InUse(s, profileAddr) then Reject(s, AccountAlreadyInUse)
      else if globalAddr != GlobalStateAddress() then Reject(s, ConstraintSeeds)
      else if g.totalUsers == U64_MAX then Reject(s, Aborted)
      else
        var profile := UserProfile(signer, username, 0, 0, 0, now);
        Step(Ok, s.(profiles := s.profiles[profileAddr := profile],
                    globals := s.globals[globalAddr := g.(totalUsers := g.totalUsers + 1)]))
  }

  // ---------------------------------------------------------------------------
  // create_proposal
  // ---------------------------------------------------------------------------

  /** The accounts `create_proposal` is given pass every Anchor check. */
  predicate CreateProposalAccountsValid(
    s: Accounts, signer: Pubkey, proposalAddr: Pubkey, globalAddr: Pubkey, profileAddr: Pubkey)
  {
    && globalAddr in s.globals && profileAddr in s.profiles
    && proposalAddr == ProposalAddress(signer, LeU64(s.globals[globalAddr].totalProposals))
    && !InUse(s, proposalAddr)
    && globalAddr == GlobalStateAddress()
    && !s.globals[globalAddr].isEmergencyStopped
    && profileAddr == UserProfileAddress(signer)
  }

  function CreateProposal(
    s: Accounts, signer: Pubkey, proposalAddr: Pubkey, globalAddr: Pubkey, profileAddr: Pubkey,
    args: ProposalArgs, now: i64): (r: Step)
    ensures r.outcome.Err? ==> r.after == s
    ensures r.outcome.Ok? ==>
      && CreateProposalAccountsValid(s, signer, proposalAddr, globalAddr, profileAddr)
      && |args.title| <= 100 && |args.description| <= 1000
      && 2 <= |args.options| <= 10
      && now - 60 <= args.startTime < args.endTime
      && r.after.votes == s.votes
      && r.after.proposals == s.proposals[proposalAddr := NewProposal(signer, args, now)]
      && globalAddr in r.after.globals && r.after.globals == s.globals[globalAddr := r.after.globals[globalAddr]]
      && r.after.globals[globalAddr].totalProposals == s.globals[globalAddr].totalProposals + 1
      && r.after.globals[globalAddr] == s.globals[globalAddr].(totalProposals := r.after.globals[globalAddr].totalProposals)
      && profileAddr in r.after.profiles && r.after.profiles == s.profiles[profileAddr := r.after.profiles[profileAddr]]
      && r.after.profiles[profileAddr].proposalsCreated == s.profiles[profileAddr].proposalsCreated + 1
      && r.after.profiles[profileAddr] == s.profiles[profileAddr].(proposalsCreated := r.after.profiles[profileAddr].proposalsCreated)
    // once the accounts pass, the handler's checks decide in this order
    ensures CreateProposalAccountsValid(s, signer, proposalAddr, globalAddr, profileAddr) ==>
      && (|args.title| > 100 ==> r.outcome == Err(Program(TitleTooLong)))
      && (|args.title| <= 100 && |args.description| > 1000 ==> r.outcome == Err(Program(DescriptionTooLong)))
      && (|args.title| <= 100 && |args.description| <= 1000 && !(2 <= |args.options| <= 10) ==>
            r.outcome == Err(Program(InvalidOptionsCount)))
      && (|args.title| <= 100 && |args.description| <= 1000 && 2 <= |args.options| <= 10 && args.startTime < now - 60 ==>
            r.outcome == Err(Program(InvalidStartTime)))
      && (|args.title| <= 100 && |args.description| <= 1000 && 2 <= |args.options| <= 10 &&
          now - 60 <= args.startTime && args.endTime <= args.startTime ==>
            r.outcome == Err(Program(InvalidEndTime)))
    // and the instruction succeeds once every check passes and neither counter is at its maximum
    ensures && CreateProposalAccountsValid(s, signer, proposalAddr, globalAddr, profileAddr)
            && |args.title| <= 100 && |args.description| <= 1000
            && 2 <= |args.options| <= 10
            && now - 60 <= args.startTime < args.endTime
            && s.globals[globalAddr].totalProposals < U64_MAX
            && s.profiles[profileAddr].proposalsCreated < U64_MAX
            ==> r.outcome.Ok?
  {
    if globalAddr !in s.globals || profileAddr !in s.profiles then Reject(s, AccountNotInitialized)
    else
      var g := s.globals[globalAddr];
      var u := s.profiles[profileAddr];
      // init proposal, seeds = [b"proposal", authority, total_proposals.to_le_bytes()]
      if proposalAddr != ProposalAddress(signer, LeU64(g.totalProposals)) then Reject(s, ConstraintSeeds)
      else if InUse(s, proposalAddr) then Reject(s, AccountAlreadyInUse)
      // global_state: seeds, then `constraint = !is_emergency_stopped`
      else if globalAddr != GlobalStateAddress() then Reject(s, ConstraintSeeds)
      else if g.isEmergencyStopped then Reject(s, Program(EmergencyStopActive))
      // user_profile: seeds = [b"user_profile", authority]
      else if profileAddr != UserProfileAddress(signer) then Reject(s, ConstraintSeeds)
      // handler
      else if |args.title| > MAX_TITLE_LENGTH then Reject(s, Program(TitleTooLong))
      else if |args.description| > MAX_DESCRIPTION_LENGTH then Reject(s, Program(DescriptionTooLong))
      else if !(MIN_OPTIONS <= |args.options| <= MAX_OPTIONS) then Reject(s, Program(InvalidOptionsCount))
      else if args.startTime < now - START_TIME_GRACE then Reject(s, Program(InvalidStartTime))
      else if args.endTime <= args.startTime then Reject(s, Program(InvalidEndTime))
      else if g.totalProposals == U64_MAX || u.proposalsCreated == U64_MAX then Reject(s, Aborted)
      else
        Step(Ok, s.(proposals := s.proposals[proposalAddr := NewProposal(signer, args, now)],
                    globals := s.globals[globalAddr := g.(totalProposals := g.totalProposals + 1)],
                    profiles := s.profiles[profileAddr := u.(proposalsCreated := u.proposalsCreated + 1)]))
  }

  /**
    The record `create_proposal` writes: the handler assigns every field of the
    zeroed account except `vote_counts`, which therefore stays empty.
  */
  function NewProposal(signer: Pubkey, args: ProposalArgs, now: i64): (p: Proposal)
    ensures && p.authority == signer
            && p.title == args.title && p.description == args.description && p.options == args.options
            && p.startTime == args.startTime && p.endTime == args.endTime
            && p.totalVotes == 0 && p.isActive && p.createdAt == now
            && p.finalizedAt.None? && p.voteCounts == []
  {
    BlankProposal.(
      authority := signer,
      title := args.title,
      description := args.description,
      options := args.options,
      startTime := args.startTime,
      endTime := args.endTime,
      totalVotes := 0,
      isActive := true,
      createdAt := now)
  }

  // ---------------------------------------------------------------------------
  // cast_vote
  // ---------------------------------------------------------------------------

  /** The accounts `cast_vote` is given pass every Anchor check. */
  predicate CastVoteAccountsValid(
    s: Accounts, voter: Pubkey, proposalAddr: Pubkey, voteAddr: Pubkey, profileAddr: Pubkey, globalAddr: Pubkey)
  {
    && proposalAddr in s.proposals && profileAddr in s.profiles && globalAddr in s.globals
    && voteAddr == VoteAddress(voter, proposalAddr)
    && !InUse(s, voteAddr)
    && proposalAddr == ProposalAddress(s.proposals[proposalAddr].authority, LeU64(s.globals[globalAddr].totalProposals))
    && !s.globals[globalAddr].isEmergencyStopped
    && profileAddr == UserProfileAddress(voter)
    && globalAddr == GlobalStateAddress()
  }

  function CastVote(
    s: Accounts, voter: Pubkey, proposalAddr: Pubkey, voteAddr: Pubkey, profileAddr: Pubkey, globalAddr: Pubkey,
    optionIndex: u8, voteWeight: u64, now: i64): (r: Step)
    ensures r.after.globals == s.globals && r.after.profiles == s.profiles
    ensures r.outcome.Err? ==> r.after == s
    ensures r.outcome.Ok? ==>
      && CastVoteAccountsValid(s, voter, proposalAddr, voteAddr, profileAddr, globalAddr)
      && r.after.proposals.Keys == s.proposals.Keys
      && var p := s.proposals[proposalAddr];
      && var p' := r.after.proposals[proposalAddr];
      && p.startTime <= now <= p.endTime
      && optionIndex < |p.options|
      && voteWeight > 0
      && r.after.votes == s.votes[voteAddr := Vote(voter, proposalAddr, optionIndex, voteWeight, now, true)]
      && (forall a | a in s.proposals && a != proposalAddr :: r.after.proposals[a] == s.proposals[a])
      && p'.totalVotes == p.totalVotes + voteWeight
      && |p'.voteCounts| == |p.voteCounts| && optionIndex < |p.voteCounts|
      && p'.voteCounts[optionIndex] == p.voteCounts[optionIndex] + voteWeight
      && (forall i | 0 <= i < |p.voteCounts| && i != optionIndex :: p'.voteCounts[i] == p.voteCounts[i])
      && p' == p.(totalVotes := p'.totalVotes, voteCounts := p'.voteCounts)
    // once the accounts pass, the handler's checks decide in this order
    ensures CastVoteAccountsValid(s, voter, proposalAddr, voteAddr, profileAddr, globalAddr) ==>
      && var p := s.proposals[proposalAddr];
      && (!(p.startTime <= now <= p.endTime) ==> r.outcome == Err(Voting(VotingError.ProposalNotActive)))
      && (p.startTime <= now <= p.endTime && optionIndex >= |p.options| % 256 ==>
            r.outcome == Err(Voting(VotingError.InvalidOptionIndex)))
      && (p.startTime <= now <= p.endTime && optionIndex < |p.options| % 256 && voteWeight == 0 ==>
            r.outcome == Err(Voting(VotingError.InvalidVoteWeight)))
    // the vote account is new, so the `has_voted` guard never fires
    ensures r.outcome != Err(Voting(AlreadyVoted))
  {
    if proposalAddr !in s.proposals || profileAddr !in s.profiles || globalAddr !in s.globals then
      Reject(s, AccountNotInitialized)
    else
      var p := s.proposals[proposalAddr];
      var g := s.globals[globalAddr];
      // init vote, seeds = [b"vote", voter, proposal.key()]
      if voteAddr != VoteAddress(voter, proposalAddr) then Reject(s, ConstraintSeeds)
      else if InUse(s, voteAddr) then Reject(s, AccountAlreadyInUse)
      // proposal: seeds use the CURRENT total_proposals, then `constraint = !is_emergency_stopped`
      else if proposalAddr != ProposalAddress(p.authority, LeU64(g.totalProposals)) then Reject(s, ConstraintSeeds)
      else if g.isEmergencyStopped then Reject(s, Program(EmergencyStopActive))
      else if profileAddr != UserProfileAddress(voter) then Reject(s, ConstraintSeeds)
      else if globalAddr != GlobalStateAddress() then Reject(s, ConstraintSeeds)
      else CastVoteHandler(s, voter, proposalAddr, voteAddr, optionIndex, voteWeight, now)
  }

  /**
    The handler of `cast_vote`, run once its accounts have passed: the voting
    window, the option index against the low byte of the option count and the
    weight are checked in that order; `has_voted` never stops it; and it can only
    succeed when `vote_counts` has an entry for the chosen option.
  */
  function CastVoteHandler(
    s: Accounts, voter: Pubkey, proposalAddr: Pubkey, voteAddr: Pubkey, optionIndex: u8, voteWeight: u64, now: i64)
    : (r: Step)
    requires proposalAddr in s.proposals
    ensures r.outcome.Err? ==> r.after == s
    ensures r.after.globals == s.globals && r.after.profiles == s.profiles
    ensures var p := s.proposals[proposalAddr];
      && (!(p.startTime <= now <= p.endTime) ==> r.outcome == Err(Voting(VotingError.ProposalNotActive)))
      && (p.startTime <= now <= p.endTime && optionIndex >= |p.options| % 256 ==>
            r.outcome == Err(Voting(VotingError.InvalidOptionIndex)))
      && (p.startTime <= now <= p.endTime && optionIndex < |p.options| % 256 && voteWeight == 0 ==>
            r.outcome == Err(Voting(VotingError.InvalidVoteWeight)))
      && (optionIndex >= |p.voteCounts| ==> r.outcome.Err?)
    ensures r.outcome != Err(Voting(AlreadyVoted))
    ensures r.outcome.Ok? ==>
      var p := s.proposals[proposalAddr];
      && optionIndex < |p.voteCounts|
      && p.totalVotes + voteWeight <= U64_MAX && p.voteCounts[optionIndex] + voteWeight <= U64_MAX
      && r.after == s.(proposals := s.proposals[proposalAddr :=
                         p.(totalVotes := p.totalVotes + voteWeight,
                            voteCounts := p.voteCounts[optionIndex := p.voteCounts[optionIndex] + voteWeight])],
                       votes := s.votes[voteAddr := Vote(voter, proposalAddr, optionIndex, voteWeight, now, true)])
  {
    var p := s.proposals[proposalAddr];
    if !(p.startTime <= now <= p.endTime) then Reject(s, Voting(VotingError.ProposalNotActive))
    // `options.len() as u8` truncates to the low byte
    else if !(optionIndex < |p.options| % 256) then Reject(s, Voting(VotingError.InvalidOptionIndex))
    else if voteWeight == 0 then Reject(s, Voting(VotingError.InvalidVoteWeight))
    // the vote account was just created, so its `has_voted` is the zeroed `false`
    else if BlankVote.hasVoted then Reject(s, Voting(AlreadyVoted))
    else if p.totalVotes + voteWeight > U64_MAX then Reject(s, Aborted)
    // `vote_counts[option_index]` panics when the index is out of bounds
    else if optionIndex >= |p.voteCounts| then Reject(s, Aborted)
    else if p.voteCounts[optionIndex] + voteWeight > U64_MAX then Reject(s, Aborted)
    else
      var vote := BlankVote.(voter := voter, proposal := proposalAddr, optionIndex := optionIndex,
                             voteWeight := voteWeight, timestamp := now, hasVoted := true);
      var p' := p.(totalVotes := p.totalVotes + voteWeight,
                   voteCounts := p.voteCounts[optionIndex := p.voteCounts[optionIndex] + voteWeight]);
      Step(Ok, s.(proposals := s.proposals[proposalAddr := p'], votes := s.votes[voteAddr := vote]))
  }

  // ---------------------------------------------------------------------------
  // finalize_proposal
  // ---------------------------------------------------------------------------

  function FinalizeProposal(s: Accounts, signer: Pubkey, proposalAddr: Pubkey, now: i64): (r: Step)
    ensures r.outcome.Err? ==> r.after == s
    ensures r.outcome.Ok? ==>
      && proposalAddr in s.proposals
      && var p := s.proposals[proposalAddr];
      && proposalAddr == ProposalAddress(p.authority, LeI64(p.createdAt))
      && p.authority == signer && p.isActive && now > p.endTime
      && r.after == s.(proposals := s.proposals[proposalAddr := p.(isActive := false, finalizedAt := Some(now))])
    ensures proposalAddr in s.proposals && !s.proposals[proposalAddr].isActive ==> r.outcome.Err?
  {
    if proposalAddr !in s.proposals then Reject(s, AccountNotInitialized)
    else
      var p := s.proposals[proposalAddr];
      // proposal: seeds = [b"proposal", proposal.authority, proposal.created_at.to_le_bytes()], has_one = authority
      if proposalAddr != ProposalAddress(p.authority, LeI64(p.createdAt)) then Reject(s, ConstraintSeeds)
      else if p.authority != signer then Reject(s, ConstraintHasOne)
      // handler
      else if !p.isActive then Reject(s, Program(ProposalAlreadyFinalized))
      else if now <= p.endTime then Reject(s, Program(VotingStillActive))
      else Step(Ok, s.(proposals := s.proposals[proposalAddr := p.(isActive := false, finalizedAt := Some(now))]))
  }

  // ---------------------------------------------------------------------------
  // emergency_stop and resume_operations
  // ---------------------------------------------------------------------------

  /** Loading and seeds checks shared by the two global-state switches. */
  function GlobalSwitchAccounts(s: Accounts, globalAddr: Pubkey): (r: Option<ProgramError>)
    ensures r == None <==> globalAddr in s.globals && globalAddr == GlobalStateAddress()
  {
    if globalAddr !in s.globals then Some(AccountNotInitialized)
    else if globalAddr != GlobalStateAddress() then Some(ConstraintSeeds)
    else None
  }

  function EmergencyStop(s: Accounts, signer: Pubkey, globalAddr: Pubkey, now: i64): (r: Step)
    ensures r.outcome.Err? ==> r.after == s
    ensures r.outcome.Ok? <==>
      globalAddr == GlobalStateAddress() && globalAddr in s.globals && signer == s.globals[globalAddr].authority
    ensures r.outcome == Err(Program(UnauthorizedAccess)) <==>
      globalAddr == GlobalStateAddress() && globalAddr in s.globals && signer != s.globals[globalAddr].authority
    ensures r.outcome.Ok? ==>
      r.after == s.(globals := s.globals[globalAddr :=
        s.globals[globalAddr].(isEmergencyStopped := true, emergencyStopTime := Some(now))])
  {
    match GlobalSwitchAccounts(s, globalAddr)
    case Some(e) => Reject(s, e)
    case None =>
      var g := s.globals[globalAddr];
      if signer != g.authority then Reject(s, Program(UnauthorizedAccess))
      else Step(Ok, s.(globals := s.globals[globalAddr := g.(isEmergencyStopped := true, emergencyStopTime := Some(now))]))
  }

  function ResumeOperations(s: Accounts, signer: Pubkey, globalAddr: Pubkey): (r: Step)
    ensures r.outcome.Err? ==> r.after == s
    ensures r.outcome.Ok? <==>
      globalAddr == GlobalStateAddress() && globalAddr in s.globals && signer == s.globals[globalAddr].authority
    ensures r.outcome == Err(Program(UnauthorizedAccess)) <==>
      globalAddr == GlobalStateAddress() && globalAddr in s.globals && signer != s.globals[globalAddr].authority
    ensures r.outcome.Ok? ==>
      r.after == s.(globals := s.globals[globalAddr :=
        s.globals[globalAddr].(isEmergencyStopped := false, emergencyStopTime := None)])
  {
    match GlobalSwitchAccounts(s, globalAddr)
    case Some(e) => Reject(s, e)
    case None =>
      var g := s.globals[globalAddr];
      if signer != g.authority then Reject(s, Program(UnauthorizedAccess))
      else Step(Ok, s.(globals := s.globals[globalAddr := g.(isEmergencyStopped := false, emergencyStopTime := None)]))
  }

  // ---------------------------------------------------------------------------
  // Any instruction
  // ---------------------------------------------------------------------------

  /** Every account of `s` is still there in `s'`, and every vote record of `s` is unchanged. */
  predicate NoAccountClosed(s: Accounts, s': Accounts)
  {
    && s.globals.Keys <= s'.globals.Keys && s.profiles.Keys <= s'.profiles.Keys
    && s.proposals.Keys <= s'.proposals.Keys && s.votes.Keys <= s'.votes.Keys
    && (forall a | a in s.votes :: s'.votes[a] == s.votes[a])
  }

  /** One transaction: an instruction with its signer, its account addresses, its arguments and the clock. */
  datatype Instruction =
    | InitializeIx(signer: Pubkey, globalAddr: Pubkey)
    | InitializeUserProfileIx(signer: Pubkey, profileAddr: Pubkey, globalAddr: Pubkey, username: Utf8, now: i64)
    | CreateProposalIx(signer: Pubkey, proposalAddr: Pubkey, globalAddr: Pubkey, profileAddr: Pubkey,
                       args: ProposalArgs, now: i64)
    | CastVoteIx(signer: Pubkey, proposalAddr: Pubkey, voteAddr: Pubkey, profileAddr: Pubkey, globalAddr: Pubkey,
                 optionIndex: u8, voteWeight: u64, now: i64)
    | FinalizeProposalIx(signer: Pubkey, proposalAddr: Pubkey, now: i64)
    | EmergencyStopIx(signer: Pubkey, globalAddr: Pubkey, now: i64)
    | ResumeOperationsIx(signer: Pubkey, globalAddr: Pubkey)

  /**
    One transaction, dispatched to its instruction. A failed transaction changes
    nothing; no instruction closes an account; and a vote record, once written,
    is never rewritten.
  */
  function Execute(s: Accounts, ix: Instruction): (r: Step)
    ensures r.outcome.Err? ==> r.after == s
    ensures NoAccountClosed(s, r.after)
  {
    match ix
    case InitializeIx(signer, g) => Initialize(s, signer, g)
    case InitializeUserProfileIx(signer, u, g, name, now) => InitializeUserProfile(s, signer, u, g, name, now)
    case CreateProposalIx(signer, p, g, u, args, now) => CreateProposal(s, signer, p, g, u, args, now)
    case CastVoteIx(signer, p, v, u, g, i, w, now) => CastVote(s, signer, p, v, u, g, i, w, now)
    case FinalizeProposalIx(signer, p, now) => FinalizeProposal(s, signer, p, now)
    case EmergencyStopIx(signer, g, now) => EmergencyStop(s, signer, g, now)
    case ResumeOperationsIx(signer, g) => ResumeOperations(s, signer, g)
  }

  /** The accounts after running the transactions of `trace` in order from `s`. */
  function Run(s: Accounts, trace: seq<Instruction>): (r: Accounts)
    ensures NoAccountClosed(s, r)
    decreases |trace|
  {
    if trace == [] then s else Run(Execute(s, trace[0]).after, trace[1..])
  }
}
