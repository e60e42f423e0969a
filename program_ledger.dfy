/**
  The program's accounts as mutable state. Each instruction is a method that
  checks its accounts, runs the handler's guards with early returns, and then
  updates the account maps in place. A guard that fails, or a panic, returns an
  error before anything is written, which is what the runtime's roll-back of a
  failed transaction amounts to. Every method is proved to behave as the
  instruction's function in VotingProgram.
*/
module ProgramLedger {
  import opened Wrappers
  import opened ProgramAccounts
  import VP = VotingProgram

  class Ledger {
    var globals: map<Pubkey, GlobalState>
    var profiles: map<Pubkey, UserProfile>
    var proposals: map<Pubkey, Proposal>
    var votes: map<Pubkey, Vote>

    /** The ledger's accounts as a value. */
    function Snapshot(): VP.Accounts
      reads this
    {
      VP.Accounts(globals, profiles, proposals, votes)
    }

    predicate InUse(a: Pubkey)
      reads this
    {
      a in globals || a in profiles || a in proposals || a in votes
    }

    constructor ()
      ensures Snapshot() == VP.Empty
    {
      globals, profiles, proposals, votes := map[], map[], map[], map[];
    }

    method Initialize(signer: Pubkey, globalAddr: Pubkey) returns (r: Outcome)
      modifies this
      ensures VP.Step(r, Snapshot()) == VP.Initialize(old(Snapshot()), signer, globalAddr)
    {
      if globalAddr != GlobalStateAddress() { return Err(ConstraintSeeds); }
      if InUse(globalAddr) { return Err(AccountAlreadyInUse); }
      var g := GlobalState(ZeroKey, 0, 0, 0, 0, 0, false, None);
      g := g.(authority := signer);
      g := g.(totalProposals := 0, totalVotes := 0, totalUsers := 0);
      g := g.(minimumVotingPeriod := VP.MINIMUM_VOTING_PERIOD, maximumVotingPeriod := VP.MAXIMUM_VOTING_PERIOD);
      g := g.(isEmergencyStopped := false, emergencyStopTime := None);
      globals := globals[globalAddr := g];
      return Ok;
    }

    method InitializeUserProfile(signer: Pubkey, profileAddr: Pubkey, globalAddr: Pubkey, username: Utf8, now: i64)
      returns (r: Outcome)
      modifies this
      ensures VP.Step(r, Snapshot()) == VP.InitializeUserProfile(old(Snapshot()), signer, profileAddr, globalAddr, username, now)
    {
      if globalAddr !in globals { return Err(AccountNotInitialized); }
      var g := globals[globalAddr];
      if profileAddr != UserProfileAddress(signer) { return Err(ConstraintSeeds); }
      if InUse(profileAddr) { return Err(AccountAlreadyInUse); }
      if globalAddr != GlobalStateAddress() { return Err(ConstraintSeeds); }
      if g.totalUsers == U64_MAX { return Err(Aborted); }
      profiles := profiles[profileAddr := UserProfile(signer, username, 0, 0, 0, now)];
      g := g.(totalUsers := g.totalUsers + 1);
      globals := globals[globalAddr := g];
      return Ok;
    }

    method CreateProposal(
      signer: Pubkey, proposalAddr: Pubkey, globalAddr: Pubkey, profileAddr: Pubkey, args: VP.ProposalArgs, now: i64)
      returns (r: Outcome)
      modifies this
      ensures VP.Step(r, Snapshot()) == VP.CreateProposal(old(Snapshot()), signer, proposalAddr, globalAddr, profileAddr, args, now)
    {
      if globalAddr !in globals || profileAddr !in profiles { return Err(AccountNotInitialized); }
      var g := globals[globalAddr];
      var u := profiles[profileAddr];
      if proposalAddr != ProposalAddress(signer, LeU64(g.totalProposals)) { return Err(ConstraintSeeds); }
      if InUse(proposalAddr) { return Err(AccountAlreadyInUse); }
      if globalAddr != GlobalStateAddress() { return Err(ConstraintSeeds); }
      if g.isEmergencyStopped { return Err(Program(EmergencyStopActive)); }
      if profileAddr != UserProfileAddress(signer) { return Err(ConstraintSeeds); }

      if |args.title| > VP.MAX_TITLE_LENGTH { return Err(Program(TitleTooLong)); }
      if |args.description| > VP.MAX_DESCRIPTION_LENGTH { return Err(Program(DescriptionTooLong)); }
      if !(VP.MIN_OPTIONS <= |args.options| <= VP.MAX_OPTIONS) { return Err(Program(InvalidOptionsCount)); }
      if args.startTime < now - VP.START_TIME_GRACE { return Err(Program(InvalidStartTime)); }
      if args.endTime <= args.startTime { return Err(Program(InvalidEndTime)); }
      if g.totalProposals == U64_MAX || u.proposalsCreated == U64_MAX { return Err(Aborted); }

      var p := BlankProposal;
      p := p.(authority := signer, title := args.title, description := args.description, options := args.options);
      p := p.(startTime := args.startTime, endTime := args.endTime);
      p := p.(totalVotes := 0, isActive := true, createdAt := now);
      proposals := proposals[proposalAddr := p];
      globals := globals[globalAddr := g.(totalProposals := g.totalProposals + 1)];
      profiles := profiles[profileAddr := u.(proposalsCreated := u.proposalsCreated + 1)];
      return Ok;
    }

    method CastVote(
      voter: Pubkey, proposalAddr: Pubkey, voteAddr: Pubkey, profileAddr: Pubkey, globalAddr: Pubkey,
      optionIndex: u8, voteWeight: u64, now: i64)
      returns (r: Outcome)
      modifies this
      ensures VP.Step(r, Snapshot()) ==
              VP.CastVote(old(Snapshot()), voter, proposalAddr, voteAddr, profileAddr, globalAddr, optionIndex, voteWeight, now)
    {
      if proposalAddr !in proposals || profileAddr !in profiles || globalAddr !in globals {
        return Err(AccountNotInitialized);
      }
      var p := proposals[proposalAddr];
      var g := globals[globalAddr];
      if voteAddr != VoteAddress(voter, proposalAddr) { return Err(ConstraintSeeds); }
      if InUse(voteAddr) { return Err(AccountAlreadyInUse); }
      if proposalAddr != ProposalAddress(p.authority, LeU64(g.totalProposals)) { return Err(ConstraintSeeds); }
      if g.isEmergencyStopped { return Err(Program(EmergencyStopActive)); }
      if profileAddr != UserProfileAddress(voter) { return Err(ConstraintSeeds); }
      if globalAddr != GlobalStateAddress() { return Err(ConstraintSeeds); }
      r := CastVoteHandler(voter, proposalAddr, voteAddr, optionIndex, voteWeight, now);
    }

    /** The handler of `cast_vote`: its guards, then the new vote account and the proposal's tallies. */
    method CastVoteHandler(voter: Pubkey, proposalAddr: Pubkey, voteAddr: Pubkey, optionIndex: u8, voteWeight: u64, now: i64)
      returns (r: Outcome)
      requires proposalAddr in proposals
      modifies this
      ensures VP.Step(r, Snapshot()) == VP.CastVoteHandler(old(Snapshot()), voter, proposalAddr, voteAddr, optionIndex, voteWeight, now)
    {
      var p := proposals[proposalAddr];
      if !(p.startTime <= now <= p.endTime) { return Err(Voting(VotingError.ProposalNotActive)); }
      if !(optionIndex < |p.options| % 256) { return Err(Voting(VotingError.InvalidOptionIndex)); }
      if voteWeight == 0 { return Err(Voting(VotingError.InvalidVoteWeight)); }
      var vote := BlankVote;
      if vote.hasVoted { return Err(Voting(AlreadyVoted)); }
      if p.totalVotes + voteWeight > U64_MAX { return Err(Aborted); }
      if optionIndex >= |p.voteCounts| { return Err(Aborted); }
      if p.voteCounts[optionIndex] + voteWeight > U64_MAX { return Err(Aborted); }

      vote := vote.(voter := voter, proposal := proposalAddr, optionIndex := optionIndex);
      vote := vote.(voteWeight := voteWeight, timestamp := now, hasVoted := true);
      votes := votes[voteAddr := vote];
      p := p.(totalVotes := p.totalVotes + voteWeight);
      p := p.(voteCounts := p.voteCounts[optionIndex := p.voteCounts[optionIndex] + voteWeight]);
      proposals := proposals[proposalAddr := p];
      return Ok;
    }

    method FinalizeProposal(signer: Pubkey, proposalAddr: Pubkey, now: i64) returns (r: Outcome)
      modifies this
      ensures VP.Step(r, Snapshot()) == VP.FinalizeProposal(old(Snapshot()), signer, proposalAddr, now)
    {
      if proposalAddr !in proposals { return Err(AccountNotInitialized); }
      var p := proposals[proposalAddr];
      if proposalAddr != ProposalAddress(p.authority, LeI64(p.createdAt)) { return Err(ConstraintSeeds); }
      if p.authority != signer { return Err(ConstraintHasOne); }
      if !p.isActive { return Err(Program(ProposalAlreadyFinalized)); }
      if now <= p.endTime { return Err(Program(VotingStillActive)); }
      p := p.(isActive := false, finalizedAt := Some(now));
      proposals := proposals[proposalAddr := p];
      return Ok;
    }

    method EmergencyStop(signer: Pubkey, globalAddr: Pubkey, now: i64) returns (r: Outcome)
      modifies this
      ensures VP.Step(r, Snapshot()) == VP.EmergencyStop(old(Snapshot()), signer, globalAddr, now)
    {
      if globalAddr !in globals { return Err(AccountNotInitialized); }
      if globalAddr != GlobalStateAddress() { return Err(ConstraintSeeds); }
      var g := globals[globalAddr];
      if signer != g.authority { return Err(Program(UnauthorizedAccess)); }
      g := g.(isEmergencyStopped := true, emergencyStopTime := Some(now));
      globals := globals[globalAddr := g];
      return Ok;
    }

    method ResumeOperations(signer: Pubkey, globalAddr: Pubkey) returns (r: Outcome)
      modifies this
      ensures VP.Step(r, Snapshot()) == VP.ResumeOperations(old(Snapshot()), signer, globalAddr)
    {
      if globalAddr !in globals { return Err(AccountNotInitialized); }
      if globalAddr != GlobalStateAddress() { return Err(ConstraintSeeds); }
      var g := globals[globalAddr];
      if signer != g.authority { return Err(Program(UnauthorizedAccess)); }
      g := g.(isEmergencyStopped := false, emergencyStopTime := None);
      globals := globals[globalAddr := g];
      return Ok;
    }
  }
}
