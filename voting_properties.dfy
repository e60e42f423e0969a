/**
  Properties of the voting program that relate several instructions, or that
  hold in every state the program can reach from an empty ledger.
*/
module VotingProperties {
  import opened Wrappers
  import opened ProgramAccounts
  import opened VotingProgram

  // ---------------------------------------------------------------------------
  // The tally: total_votes against the per-option counts
  // ---------------------------------------------------------------------------

  function Sum(xs: seq<u64>): nat
  {
    if xs == [] then 0 else xs[0] + Sum(xs[1..])
  }

  lemma {:induction false} SumUpdate(xs: seq<u64>, i: nat, v: u64)
    requires i < |xs|
    ensures Sum(xs[i := v]) == Sum(xs) - xs[i] + v
  {
    if i == 0 {
      assert xs[i := v][1..] == xs[1..];
    } else {
      assert xs[i := v][1..] == xs[1..][i - 1 := v];
      SumUpdate(xs[1..], i - 1, v);
    }
  }

  /** `total_votes` is the sum of the per-option counts. */
  predicate TallyConsistent(p: Proposal)
  {
    p.totalVotes == Sum(p.voteCounts)
  }

  /** A vote adds its weight to the total and to one count, so the two stay in step. */
  lemma CastVoteKeepsTally(
    s: Accounts, voter: Pubkey, proposalAddr: Pubkey, voteAddr: Pubkey, profileAddr: Pubkey, globalAddr: Pubkey,
    optionIndex: u8, voteWeight: u64, now: i64)
    requires proposalAddr in s.proposals && TallyConsistent(s.proposals[proposalAddr])
    ensures var r := CastVote(s, voter, proposalAddr, voteAddr, profileAddr, globalAddr, optionIndex, voteWeight, now);
            r.outcome.Ok? ==> TallyConsistent(r.after.proposals[proposalAddr])
  {
    var r := CastVote(s, voter, proposalAddr, voteAddr, profileAddr, globalAddr, optionIndex, voteWeight, now);
    if r.outcome.Ok? {
      var p, p' := s.proposals[proposalAddr], r.after.proposals[proposalAddr];
      assert p'.voteCounts == p.voteCounts[optionIndex := p.voteCounts[optionIndex] + voteWeight];
      SumUpdate(p.voteCounts, optionIndex, p.voteCounts[optionIndex] + voteWeight);
    }
  }

  // ---------------------------------------------------------------------------
  // Create-once accounts
  // ---------------------------------------------------------------------------

  /** Once the global state exists, `initialize` fails whoever signs it. */
  lemma InitializeOnce(s: Accounts, signer: Pubkey, signer': Pubkey, globalAddr': Pubkey)
    requires Initialize(s, signer, GlobalStateAddress()).outcome.Ok?
    ensures Initialize(Initialize(s, signer, GlobalStateAddress()).after, signer', globalAddr').outcome.Err?
  {
  }

  /** A user has at most one profile: a second `initialize_user_profile` fails. */
  lemma UserProfileOnce(
    s: Accounts, signer: Pubkey, profileAddr: Pubkey, globalAddr: Pubkey, username: Utf8, now: i64,
    profileAddr': Pubkey, globalAddr': Pubkey, username': Utf8, now': i64)
    requires InitializeUserProfile(s, signer, profileAddr, globalAddr, username, now).outcome.Ok?
    ensures var s' := InitializeUserProfile(s, signer, profileAddr, globalAddr, username, now).after;
            InitializeUserProfile(s', signer, profileAddr', globalAddr', username', now').outcome.Err?
  {
  }

  /** A voter votes at most once on a proposal: the vote account's address is taken. */
  lemma CastVoteOnce(
    s: Accounts, voter: Pubkey, proposalAddr: Pubkey, voteAddr: Pubkey, profileAddr: Pubkey, globalAddr: Pubkey,
    optionIndex: u8, voteWeight: u64, now: i64,
    voteAddr': Pubkey, profileAddr': Pubkey, globalAddr': Pubkey, optionIndex': u8, voteWeight': u64, now': i64)
    requires CastVote(s, voter, proposalAddr, voteAddr, profileAddr, globalAddr, optionIndex, voteWeight, now).outcome.Ok?
    ensures var s' := CastVote(s, voter, proposalAddr, voteAddr, profileAddr, globalAddr, optionIndex, voteWeight, now).after;
            var r' := CastVote(s', voter, proposalAddr, voteAddr', profileAddr', globalAddr', optionIndex', voteWeight', now');
            && r'.outcome.Err?
            && (profileAddr' == profileAddr && globalAddr' == globalAddr && voteAddr' == voteAddr ==>
                  r'.outcome == Err(AccountAlreadyInUse))
  {
  }

  // ---------------------------------------------------------------------------
  // Emergency stop
  // ---------------------------------------------------------------------------

  /**
    While the program is stopped no proposal can be created: the instruction
    fails on an account check or with EmergencyStopActive.
  */
  lemma StoppedBlocksCreateProposal(
    s: Accounts, signer: Pubkey, proposalAddr: Pubkey, globalAddr: Pubkey, profileAddr: Pubkey,
    args: ProposalArgs, now: i64)
    requires globalAddr in s.globals && s.globals[globalAddr].isEmergencyStopped
    ensures var r := CreateProposal(s, signer, proposalAddr, globalAddr, profileAddr, args, now);
            r.outcome.Err? && (r.outcome.error.IsAccountCheck() || r.outcome.error == Program(EmergencyStopActive))
  {
  }

  /** While the program is stopped no vote can be cast. */
  lemma StoppedBlocksCastVote(
    s: Accounts, voter: Pubkey, proposalAddr: Pubkey, voteAddr: Pubkey, profileAddr: Pubkey, globalAddr: Pubkey,
    optionIndex: u8, voteWeight: u64, now: i64)
    requires globalAddr in s.globals && s.globals[globalAddr].isEmergencyStopped
    ensures var r := CastVote(s, voter, proposalAddr, voteAddr, profileAddr, globalAddr, optionIndex, voteWeight, now);
            r.outcome.Err? && (r.outcome.error.IsAccountCheck() || r.outcome.error == Program(EmergencyStopActive))
  {
  }

  /** `resume_operations` undoes `emergency_stop` on the flag and the stop time. */
  lemma ResumeUndoesStop(s: Accounts, signer: Pubkey, globalAddr: Pubkey, now: i64)
    requires EmergencyStop(s, signer, globalAddr, now).outcome.Ok?
    ensures var s' := EmergencyStop(s, signer, globalAddr, now).after;
            var r := ResumeOperations(s', signer, globalAddr);
            && r.outcome.Ok?
            && !r.after.globals[globalAddr].isEmergencyStopped
            && r.after.globals[globalAddr].emergencyStopTime == None
            && r.after == s.(globals := s.globals[globalAddr := r.after.globals[globalAddr]])
  {
  }

  // ---------------------------------------------------------------------------
  // Finalization
  // ---------------------------------------------------------------------------

  /** A second `finalize_proposal` by the same authority fails with ProposalAlreadyFinalized. */
  lemma FinalizeTwice(s: Accounts, signer: Pubkey, proposalAddr: Pubkey, now: i64, now': i64)
    requires FinalizeProposal(s, signer, proposalAddr, now).outcome.Ok?
    ensures var s' := FinalizeProposal(s, signer, proposalAddr, now).after;
            FinalizeProposal(s', signer, proposalAddr, now').outcome == Err(Program(ProposalAlreadyFinalized))
  {
  }

  /** With a clock that does not run backwards, no vote lands on a finalized proposal. */
  lemma NoVoteAfterFinalize(
    s: Accounts, signer: Pubkey, proposalAddr: Pubkey, now: i64,
    voter: Pubkey, voteAddr: Pubkey, profileAddr: Pubkey, globalAddr: Pubkey, optionIndex: u8, voteWeight: u64, now': i64)
    requires FinalizeProposal(s, signer, proposalAddr, now).outcome.Ok?
    requires now <= now'
    ensures var s' := FinalizeProposal(s, signer, proposalAddr, now).after;
            CastVote(s', voter, proposalAddr, voteAddr, profileAddr, globalAddr, optionIndex, voteWeight, now').outcome.Err?
  {
  }

  // ---------------------------------------------------------------------------
  // Reachable states
  // ---------------------------------------------------------------------------

  /** The counter a proposal address was derived from, read back from its last seed. */
  function ProposalIndex(a: Pubkey): nat
  {
    if a.ProgramAddress? && |a.seeds| == 3 && a.seeds[2].Bytes? then FromLe(a.seeds[2].bytes) else 0
  }

  /** A proposal sits at the address derived from its authority and a counter value already used. */
  predicate ProposalPlaced(s: Accounts, a: Pubkey)
    requires a in s.proposals
  {
    && GlobalStateAddress() in s.globals
    && ProposalIndex(a) < s.globals[GlobalStateAddress()].totalProposals
    && a == ProposalAddress(s.proposals[a].authority, LeU64(ProposalIndex(a)))
  }

  /** What holds of every state the program reaches from an empty ledger. */
  predicate Consistent(s: Accounts)
  {
    && (forall a | a in s.globals :: a == GlobalStateAddress())
    && (forall a | a in s.profiles :: a == UserProfileAddress(s.profiles[a].authority))
    && (forall a | a in s.proposals :: ProposalPlaced(s, a))
    && (forall a | a in s.proposals :: s.proposals[a].voteCounts == [] && s.proposals[a].totalVotes == 0)
    && (forall a | a in s.proposals :: s.proposals[a].isActive <==> s.proposals[a].finalizedAt == None)
    && (forall a | a in s.proposals && s.proposals[a].finalizedAt.Some? ::
          s.proposals[a].finalizedAt.value > s.proposals[a].endTime)
    && s.votes == map[]
  }

  lemma EmptyConsistent()
    ensures Consistent(Empty)
  {
  }

  /** The counter seed of a freshly derived proposal address reads back as the counter. */
  lemma ProposalIndexOfAddress(authority: Pubkey, c: u64)
    ensures ProposalIndex(ProposalAddress(authority, LeU64(c))) == c
  {
    Pow256Of8();
    FromLeOfLeBytes(c, 8);
  }

  /**
    In a reachable state `cast_vote` never succeeds: every proposal's
    `vote_counts` is empty, so the indexing at line 110 of the handler panics
    whenever the earlier checks pass.
  */
  lemma CastVoteNeverSucceeds(
    s: Accounts, voter: Pubkey, proposalAddr: Pubkey, voteAddr: Pubkey, profileAddr: Pubkey, globalAddr: Pubkey,
    optionIndex: u8, voteWeight: u64, now: i64)
    requires Consistent(s)
    ensures CastVote(s, voter, proposalAddr, voteAddr, profileAddr, globalAddr, optionIndex, voteWeight, now).outcome.Err?
  {
  }

  /**
    Sharper: for any created proposal and a correctly derived vote address,
    `cast_vote` already fails on the proposal's seeds, which use the current
    proposal counter instead of the one the proposal was created with.
  */
  lemma {:induction false} CastVoteSeedsRejectCreatedProposals(
    s: Accounts, voter: Pubkey, proposalAddr: Pubkey, profileAddr: Pubkey, globalAddr: Pubkey,
    optionIndex: u8, voteWeight: u64, now: i64)
    requires Consistent(s)
    requires proposalAddr in s.proposals && profileAddr in s.profiles && globalAddr in s.globals
    ensures CastVote(s, voter, proposalAddr, VoteAddress(voter, proposalAddr), profileAddr, globalAddr,
                     optionIndex, voteWeight, now).outcome == Err(ConstraintSeeds)
  {
    var p := s.proposals[proposalAddr];
    var k := ProposalIndex(proposalAddr);
    assert ProposalPlaced(s, proposalAddr);
    var total := s.globals[globalAddr].totalProposals;
    assert globalAddr == GlobalStateAddress();
    ProposalAddressesDistinct(p.authority, k, total);
    var voteAddr := VoteAddress(voter, proposalAddr);
    assert voteAddr !in s.globals;
    assert voteAddr !in s.profiles;
  }

  /**
    `finalize_proposal` re-derives the address from `created_at`, so its seeds
    check passes exactly when the creation time agrees, modulo 2^64, with the
    counter the proposal was created under.
  */
  lemma {:induction false} FinalizeSeedsNeedCreationCounter(s: Accounts, proposalAddr: Pubkey)
    requires Consistent(s) && proposalAddr in s.proposals
    ensures var p := s.proposals[proposalAddr];
            proposalAddr == ProposalAddress(p.authority, LeI64(p.createdAt)) <==>
            p.createdAt % U64_LIMIT == ProposalIndex(proposalAddr)
  {
    var p := s.proposals[proposalAddr];
    assert ProposalPlaced(s, proposalAddr);
    var k := ProposalIndex(proposalAddr);
    LeI64MatchesLeU64(p.createdAt, k);
  }

  /** Hence a proposal can only be finalized when that coincidence holds. */
  lemma FinalizeNeedsCreationCounter(s: Accounts, signer: Pubkey, proposalAddr: Pubkey, now: i64)
    requires Consistent(s)
    requires FinalizeProposal(s, signer, proposalAddr, now).outcome.Ok?
    ensures s.proposals[proposalAddr].createdAt % U64_LIMIT == ProposalIndex(proposalAddr)
  {
    FinalizeSeedsNeedCreationCounter(s, proposalAddr);
  }

  lemma {:induction false} CreateProposalKeepsConsistent(
    s: Accounts, signer: Pubkey, proposalAddr: Pubkey, globalAddr: Pubkey, profileAddr: Pubkey,
    args: ProposalArgs, now: i64)
    requires Consistent(s)
    ensures Consistent(CreateProposal(s, signer, proposalAddr, globalAddr, profileAddr, args, now).after)
  {
    var r := CreateProposal(s, signer, proposalAddr, globalAddr, profileAddr, args, now);
    if r.outcome.Ok? {
      var c := s.globals[globalAddr].totalProposals;
      ProposalIndexOfAddress(signer, c);
      var s' := r.after;
      var p := NewProposal(signer, args, now);
      assert s'.proposals[proposalAddr] == p;
      forall a | a in s'.proposals
        ensures ProposalPlaced(s', a)
      {
        if a != proposalAddr {
          assert ProposalPlaced(s, a);
        }
      }
      forall a | a in s'.proposals
        ensures s'.proposals[a].voteCounts == [] && s'.proposals[a].totalVotes == 0
        ensures s'.proposals[a].isActive <==> s'.proposals[a].finalizedAt == None
      {
      }
    }
  }

  lemma {:induction false} InitializeKeepsConsistent(s: Accounts, signer: Pubkey, globalAddr: Pubkey)
    requires Consistent(s)
    ensures Consistent(Initialize(s, signer, globalAddr).after)
  {
    if Initialize(s, signer, globalAddr).outcome.Ok? {
      assert s.proposals == map[] by {
        if a :| a in s.proposals {
          assert ProposalPlaced(s, a);
        }
      }
    }
  }

  lemma {:induction false} InitializeUserProfileKeepsConsistent(
    s: Accounts, signer: Pubkey, profileAddr: Pubkey, globalAddr: Pubkey, username: Utf8, now: i64)
    requires Consistent(s)
    ensures Consistent(InitializeUserProfile(s, signer, profileAddr, globalAddr, username, now).after)
  {
    var s' := InitializeUserProfile(s, signer, profileAddr, globalAddr, username, now).after;
    forall a | a in s'.proposals
      ensures ProposalPlaced(s', a)
    {
      assert ProposalPlaced(s, a);
    }
  }

  lemma {:induction false} FinalizeKeepsConsistent(s: Accounts, signer: Pubkey, proposalAddr: Pubkey, now: i64)
    requires Consistent(s)
    ensures Consistent(FinalizeProposal(s, signer, proposalAddr, now).after)
  {
    var s' := FinalizeProposal(s, signer, proposalAddr, now).after;
    forall a | a in s'.proposals
      ensures ProposalPlaced(s', a)
    {
      assert ProposalPlaced(s, a);
    }
  }

  lemma {:induction false} EmergencyStopKeepsConsistent(s: Accounts, signer: Pubkey, globalAddr: Pubkey, now: i64)
    requires Consistent(s)
    ensures Consistent(EmergencyStop(s, signer, globalAddr, now).after)
  {
    var s' := EmergencyStop(s, signer, globalAddr, now).after;
    forall a | a in s'.proposals
      ensures ProposalPlaced(s', a)
    {
      assert ProposalPlaced(s, a);
    }
  }

  lemma {:induction false} ResumeKeepsConsistent(s: Accounts, signer: Pubkey, globalAddr: Pubkey)
    requires Consistent(s)
    ensures Consistent(ResumeOperations(s, signer, globalAddr).after)
  {
    var s' := ResumeOperations(s, signer, globalAddr).after;
    forall a | a in s'.proposals
      ensures ProposalPlaced(s', a)
    {
      assert ProposalPlaced(s, a);
    }
  }

  /** Every instruction, succeeding or failing, keeps a consistent state consistent. */
  lemma ExecuteKeepsConsistent(s: Accounts, ix: Instruction)
    requires Consistent(s)
    ensures Consistent(Execute(s, ix).after)
  {
    match ix
    case InitializeIx(signer, g) => InitializeKeepsConsistent(s, signer, g);
    case InitializeUserProfileIx(signer, u, g, name, now) => InitializeUserProfileKeepsConsistent(s, signer, u, g, name, now);
    case CreateProposalIx(signer, p, g, u, args, now) => CreateProposalKeepsConsistent(s, signer, p, g, u, args, now);
    case CastVoteIx(signer, p, v, u, g, i, w, now) => CastVoteNeverSucceeds(s, signer, p, v, u, g, i, w, now);
    case FinalizeProposalIx(signer, p, now) => FinalizeKeepsConsistent(s, signer, p, now);
    case EmergencyStopIx(signer, g, now) => EmergencyStopKeepsConsistent(s, signer, g, now);
    case ResumeOperationsIx(signer, g) => ResumeKeepsConsistent(s, signer, g);
  }

  lemma {:induction false} RunKeepsConsistent(s: Accounts, trace: seq<Instruction>)
    requires Consistent(s)
    ensures Consistent(Run(s, trace))
    decreases |trace|
  {
    if trace != [] {
      ExecuteKeepsConsistent(s, trace[0]);
      RunKeepsConsistent(Execute(s, trace[0]).after, trace[1..]);
    }
  }

  /** Whatever transactions are sent, no vote account is ever created. */
  lemma NoVoteIsEverRecorded(trace: seq<Instruction>)
    ensures Run(Empty, trace).votes == map[]
  {
    EmptyConsistent();
    RunKeepsConsistent(Empty, trace);
  }
}
