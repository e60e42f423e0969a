/**
  The on-chain data of the voting program: integer widths, program-derived
  addresses, the four account records and the two error enums.
*/
module ProgramAccounts {
  import opened Wrappers

  const U64_LIMIT: int := 0x1_0000_0000_0000_0000
  const U64_MAX: int := U64_LIMIT - 1

  type u8 = x: int | 0 <= x < 0x100
  type u64 = x: int | 0 <= x < 0x1_0000_0000_0000_0000
  type i64 = x: int | -0x8000_0000_0000_0000 <= x < 0x8000_0000_0000_0000

  /** UTF-8 text as the program stores it; `len()` in Rust is this byte length. */
  type Utf8 = seq<u8>

  // ---------------------------------------------------------------------------
  // Little-endian encoding used by `to_le_bytes()` in the seeds
  // ---------------------------------------------------------------------------

  function Pow256(n: nat): (r: nat)
    ensures r >= 1
  {
    if n == 0 then 1 else 256 * Pow256(n - 1)
  }

  /** The `n` low bytes of `v`, least significant first. */
  function LeBytes(v: nat, n: nat): (r: seq<u8>)
    ensures |r| == n
  {
    if n == 0 then [] else [v % 256] + LeBytes(v / 256, n - 1)
  }

  /** The number whose little-endian bytes are `bs`. */
  function FromLe(bs: seq<u8>): nat
  {
    if bs == [] then 0 else bs[0] + 256 * FromLe(bs[1..])
  }

  lemma {:induction false} FromLeOfLeBytes(v: nat, n: nat)
    requires v < Pow256(n)
    ensures FromLe(LeBytes(v, n)) == v
  {
    if n > 0 {
      var q, d := v / 256, v % 256;
      assert v == 256 * q + d;
      assert 256 * q < 256 * Pow256(n - 1);
      FromLeOfLeBytes(q, n - 1);
      assert LeBytes(v, n)[1..] == LeBytes(q, n - 1);
    }
  }

  lemma Pow256Of8()
    ensures Pow256(8) == U64_LIMIT
  {
  }

  /** `u64::to_le_bytes`. */
  function LeU64(v: u64): (r: seq<u8>)
    ensures |r| == 8
  {
    LeBytes(v, 8)
  }

  /** `i64::to_le_bytes`: the two's-complement bit pattern, i.e. the value modulo 2^64. */
  function LeI64(v: i64): (r: seq<u8>)
    ensures |r| == 8
    ensures v >= 0 ==> r == LeU64(v)
  {
    LeBytes(v % U64_LIMIT, 8)
  }

  /** Two u64 seeds are equal exactly when the numbers are. */
  lemma LeU64Injective(a: u64, b: u64)
    ensures LeU64(a) == LeU64(b) <==> a == b
  {
    Pow256Of8();
    FromLeOfLeBytes(a, 8);
    FromLeOfLeBytes(b, 8);
  }

  /** The i64 seed equals the u64 seed of `c` exactly when `v` and `c` agree modulo 2^64. */
  lemma LeI64MatchesLeU64(v: i64, c: u64)
    ensures LeI64(v) == LeU64(c) <==> v % U64_LIMIT == c
  {
    LeU64Injective(v % U64_LIMIT, c);
  }

  // ---------------------------------------------------------------------------
  // Keys and program-derived addresses
  // ---------------------------------------------------------------------------

  /**
    One element of a seed list: a byte-string literal such as b"vote", the 32
    bytes of a key (`key.as_ref()`), or raw bytes (`to_le_bytes()`).
  */
  datatype Seed = Tag(text: string) | KeyRef(key: Pubkey) | Bytes(bytes: seq<u8>)

  /**
    A key is either a wallet key or an address derived from a seed list. The
    derivation is the constructor `ProgramAddress`, so it is deterministic and
    injective; the hashing and bump search behind it are not modelled.
  */
  datatype Pubkey = Wallet(id: nat) | ProgramAddress(seeds: seq<Seed>)

  /** `Pubkey::default()`, the all-zero key a freshly allocated account holds. */
  const ZeroKey: Pubkey := Wallet(0)

  function FindProgramAddress(seeds: seq<Seed>): Pubkey
  {
    ProgramAddress(seeds)
  }

  /** `k` is derived from a seed list that starts with the literal `tag`. */
  predicate DerivedUnder(k: Pubkey, tag: string)
  {
    k.ProgramAddress? && |k.seeds| > 0 && k.seeds[0] == Tag(tag)
  }

  /** The one global-state account: derived from b"global_state" alone, so never a wallet. */
  function GlobalStateAddress(): (r: Pubkey)
    ensures DerivedUnder(r, "global_state") && |r.seeds| == 1
  {
    FindProgramAddress([Tag("global_state")])
  }

  /** A user's profile account: derived under b"user_profile" from that user's key. */
  function UserProfileAddress(authority: Pubkey): (r: Pubkey)
    ensures DerivedUnder(r, "user_profile") && KeyRef(authority) in r.seeds
  {
    FindProgramAddress([Tag("user_profile"), KeyRef(authority)])
  }

  /** A proposal account: derived under b"proposal" from its authority's key and eight counter bytes. */
  function ProposalAddress(authority: Pubkey, counter: seq<u8>): (r: Pubkey)
    ensures DerivedUnder(r, "proposal") && KeyRef(authority) in r.seeds && Bytes(counter) in r.seeds
  {
    FindProgramAddress([Tag("proposal"), KeyRef(authority), Bytes(counter)])
  }

  /** A vote account: derived under b"vote" from the voter's key and the proposal's key. */
  function VoteAddress(voter: Pubkey, proposal: Pubkey): (r: Pubkey)
    ensures DerivedUnder(r, "vote") && KeyRef(voter) in r.seeds && KeyRef(proposal) in r.seeds
  {
    FindProgramAddress([Tag("vote"), KeyRef(voter), KeyRef(proposal)])
  }

  /**
    The four kinds of derived address never collide, and within a kind the
    address determines the keys it was derived from: one profile per user, one
    vote account per voter and proposal, and no wallet is ever one of them.
  */
  lemma AddressesDistinct(a: Pubkey, b: Pubkey, c: seq<u8>, d: seq<u8>)
    ensures UserProfileAddress(a) == UserProfileAddress(b) <==> a == b
    ensures VoteAddress(a, b) == VoteAddress(b, a) <==> a == b
    ensures ProposalAddress(a, c) == ProposalAddress(b, d) <==> a == b && c == d
    ensures GlobalStateAddress() != UserProfileAddress(a)
    ensures ProposalAddress(a, c) !in {GlobalStateAddress(), UserProfileAddress(b), VoteAddress(a, b)}
    ensures VoteAddress(a, b) !in {GlobalStateAddress(), UserProfileAddress(a)}
    ensures !GlobalStateAddress().Wallet? && !UserProfileAddress(a).Wallet?
  {
  }

  /** Two proposal addresses of one authority differ whenever their counters differ. */
  lemma ProposalAddressesDistinct(authority: Pubkey, a: u64, b: u64)
    requires a != b
    ensures ProposalAddress(authority, LeU64(a)) != ProposalAddress(authority, LeU64(b))
  {
    LeU64Injective(a, b);
  }

  // ---------------------------------------------------------------------------
  // Account records
  // ---------------------------------------------------------------------------

  datatype GlobalState = GlobalState(
    authority: Pubkey,
    totalProposals: u64,
    totalVotes: u64,
    totalUsers: u64,
    minimumVotingPeriod: i64,
    maximumVotingPeriod: i64,
    isEmergencyStopped: bool,
    emergencyStopTime: Option<i64>)

  datatype Proposal = Proposal(
    authority: Pubkey,
    title: Utf8,
    description: Utf8,
    options: seq<Utf8>,
    startTime: i64,
    endTime: i64,
    totalVotes: u64,
    isActive: bool,
    createdAt: i64,
    finalizedAt: Option<i64>,
    voteCounts: seq<u64>)

  datatype Vote = Vote(
    voter: Pubkey,
    proposal: Pubkey,
    optionIndex: u8,
    voteWeight: u64,
    timestamp: i64,
    hasVoted: bool)

  datatype UserProfile = UserProfile(
    authority: Pubkey,
    username: Utf8,
    proposalsCreated: u64,
    votesCast: u64,
    reputation: u64,
    createdAt: i64)

  /** What a freshly `init`ed Proposal account holds before the handler writes to it. */
  const BlankProposal: Proposal :=
    Proposal(ZeroKey, [], [], [], 0, 0, 0, false, 0, None, [])

  /** What a freshly `init`ed Vote account holds before the handler writes to it. */
  const BlankVote: Vote := Vote(ZeroKey, ZeroKey, 0, 0, 0, false)

  // ---------------------------------------------------------------------------
  // Errors
  // ---------------------------------------------------------------------------

  /** `ErrorCode`, the program's first error enum. */
  datatype ErrorCode =
    | TitleTooLong
    | DescriptionTooLong
    | InvalidOptionsCount
    | InvalidStartTime
    | InvalidEndTime
    | VotingNotStarted
    | VotingEnded
    | ProposalInactive
    | InvalidOptionIndex
    | InvalidVoteWeight
    | ProposalAlreadyFinalized
    | VotingStillActive
    | UnauthorizedAccess
    | EmergencyStopActive
    | ProposalNotActive
    | VoteCountOverflow

  /** `VotingError`, the second error enum, used by `cast_vote`. */
  datatype VotingError =
    | ProposalNotActive
    | InvalidOptionIndex
    | InvalidVoteWeight
    | AlreadyVoted

  /** Everything an instruction can fail with. */
  datatype ProgramError =
    | Program(code: ErrorCode)
    | Voting(reason: VotingError)
      // Anchor: the supplied address holds no account of the expected kind
    | AccountNotInitialized
      // Anchor: the supplied address is not the one the seeds derive
    | ConstraintSeeds
      // Anchor: `has_one` found a different key in the account
    | ConstraintHasOne
      // System program: an `init` target already exists
    | AccountAlreadyInUse
      // a Rust panic: `checked_add(..).unwrap()` on overflow or an index out of bounds
    | Aborted
  {
    /** Failures raised while Anchor checks the accounts, before the handler body runs. */
    predicate IsAccountCheck()
    {
      AccountNotInitialized? || ConstraintSeeds? || ConstraintHasOne? || AccountAlreadyInUse?
    }
  }

  datatype Outcome = Ok | Err(error: ProgramError)
}
