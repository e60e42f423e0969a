/**
  The Borsh sizes of the program's account records, against the `space` each
  `init` allocates. The instruction functions take every record to fit its
  account; the lemmas here say where the allocated space is too small, so that
  Anchor cannot write the record back (or, for a new vote, read it) and the
  whole instruction fails.
*/
module AccountSizes {
  import opened Wrappers
  import opened ProgramAccounts
  import opened VotingProgram

  /** The 8-byte discriminator every account starts with. */
  const DISCRIMINATOR: nat := 8

  /** The `space` expressions of the four `init` constraints. */
  const GLOBAL_STATE_SPACE: nat := 8 + 32 + 8 + 8 + 8 + 8 + 8 + 1 + 8 + 1
  const PROPOSAL_SPACE: nat := 8 + 32 + 100 + 1000 + (10 * 100) + 8 + 8 + 8 + 1 + 8 + 1
  const VOTE_SPACE: nat := 8 + 32 + 32 + 1 + 8 + 8 + 1
  const USER_PROFILE_SPACE: nat := 8 + 32 + 50 + 8 + 8 + 8 + 8 + 1

  /** An `Option<i64>`: a tag byte, then the eight bytes when present. */
  function OptionI64Size(o: Option<i64>): (n: nat)
    ensures n == 1 <==> o.None?
    ensures n == 9 <==> o.Some?
  {
    if o.Some? then 9 else 1
  }

  /** The strings of a `Vec<String>`, each a four-byte length followed by its bytes. */
  function ElementsSize(xs: seq<Utf8>): nat
  {
    if xs == [] then 0 else 4 + |xs[0]| + ElementsSize(xs[1..])
  }

  /** `n` strings of `len` bytes each take `n * (4 + len)` bytes. */
  lemma {:induction false} ElementsSizeUniform(xs: seq<Utf8>, len: nat)
    requires forall i | 0 <= i < |xs| :: |xs[i]| == len
    ensures ElementsSize(xs) == |xs| * (4 + len)
    decreases |xs|
  {
    if xs != [] {
      ElementsSizeUniform(xs[1..], len);
    }
  }

  /** At most `len` bytes per string bound the list by `n * (4 + len)`. */
  lemma {:induction false} ElementsSizeBound(xs: seq<Utf8>, len: nat)
    requires forall i | 0 <= i < |xs| :: |xs[i]| <= len
    ensures ElementsSize(xs) <= |xs| * (4 + len)
    decreases |xs|
  {
    if xs != [] {
      ElementsSizeBound(xs[1..], len);
    }
  }

  /** A `GlobalState` record: key, five 8-byte numbers, flag, optional stop time, bump. */
  function GlobalStateSize(g: GlobalState): nat
  {
    DISCRIMINATOR + 32 + 5 * 8 + 1 + OptionI64Size(g.emergencyStopTime) + 1
  }

  /** A `Proposal` record: key, two strings, the option list, three numbers, flag, time, optional time, bump, counts. */
  function ProposalSize(p: Proposal): nat
  {
    DISCRIMINATOR + 32 + (4 + |p.title|) + (4 + |p.description|) + (4 + ElementsSize(p.options))
    + 8 + 8 + 8 + 1 + 8 + OptionI64Size(p.finalizedAt) + 1 + (4 + 8 * |p.voteCounts|)
  }

  /** A `Vote` record, of fixed size: two keys, index, weight, time, bump and flag. */
  function VoteSize(v: Vote): nat
  {
    DISCRIMINATOR + 32 + 32 + 1 + 8 + 8 + 1 + 1
  }

  /** A `UserProfile` record: key, username, four 8-byte numbers, bump. */
  function UserProfileSize(u: UserProfile): nat
  {
    DISCRIMINATOR + 32 + (4 + |u.username|) + 4 * 8 + 1
  }

  /** The global state fits its account exactly while no stop time is stored. */
  lemma GlobalStateFitsIffNoStopTime(g: GlobalState)
    ensures GlobalStateSize(g) <= GLOBAL_STATE_SPACE <==> g.emergencyStopTime.None?
  {
  }

  /**
    Hence every `emergency_stop` the instruction model lets succeed writes a
    record one byte larger than its account.
  */
  lemma EmergencyStopOverflows(s: Accounts, signer: Pubkey, globalAddr: Pubkey, now: i64)
    requires EmergencyStop(s, signer, globalAddr, now).outcome.Ok?
    ensures var g := EmergencyStop(s, signer, globalAddr, now).after.globals[globalAddr];
            GlobalStateSize(g) == GLOBAL_STATE_SPACE + 1
  {
  }

  /** A vote record needs one byte more than its account holds, whatever it contains. */
  lemma VoteOverflows(v: Vote)
    ensures VoteSize(v) == VOTE_SPACE + 1
  {
  }

  /** A profile fits exactly when its username has at most 46 bytes, not the 50 the space was sized for. */
  lemma UserProfileFitsIffShortName(u: UserProfile)
    ensures UserProfileSize(u) <= USER_PROFILE_SPACE <==> |u.username| <= 46
  {
  }

  /**
    A new proposal fits exactly when its title, description and options take at
    most 2083 bytes, the options counted with their four-byte lengths.
  */
  lemma NewProposalFits(signer: Pubkey, args: ProposalArgs, now: i64)
    ensures ProposalSize(NewProposal(signer, args, now)) <= PROPOSAL_SPACE <==>
            |args.title| + |args.description| + ElementsSize(args.options) <= 2083
  {
  }

  /**
    A proposal at the limits the handler accepts (a 100-byte title, a
    1000-byte description and ten 100-byte options) does not fit.
  */
  lemma {:induction false} ProposalAtLimitsOverflows(signer: Pubkey, args: ProposalArgs, now: i64)
    requires |args.title| == 100 && |args.description| == 1000 && |args.options| == 10
    requires forall i | 0 <= i < |args.options| :: |args.options[i]| == 100
    ensures ProposalSize(NewProposal(signer, args, now)) == 2231 > PROPOSAL_SPACE
  {
    ElementsSizeUniform(args.options, 100);
  }

  // ---------------------------------------------------------------------------
  // The spaces the records need
  // ---------------------------------------------------------------------------

  /**
    Every field at its largest Borsh size: strings and lists with their
    four-byte lengths, options with their tag byte, and every field counted.
    Strings and option lists are bounded by the limits the space expressions
    were written for (a 50-byte username, 100-byte options, ten counts).
  */
  const GLOBAL_STATE_SPACE_FIXED: nat := 8 + 32 + 5 * 8 + 1 + 9 + 1
  const VOTE_SPACE_FIXED: nat := 8 + 32 + 32 + 1 + 8 + 8 + 1 + 1
  const USER_PROFILE_SPACE_FIXED: nat := 8 + 32 + (4 + 50) + 4 * 8 + 1
  const PROPOSAL_SPACE_FIXED: nat :=
    8 + 32 + (4 + 100) + (4 + 1000) + (4 + 10 * (4 + 100)) + 8 + 8 + 8 + 1 + 8 + 9 + 1 + (4 + 10 * 8)

  /** With the tag byte counted, the global state fits whether or not a stop time is stored. */
  lemma GlobalStateAlwaysFitsFixed(g: GlobalState)
    ensures GlobalStateSize(g) <= GLOBAL_STATE_SPACE_FIXED
    ensures g.emergencyStopTime.Some? ==> GlobalStateSize(g) == GLOBAL_STATE_SPACE_FIXED
  {
  }

  /** With both one-byte fields counted, every vote record fits exactly. */
  lemma VoteFitsFixed(v: Vote)
    ensures VoteSize(v) == VOTE_SPACE_FIXED
  {
  }

  /** With the length prefix counted, a profile fits exactly when its username has at most 50 bytes. */
  lemma UserProfileFitsFixed(u: UserProfile)
    ensures UserProfileSize(u) <= USER_PROFILE_SPACE_FIXED <==> |u.username| <= 50
  {
  }

  /**
    Any proposal within the handler's limits, with options of at most 100 bytes
    and at most one count per option, fits, finalized or not.
  */
  lemma {:induction false} ProposalFitsFixed(p: Proposal)
    requires |p.title| <= 100 && |p.description| <= 1000 && |p.options| <= 10
    requires forall i | 0 <= i < |p.options| :: |p.options[i]| <= 100
    requires |p.voteCounts| <= |p.options|
    ensures ProposalSize(p) <= PROPOSAL_SPACE_FIXED
  {
    ElementsSizeBound(p.options, 100);
  }
}
