/**
  The client's proposal service: projecting fetched proposal accounts to the
  client's records, building the account filter for the listing, and tallying a
  fetched vote list into per-option and per-day counts.

  The RPC fetches are oracles: `None` stands for a fetch that throws (an invalid
  key string included), `Some(xs)` for the accounts it returns.
*/
module ProposalService {
  import opened Wrappers
  import opened ClientTypes
  import ProgramAccounts

  /** A proposal account as the RPC library decodes it; its three numbers are still BN values. */
  datatype FetchedProposal = FetchedProposal(
    title: string,
    description: string,
    options: seq<string>,
    startTime: int,
    endTime: int,
    totalVotes: int,
    isActive: bool,
    authority: Key)

  /**
    A vote account as the RPC library decodes it. `option` is the account's
    `option` property, which is `undefined` (`None`) when the account has no such field.
  */
  datatype FetchedVote = FetchedVote(option: Option<string>, timestamp: int)

  /** An RPC account filter: compare `bytes` with the account data at `offset`. */
  datatype MemcmpFilter = Memcmp(offset: nat, bytes: string)

  datatype ProposalResults = ProposalResults(
    proposal: ClientProposal,
    totalVotes: nat,
    results: map<string, nat>,
    voterTurnout: nat,
    timeDistribution: map<string, nat>)

  const VOTER_TURNOUT: nat := 65
  /** 2^53: BN's `toNumber` throws for a value of this magnitude or more. */
  const SAFE_LIMIT: int := 0x20_0000_0000_0000
  const FILTER_OFFSET: nat := 8

  /** The account fields a client record carries, read back from it. */
  function AccountFields(c: ClientProposal): FetchedProposal
  {
    FetchedProposal(c.title, c.description, c.options, c.startTime, c.endTime, c.totalVotes, c.isActive, c.authority)
  }

  /**
    The object `{ id, title, ..., pubkey }` built from a fetched account: it keeps
    every account field it lists, so they can be read back unchanged.
  */
  function ToClientProposal(id: string, key: Key, a: FetchedProposal): (r: ClientProposal)
    ensures AccountFields(r) == a
    ensures r.id == id && r.pubkey == key
  {
    ClientProposal(id, a.title, a.description, a.options, a.startTime, a.endTime, a.totalVotes, a.isActive, a.authority, key)
  }

  /** `bn.toNumber()` returns the value instead of throwing. */
  predicate SafeNumber(v: int)
  {
    -SAFE_LIMIT < v < SAFE_LIMIT
  }

  /** The three `toNumber` calls of the projection all return. */
  predicate Convertible(a: FetchedProposal)
  {
    SafeNumber(a.startTime) && SafeNumber(a.endTime) && SafeNumber(a.totalVotes)
  }

  /**
    `getProposal(proposalId)`: the projected account, or null when the fetch
    fails or one of the `toNumber` conversions throws.
  */
  function GetProposal(proposalId: string, fetched: Option<FetchedProposal>): (r: Option<ClientProposal>)
    ensures r.None? <==> fetched.None? || !Convertible(fetched.value)
    ensures r.Some? ==>
              && r.value.id == proposalId && r.value.pubkey == proposalId
              && r.value.title == fetched.value.title && r.value.description == fetched.value.description
              && r.value.options == fetched.value.options
              && r.value.startTime == fetched.value.startTime && r.value.endTime == fetched.value.endTime
              && r.value.totalVotes == fetched.value.totalVotes && r.value.isActive == fetched.value.isActive
              && r.value.authority == fetched.value.authority
  {
    match fetched
    case None => None
    case Some(a) => if Convertible(a) then Some(ToClientProposal(proposalId, proposalId, a)) else None
  }

  /** The filter list `getAllProposals` passes to the RPC for an optional `isActive`. */
  function FilterList(isActive: Option<bool>): (r: seq<MemcmpFilter>)
    ensures r == [] <==> isActive.None?
    ensures |r| <= 1
    ensures forall f | f in r :: f.offset == FILTER_OFFSET && (f.bytes == "1" <==> isActive == Some(true))
    ensures forall f | f in r :: f.bytes == "1" || f.bytes == "0"
  {
    if isActive.None? then [] else [Memcmp(FILTER_OFFSET, if isActive.value then "1" else "0")]
  }

  /** The filter array is built by pushing onto an empty array. */
  method BuildFilters(isActive: Option<bool>) returns (filters: seq<MemcmpFilter>)
    ensures filters == FilterList(isActive)
  {
    filters := [];
    if isActive.Some? {
      filters := filters + [Memcmp(FILTER_OFFSET, if isActive.value then "1" else "0")];
    }
  }

  /**
    `getAllProposals(filters)`: the accounts the RPC returns for the built filter
    list, each projected with its printed key as id, or `[]` when the fetch fails
    or any one account holds a number `toNumber` throws on.
  */
  method GetAllProposals(isActive: Option<bool>, all: seq<MemcmpFilter> -> Option<seq<(Key, FetchedProposal)>>)
    returns (r: seq<ClientProposal>)
    ensures all(FilterList(isActive)).None? ==> r == []
    ensures all(FilterList(isActive)).Some? ==>
              var fetched := all(FilterList(isActive)).value;
              (exists i | 0 <= i < |fetched| :: !Convertible(fetched[i].1)) ==> r == []
    ensures all(FilterList(isActive)).Some? ==>
              var fetched := all(FilterList(isActive)).value;
              (forall i | 0 <= i < |fetched| :: Convertible(fetched[i].1)) ==>
              && |r| == |fetched|
              && forall i | 0 <= i < |r| :: r[i] == ToClientProposal(fetched[i].0, fetched[i].0, fetched[i].1)
  {
    var filters := BuildFilters(isActive);
    var fetched := all(filters);
    if fetched.None? {
      return [];
    }
    var accounts := fetched.value;
    var k := 0;
    while k < |accounts|
      invariant 0 <= k <= |accounts|
      invariant forall i | 0 <= i < k :: Convertible(accounts[i].1)
    {
      if !Convertible(accounts[k].1) {
        return [];
      }
      k := k + 1;
    }
    r := seq(|accounts|, i requires 0 <= i < |accounts| => ToClientProposal(accounts[i].0, accounts[i].0, accounts[i].1));
  }

  // ---------------------------------------------------------------------------
  // Tallies
  // ---------------------------------------------------------------------------

  /** The count held under `k`, `acc[k] || 0`. */
  function Get(acc: map<string, nat>, k: string): nat
  {
    if k in acc then acc[k] else 0
  }

  /** `keys.reduce((acc, k) => { acc[k] = (acc[k] || 0) + 1; return acc }, acc)`. */
  function CountInto(acc: map<string, nat>, keys: seq<string>): (r: map<string, nat>)
    ensures forall k :: k in r <==> k in acc || k in keys
    ensures forall k :: Get(r, k) == Get(acc, k) + multiset(keys)[k]
    decreases |keys|
  {
    if keys == [] then acc
    else
      assert keys == [keys[0]] + keys[1..];
      CountInto(acc[keys[0] := Get(acc, keys[0]) + 1], keys[1..])
  }

  /** The sum of a map's values. */
  ghost function MapTotal(m: map<string, nat>): nat
    decreases |m|
  {
    if m == map[] then 0
    else
      var k :| k in m;
      m[k] + MapTotal(m - {k})
  }

  /** The sum can be split at any key, not only at the one the definition picks. */
  lemma {:induction false} MapTotalRemove(m: map<string, nat>, k: string)
    requires k in m
    ensures MapTotal(m) == m[k] + MapTotal(m - {k})
    decreases |m|
  {
    var j :| j in m && MapTotal(m) == m[j] + MapTotal(m - {j});
    if j != k {
      MapTotalRemove(m - {j}, k);
      MapTotalRemove(m - {k}, j);
      assert m - {j} - {k} == m - {k} - {j};
    }
  }

  /** Raising or setting the count under one key changes the sum by the difference. */
  lemma MapTotalUpdate(m: map<string, nat>, k: string, v: nat)
    ensures MapTotal(m[k := v]) == MapTotal(m) - Get(m, k) + v
  {
    MapTotalRemove(m[k := v], k);
    assert m[k := v] - {k} == m - {k};
    if k in m {
      MapTotalRemove(m, k);
    } else {
      assert m - {k} == m;
    }
  }

  /** Counting one key adds one to the sum. */
  lemma CountOne(acc: map<string, nat>, k: string)
    ensures MapTotal(acc[k := Get(acc, k) + 1]) == MapTotal(acc) + 1
  {
    MapTotalUpdate(acc, k, Get(acc, k) + 1);
  }

  /** Every key counted adds exactly one to the sum. */
  lemma {:induction false} CountIntoTotal(acc: map<string, nat>, keys: seq<string>)
    ensures MapTotal(CountInto(acc, keys)) == MapTotal(acc) + |keys|
    decreases |keys|
  {
    if keys == [] {
      assert CountInto(acc, keys) == acc;
    } else {
      var acc' := acc[keys[0] := Get(acc, keys[0]) + 1];
      var rest := CountInto(acc', keys[1..]);
      assert CountInto(acc, keys) == rest;
      CountOne(acc, keys[0]);
      CountIntoTotal(acc', keys[1..]);
    }
  }

  /**
    The tally of a key list: each key maps to the number of its occurrences, a
    key that never occurs is absent, and the counts add up to the list's length.
  */
  function Tally(keys: seq<string>): (r: map<string, nat>)
    ensures forall k :: k in r <==> k in keys
    ensures forall k | k in r :: r[k] == multiset(keys)[k] && r[k] > 0
    ensures MapTotal(r) == |keys|
  {
    var r := CountInto(map[], keys);
    assert forall k | k in r :: Get(r, k) == r[k];
    CountIntoTotal(map[], keys);
    assert MapTotal(map[]) == 0;
    r
  }

  /** The property name a vote's option becomes: `undefined` prints as "undefined". */
  function OptionKey(option: Option<string>): string
  {
    match option
    case None => "undefined"
    case Some(o) => o
  }

  function OptionKeys(votes: seq<FetchedVote>): (r: seq<string>)
    ensures |r| == |votes| && forall i | 0 <= i < |votes| :: r[i] == OptionKey(votes[i].option)
  {
    seq(|votes|, i requires 0 <= i < |votes| => OptionKey(votes[i].option))
  }

  /** The day label of each vote, by a locale's date formatting of its timestamp. */
  function DayKeys(votes: seq<FetchedVote>, day: int -> string): (r: seq<string>)
    ensures |r| == |votes| && forall i | 0 <= i < |votes| :: r[i] == day(votes[i].timestamp * 1000)
  {
    seq(|votes|, i requires 0 <= i < |votes| => day(votes[i].timestamp * 1000))
  }

  /** The number of votes whose option property is `option`. */
  function CountOption(votes: seq<FetchedVote>, option: Option<string>): nat
  {
    if votes == [] then 0 else (if votes[0].option == option then 1 else 0) + CountOption(votes[1..], option)
  }

  /**
    `getProposalResults(proposalId)`: null when the proposal or the votes cannot be
    fetched, or when a vote's timestamp is too large for `toNumber`; otherwise the per-option tally, the per-day tally, the vote count and
    the fixed turnout figure.
  */
  function GetProposalResults(
    proposalId: string, proposal: Option<FetchedProposal>, votes: Option<seq<FetchedVote>>, day: int -> string)
    : (r: Option<ProposalResults>)
    ensures r.None? <==>
              || proposal.None? || !Convertible(proposal.value) || votes.None?
              || exists i | 0 <= i < |votes.value| :: !SafeNumber(votes.value[i].timestamp)
    ensures r.Some? ==>
              && r.value.proposal == GetProposal(proposalId, proposal).value
              && r.value.totalVotes == |votes.value|
              && MapTotal(r.value.results) == r.value.totalVotes
              && MapTotal(r.value.timeDistribution) == r.value.totalVotes
              && r.value.voterTurnout == VOTER_TURNOUT
  {
    match GetProposal(proposalId, proposal)
    case None => None
    case Some(p) =>
      match votes
      case None => None
      case Some(vs) =>
        if exists i | 0 <= i < |vs| :: !SafeNumber(vs[i].timestamp) then None
        else Some(ProposalResults(p, |vs|, Tally(OptionKeys(vs)), VOTER_TURNOUT, Tally(DayKeys(vs, day))))
  }

  /** The keys of `OptionKeys` are counted per vote whose option prints to that key. */
  lemma {:induction false} OptionKeyCount(votes: seq<FetchedVote>, k: string)
    ensures multiset(OptionKeys(votes))[k] ==
            CountOption(votes, Some(k)) + (if k == "undefined" then CountOption(votes, None) else 0)
  {
    if votes != [] {
      OptionKeyCount(votes[1..], k);
      assert OptionKeys(votes) == [OptionKey(votes[0].option)] + OptionKeys(votes[1..]);
    }
  }

  /**
    `results[o]` is the number of fetched votes whose option is `o` (with the
    absent option counted under "undefined"), and an option nobody voted for has no entry.
  */
  lemma ResultsCountVotes(
    proposalId: string, proposal: FetchedProposal, votes: seq<FetchedVote>, day: int -> string, o: string)
    requires o != "undefined" && Convertible(proposal)
    requires forall i | 0 <= i < |votes| :: SafeNumber(votes[i].timestamp)
    ensures var r := GetProposalResults(proposalId, Some(proposal), Some(votes), day).value;
            && (o in r.results <==> CountOption(votes, Some(o)) > 0)
            && (o in r.results ==> r.results[o] == CountOption(votes, Some(o)))
  {
    OptionKeyCount(votes, o);
    var keys := OptionKeys(votes);
    assert o in keys <==> multiset(keys)[o] > 0;
  }

  /** The vote account as the RPC library decodes it: the program stores an index, so there is no `option` property. */
  function DecodeVote(v: ProgramAccounts.Vote): (r: FetchedVote)
    ensures r.option.None? && r.timestamp == v.timestamp
  {
    FetchedVote(None, v.timestamp)
  }

  /**
    Over the program's own vote accounts, as decoded, every vote is tallied
    under the one key "undefined".
  */
  lemma OnChainVotesTallyUndefined(accounts: seq<ProgramAccounts.Vote>, votes: seq<FetchedVote>)
    requires |votes| == |accounts| && forall i | 0 <= i < |votes| :: votes[i] == DecodeVote(accounts[i])
    ensures Tally(OptionKeys(votes)) == if votes == [] then map[] else map["undefined" := |votes|]
  {
    var keys := OptionKeys(votes);
    UndefinedCount(keys);
    var t := Tally(keys);
    if votes == [] {
      assert t.Keys == {};
    } else {
      assert keys[0] in keys;
      assert t.Keys == {"undefined"};
    }
  }

  lemma {:induction false} UndefinedCount(keys: seq<string>)
    requires forall i | 0 <= i < |keys| :: keys[i] == "undefined"
    ensures multiset(keys)["undefined"] == |keys|
  {
    if keys != [] {
      UndefinedCount(keys[1..]);
      assert keys == [keys[0]] + keys[1..];
    }
  }
}
