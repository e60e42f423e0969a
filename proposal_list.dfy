/**
  The proposal list: the all / active / ended filter over the loaded proposals,
  and reloading after a vote. The clock is a parameter (`nowMs`) and the
  awaited `getAllProposals` call is an oracle.
*/
module ProposalList {
  import opened Wrappers
  import opened ClientTypes
  import opened Sequences

  datatype FilterType = All | ActiveOnly | EndedOnly

  /** What awaiting `getAllProposals()` does: resolve with a list, or throw what `addError` then receives. */
  datatype Fetch = Loaded(proposals: seq<ClientProposal>) | FetchFailed(reported: ReportedError)

  /** The filter's test for one proposal, with `now` the current whole second. */
  function Keep(filter: FilterType, nowMs: int): (keep: ClientProposal -> bool)
    ensures forall p :: keep(p) <==>
              match filter
              case All => true
              case ActiveOnly => p.startTime <= FloorSeconds(nowMs) <= p.endTime
              case EndedOnly => FloorSeconds(nowMs) > p.endTime
  {
    var now := FloorSeconds(nowMs);
    (p: ClientProposal) =>
      if filter == ActiveOnly then now >= p.startTime && now <= p.endTime
      else if filter == EndedOnly then now > p.endTime
      else true
  }

  /** `filteredProposals`: the proposals the filter keeps, in their order. */
  function Filtered(proposals: seq<ClientProposal>, filter: FilterType, nowMs: int): (r: seq<ClientProposal>)
    ensures IsSubsequence(r, proposals)
    ensures forall p :: p in r <==> p in proposals && Keep(filter, nowMs)(p)
    ensures forall p :: multiset(r)[p] == if Keep(filter, nowMs)(p) then multiset(proposals)[p] else 0
  {
    var r := Filter(proposals, Keep(filter, nowMs));
    forall p ensures p in r <==> p in proposals && Keep(filter, nowMs)(p) {
      FilterMembership(proposals, Keep(filter, nowMs), p);
    }
    r
  }

  /** 'all' shows every proposal, in order. */
  lemma AllKeepsEverything(proposals: seq<ClientProposal>, nowMs: int)
    ensures Filtered(proposals, All, nowMs) == proposals
  {
    FilterAll(proposals, Keep(All, nowMs));
  }

  /**
    No proposal is shown under both 'active' and 'ended', and one that has not
    started yet is shown under neither.
  */
  lemma ActiveEndedDisjoint(proposals: seq<ClientProposal>, nowMs: int, p: ClientProposal)
    ensures !(p in Filtered(proposals, ActiveOnly, nowMs) && p in Filtered(proposals, EndedOnly, nowMs))
    ensures FloorSeconds(nowMs) < p.startTime && p.startTime <= p.endTime ==>
              p !in Filtered(proposals, ActiveOnly, nowMs) && p !in Filtered(proposals, EndedOnly, nowMs)
  {
  }

  class List {
    var proposals: seq<ClientProposal>
    var filter: FilterType
    var refreshing: bool
    /** Everything handed to `addError`, in order. */
    var errors: seq<ReportedError>

    constructor ()
      ensures proposals == [] && filter == All && !refreshing && errors == []
    {
      proposals, filter, refreshing, errors := [], All, false, [];
    }

    /** What the list shows at time `nowMs`. */
    function Shown(nowMs: int): seq<ClientProposal>
      reads this
    {
      Filtered(proposals, filter, nowMs)
    }

    /** `fetchProposals`: a loaded list replaces the proposals; a failure is reported and the old list stays. */
    method FetchProposals(fetch: Fetch)
      modifies this
      ensures fetch.Loaded? ==> proposals == fetch.proposals && errors == old(errors)
      ensures fetch.FetchFailed? ==> proposals == old(proposals) && errors == old(errors) + [fetch.reported]
      ensures filter == old(filter) && refreshing == old(refreshing)
    {
      match fetch
      case Loaded(ps) => proposals := ps;
      case FetchFailed(e) => errors := errors + [e];
    }

    /** `handleVoteCast`: reload, flagging the list as refreshing meanwhile. */
    method HandleVoteCast(fetch: Fetch)
      modifies this
      ensures !refreshing
      ensures fetch.Loaded? ==> proposals == fetch.proposals && errors == old(errors)
      ensures fetch.FetchFailed? ==> proposals == old(proposals) && errors == old(errors) + [fetch.reported]
      ensures filter == old(filter)
    {
      refreshing := true;
      FetchProposals(fetch);
      refreshing := false;
    }
  }

  /**
    The hook the list takes `getAllProposals` from does not provide it, so every
    fetch raises a TypeError: the list is reported and stays as it was.
  */
  method FetchAsWritten(list: List)
    modifies list
    ensures list.proposals == old(list.proposals)
    ensures list.errors == old(list.errors) + [RaisedTypeError]
  {
    list.FetchProposals(FetchFailed(RaisedTypeError));
  }
}
