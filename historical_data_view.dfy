/**
  The historical view's time-range filter. The view compares the exact current
  time in seconds with each proposal's end; in milliseconds `nowMs`, the time
  since the end is `nowMs - 1000 * endTime`.
*/
module HistoricalDataView {
  import opened ClientTypes
  import opened Sequences

  datatype TimeRange = Week | Month | Year | All

  const ONE_WEEK: int := 7 * 24 * 60 * 60
  const ONE_MONTH: int := 30 * 24 * 60 * 60
  const ONE_YEAR: int := 365 * 24 * 60 * 60

  /** The width of a bounded range, in seconds. */
  function Window(range: TimeRange): int
    requires range != All
  {
    match range
    case Week => ONE_WEEK
    case Month => ONE_MONTH
    case Year => ONE_YEAR
  }

  /** The range's test: everything under 'all', otherwise an end at most the range's width ago. */
  function InRange(range: TimeRange, nowMs: int): (keep: ClientProposal -> bool)
    ensures forall p :: keep(p) <==> range == All || nowMs - 1000 * p.endTime <= 1000 * Window(range)
  {
    (p: ClientProposal) => range == All || nowMs - 1000 * p.endTime <= 1000 * Window(range)
  }

  /** `filterProposalsByTimeRange`: the proposals in range, in their order. */
  function FilterByTimeRange(proposals: seq<ClientProposal>, range: TimeRange, nowMs: int): (r: seq<ClientProposal>)
    ensures IsSubsequence(r, proposals)
    ensures forall p :: p in r <==> p in proposals && InRange(range, nowMs)(p)
    ensures forall p :: multiset(r)[p] == if InRange(range, nowMs)(p) then multiset(proposals)[p] else 0
  {
    var r := Filter(proposals, InRange(range, nowMs));
    forall p ensures p in r <==> p in proposals && InRange(range, nowMs)(p) {
      FilterMembership(proposals, InRange(range, nowMs), p);
    }
    r
  }

  /** 'all' keeps every proposal, in order. */
  lemma AllKeepsEverything(proposals: seq<ClientProposal>, nowMs: int)
    ensures FilterByTimeRange(proposals, All, nowMs) == proposals
  {
    FilterAll(proposals, InRange(All, nowMs));
  }

  /** The ranges are nested: week within month, month within year, year within all. */
  lemma RangesNest(proposals: seq<ClientProposal>, nowMs: int)
    ensures IsSubsequence(FilterByTimeRange(proposals, Week, nowMs), FilterByTimeRange(proposals, Month, nowMs))
    ensures IsSubsequence(FilterByTimeRange(proposals, Month, nowMs), FilterByTimeRange(proposals, Year, nowMs))
    ensures IsSubsequence(FilterByTimeRange(proposals, Year, nowMs), FilterByTimeRange(proposals, All, nowMs))
  {
    FilterMonotone(proposals, InRange(Week, nowMs), InRange(Month, nowMs));
    FilterMonotone(proposals, InRange(Month, nowMs), InRange(Year, nowMs));
    FilterMonotone(proposals, InRange(Year, nowMs), InRange(All, nowMs));
  }

  /** A proposal that has not ended yet is kept by every range. */
  lemma NotEndedAlwaysKept(proposals: seq<ClientProposal>, nowMs: int, p: ClientProposal, range: TimeRange)
    requires p in proposals && nowMs < 1000 * p.endTime
    ensures p in FilterByTimeRange(proposals, range, nowMs)
  {
  }
}
