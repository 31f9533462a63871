/** The bill filters of the listing endpoint (`app/api/bills.py`, lines 88-135).
    Each optional filter becomes a fragment; the fragments are folded onto the
    bills one after another, so their effect is the conjunction of all of them. */
module Filters {
  import opened Results
  import opened Records
  import opened Seqs

  /** The date column a date range applies to. */
  datatype DateColumn = LatestActionDate | CreatedAt

  /** Detail of the error raised for an unrecognised `date_type`. */
  const DateTypeDetail: string := "date_type must be 'latest_action_date' or 'creation_date'"

  /** The column named by `date_type`; `None` when it names neither date column. */
  function DateColumnFor(dateType: Option<string>): (r: Option<DateColumn>)
    ensures r == Some(LatestActionDate) <==> dateType == Some("latest_action_date")
    ensures r == Some(CreatedAt) <==> dateType == Some("creation_date")
  {
    if dateType == Some("latest_action_date") then Some(LatestActionDate)
    else if dateType == Some("creation_date") then Some(CreatedAt)
    else None
  }

  /** The value of a date column of a bill. */
  function ColumnValue(b: Bill, column: DateColumn): Option<Instant>
  {
    match column
    case LatestActionDate => b.latestActionDate
    case CreatedAt => b.createdAt
  }

  /** Some vote event belongs to the bill. */
  predicate HasVoteEvent(votes: seq<VoteEvent>, billId: string)
  {
    exists v :: v in votes && v.billId == billId
  }

  /** Some vote event of the bill holds a ballot cast by one of `voterIds`. */
  predicate VotedOnByAny(votes: seq<VoteEvent>, billId: string, voterIds: seq<string>)
  {
    exists v, ballot :: v in votes && v.billId == billId && ballot in v.votes && ballot.voterId in voterIds
  }

  /** One narrowing step of the query. */
  datatype Fragment =
    | InJurisdictions(ids: set<string>)
    | HasVotes
    | LevelIs(level: string)
    | OnOrAfter(column: DateColumn, bound: Instant)
    | OnOrBefore(column: DateColumn, bound: Instant)
    | VotedOnBy(voterIds: seq<string>)

  /** Whether bill `b` passes fragment `f`. A NULL column passes no comparison. */
  predicate Holds(f: Fragment, votes: seq<VoteEvent>, b: Bill)
  {
    match f
    case InJurisdictions(ids) => b.jurisdictionAreaId.Some? && b.jurisdictionAreaId.value in ids
    case HasVotes => HasVoteEvent(votes, b.id)
    case LevelIs(level) => b.jurisdictionLevel == Some(level)
    case OnOrAfter(column, bound) => ColumnValue(b, column).Some? && ColumnValue(b, column).value >= bound
    case OnOrBefore(column, bound) => ColumnValue(b, column).Some? && ColumnValue(b, column).value <= bound
    case VotedOnBy(voterIds) => VotedOnByAny(votes, b.id, voterIds)
  }

  /** Bill `b` passes every fragment. */
  ghost predicate AllHold(fragments: seq<Fragment>, votes: seq<VoteEvent>, b: Bill)
  {
    forall f :: f in fragments ==> Holds(f, votes, b)
  }

  /** Folds the fragments onto the bills, first fragment first. */
  function Narrow(bills: seq<Bill>, fragments: seq<Fragment>, votes: seq<VoteEvent>): (r: seq<Bill>)
    ensures forall b :: b in r <==> b in bills && AllHold(fragments, votes, b)
    ensures multiset(r) <= multiset(bills)
    decreases |fragments|
  {
    if |fragments| == 0 then bills
    else
      var f := fragments[0];
      assert forall g :: g in fragments <==> g == f || g in fragments[1..];
      Narrow(Filter(bills, b => Holds(f, votes, b)), fragments[1..], votes)
  }

  /** The optional filter parameters of the listing endpoint. */
  datatype FilterParams = FilterParams(
    hasVotes: bool,
    dateType: Option<string>,
    startDate: Option<Instant>,
    endDate: Option<Instant>,
    jurisdictionLevel: Option<string>,
    representativeIds: Option<seq<string>>)

  /** An empty `jurisdiction_level` is falsy and applies no filter. */
  predicate LevelActive(p: FilterParams)
  {
    p.jurisdictionLevel.Some? && p.jurisdictionLevel.value != ""
  }

  /** An absent or empty `representative_ids` applies no filter. */
  predicate RepresentativesActive(p: FilterParams)
  {
    p.representativeIds.Some? && |p.representativeIds.value| > 0
  }

  /** The fragments the endpoint adds to its base query, in the source's order;
      an unrecognised `date_type` raises 400 whether or not a bound is given. */
  function BuildFragments(jurisdictions: set<string>, p: FilterParams): (r: Result<seq<Fragment>, HttpError>)
    ensures r.Failure? <==> p.dateType !in {Some("latest_action_date"), Some("creation_date")}
    ensures r.Failure? ==> r.error == HttpError(400, DateTypeDetail)
    ensures r.Success? ==> |r.value| >= 1 && r.value[0] == InJurisdictions(jurisdictions)
  {
    match DateColumnFor(p.dateType)
    case None => Failure(HttpError(400, DateTypeDetail))
    case Some(column) =>
      Success(
        [InJurisdictions(jurisdictions)]
        + (if p.hasVotes then [HasVotes] else [])
        + (if LevelActive(p) then [LevelIs(p.jurisdictionLevel.value)] else [])
        + (if p.startDate.Some? then [OnOrAfter(column, p.startDate.value)] else [])
        + (if p.endDate.Some? then [OnOrBefore(column, p.endDate.value)] else [])
        + (if RepresentativesActive(p) then [VotedOnBy(p.representativeIds.value)] else []))
  }

  /** Reference definition: the conjunction of every active filter, clause by clause. */
  ghost predicate Admits(jurisdictions: set<string>, p: FilterParams, column: DateColumn, votes: seq<VoteEvent>, b: Bill)
  {
    && b.jurisdictionAreaId.Some? && b.jurisdictionAreaId.value in jurisdictions
    && (p.hasVotes ==> HasVoteEvent(votes, b.id))
    && (LevelActive(p) ==> b.jurisdictionLevel == p.jurisdictionLevel)
    && (p.startDate.Some? ==> ColumnValue(b, column).Some? && ColumnValue(b, column).value >= p.startDate.value)
    && (p.endDate.Some? ==> ColumnValue(b, column).Some? && ColumnValue(b, column).value <= p.endDate.value)
    && (RepresentativesActive(p) ==> VotedOnByAny(votes, b.id, p.representativeIds.value))
  }

  /** The folded fragments admit a bill exactly when every active filter does. */
  lemma FragmentsMeanConjunction(jurisdictions: set<string>, p: FilterParams, column: DateColumn,
                                 fragments: seq<Fragment>, votes: seq<VoteEvent>, b: Bill)
    requires BuildFragments(jurisdictions, p) == Success(fragments)
    requires DateColumnFor(p.dateType) == Some(column)
    ensures AllHold(fragments, votes, b) <==> Admits(jurisdictions, p, column, votes, b)
  {
    assert InJurisdictions(jurisdictions) in fragments;
    if p.hasVotes {
      assert HasVotes in fragments;
    }
    if LevelActive(p) {
      assert LevelIs(p.jurisdictionLevel.value) in fragments;
    }
    if p.startDate.Some? {
      assert OnOrAfter(column, p.startDate.value) in fragments;
    }
    if p.endDate.Some? {
      assert OnOrBefore(column, p.endDate.value) in fragments;
    }
    if RepresentativesActive(p) {
      assert VotedOnBy(p.representativeIds.value) in fragments;
    }
  }

  /** The filtered bills: the endpoint's query before counting, sorting and slicing. */
  function FilterBills(db: Database, jurisdictions: set<string>, p: FilterParams): (r: Result<seq<Bill>, HttpError>)
    ensures r.Failure? <==> DateColumnFor(p.dateType).None?
    ensures r.Failure? ==> r.error == HttpError(400, DateTypeDetail)
    ensures r.Success? ==> multiset(r.value) <= multiset(db.bills)
    ensures r.Success? ==> forall b :: b in r.value <==>
      b in db.bills && Admits(jurisdictions, p, DateColumnFor(p.dateType).value, db.voteEvents, b)
  {
    match BuildFragments(jurisdictions, p)
    case Failure(e) => Failure(e)
    case Success(fragments) =>
      var r := Narrow(db.bills, fragments, db.voteEvents);
      forall b
        ensures b in r <==> b in db.bills && Admits(jurisdictions, p, DateColumnFor(p.dateType).value, db.voteEvents, b)
      {
        FragmentsMeanConjunction(jurisdictions, p, DateColumnFor(p.dateType).value, fragments, db.voteEvents, b);
      }
      Success(r)
  }
}
