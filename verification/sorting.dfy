/** Sort choice of the listing endpoint (`app/api/bills.py`, lines 147-185).
    The database's comparison of key values (its collation and where it puts
    NULL) is the parameter `keyLe`, any total preorder on keys. */
module Sorting {
  import opened Results
  import opened Records
  import opened Filters
  import opened Ordering

  /** The column the bills are ordered by. */
  datatype SortColumn = ByCreationDate | ByLatestActionDate | ByTitle | ByLatestVoteDate

  datatype Direction = Ascending | Descending

  /** A sort key value; `NullKey` is SQL NULL. */
  datatype SortKey = NullKey | InstantKey(at: Instant) | TextKey(text: string)

  /** `sort_by` to column; an unrecognised value falls back to the latest action date. */
  function ResolveColumn(sortBy: string): (r: SortColumn)
    ensures r == ByLatestVoteDate <==> sortBy == "latest_vote_date"
    ensures r == ByCreationDate <==> sortBy == "creation_date"
    ensures r == ByTitle <==> sortBy == "title"
    ensures r == ByLatestActionDate <==> sortBy !in {"latest_vote_date", "creation_date", "title"}
  {
    if sortBy == "latest_vote_date" then ByLatestVoteDate
    else if sortBy == "creation_date" then ByCreationDate
    else if sortBy == "latest_action_date" then ByLatestActionDate
    else if sortBy == "title" then ByTitle
    else ByLatestActionDate
  }

  /** Only the exact string "desc" sorts descending; anything else sorts ascending. */
  function ResolveDirection(sortOrder: string): (r: Direction)
    ensures r == Descending <==> sortOrder == "desc"
  {
    if sortOrder == "desc" then Descending else Ascending
  }

  /** `MAX(start_date)` over the bill's vote events, outer-joined: `None` when the
      bill has no vote event. */
  function LatestVoteDate(votes: seq<VoteEvent>, billId: string): (r: Option<Instant>)
    ensures r.None? <==> !HasVoteEvent(votes, billId)
    ensures r.Some? ==> exists v :: v in votes && v.billId == billId && v.startDate == r.value
    ensures r.Some? ==> forall v :: v in votes && v.billId == billId ==> v.startDate <= r.value
    decreases |votes|
  {
    if |votes| == 0 then None
    else
      assert votes == [votes[0]] + votes[1..];
      var rest := LatestVoteDate(votes[1..], billId);
      if votes[0].billId != billId then rest
      else if rest.None? || rest.value < votes[0].startDate then Some(votes[0].startDate)
      else rest
  }

  /** A nullable instant as a key. */
  function InstantOrNull(o: Option<Instant>): SortKey
  {
    match o
    case None => NullKey
    case Some(t) => InstantKey(t)
  }

  /** The key of bill `b` under `column`. */
  function KeyOf(column: SortColumn, votes: seq<VoteEvent>, b: Bill): (k: SortKey)
  {
    match column
    case ByCreationDate => InstantOrNull(b.createdAt)
    case ByLatestActionDate => InstantOrNull(b.latestActionDate)
    case ByTitle => if b.title.Some? then TextKey(b.title.value) else NullKey
    case ByLatestVoteDate => InstantOrNull(LatestVoteDate(votes, b.id))
  }

  /** Under the latest-vote-date column, exactly the bills without a vote event have a NULL key. */
  lemma NullVoteKeyIffNoVotes(votes: seq<VoteEvent>, b: Bill)
    ensures KeyOf(ByLatestVoteDate, votes, b) == NullKey <==> !HasVoteEvent(votes, b.id)
  {
  }

  /** The order on bills: keys compared by `keyLe`, reversed for `Descending`. */
  function BillOrder(column: SortColumn, direction: Direction, votes: seq<VoteEvent>,
                     keyLe: (SortKey, SortKey) -> bool): (order: (Bill, Bill) -> bool)
  {
    match direction
    case Ascending => (a, b) => keyLe(KeyOf(column, votes, a), KeyOf(column, votes, b))
    case Descending => (a, b) => keyLe(KeyOf(column, votes, b), KeyOf(column, votes, a))
  }

  lemma BillOrderIsTotalPreorder(column: SortColumn, direction: Direction, votes: seq<VoteEvent>,
                                 keyLe: (SortKey, SortKey) -> bool)
    requires TotalPreorder(keyLe)
    ensures TotalPreorder(BillOrder(column, direction, votes, keyLe))
  {
    var order := BillOrder(column, direction, votes, keyLe);
    forall a, b
      ensures order(a, b) || order(b, a)
    {
      var ka, kb := KeyOf(column, votes, a), KeyOf(column, votes, b);
      assert keyLe(ka, kb) || keyLe(kb, ka);
    }
    forall a, b, c | order(a, b) && order(b, c)
      ensures order(a, c)
    {
      var ka, kb, kc := KeyOf(column, votes, a), KeyOf(column, votes, b), KeyOf(column, votes, c);
      if direction == Ascending {
        assert keyLe(ka, kb) && keyLe(kb, kc);
      } else {
        assert keyLe(kc, kb) && keyLe(kb, ka);
      }
    }
  }

  /** The bills in the chosen order: a permutation of the input, so no bill is
      dropped or duplicated, bills without vote events included. */
  function SortBills(bills: seq<Bill>, column: SortColumn, direction: Direction, votes: seq<VoteEvent>,
                     keyLe: (SortKey, SortKey) -> bool): (r: seq<Bill>)
    ensures multiset(r) == multiset(bills)
    ensures |r| == |bills|
  {
    Sort(bills, BillOrder(column, direction, votes, keyLe))
  }

  /** Under a total preorder on keys the sorted bills' keys ascend, or descend
      for `Descending`. */
  lemma SortBillsOrdersKeys(bills: seq<Bill>, column: SortColumn, direction: Direction, votes: seq<VoteEvent>,
                            keyLe: (SortKey, SortKey) -> bool)
    requires TotalPreorder(keyLe)
    ensures var r := SortBills(bills, column, direction, votes, keyLe);
      direction == Ascending ==> forall i, j :: 0 <= i < j < |r| ==>
        keyLe(KeyOf(column, votes, r[i]), KeyOf(column, votes, r[j]))
    ensures var r := SortBills(bills, column, direction, votes, keyLe);
      direction == Descending ==> forall i, j :: 0 <= i < j < |r| ==>
        keyLe(KeyOf(column, votes, r[j]), KeyOf(column, votes, r[i]))
  {
    var order := BillOrder(column, direction, votes, keyLe);
    BillOrderIsTotalPreorder(column, direction, votes, keyLe);
    SortIsSorted(bills, order);
  }

  /** When NULL compares above every value (PostgreSQL's default), bills without
      votes come last in ascending order and first in descending order. */
  lemma NoVoteBillsAtOneEnd(bills: seq<Bill>, direction: Direction, votes: seq<VoteEvent>,
                            keyLe: (SortKey, SortKey) -> bool)
    requires TotalPreorder(keyLe)
    requires forall k :: k != NullKey ==> !keyLe(NullKey, k)
    ensures var r := SortBills(bills, ByLatestVoteDate, direction, votes, keyLe);
      forall i, j :: 0 <= i < j < |r| ==>
        && (direction == Ascending ==> !(!HasVoteEvent(votes, r[i].id) && HasVoteEvent(votes, r[j].id)))
        && (direction == Descending ==> !(HasVoteEvent(votes, r[i].id) && !HasVoteEvent(votes, r[j].id)))
  {
    var r := SortBills(bills, ByLatestVoteDate, direction, votes, keyLe);
    SortBillsOrdersKeys(bills, ByLatestVoteDate, direction, votes, keyLe);
    forall i, j | 0 <= i < j < |r|
      ensures direction == Ascending ==> !(!HasVoteEvent(votes, r[i].id) && HasVoteEvent(votes, r[j].id))
      ensures direction == Descending ==> !(HasVoteEvent(votes, r[i].id) && !HasVoteEvent(votes, r[j].id))
    {
      NullVoteKeyIffNoVotes(votes, r[i]);
      NullVoteKeyIffNoVotes(votes, r[j]);
    }
  }
}
