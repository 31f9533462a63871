/** Attaching vote events to a page of bills (`app/api/bills.py`, lines 191-201):
    one fetch of every vote event whose bill is on the page, then, per bill, the
    fetched events that name it. */
module Enrichment {
  import opened Records
  import opened Seqs

  /** The identifiers of the bills on a page. */
  function IdsOf(bills: seq<Bill>): (r: set<string>)
    ensures forall id :: id in r <==> exists b :: b in bills && b.id == id
  {
    set b | b in bills :: b.id
  }

  /** Whether a vote event belongs to one of the bills `billIds`. */
  function OnBills(billIds: set<string>): VoteEvent -> bool
  {
    (v: VoteEvent) => v.billId in billIds
  }

  /** Whether a vote event belongs to bill `billId`. */
  function OnBill(billId: string): VoteEvent -> bool
  {
    (v: VoteEvent) => v.billId == billId
  }

  /** `SELECT * FROM vote_events WHERE bill_id IN billIds`, in storage order. */
  function FetchVotes(votes: seq<VoteEvent>, billIds: set<string>): (r: seq<VoteEvent>)
    ensures forall v :: v in r <==> v in votes && v.billId in billIds
    ensures multiset(r) <= multiset(votes)
    ensures forall v :: multiset(r)[v] == if v.billId in billIds then multiset(votes)[v] else 0
  {
    Filter(votes, OnBills(billIds))
  }

  /** The events among `votes` that belong to bill `billId`, in order. */
  function VotesOf(votes: seq<VoteEvent>, billId: string): (r: seq<VoteEvent>)
    ensures forall v :: v in r <==> v in votes && v.billId == billId
    ensures multiset(r) <= multiset(votes)
    ensures forall v :: multiset(r)[v] == if v.billId == billId then multiset(votes)[v] else 0
  {
    Filter(votes, OnBill(billId))
  }

  /** Pairs each bill with its events among `fetched`; the bills keep their order. */
  function AttachVotes(bills: seq<Bill>, fetched: seq<VoteEvent>): (r: seq<BillWithVotes>)
    ensures |r| == |bills|
    ensures forall i :: 0 <= i < |r| ==> r[i].bill == bills[i]
    ensures forall i, v :: 0 <= i < |r| ==> (v in r[i].votes <==> v in fetched && v.billId == bills[i].id)
    decreases |bills|
  {
    if |bills| == 0 then []
    else [BillWithVotes(bills[0], VotesOf(fetched, bills[0].id))] + AttachVotes(bills[1..], fetched)
  }

  /** The batched enrichment: one fetch for the whole page, then attachment. */
  function Enrich(bills: seq<Bill>, votes: seq<VoteEvent>): (r: seq<BillWithVotes>)
  {
    AttachVotes(bills, FetchVotes(votes, IdsOf(bills)))
  }

  /** Narrowing to the page's bills first loses none of a page bill's events. */
  lemma FetchThenSelect(votes: seq<VoteEvent>, billIds: set<string>, billId: string)
    requires billId in billIds
    ensures VotesOf(FetchVotes(votes, billIds), billId) == VotesOf(votes, billId)
  {
    FilterOfFilter(votes, OnBills(billIds), OnBill(billId));
  }

  /** The batched fetch attaches to every bill exactly what a query per bill
      would: all of the bill's events, in storage order, and nothing else. */
  lemma BatchedEqualsPerBill(bills: seq<Bill>, votes: seq<VoteEvent>)
    ensures |Enrich(bills, votes)| == |bills|
    ensures forall i :: 0 <= i < |bills| ==>
      Enrich(bills, votes)[i] == BillWithVotes(bills[i], VotesOf(votes, bills[i].id))
  {
    var ids := IdsOf(bills);
    forall i | 0 <= i < |bills|
      ensures Enrich(bills, votes)[i] == BillWithVotes(bills[i], VotesOf(votes, bills[i].id))
    {
      assert bills[i].id in ids;
      FetchThenSelect(votes, ids, bills[i].id);
      AttachedIsSelected(bills, FetchVotes(votes, ids), i);
    }
  }

  /** Entry `i` of the attachment is bill `i` with its selected events. */
  lemma {:induction false} AttachedIsSelected(bills: seq<Bill>, fetched: seq<VoteEvent>, i: int)
    requires 0 <= i < |bills|
    ensures AttachVotes(bills, fetched)[i] == BillWithVotes(bills[i], VotesOf(fetched, bills[i].id))
    decreases |bills|
  {
    if i > 0 {
      AttachedIsSelected(bills[1..], fetched, i - 1);
    }
  }
}
