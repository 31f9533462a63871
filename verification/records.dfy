/** The rows the bill endpoints read. Each table is an immutable sequence of
    records; nullable columns are `Option`s. Dates and timestamps live on one
    ordered time line, `Instant`. */
module Records {
  import opened Results

  /** A point on the time line shared by every date and timestamp column. */
  type Instant = int

  /** One entry of a vote event's ballot list: who voted and how. */
  datatype Ballot = Ballot(voterId: string, option: string)

  /** One roll-call vote on the bill `billId`. */
  datatype VoteEvent = VoteEvent(id: string, billId: string, startDate: Instant, votes: seq<Ballot>)

  /** A representative; only the jurisdiction area is read by the bill endpoints. */
  datatype Person = Person(id: string, jurisdictionAreaId: Option<string>)

  /** Membership edge between a person and an area whose constituents they serve. */
  datatype PersonArea = PersonArea(personId: string, areaId: string)

  /** A bill row, restricted to the columns the endpoints filter, sort or return. */
  datatype Bill = Bill(
    id: string,
    title: Option<string>,
    jurisdictionAreaId: Option<string>,
    jurisdictionLevel: Option<string>,
    createdAt: Option<Instant>,
    latestActionDate: Option<Instant>,
    versions: seq<string>)

  /** The in-memory database: one sequence per table, in storage order. */
  datatype Database = Database(
    bills: seq<Bill>,
    people: seq<Person>,
    personAreas: seq<PersonArea>,
    voteEvents: seq<VoteEvent>)

  /** An HTTP error response: status code and detail message. */
  datatype HttpError = HttpError(status: int, detail: string)

  /** A bill together with the vote events attached to it. */
  datatype BillWithVotes = BillWithVotes(bill: Bill, votes: seq<VoteEvent>)

  /** `id` is the primary key of the bills table: no two rows share it. */
  predicate UniqueIds(bills: seq<Bill>)
  {
    forall i, j :: 0 <= i < j < |bills| ==> bills[i].id != bills[j].id
  }

  /** Under unique ids, a bill occurs at most once. */
  lemma {:induction false} UniqueIdsOccurOnce(s: seq<Bill>, x: Bill)
    requires UniqueIds(s)
    ensures multiset(s)[x] <= 1
    decreases |s|
  {
    if |s| > 0 {
      assert s == [s[0]] + s[1..];
      UniqueIdsOccurOnce(s[1..], x);
      if s[0] == x {
        assert x !in s[1..];
      }
    }
  }

  /** A bill at two positions occurs at least twice. */
  lemma TwoPositionsTwoOccurrences(t: seq<Bill>, i: int, j: int)
    requires 0 <= i < j < |t| && t[i] == t[j]
    ensures multiset(t)[t[i]] >= 2
  {
    assert t == t[..j] + t[j..];
    assert t[i] in t[..j];
    assert t[j] in t[j..];
  }

  /** Any selection or reordering of bills with unique ids keeps them unique. */
  lemma UniqueIdsOfSubMultiset(s: seq<Bill>, t: seq<Bill>)
    requires UniqueIds(s)
    requires multiset(t) <= multiset(s)
    ensures UniqueIds(t)
  {
    forall i, j | 0 <= i < j < |t|
      ensures t[i].id != t[j].id
    {
      if t[i] == t[j] {
        TwoPositionsTwoOccurrences(t, i, j);
        UniqueIdsOccurOnce(s, t[i]);
      } else {
        assert t[i] in multiset(s) && t[j] in multiset(s);
        var a :| 0 <= a < |s| && s[a] == t[i];
        var b :| 0 <= b < |s| && s[b] == t[j];
      }
    }
  }
}
