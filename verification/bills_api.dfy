/** The bill-listing endpoints of `app/api/bills.py`: the paginated listing of
    the bills of a zip code's representatives (lines 26-217) and the listing of
    federal bill versions (lines 292-334). */
module BillsApi {
  import opened Results
  import opened Records
  import opened Seqs
  import opened Ordering
  import opened Paging
  import opened Resolve
  import opened Filters
  import opened Sorting
  import opened Enrichment

  /** The query parameters of the zip-code bill listing. */
  datatype BillsRequest = BillsRequest(
    zipCode: string,
    page: int,
    pageSize: int,
    filters: FilterParams,
    sortBy: string,
    sortOrder: string)

  /** A request that leaves every optional parameter at its declared default. */
  function DefaultRequest(zip: string): BillsRequest
  {
    BillsRequest(zip, 1, 20, FilterParams(false, None, None, None, None, None), "latest_action_date", "desc")
  }

  /** The response body of the listing. */
  datatype PaginatedBills = PaginatedBills(
    totalBills: nat,
    totalPages: nat,
    currentPage: int,
    pageSize: int,
    bills: seq<BillWithVotes>)

  const PaginationDetail: string := "page and page_size must be positive integers."
  const PageNotFoundDetail: string := "Page not found."
  const ListingFailureDetail: string := "Exception occurred when fetching bills for representatives."

  /** The bills the request's filters admit, in storage order, or the error an
      unrecognised `date_type` raises. */
  function Matching(db: Database, req: BillsRequest): (r: Result<seq<Bill>, HttpError>)
  {
    FilterBills(db, JurisdictionsForZip(db, req.zipCode), req.filters)
  }

  /** The admitted bills in the requested order. */
  function OrderedMatches(db: Database, req: BillsRequest, keyLe: (SortKey, SortKey) -> bool): (r: seq<Bill>)
    requires Matching(db, req).Success?
    ensures multiset(r) == multiset(Matching(db, req).value)
    ensures |r| == |Matching(db, req).value|
  {
    SortBills(Matching(db, req).value, ResolveColumn(req.sortBy), ResolveDirection(req.sortOrder), db.voteEvents, keyLe)
  }

  /** The request is refused: bad page parameters, an unrecognised `date_type`,
      or a page past the last on a non-empty result. */
  ghost predicate Refused(db: Database, req: BillsRequest)
  {
    || req.page < 1 || req.pageSize < 1
    || req.filters.dateType !in {Some("latest_action_date"), Some("creation_date")}
    || (Matching(db, req).Success? && !PageInRange(|Matching(db, req).value|, req.page, req.pageSize))
  }

  /** The body of the `try` block: the listing or the `HTTPException` it raises. */
  function ListBills(db: Database, req: BillsRequest, keyLe: (SortKey, SortKey) -> bool): (r: Result<PaginatedBills, HttpError>)
    ensures r.Failure? <==> Refused(db, req)
    ensures (req.page < 1 || req.pageSize < 1) ==> r == Failure(HttpError(400, PaginationDetail))
    ensures r.Failure? ==> r.error in {HttpError(400, PaginationDetail), HttpError(400, DateTypeDetail),
                                        HttpError(404, PageNotFoundDetail)}
    ensures r.Success? ==> r.value.currentPage == req.page && r.value.pageSize == req.pageSize
    ensures r.Success? ==> |r.value.bills| <= req.pageSize
  {
    if req.page < 1 || req.pageSize < 1 then Failure(HttpError(400, PaginationDetail))
    else
      match Matching(db, req)
      case Failure(e) => Failure(e)
      case Success(matching) =>
        var total := |matching|;
        var totalPages := CeilDiv(total, req.pageSize);
        if req.page > totalPages && total > 0 then Failure(HttpError(404, PageNotFoundDetail))
        else
          var page := PageSlice(OrderedMatches(db, req, keyLe), req.page, req.pageSize);
          Success(PaginatedBills(total, totalPages, req.page, req.pageSize, Enrich(page, db.voteEvents)))
  }

  /** The endpoint: every exception raised in the `try` block, the deliberate
      400 and 404 included, is answered with status 500 and one fixed detail. */
  function GetBillsForRepresentatives(db: Database, req: BillsRequest, keyLe: (SortKey, SortKey) -> bool)
    : (r: Result<PaginatedBills, HttpError>)
    ensures r.Failure? <==> Refused(db, req)
    ensures r.Failure? ==> r.error == HttpError(500, ListingFailureDetail)
    ensures r.Success? ==> r.value.currentPage == req.page && r.value.pageSize == req.pageSize
  {
    match ListBills(db, req, keyLe)
    case Success(body) => Success(body)
    case Failure(_) => Failure(HttpError(500, ListingFailureDetail))
  }

  /** The 400 and 404 the listing raises never reach the caller as such. */
  lemma RaisedErrorsBecomeServerErrors(db: Database, req: BillsRequest, keyLe: (SortKey, SortKey) -> bool)
    requires ListBills(db, req, keyLe).Failure?
    ensures ListBills(db, req, keyLe).error.status in {400, 404}
    ensures GetBillsForRepresentatives(db, req, keyLe) == Failure(HttpError(500, ListingFailureDetail))
  {
  }

  /** Without a recognised `date_type` the request fails, even with no date
      bound; in particular the all-defaults request always fails. */
  lemma DateTypeIsMandatory(db: Database, req: BillsRequest, keyLe: (SortKey, SortKey) -> bool)
    ensures req.filters.dateType !in {Some("latest_action_date"), Some("creation_date")} ==>
      GetBillsForRepresentatives(db, req, keyLe).Failure?
    ensures GetBillsForRepresentatives(db, DefaultRequest(req.zipCode), keyLe).Failure?
  {
  }

  /** The bills of a successful response, without their votes. */
  function ListedBills(body: PaginatedBills): (r: seq<Bill>)
    ensures |r| == |body.bills|
    ensures forall i :: 0 <= i < |r| ==> r[i] == body.bills[i].bill
  {
    seq(|body.bills|, i requires 0 <= i < |body.bills| => body.bills[i].bill)
  }

  /** A successful response reports the count and page count of the admitted
      bills and returns the requested slice of them in the requested order,
      each bill carrying exactly its own vote events. */
  lemma ResponseIsRequestedPage(db: Database, req: BillsRequest, keyLe: (SortKey, SortKey) -> bool)
    requires GetBillsForRepresentatives(db, req, keyLe).Success?
    ensures Matching(db, req).Success?
    ensures var body := GetBillsForRepresentatives(db, req, keyLe).value;
      && body.totalBills == |Matching(db, req).value|
      && body.totalPages == CeilDiv(body.totalBills, req.pageSize)
      && ListedBills(body) == PageSlice(OrderedMatches(db, req, keyLe), req.page, req.pageSize)
      && forall i :: 0 <= i < |body.bills| ==> body.bills[i].votes == VotesOf(db.voteEvents, body.bills[i].bill.id)
  {
    var page := PageSlice(OrderedMatches(db, req, keyLe), req.page, req.pageSize);
    BatchedEqualsPerBill(page, db.voteEvents);
  }

  /** Every bill returned passes every active filter at once. */
  lemma ReturnedBillsPassEveryFilter(db: Database, req: BillsRequest, keyLe: (SortKey, SortKey) -> bool)
    requires GetBillsForRepresentatives(db, req, keyLe).Success?
    ensures DateColumnFor(req.filters.dateType).Some?
    ensures forall b :: b in ListedBills(GetBillsForRepresentatives(db, req, keyLe).value) ==>
      && b in db.bills
      && Admits(JurisdictionsForZip(db, req.zipCode), req.filters, DateColumnFor(req.filters.dateType).value, db.voteEvents, b)
  {
    ResponseIsRequestedPage(db, req, keyLe);
    var ordered := OrderedMatches(db, req, keyLe);
    var listed := ListedBills(GetBillsForRepresentatives(db, req, keyLe).value);
    forall b | b in listed
      ensures b in Matching(db, req).value
    {
      var i :| 0 <= i < |listed| && listed[i] == b;
      var m := PageItem(ordered, req.page, req.pageSize, i);
      assert b in multiset(ordered);
    }
  }

  /** With no admitted bill, every page from 1 on succeeds with no bills and zero pages. */
  lemma EmptyResultEveryPage(db: Database, req: BillsRequest, keyLe: (SortKey, SortKey) -> bool)
    requires req.page >= 1 && req.pageSize >= 1
    requires Matching(db, req).Success? && Matching(db, req).value == []
    ensures GetBillsForRepresentatives(db, req, keyLe).Success?
    ensures var body := GetBillsForRepresentatives(db, req, keyLe).value;
      body.totalBills == 0 && body.totalPages == 0 && body.bills == []
  {
    EmptyResultAdmitsEveryPage(OrderedMatches(db, req, keyLe), req.page, req.pageSize);
    assert Enrich([], db.voteEvents) == [];
  }

  /** On a non-empty result, the page just past the last fails like any other error. */
  lemma PastLastPageFails(db: Database, req: BillsRequest, keyLe: (SortKey, SortKey) -> bool)
    requires req.pageSize >= 1
    requires Matching(db, req).Success? && |Matching(db, req).value| > 0
    requires req.page == CeilDiv(|Matching(db, req).value|, req.pageSize) + 1
    ensures ListBills(db, req, keyLe) == Failure(HttpError(404, PageNotFoundDetail))
    ensures GetBillsForRepresentatives(db, req, keyLe) == Failure(HttpError(500, ListingFailureDetail))
  {
  }

  /** A zip code nobody represents lists no bills (given a recognised `date_type`). */
  lemma UnrepresentedZipListsNothing(db: Database, req: BillsRequest, keyLe: (SortKey, SortKey) -> bool)
    requires req.page >= 1 && req.pageSize >= 1
    requires req.filters.dateType in {Some("latest_action_date"), Some("creation_date")}
    requires forall link :: link in db.personAreas ==> link.areaId != ZipAreaId(req.zipCode)
    ensures GetBillsForRepresentatives(db, req, keyLe).Success?
    ensures var body := GetBillsForRepresentatives(db, req, keyLe).value;
      body.totalBills == 0 && body.totalPages == 0 && body.bills == []
  {
    UnknownZipHasNoJurisdictions(db, req.zipCode);
    EmptyResultEveryPage(db, req, keyLe);
  }

  /** The bills of page `page` of the same request, or nothing if it fails. */
  function PageOfRequest(db: Database, req: BillsRequest, keyLe: (SortKey, SortKey) -> bool, page: int): (r: seq<Bill>)
  {
    match GetBillsForRepresentatives(db, req.(page := page), keyLe)
    case Success(body) => ListedBills(body)
    case Failure(_) => []
  }

  /** Every page from 1 to the last of a request lists its slice of the ordered bills. */
  lemma PageOfRequestIsSlice(db: Database, req: BillsRequest, keyLe: (SortKey, SortKey) -> bool, k: int)
    requires req.pageSize >= 1 && Matching(db, req).Success?
    requires 1 <= k <= CeilDiv(|Matching(db, req).value|, req.pageSize)
    ensures PageOfRequest(db, req, keyLe, k) == PageSlice(OrderedMatches(db, req, keyLe), k, req.pageSize)
  {
    var r := req.(page := k);
    assert Matching(db, r) == Matching(db, req);
    assert OrderedMatches(db, r, keyLe) == OrderedMatches(db, req, keyLe);
    assert !Refused(db, r);
    ResponseIsRequestedPage(db, r, keyLe);
  }

  /** Pages 1..totalPages of one request are consecutive slices of the
      ordered admitted bills, and together list every one of them exactly once,
      in the requested order. */
  lemma PagesListEveryBillOnce(db: Database, req: BillsRequest, keyLe: (SortKey, SortKey) -> bool)
    requires req.pageSize >= 1 && Matching(db, req).Success?
    ensures var ordered := OrderedMatches(db, req, keyLe);
      var totalPages := CeilDiv(|Matching(db, req).value|, req.pageSize);
      && (forall p :: 1 <= p <= totalPages ==> PageOfRequest(db, req, keyLe, p) == PageSlice(ordered, p, req.pageSize))
      && PagesThrough(ordered, req.pageSize, totalPages) == ordered
      && multiset(ordered) == multiset(Matching(db, req).value)
  {
    var ordered := OrderedMatches(db, req, keyLe);
    forall p | 1 <= p <= CeilDiv(|Matching(db, req).value|, req.pageSize)
      ensures PageOfRequest(db, req, keyLe, p) == PageSlice(ordered, p, req.pageSize)
    {
      PageOfRequestIsSlice(db, req, keyLe, p);
    }
    PagesCoverAll(ordered, req.pageSize);
  }

  /** Two different pages of one request never return the same bill id. */
  lemma PagesShareNoBill(db: Database, req: BillsRequest, keyLe: (SortKey, SortKey) -> bool, p: int, q: int)
    requires UniqueIds(db.bills)
    requires req.pageSize >= 1 && 1 <= p && 1 <= q && p != q
    ensures forall a, b :: a in PageOfRequest(db, req, keyLe, p) && b in PageOfRequest(db, req, keyLe, q) ==> a.id != b.id
  {
    var rp, rq := req.(page := p), req.(page := q);
    if GetBillsForRepresentatives(db, rp, keyLe).Success? && GetBillsForRepresentatives(db, rq, keyLe).Success? {
      assert Matching(db, rp) == Matching(db, req) == Matching(db, rq);
      var ordered := OrderedMatches(db, req, keyLe);
      assert OrderedMatches(db, rp, keyLe) == ordered == OrderedMatches(db, rq, keyLe);
      ResponseIsRequestedPage(db, rp, keyLe);
      ResponseIsRequestedPage(db, rq, keyLe);
      UniqueIdsOfSubMultiset(db.bills, ordered);
      PagesShareNoKey(ordered, (b: Bill) => b.id, req.pageSize, p, q);
      var pp, pq := PageSlice(ordered, p, req.pageSize), PageSlice(ordered, q, req.pageSize);
      forall a, b | a in pp && b in pq
        ensures a.id != b.id
      {
        var i :| 0 <= i < |pp| && pp[i] == a;
        var j :| 0 <= j < |pq| && pq[j] == b;
      }
    }
  }

  /** The order the request asks the database for, on whole bills. */
  function RequestOrder(db: Database, req: BillsRequest, keyLe: (SortKey, SortKey) -> bool): (Bill, Bill) -> bool
  {
    BillOrder(ResolveColumn(req.sortBy), ResolveDirection(req.sortOrder), db.voteEvents, keyLe)
  }

  /** An order in which the database may return the admitted bills of one page
      query: all of them, sorted by the requested key, tied rows in any order. */
  ghost predicate AdmissibleOrder(db: Database, req: BillsRequest, keyLe: (SortKey, SortKey) -> bool, o: seq<Bill>)
  {
    && Matching(db, req).Success?
    && multiset(o) == multiset(Matching(db, req).value)
    && Sorted(o, RequestOrder(db, req, keyLe))
  }

  /** When no two admitted bills tie on the requested key, every order the
      database may return is the model's order, so separate page queries agree. */
  lemma UntiedKeysFixTheOrder(db: Database, req: BillsRequest, keyLe: (SortKey, SortKey) -> bool, o: seq<Bill>)
    requires TotalPreorder(keyLe)
    requires AdmissibleOrder(db, req, keyLe, o)
    requires NoTies(Matching(db, req).value, RequestOrder(db, req, keyLe))
    ensures o == OrderedMatches(db, req, keyLe)
  {
    var matching := Matching(db, req).value;
    var order := RequestOrder(db, req, keyLe);
    var ordered := OrderedMatches(db, req, keyLe);
    assert ordered == Sort(matching, order);
    BillOrderIsTotalPreorder(ResolveColumn(req.sortBy), ResolveDirection(req.sortOrder), db.voteEvents, keyLe);
    SortIsSorted(matching, order);
    forall x, y | x in o && y in o && x != y
      ensures !(order(x, y) && order(y, x))
    {
      assert x in multiset(matching) && y in multiset(matching);
    }
    SortedPermutationsAgree(o, ordered, order);
  }

  /** With unique ids and no tied keys, page `p` of one query and page `q` of
      another never hold the same bill id, whichever admissible order each
      query returns. */
  lemma UntiedPagesShareNoBill(db: Database, req: BillsRequest, keyLe: (SortKey, SortKey) -> bool,
                               op: seq<Bill>, oq: seq<Bill>, p: int, q: int)
    requires TotalPreorder(keyLe) && UniqueIds(db.bills)
    requires AdmissibleOrder(db, req, keyLe, op) && AdmissibleOrder(db, req, keyLe, oq)
    requires NoTies(Matching(db, req).value, RequestOrder(db, req, keyLe))
    requires req.pageSize >= 1 && 1 <= p && 1 <= q && p != q
    ensures forall a, b :: a in PageSlice(op, p, req.pageSize) && b in PageSlice(oq, q, req.pageSize) ==> a.id != b.id
  {
    UntiedKeysFixTheOrder(db, req, keyLe, op);
    UntiedKeysFixTheOrder(db, req, keyLe, oq);
    var ordered := OrderedMatches(db, req, keyLe);
    UniqueIdsOfSubMultiset(db.bills, ordered);
    PagesShareNoKey(ordered, (b: Bill) => b.id, req.pageSize, p, q);
    var pp, pq := PageSlice(ordered, p, req.pageSize), PageSlice(ordered, q, req.pageSize);
    forall a, b | a in pp && b in pq
      ensures a.id != b.id
    {
      var i :| 0 <= i < |pp| && pp[i] == a;
      var j :| 0 <= j < |pq| && pq[j] == b;
    }
  }

  /** Two different rows that tie can come back in either order, and then page 1
      of one query and page 2 of another return the same row: with tied keys,
      separate page queries may repeat one row and skip another. */
  lemma TiedRowsCanRepeatAcrossPages<T>(x: T, y: T, le: (T, T) -> bool)
    requires x != y && le(x, y) && le(y, x)
    ensures multiset([x, y]) == multiset([y, x])
    ensures Sorted([x, y], le) && Sorted([y, x], le)
    ensures PageSlice([x, y], 1, 1) == [x] && PageSlice([y, x], 2, 1) == [x]
    ensures y !in PageSlice([x, y], 1, 1) + PageSlice([y, x], 2, 1)
  {
  }

  /** Choosing the latest-vote-date order keeps every admitted bill, those
      without any vote event included. */
  lemma VoteDateOrderKeepsUnvotedBills(db: Database, req: BillsRequest, keyLe: (SortKey, SortKey) -> bool, b: Bill)
    requires req.sortBy == "latest_vote_date"
    requires Matching(db, req).Success? && b in Matching(db, req).value
    ensures b in OrderedMatches(db, req, keyLe)
  {
    assert b in multiset(Matching(db, req).value);
  }

  /** Under a total preorder on keys, a response lists its bills with keys
      ascending, or descending when `sort_order` is "desc". */
  lemma ResponseInRequestedOrder(db: Database, req: BillsRequest, keyLe: (SortKey, SortKey) -> bool)
    requires TotalPreorder(keyLe)
    requires GetBillsForRepresentatives(db, req, keyLe).Success?
    ensures var listed := ListedBills(GetBillsForRepresentatives(db, req, keyLe).value);
      var column := ResolveColumn(req.sortBy);
      forall i, j :: 0 <= i < j < |listed| ==>
        if req.sortOrder == "desc" then keyLe(KeyOf(column, db.voteEvents, listed[j]), KeyOf(column, db.voteEvents, listed[i]))
        else keyLe(KeyOf(column, db.voteEvents, listed[i]), KeyOf(column, db.voteEvents, listed[j]))
  {
    ResponseIsRequestedPage(db, req, keyLe);
    var column, direction := ResolveColumn(req.sortBy), ResolveDirection(req.sortOrder);
    var ordered := OrderedMatches(db, req, keyLe);
    SortBillsOrdersKeys(Matching(db, req).value, column, direction, db.voteEvents, keyLe);
    var listed := ListedBills(GetBillsForRepresentatives(db, req, keyLe).value);
    forall i, j | 0 <= i < j < |listed|
      ensures if req.sortOrder == "desc" then keyLe(KeyOf(column, db.voteEvents, listed[j]), KeyOf(column, db.voteEvents, listed[i]))
              else keyLe(KeyOf(column, db.voteEvents, listed[i]), KeyOf(column, db.voteEvents, listed[j]))
    {
      var m := PageItem(ordered, req.page, req.pageSize, i);
      var n := PageItem(ordered, req.page, req.pageSize, j);
      assert m < n;
    }
  }

  // ---------------------------------------------------------------------------
  // Federal bill versions (lines 292-334)

  /** The area identifier of the federal jurisdiction. */
  const FederalAreaId: string := "ocd-division/country:us"

  datatype BillVersions = BillVersions(billId: string, versions: seq<string>)

  datatype BillSummaries = BillSummaries(total: nat, page: int, perPage: int, bills: seq<BillVersions>)

  /** The federal bills, in storage order: each stored federal bill as often as
      it is stored, and nothing else. */
  function FederalBills(db: Database): (r: seq<Bill>)
    ensures forall b :: b in r <==> b in db.bills && b.jurisdictionAreaId == Some(FederalAreaId)
    ensures multiset(r) <= multiset(db.bills)
    ensures forall b ::
      multiset(r)[b] == if b.jurisdictionAreaId == Some(FederalAreaId) then multiset(db.bills)[b] else 0
  {
    Filter(db.bills, (b: Bill) => b.jurisdictionAreaId == Some(FederalAreaId))
  }

  /** Bills compared by their ids' keys. */
  function IdOrder(keyLe: (SortKey, SortKey) -> bool): (Bill, Bill) -> bool
  {
    (a: Bill, b: Bill) => keyLe(TextKey(a.id), TextKey(b.id))
  }

  /** The federal bills ordered by id. */
  function FederalById(db: Database, keyLe: (SortKey, SortKey) -> bool): (r: seq<Bill>)
    ensures multiset(r) == multiset(FederalBills(db))
    ensures |r| == |FederalBills(db)|
    ensures forall b :: b in r <==> b in FederalBills(db)
  {
    var r := Sort(FederalBills(db), IdOrder(keyLe));
    assert forall b :: b in r <==> b in multiset(r);
    r
  }

  /** The response rows for a page of bills: id and versions of each, in order. */
  function VersionRows(bills: seq<Bill>): (r: seq<BillVersions>)
    ensures |r| == |bills|
    ensures forall i :: 0 <= i < |r| ==> r[i] == BillVersions(bills[i].id, bills[i].versions)
  {
    seq(|bills|, i requires 0 <= i < |bills| => BillVersions(bills[i].id, bills[i].versions))
  }

  /** Page `page` of the federal bills ordered by id. Query validation admits
      only `page >= 1` and `1 <= perPage <= 100`; a page past the end is not an
      error, just empty. */
  function GetBillSummaries(db: Database, page: int, perPage: int, keyLe: (SortKey, SortKey) -> bool): (r: BillSummaries)
    requires page >= 1 && 1 <= perPage <= 100
    ensures r.total == |FederalBills(db)| && r.page == page && r.perPage == perPage
    ensures |r.bills| <= perPage
    ensures Offset(page, perPage) >= r.total ==> r.bills == []
    ensures |r.bills| == if Offset(page, perPage) < r.total then Min(perPage, r.total - Offset(page, perPage)) else 0
    ensures forall i :: 0 <= i < |r.bills| ==>
      && Offset(page, perPage) + i < |FederalById(db, keyLe)|
      && r.bills[i] == BillVersions(FederalById(db, keyLe)[Offset(page, perPage) + i].id,
                                    FederalById(db, keyLe)[Offset(page, perPage) + i].versions)
    ensures forall i :: 0 <= i < |r.bills| ==>
      exists b :: b in FederalBills(db) && r.bills[i] == BillVersions(b.id, b.versions)
  {
    var ordered := FederalById(db, keyLe);
    var rows := VersionRows(PageSlice(ordered, page, perPage));
    RowsOfPage(ordered, page, perPage);
    forall i | 0 <= i < |rows|
      ensures exists b :: b in FederalBills(db) && rows[i] == BillVersions(b.id, b.versions)
    {
      var b := ordered[Offset(page, perPage) + i];
      assert b in ordered;
    }
    BillSummaries(|FederalBills(db)|, page, perPage, rows)
  }

  /** The rows of page `page` are the id and versions of the items from
      `(page - 1) * size` on, at most `size` of them. */
  lemma RowsOfPage(ordered: seq<Bill>, page: int, size: int)
    requires page >= 1 && size >= 1
    ensures var rows := VersionRows(PageSlice(ordered, page, size));
      && |rows| <= size
      && |rows| == (if Offset(page, size) < |ordered| then Min(size, |ordered| - Offset(page, size)) else 0)
      && forall i :: 0 <= i < |rows| ==>
           && Offset(page, size) + i < |ordered|
           && rows[i] == BillVersions(ordered[Offset(page, size) + i].id, ordered[Offset(page, size) + i].versions)
  {
  }

  /** Under a total preorder on keys, the federal bills ascend by id. */
  lemma FederalByIdAscends(db: Database, keyLe: (SortKey, SortKey) -> bool)
    requires TotalPreorder(keyLe)
    ensures var r := FederalById(db, keyLe);
      forall i, j :: 0 <= i < j < |r| ==> keyLe(TextKey(r[i].id), TextKey(r[j].id))
  {
    var order := IdOrder(keyLe);
    forall a, b
      ensures order(a, b) || order(b, a)
    {
      assert keyLe(TextKey(a.id), TextKey(b.id)) || keyLe(TextKey(b.id), TextKey(a.id));
    }
    forall a, b, c | order(a, b) && order(b, c)
      ensures order(a, c)
    {
      assert keyLe(TextKey(a.id), TextKey(b.id)) && keyLe(TextKey(b.id), TextKey(c.id));
    }
    SortIsSorted(FederalBills(db), order);
  }

  /** A page of an id-ordered sequence is still ordered by id. */
  lemma PageOfIdOrdered(s: seq<Bill>, page: int, size: int, keyLe: (SortKey, SortKey) -> bool)
    requires page >= 1 && size >= 1
    requires forall i, j :: 0 <= i < j < |s| ==> keyLe(TextKey(s[i].id), TextKey(s[j].id))
    ensures var r := PageSlice(s, page, size);
      forall i, j :: 0 <= i < j < |r| ==> keyLe(TextKey(r[i].id), TextKey(r[j].id))
  {
    var r := PageSlice(s, page, size);
    forall i, j | 0 <= i < j < |r|
      ensures keyLe(TextKey(r[i].id), TextKey(r[j].id))
    {
      var m := PageItem(s, page, size, i);
      var n := PageItem(s, page, size, j);
    }
  }

  /** Under a total preorder on keys, the versions listing ascends by bill id. */
  lemma SummariesAscendById(db: Database, page: int, perPage: int, keyLe: (SortKey, SortKey) -> bool)
    requires page >= 1 && 1 <= perPage <= 100
    requires TotalPreorder(keyLe)
    ensures var rows := GetBillSummaries(db, page, perPage, keyLe).bills;
      forall i, j :: 0 <= i < j < |rows| ==> keyLe(TextKey(rows[i].billId), TextKey(rows[j].billId))
  {
    var ordered := FederalById(db, keyLe);
    FederalByIdAscends(db, keyLe);
    PageOfIdOrdered(ordered, page, perPage, keyLe);
    var slice := PageSlice(ordered, page, perPage);
    assert GetBillSummaries(db, page, perPage, keyLe).bills == VersionRows(slice);
  }
}
