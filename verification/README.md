# Bill listing for a zip code's representatives — a Dafny model

This project models the bill-listing logic of the repcheck API (`app/api/bills.py`).
The main endpoint is `GET /api/zipcodes/{zip_code}/bills`. It works in five steps:

1. It turns the zip code into the area id `ocd-division/country:us/zipcode:<zip>`.
2. It finds the people linked to that area, and then the deduplicated set of their
   jurisdiction areas.
3. It keeps the bills of those jurisdictions and narrows them with the optional
   filters, ANDed together: `has_votes`, `jurisdiction_level`, a date range on a
   chosen column, and "one of these representatives voted on it".
4. It counts the result, computes `total_pages`, rejects a page past the last, and
   orders the bills. The latest-vote-date key is an outer-joined `MAX(start_date)`.
5. It slices out the requested page and attaches each bill's vote events from one
   batched fetch.

The simpler versions listing `GET /api/bills/versions` is modelled too. It returns
federal bills ordered by id, paginated with no range check.

The database is an in-memory value: one sequence each of bills, people,
person–area links and vote events. Every step is a pure function over it. A SQL
`WHERE` clause becomes a predicate. `ORDER BY` becomes a stable insertion sort.
`OFFSET`/`LIMIT` becomes a sequence slice. Nullable columns are `Option`s, and a
comparison against NULL is false. An `HTTPException` is a `Failure` value.

The database's ordering of key values is the parameter `keyLe`. That ordering is its
collation, plus where it places NULL. Every lemma about order assumes only that
`keyLe` is a total preorder. SQL leaves the order of tied rows unspecified. The
stable sort picks one of the admissible orders.

Modules, one per concern:
- `Results`: option and result types.
- `Records`: the rows, plus the unique-id invariant of the bills table.
- `Seqs`: order-preserving filter.
- `Ordering`: total preorders and the sort.
- `Paging`: ceiling division, page slices, and how pages fit together.
- `Resolve`: zip code → people → jurisdictions.
- `Filters`: filter fragments and their fold.
- `Sorting`: sort key choice, and the latest vote date.
- `Enrichment`: attaching vote events.
- `BillsApi`: both endpoints.

Behaviour of the code worth knowing, all of it modelled as written:
- **`date_type` is mandatory.** Any `date_type` other than `"latest_action_date"` or
  `"creation_date"` raises 400, even when no date bound is given. So the all-defaults
  request always fails (`BillsApi.DateTypeIsMandatory`).
- **Every error is a 500.** `except Exception` also catches the deliberate 400 and
  404. The caller always gets status 500 with one fixed detail.
- **Any `sort_order` but `"desc"` sorts ascending.** No value is rejected.
- **NULL placement is the database's.** Bills without votes have a NULL latest vote
  date. Under PostgreSQL's default, NULL sorts above every value: last when
  ascending, first when descending. `Sorting.NoVoteBillsAtOneEnd` proves exactly that,
  given that assumption about `keyLe`.
- **Tied rows make pages unstable.** Each page is its own query, ordered by a column
  that need not be unique. The database may order tied rows differently from one
  query to the next. Pages then agree only when no two admitted bills tie on the
  requested key. `BillsApi.UntiedKeysFixTheOrder` proves that any admissible order is
  the model's order when nothing ties. `BillsApi.TiedRowsCanRepeatAcrossPages` shows
  two tied rows for which page 1 of one query and page 2 of another return the same
  row.

Helpers without a row of their own, each covered by the rows that use them:
- `Paging.PageInRange` is the range check at `app/api/bills.py:144`. Its row is
  `Paging.AdmittedPagesAreNonEmpty`.
- `Paging.Min`, `Paging.Offset`, `Paging.Window` and `Paging.PagesThrough` belong to `Paging.PageSlice`
  and the paging lemmas.
- `Sorting.KeyOf` and `Sorting.BillOrder` are the column choice at :149-180. Their rows
  are `Sorting.SortBills` and `Sorting.SortBillsOrdersKeys`.
- `Filters.Holds` is one `WHERE` clause of :89-135. Its rows are `Filters.Narrow` and
  `Filters.FragmentsMeanConjunction`.
- `Enrichment.IdsOf`, `Enrichment.OnBills`, `Enrichment.OnBill` and `Enrichment.Enrich`
  make up the batched enrichment at :191-201. Its row is
  `Enrichment.BatchedEqualsPerBill`.
- `BillsApi.Matching` is zip resolution plus filters, :59-135. Its rows are
  `BillsApi.ReturnedBillsPassEveryFilter` and `BillsApi.ResponseIsRequestedPage`.
- `BillsApi.RequestOrder`, `BillsApi.AdmissibleOrder`, `BillsApi.ListedBills` and
  `BillsApi.PageOfRequest` belong to the lemmas that use them.
- `BillsApi.VersionRows` and `BillsApi.RowsOfPage` belong to
  `BillsApi.GetBillSummaries`.
- `Seqs.FilterOfFilter`, `Ordering.Insert`, `Ordering.InsertKeepsSorted`,
  `Ordering.HeadsAgree`, `Ordering.TailsPermute`, `Paging.MulMonotone`,
  `Paging.PageItem`, `Paging.PageExtendsPrefix` and the lemmas in `Records` are proof
  steps.

## Model

| member | source | states |
|---|---|---|
| Resolve.ZipAreaId | app/api/bills.py:59 | the area id is the fixed prefix followed by the zip code verbatim |
| Resolve.ZipAreaIdInjective | app/api/bills.py:59 | two zip codes give the same area id exactly when they are equal |
| Resolve.PersonIdsIn | app/api/bills.py:68-76 | a person id is selected iff some person–area row links it to the area id (distinct) |
| Resolve.JurisdictionIdsOf | app/api/bills.py:79-85 | a jurisdiction id is selected iff some selected person has it; NULL jurisdictions contribute nothing |
| Resolve.JurisdictionsForZip | app/api/bills.py:59-89 | a jurisdiction is used iff some person linked to the zip code's area belongs to it |
| Resolve.UnknownZipHasNoJurisdictions | app/api/bills.py:68-89 | a zip code with no person–area row yields no jurisdiction |
| Filters.DateColumnFor | app/api/bills.py:100-112 | only the two exact strings select a date column, `latest_action_date` and `created_at` respectively |
| Filters.Narrow | app/api/bills.py:88-135 | folding the fragments keeps exactly the bills that pass every fragment, and adds none |
| Filters.BuildFragments | app/api/bills.py:88-135 | fails with 400 exactly when `date_type` is unrecognised (whether or not bounds are given); otherwise starts with the jurisdiction restriction |
| Filters.FragmentsMeanConjunction | app/api/bills.py:88-135 | the built fragments admit a bill iff it is in a jurisdiction, has votes when asked, matches a non-empty level, lies within each given date bound, and was voted on by some listed representative when the list is non-empty |
| Filters.FilterBills | app/api/bills.py:88-135 | the filtered query holds exactly the stored bills that satisfy the conjunction of active filters, or is the 400 for a bad `date_type` |
| Sorting.ResolveColumn | app/api/bills.py:149-180 | `creation_date`, `title` and `latest_vote_date` pick their columns; every other `sort_by` falls back to the latest action date |
| Sorting.ResolveDirection | app/api/bills.py:165-185 | the order is descending exactly for `"desc"` |
| Sorting.LatestVoteDate | app/api/bills.py:148-163 | the bill's key is the maximum start date over its vote events, and NULL exactly when it has none |
| Sorting.NullVoteKeyIffNoVotes | app/api/bills.py:158-163 | under latest-vote-date ordering, a bill's key is NULL iff it has no vote event |
| Sorting.SortBills | app/api/bills.py:147-185 | sorting is a permutation: no bill is dropped or duplicated by the outer join |
| Sorting.SortBillsOrdersKeys | app/api/bills.py:147-185 | sorted keys ascend under `keyLe`, or descend for the descending direction |
| Sorting.NoVoteBillsAtOneEnd | app/api/bills.py:158-168 | with NULL above every value, bills without votes come last ascending and first descending |
| Ordering.Sort | app/api/bills.py:182-185 | the ordered result is a permutation of its input |
| Ordering.SortIsSorted | app/api/bills.py:182-185 | under a total preorder the ordered result is sorted |
| Paging.CeilDiv | app/api/bills.py:143 | `total_pages` is the least page count that holds every bill, and 0 exactly when there is none |
| Paging.PageSlice | app/api/bills.py:188 | page p holds at most `page_size` items, namely items `(p-1)*page_size` onwards of the ordered result |
| Paging.PagesThroughIsPrefix | app/api/bills.py:188 | pages 1..k together are the first k·page_size items |
| Paging.PagesCoverAll | app/api/bills.py:143-188 | pages 1..total_pages concatenate to the whole ordered result |
| Paging.PagesShareNoKey | app/api/bills.py:188 | two different pages of a sequence without repeated keys share no key |
| Paging.AdmittedPagesAreNonEmpty | app/api/bills.py:143-145 | on a non-empty result, the range check admits a page iff that page is non-empty |
| Paging.EmptyResultAdmitsEveryPage | app/api/bills.py:143-145 | with zero bills, every page ≥ 1 is admitted and empty |
| Paging.FortySevenItemsExample | app/api/bills.py:143-145 | 47 bills at 20 per page: 3 pages, the third holds 7, and page 4 is rejected |
| Enrichment.FetchVotes | app/api/bills.py:193-195 | the batched fetch returns exactly the vote events whose bill id is on the page, each as often as it is stored |
| Enrichment.VotesOf | app/api/bills.py:200 | a bill is given exactly the fetched events naming it, each as often as it was fetched |
| Enrichment.AttachVotes | app/api/bills.py:197-201 | attaching keeps the bills, their order and their number; each bill gets exactly its own events |
| Enrichment.AttachedIsSelected | app/api/bills.py:197-201 | entry i of the attachment is bill i with its selected events |
| Enrichment.FetchThenSelect | app/api/bills.py:192-200 | selecting a page bill's events from the batched fetch gives its events from the whole table, in order |
| Enrichment.BatchedEqualsPerBill | app/api/bills.py:191-201 | batched enrichment gives each bill the same list a per-bill query would |
| BillsApi.OrderedMatches | app/api/bills.py:147-185 | the ordered bills are a permutation of the filtered bills, the same count |
| BillsApi.ListBills | app/api/bills.py:58-209 | inside the `try`: fails iff the page parameters are < 1, `date_type` is unrecognised, or the page is past the last on a non-empty result; the errors are the 400s and the 404; a success echoes page and page size and holds at most page_size bills |
| BillsApi.GetBillsForRepresentatives | app/api/bills.py:26-217 | the endpoint fails under exactly the same conditions, always with status 500 and the generic detail |
| BillsApi.RaisedErrorsBecomeServerErrors | app/api/bills.py:211-217 | the deliberate 400/404 are caught by the catch-all and become the 500 |
| BillsApi.DateTypeIsMandatory | app/api/bills.py:101-112 | without a recognised `date_type` the request fails, so the all-defaults request always fails |
| BillsApi.ResponseIsRequestedPage | app/api/bills.py:137-209 | a success reports the filtered count and its ceiling page count, and lists the requested slice of the ordered bills, each with exactly its vote events |
| BillsApi.ReturnedBillsPassEveryFilter | app/api/bills.py:88-135 | every returned bill is a stored bill that satisfies every active filter at once |
| BillsApi.EmptyResultEveryPage | app/api/bills.py:143-145 | with no admitted bill every page ≥ 1 succeeds with zero bills and zero pages |
| BillsApi.PastLastPageFails | app/api/bills.py:143-145 | page total_pages+1 of a non-empty result raises the 404, which the caller sees as the 500 |
| BillsApi.UnrepresentedZipListsNothing | app/api/bills.py:59-89 | a zip code no person–area row mentions lists zero bills on page ≥ 1, given a recognised `date_type` |
| BillsApi.PageOfRequestIsSlice | app/api/bills.py:187-189 | each page 1..total_pages of a request succeeds with its slice of the ordered bills, in the model's one tie order |
| BillsApi.PagesListEveryBillOnce | app/api/bills.py:137-189 | in the model's one tie order, pages 1..total_pages are consecutive slices that concatenate to all admitted bills in order, each exactly once |
| BillsApi.PagesShareNoBill | app/api/bills.py:187-189 | with unique bill ids and the model's one tie order, two different pages of a request never return the same bill id |
| BillsApi.VoteDateOrderKeepsUnvotedBills | app/api/bills.py:158-163 | ordering by latest vote date keeps every admitted bill, including ones without votes |
| BillsApi.ResponseInRequestedOrder | app/api/bills.py:147-185 | returned bills' keys ascend under `keyLe`, or descend when `sort_order` is `"desc"` |
| Ordering.SortedPermutationsAgree | app/api/bills.py:182-188 | two sorted arrangements of the same rows are identical when no two different rows tie, so only ties leave `ORDER BY` open |
| BillsApi.UntiedKeysFixTheOrder | app/api/bills.py:182-188 | when no two admitted bills tie on the requested key, every order the database may return for a page query is the model's order |
| BillsApi.UntiedPagesShareNoBill | app/api/bills.py:182-188 | with unique ids and no tied keys, two different pages, each from its own query in any admissible order, share no bill id |
| BillsApi.TiedRowsCanRepeatAcrossPages | app/api/bills.py:182-188 | two different tied rows are admissible in either order, and then page 1 of one query and page 2 of another both return the same row while the other row is on neither |
| BillsApi.FederalBills | app/api/bills.py:304-315 | the versions listing counts and selects exactly the bills of area `ocd-division/country:us`, each as often as it is stored and no other |
| BillsApi.FederalById | app/api/bills.py:312-316 | ordering the federal bills by id is a permutation of them: the same bills, each as often |
| BillsApi.FederalByIdAscends | app/api/bills.py:316 | under a total preorder the federal bills ascend by id |
| BillsApi.GetBillSummaries | app/api/bills.py:292-330 | the total is the federal count; page and per_page are echoed; the rows are the id and versions of the federal bills in id order from `(page-1)*per_page` on, at most per_page of them and exactly as many as remain; a page past the end is empty, not an error |
| BillsApi.PageOfIdOrdered | app/api/bills.py:316-318 | a page of an id-ordered sequence is still id-ordered |
| BillsApi.SummariesAscendById | app/api/bills.py:312-321 | the versions listing ascends by bill id |

## Left out

- Storage, sessions, logging and HTTP transport are left out. A database error inside
  either `try` becomes a 500 in the code. The model's database never fails.
- `Paging.CeilDiv`: the code computes `ceil(total_bill_count / page_size)` with
  floating-point division. The model uses exact integer ceiling. They agree whenever
  the count is at most 2^53 and the quotient does not underflow. Above 2^53, rounding
  can make them differ: count 2^53+1 at `page_size` 1 gives 2^53 pages in the code.
  They also differ when `page_size` is so large that the quotient underflows: for one
  bill and `page_size` 10^400 the code computes 0 pages and raises the 404, while
  `CeilDiv` gives 1.
- `Paging.PageSlice`: PostgreSQL requires both `OFFSET (page-1)*page_size` and
  `LIMIT page_size` to fit in a signed 64-bit integer. A larger value makes the query
  fail, on every page including page 1. The model's integers are unbounded.
- `BillsApi.ListBills`: "fails iff refused" holds when `page_size` and
  `(page-1)*page_size` fit in a signed 64-bit integer. Beyond that, the count of
  pages or the query itself fails as described for `Paging.CeilDiv` and
  `Paging.PageSlice`, and the model still succeeds.
- `BillsApi.GetBillsForRepresentatives`: the same bound applies. A bigger `page_size`
  or offset raises in the code and is answered with the 500, which the model does
  not predict.
- `BillsApi.EmptyResultEveryPage`: the success holds when `page_size` and
  `(page-1)*page_size` fit in a signed 64-bit integer. Otherwise the `LIMIT`/`OFFSET`
  query fails and the caller gets the 500.
- `BillsApi.UnrepresentedZipListsNothing`: the same bound applies. The success holds
  when `page_size` and `(page-1)*page_size` fit in a signed 64-bit integer.
- `Filters.FragmentsMeanConjunction`: each representative id is spliced into SQL text
  inside a JSON containment test. An id containing a single quote breaks or alters that
  SQL. The model treats every id as an exact match against a ballot's `voter_id`.
- `Filters.Holds`: date and timestamp columns share one ordered time line, `Instant`.
  PostgreSQL's conversion of a date bound to midnight when comparing with a timestamp
  is not modelled.
- `Sorting.SortBills`: the PostgreSQL collation and NULL placement are abstracted as
  the parameter `keyLe`. Among tied keys, the model returns the stable order, which is
  one of the orders SQL allows.
- `BillsApi.PageOfRequestIsSlice`: each page is a separate query. Its slice is of the
  model's one fixed order, which breaks ties by storage order. The database gives no
  such promise across queries when rows tie on the requested key. The lemma carries
  over to the program only when nothing ties (`BillsApi.UntiedKeysFixTheOrder`).
- `BillsApi.PagesListEveryBillOnce`: "every bill exactly once" across pages holds for
  the model's one fixed tie order. When rows tie, separate page queries may repeat one
  bill and skip another (`BillsApi.TiedRowsCanRepeatAcrossPages`). Without ties it
  holds for the program (`BillsApi.UntiedKeysFixTheOrder`).
- `BillsApi.PagesShareNoBill`: this is stated for the model's one fixed tie order.
  For the program, the statement is `BillsApi.UntiedPagesShareNoBill`. That lemma
  requires that no two admitted bills tie on the requested key.
- `Enrichment.FetchVotes`: the vote-event query has no `ORDER BY`, so the database may
  return the events in any order. The model returns them in storage order. Only the
  set of events attached to each bill is order-free, and `Enrichment.AttachVotes`
  states that set.
- `Enrichment.BatchedEqualsPerBill`: the sequence equality with a per-bill query
  assumes both return events in storage order. Which events are attached does not
  depend on that assumption.
- `BillsApi.ResponseIsRequestedPage`: each bill's vote events are stated in storage
  order, for the same reason.
- `BillsApi.PageOfRequestIsSlice`: every page from 1 to `total_pages` succeeds only
  when `page_size` and `(page-1)*page_size` fit in a signed 64-bit integer. With
  `page_size` at or above 2^63, even page 1 of a non-empty result fails the `LIMIT`
  and the caller gets the 500. The model returns the slice.
- `BillsApi.PagesListEveryBillOnce`: the same bound applies. The pages list every bill
  only when `page_size` and `(page-1)*page_size` fit in a signed 64-bit integer.
- `BillsApi.GetBillSummaries`: "a page past the end is empty, not an error" holds when
  `(page-1)*per_page` fits in a signed 64-bit integer. `page` has no upper bound. At
  page 10^17 with `per_page` 100 the `OFFSET` overflows, the query fails, and the
  caller gets the 500. The model returns an empty page.
- `BillsApi.GetBillSummaries`: FastAPI's query validation (`page >= 1`,
  `1 <= per_page <= 100`) answers out-of-range values with 422 before the handler
  runs. The model states it as a precondition.
- `BillsApi.GetBillSummaries`: a bill version is an opaque string. A NULL `versions`
  column would fail response validation. The model's bills always carry a list.
- A bill's ballot list is a sequence of (voter id, option) records. JSON elements that
  are not objects, or have a non-string `voter_id`, are not modelled.
- Vote start dates are never NULL in the model. `MAX` over only-NULL dates is
  therefore not modelled.
- Only the bill columns the endpoints read are modelled. The response passes the other
  columns through unchanged.
- The single batched vote fetch is a performance property. The model makes exactly one
  `FetchVotes` call per page, but it does not count queries.
- `get_bill` (app/api/bills.py:219-234) is left out. It is a single-row lookup, and when
  the bill is absent it dereferences `None` and falls into the catch-all 500.
- `update_bill_summary` (app/api/bills.py:245-277) is left out. It is an API-key check
  against an environment variable plus a database write.
- `app/api/areas.py`, `app/api/zip_codes.py`, `app/api/people.py`, `app/api/status.py`
  and `app/api/routes.py` are left out. They hold single-row lookups, geometry
  conversion through foreign libraries, or constant responses. `app/api/people.py`
  is a thin lookup on a different join table, keyed by the raw zip code rather than
  an area id. Like the bills endpoint, it turns every error into a 500.
- `app/database/database.py`, `app/database/models.py`, `app/models.py` and
  `app/main.py` are left out. They are engine plumbing and schema declarations with no
  behaviour.
