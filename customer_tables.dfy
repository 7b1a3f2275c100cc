/**
  The two server-driven customer tables: the arguments each one sends to the
  backend, the summary table's balance colouring and customer column, and
  the summary table's search.
 */
module CustomerTables {
  import opened Wrappers
  import opened Jalali
  import opened DateFilter
  import Customers

  datatype SortKey = SortKey(id: string, desc: bool)

  /** The data grid's request parameters. */
  datatype GridParams = GridParams(pageIndex: nat, pageSize: nat, sorting: seq<SortKey>)

  /** Arguments of the customer list request; a missing date is left out. */
  datatype CustomerQuery = CustomerQuery(
    params: GridParams,
    keyword: string,
    fromDate: Option<string>,
    toDate: Option<string>)

  /** Arguments of the customer summary request. */
  datatype SummaryQuery = SummaryQuery(params: GridParams, keyword: string)

  /** `fetchCustomers`: grid parameters, the search text and the range's two ends as ISO dates. */
  function CustomersQuery(params: GridParams, keyword: string, range: DateRange): (q: CustomerQuery)
    ensures q.params == params && q.keyword == keyword
    ensures q.fromDate.Some? <==> range.from.Some?
    ensures q.toDate.Some? <==> range.to.Some?
  {
    CustomerQuery(params, keyword, ToIsoDate(range.from), ToIsoDate(range.to))
  }

  /** The backend can read back exactly the dates of a range of valid dates. */
  lemma CustomersQueryCarriesRange(ml: MonthLength, params: GridParams, keyword: string, range: DateRange)
    requires range.from.Some? ==> Jalali.Valid(ml, range.from.value)
    requires range.to.Some? ==> Jalali.Valid(ml, range.to.value)
    ensures var q := CustomersQuery(params, keyword, range);
      && (q.fromDate.Some? ==> ParseIsoDate(q.fromDate.value) == range.from)
      && (q.toDate.Some? ==> ParseIsoDate(q.toDate.value) == range.to)
  {
    if range.from.Some? {
      IsoDateRoundTrip(range.from.value);
    }
    if range.to.Some? {
      IsoDateRoundTrip(range.to.value);
    }
  }

  /** `fetchCustomersSummary`: the date strings are computed but not sent. */
  function SummaryQueryFor(params: GridParams, keyword: string, range: DateRange): (q: SummaryQuery)
    ensures q.params == params && q.keyword == keyword
  {
    var fromDate := ToIsoDate(range.from);
    var toDate := ToIsoDate(range.to);
    SummaryQuery(params, keyword)
  }

  /** The summary request does not depend on the selected dates. */
  lemma SummaryQueryIgnoresRange(params: GridParams, keyword: string, r1: DateRange, r2: DateRange)
    ensures SummaryQueryFor(params, keyword, r1) == SummaryQueryFor(params, keyword, r2)
  {
  }

  /** Colour class of a tether, toman or Perfect Money cell of the summary table. */
  function SummaryColour(value: real): string {
    if value == 0.0 then Customers.Gray900 else if value > 0.0 then Customers.Green else Customers.Red
  }

  /** The summary table colours a balance as the info modal colours its figure. */
  lemma SummaryColourMatchesPanel(value: real)
    ensures SummaryColour(value) == Customers.AmountColour(value)
  {
  }

  /** The customer column's value: first name, one space, last name. */
  function CustomerColumn(firstName: string, lastName: string): (r: string)
    ensures |r| == |firstName| + 1 + |lastName|
    ensures r[..|firstName|] == firstName && r[|firstName|] == ' ' && r[|firstName| + 1..] == lastName
  {
    firstName + " " + lastName
  }

  /** The summary table's toolbar state and the grid's page index. */
  class SummaryTable {
    var searchQuery: string
    var pageIndex: nat
    const pageSize: nat
    var reloadRequests: nat

    constructor ()
      ensures searchQuery == "" && pageIndex == 0 && pageSize == 10 && reloadRequests == 0
    {
      searchQuery := "";
      pageIndex := 0;
      pageSize := 10;
      reloadRequests := 0;
    }

    method SetSearchQuery(text: string)
      modifies this`searchQuery
      ensures searchQuery == text
    {
      searchQuery := text;
    }

    /** `handleSearch`: a reload is requested and the grid goes back to the first page. */
    method Search()
      modifies this`pageIndex, this`reloadRequests
      ensures pageIndex == 0 && reloadRequests == old(reloadRequests) + 1
    {
      reloadRequests := reloadRequests + 1;
      pageIndex := 0;
    }

    /** The request the grid sends next: the current page and the search text. */
    function NextQuery(sorting: seq<SortKey>, range: DateRange): (q: SummaryQuery)
      reads this
      ensures q.params.pageIndex == pageIndex && q.params.pageSize == pageSize
      ensures q.keyword == searchQuery
    {
      SummaryQueryFor(GridParams(pageIndex, pageSize, sorting), searchQuery, range)
    }
  }
}
