/**
 * The meter table on the home screen: the search filter and the sort by
 * reading date, the server-side paging arithmetic, the page-number window,
 * the active-filters flag, the full-name lookup and the statistics.
 */
module Home {
  import opened Wrappers
  import opened Text
  import opened Lists
  import opened Api
  import opened Accounts

  /** The latest reading of a meter; dates are integer timestamps. */
  datatype Reading = Reading(readingValue: Option<int>, readingDate: Option<int>,
                             photos: Option<seq<String>>, notes: Option<String>)

  datatype Meter = Meter(meterIdCode: Option<String>, clientName: Option<String>,
                         locationAddress: Option<String>, meterType: Option<String>,
                         readings: Option<Reading>)

  /** The body of `/meters/with-readings`: one page of meters and the server's total. */
  datatype MeterPage = MeterPage(data: Option<seq<Meter>>, total: Option<nat>)

  /** The choices of the "per page" selector. */
  const PageSizes: seq<nat> := [5, 10, 25, 50, 100]

  /** The number of page links shown at most. */
  const WindowSize: nat := 5

  // ---------------------------------------------------------------- search

  /** `field?.toLowerCase().includes(term)` for an optional field and a lowered term. */
  predicate FieldMatches(field: Option<String>, loweredTerm: String) {
    field.Some? && Includes(Lower(field.value), loweredTerm)
  }

  /** The meter's code, address, client or reading notes contain the term, ignoring case. */
  predicate MeterMatches(m: Meter, term: String): (b: bool)
    ensures b ==> || m.meterIdCode.Some? || m.locationAddress.Some? || m.clientName.Some?
                  || (m.readings.Some? && m.readings.value.notes.Some?)
  {
    var t := Lower(term);
    || FieldMatches(m.meterIdCode, t)
    || FieldMatches(m.locationAddress, t)
    || FieldMatches(m.clientName, t)
    || (m.readings.Some? && FieldMatches(m.readings.value.notes, t))
  }

  /** The search step of the filter effect: skipped for an empty term. */
  function SearchMeters(meters: seq<Meter>, term: String): (r: seq<Meter>)
    ensures |r| <= |meters|
    ensures term == [] ==> r == meters
    ensures term != [] ==> forall i :: 0 <= i < |r| ==> MeterMatches(r[i], term) && r[i] in meters
  {
    if term == [] then meters else Filter(meters, m => MeterMatches(m, term))
  }

  /** `field` is present and the lowered term occurs in its lowered text. */
  ghost predicate OccursIn(field: Option<String>, term: String) {
    field.Some? && exists i :: OccursAt(Lower(field.value), Lower(term), i)
  }

  lemma FieldMatchesIff(field: Option<String>, term: String)
    ensures FieldMatches(field, Lower(term)) <==> OccursIn(field, term)
  {
    if field.Some? {
      IncludesIff(Lower(field.value), Lower(term));
    }
  }

  /**
   * With an empty term every meter is kept, even one without any searchable
   * field; otherwise a meter is kept exactly when the term occurs in one of
   * its present fields.
   */
  lemma SearchMetersMembership(meters: seq<Meter>, term: String, m: Meter)
    ensures term == [] ==> SearchMeters(meters, term) == meters
    ensures term != [] ==>
      (m in SearchMeters(meters, term) <==>
        && m in meters
        && (|| OccursIn(m.meterIdCode, term) || OccursIn(m.locationAddress, term)
            || OccursIn(m.clientName, term)
            || (m.readings.Some? && OccursIn(m.readings.value.notes, term))))
  {
    if term != [] {
      FilterMembership(meters, m => MeterMatches(m, term), m);
      FieldMatchesIff(m.meterIdCode, term);
      FieldMatchesIff(m.locationAddress, term);
      FieldMatchesIff(m.clientName, term);
      if m.readings.Some? {
        FieldMatchesIff(m.readings.value.notes, term);
      }
    }
  }

  /** The search keeps the relative order of the list. */
  lemma SearchMetersKeepsOrder(front: seq<Meter>, back: seq<Meter>, term: String)
    ensures SearchMeters(front + back, term) == SearchMeters(front, term) + SearchMeters(back, term)
  {
    if term != [] {
      FilterConcat(front, back, m => MeterMatches(m, term));
    }
  }

  // ------------------------------------------------------------------ sort

  /** The sort key: the reading date, or the epoch when there is none. */
  function ReadingDate(m: Meter): (d: int)
    ensures m.readings.Some? && m.readings.value.readingDate.Some? ==> d == m.readings.value.readingDate.value
    ensures d != 0 ==> m.readings.Some? && m.readings.value.readingDate == Some(d)
  {
    if m.readings.Some? && m.readings.value.readingDate.Some? then m.readings.value.readingDate.value else 0
  }

  /** Newest reading first. */
  ghost predicate SortedByDate(s: seq<Meter>) {
    forall p, q :: 0 <= p < q < |s| ==> ReadingDate(s[p]) >= ReadingDate(s[q])
  }

  /** Exchanges two neighbouring elements. */
  method SwapDown(a: array<Meter>, j: int)
    requires 0 < j < a.Length
    modifies a
    ensures a[j - 1] == old(a[j]) && a[j] == old(a[j - 1])
    ensures forall k :: 0 <= k < a.Length && k != j - 1 && k != j ==> a[k] == old(a[k])
    ensures multiset(a[..]) == multiset(old(a[..]))
  {
    a[j - 1], a[j] := a[j], a[j - 1];
  }

  /**
   * One insertion step: the meter at `i` moves left past the meters with an
   * older reading, so that the first `i + 1` meters are sorted.
   */
  method InsertNewestFirst(a: array<Meter>, i: int)
    requires 0 <= i < a.Length
    requires forall p, q :: 0 <= p < q < i ==> ReadingDate(a[p]) >= ReadingDate(a[q])
    modifies a
    ensures forall p, q :: 0 <= p < q <= i ==> ReadingDate(a[p]) >= ReadingDate(a[q])
    ensures forall k :: i < k < a.Length ==> a[k] == old(a[k])
    ensures multiset(a[..]) == multiset(old(a[..]))
  {
    var j := i;
    while j > 0 && ReadingDate(a[j - 1]) < ReadingDate(a[j])
      invariant 0 <= j <= i
      invariant forall p, q :: 0 <= p < q <= i && p != j && q != j ==> ReadingDate(a[p]) >= ReadingDate(a[q])
      invariant forall q :: j < q <= i ==> ReadingDate(a[j]) > ReadingDate(a[q])
      invariant forall k :: i < k < a.Length ==> a[k] == old(a[k])
      invariant multiset(a[..]) == multiset(old(a[..]))
    {
      SwapDown(a, j);
      j := j - 1;
    }
  }

  /**
   * `sort((a, b) => dateB - dateA)` in place, as an insertion sort: newest
   * reading first, and the same meters as before.
   */
  method SortByDate(a: array<Meter>)
    modifies a
    ensures SortedByDate(a[..])
    ensures multiset(a[..]) == multiset(old(a[..]))
  {
    var i := 0;
    while i < a.Length
      invariant 0 <= i <= a.Length
      invariant forall p, q :: 0 <= p < q < i ==> ReadingDate(a[p]) >= ReadingDate(a[q])
      invariant multiset(a[..]) == multiset(old(a[..]))
    {
      InsertNewestFirst(a, i);
      i := i + 1;
    }
  }

  /** A sorted copy of a list, as `[...list].sort(...)` gives it. */
  method SortedCopy(s: seq<Meter>) returns (r: seq<Meter>)
    ensures SortedByDate(r)
    ensures multiset(r) == multiset(s)
  {
    var a := new Meter[|s|](i requires 0 <= i < |s| => s[i]);
    assert a[..] == s;
    SortByDate(a);
    r := a[..];
  }

  /**
   * The filter effect: the meters matching the search term, newest reading
   * first. The date-range step never applies: its two dates are always empty.
   */
  method FilterAndSort(meters: seq<Meter>, term: String) returns (r: seq<Meter>)
    ensures SortedByDate(r)
    ensures multiset(r) == multiset(SearchMeters(meters, term))
  {
    var filtered := meters;
    if term != [] {
      filtered := Filter(filtered, m => MeterMatches(m, term));
    }
    r := SortedCopy(filtered);
  }

  // ------------------------------------------------------------ pagination

  /** `Math.ceil(totalMeters / metersPerPage)`, from the server's total. */
  function TotalPages(total: nat, perPage: nat): (pages: nat)
    requires perPage > 0
    ensures pages * perPage >= total
    ensures pages > 0 ==> (pages - 1) * perPage < total
    ensures pages == 0 <==> total == 0
  {
    var pages := (total + perPage - 1) / perPage;
    assert pages * perPage <= total + perPage - 1 < (pages + 1) * perPage;
    pages
  }

  /** The `skip` query parameter of the page request. */
  function Skip(page: nat, perPage: nat): (skip: int)
    ensures page >= 1 ==> 0 <= skip
    ensures skip + perPage == page * perPage
  {
    (page - 1) * perPage
  }

  /** `nextPage`: moves forward only while there is a next page. */
  function NextPageOf(page: int, pages: nat): (r: int)
    ensures page <= r <= page + 1
    ensures r == page + 1 <==> page < pages
    ensures 1 <= page <= (if pages > 1 then pages else 1) ==> 1 <= r <= (if pages > 1 then pages else 1)
  {
    if page < pages then page + 1 else page
  }

  /** `prevPage`: moves back only while not on the first page. */
  function PrevPageOf(page: int): (r: int)
    ensures page - 1 <= r <= page
    ensures r == page - 1 <==> page > 1
    ensures page >= 1 ==> r >= 1
  {
    if page > 1 then page - 1 else page
  }

  /** The first number of the page-link window. */
  function WindowStart(page: int, pages: nat): (start: int)
    ensures 1 <= start
    ensures pages <= WindowSize ==> start == 1
    ensures pages > WindowSize ==> start + WindowSize - 1 <= pages
  {
    if pages <= WindowSize then 1
    else if page <= 3 then 1
    else if page >= pages - 2 then pages - 4
    else page - 2
  }

  /** The page numbers offered as links: at most five, around the current page. */
  function PageWindow(page: int, pages: nat): (w: seq<int>)
    ensures |w| == if pages < WindowSize then pages else WindowSize
    ensures forall i :: 0 <= i < |w| ==> 1 <= w[i] <= pages
  {
    var n := if pages < WindowSize then pages else WindowSize;
    var start := WindowStart(page, pages);
    assert start + n - 1 <= pages;
    seq(n, i requires 0 <= i < n => start + i)
  }

  /**
   * The window holds `min(pages, 5)` consecutive increasing numbers between 1
   * and the page count, whatever the current page, and it holds the current
   * page whenever that is a real page.
   */
  lemma PageWindowShape(page: int, pages: nat)
    ensures forall i :: 0 <= i < |PageWindow(page, pages)| ==>
      PageWindow(page, pages)[i] == PageWindow(page, pages)[0] + i
    ensures 1 <= page <= pages ==> page in PageWindow(page, pages)
  {
    var w := PageWindow(page, pages);
    var start := WindowStart(page, pages);
    assert 1 <= start && start + |w| - 1 <= pages;
    if 1 <= page <= pages {
      var k := page - WindowStart(page, pages);
      assert 0 <= k < |w| && w[k] == page;
    }
  }

  /** The pager is shown only when the server holds more than one page of meters. */
  predicate ShowsPager(total: nat, perPage: nat) {
    total > perPage
  }

  lemma ShowsPagerIff(total: nat, perPage: nat)
    requires perPage > 0
    ensures ShowsPager(total, perPage) <==> TotalPages(total, perPage) >= 2
  {
  }

  /** "Показано a - b из n": the first and last numbers of the meters on the page. */
  function ShownRange(page: nat, perPage: nat, total: nat): (r: (int, int))
    ensures r.0 <= total && r.1 <= total && r.1 <= page * perPage
    ensures page >= 1 && total > 0 ==> 1 <= r.0
  {
    var from := (page - 1) * perPage + 1;
    var to := page * perPage;
    (if from < total then from else total, if to < total then to else total)
  }

  /**
   * On a real page the range starts right after the skipped meters and counts
   * exactly the meters that page can hold.
   */
  lemma ShownRangeOnRealPage(page: nat, perPage: nat, total: nat)
    requires perPage > 0 && 1 <= page <= TotalPages(total, perPage)
    ensures var (from, to) := ShownRange(page, perPage, total);
      && from == Skip(page, perPage) + 1
      && 1 <= from <= to <= total
      && to - from + 1 == (if total - Skip(page, perPage) < perPage then total - Skip(page, perPage) else perPage)
  {
    var pages := TotalPages(total, perPage);
    assert (page - 1) * perPage <= (pages - 1) * perPage;
    assert page * perPage == (page - 1) * perPage + perPage;
  }

  // ---------------------------------------------------------------- filters

  /** `hasActiveFilters`. */
  predicate HasActiveFilters(searchTerm: String, dateFrom: String, dateTo: String): (b: bool)
    ensures !b ==> forall meters :: SearchMeters(meters, searchTerm) == meters
  {
    searchTerm != [] || dateFrom != [] || dateTo != []
  }

  // ------------------------------------------------------- lookup and stats

  /** The index of the first user with the given login (`Array.prototype.find`). */
  function FindUser(users: seq<User>, username: String): (r: Option<nat>)
    ensures r.Some? ==> r.value < |users| && users[r.value].username == username
    ensures r.Some? ==> forall j :: 0 <= j < r.value ==> users[j].username != username
    ensures r.None? ==> forall j :: 0 <= j < |users| ==> users[j].username != username
  {
    if users == [] then None
    else if users[0].username == username then Some(0)
    else match FindUser(users[1..], username)
      case Some(i) => Some(i + 1)
      case None => None
  }

  /** `getFullName`: the full name of the first user with that login (possibly null), else the login. */
  function GetFullName(users: seq<User>, username: String): (r: Option<String>)
    ensures (forall j :: 0 <= j < |users| ==> users[j].username != username) ==> r == Some(username)
    ensures forall i :: 0 <= i < |users| ==>
      (users[i].username == username && (forall j :: 0 <= j < i ==> users[j].username != username) ==>
         r == users[i].fullName)
  {
    match FindUser(users, username)
    case Some(i) => users[i].fullName
    case None => Some(username)
  }

  /** The users kept by `fetchUsers`: those with a non-empty login. */
  function NamedUsers(users: seq<User>): (r: seq<User>)
    ensures |r| <= |users|
    ensures forall i :: 0 <= i < |r| ==> r[i].username != [] && r[i] in users
    ensures forall u :: u in r <==> u in users && u.username != []
  {
    FilterMembershipAll(users, (u: User) => u.username != []);
    Filter(users, (u: User) => u.username != [])
  }

  /** `m.readings?.reading_value` is truthy: present and not zero. */
  predicate HasReadingValue(m: Meter) {
    m.readings.Some? && m.readings.value.readingValue.Some? && m.readings.value.readingValue.value != 0
  }

  /** `m.readings?.photos && m.readings.photos.length > 0`. */
  predicate HasPhotos(m: Meter) {
    m.readings.Some? && m.readings.value.photos.Some? && |m.readings.value.photos.value| > 0
  }

  /** The "С показаниями" card counts these meters. */
  function MetersWithReadings(meters: seq<Meter>): (r: seq<Meter>)
    ensures |r| <= |meters|
    ensures forall i :: 0 <= i < |r| ==> HasReadingValue(r[i]) && r[i] in meters
  {
    Filter(meters, HasReadingValue)
  }

  /** The "with photos" card counts these meters. */
  function MetersWithPhotos(meters: seq<Meter>): (r: seq<Meter>)
    ensures |r| <= |meters|
    ensures forall i :: 0 <= i < |r| ==> HasPhotos(r[i]) && r[i] in meters
  {
    Filter(meters, HasPhotos)
  }

  /** The photo count is additive over the list and counts exactly the meters with a photo. */
  lemma MetersWithPhotosCount(front: seq<Meter>, back: seq<Meter>, m: Meter)
    ensures |MetersWithPhotos(front + back)| == |MetersWithPhotos(front)| + |MetersWithPhotos(back)|
    ensures m in MetersWithPhotos(front + back) <==> m in front + back && HasPhotos(m)
  {
    FilterConcat(front, back, HasPhotos);
    FilterMembership(front + back, HasPhotos, m);
  }

  /** The readings count is additive over the list and counts exactly the meters with a value. */
  lemma MetersWithReadingsCount(front: seq<Meter>, back: seq<Meter>, m: Meter)
    ensures |MetersWithReadings(front + back)| == |MetersWithReadings(front)| + |MetersWithReadings(back)|
    ensures m in MetersWithReadings(front + back) <==> m in front + back && HasReadingValue(m)
  {
    FilterConcat(front, back, HasReadingValue);
    FilterMembership(front + back, HasReadingValue, m);
  }

  // ------------------------------------------------------------ the component

  /** The home component's state and its handlers. */
  class MeterBoard {
    var users: seq<User>
    var meters: seq<Meter>
    var totalMeters: nat
    var filteredMeters: seq<Meter>
    var currentPage: nat
    var metersPerPage: nat
    var searchTerm: String
    var dateFrom: String
    var dateTo: String
    var loading: bool

    /** No handler sets the dates to anything but the empty string. */
    ghost predicate Valid()
      reads this
    {
      && currentPage >= 1
      && metersPerPage in PageSizes
      && dateFrom == [] && dateTo == []
    }

    function Pages(): nat
      reads this
      requires Valid()
    {
      TotalPages(totalMeters, metersPerPage)
    }

    constructor ()
      ensures Valid()
      ensures users == [] && meters == [] && totalMeters == 0 && filteredMeters == []
      ensures currentPage == 1 && metersPerPage == 5 && searchTerm == [] && loading
    {
      users, meters, totalMeters, filteredMeters := [], [], 0, [];
      currentPage, metersPerPage := 1, 5;
      searchTerm, dateFrom, dateTo := [], [], [];
      loading := true;
    }

    /**
     * `fetchMetersWithReadings`: requests one page (`skip`, `limit`); on success
     * keeps the page sorted newest first and the server's total (0 when absent).
     */
    method FetchMeters(reply: ApiResult<MeterPage>) returns (skip: int, limit: nat)
      requires Valid()
      modifies this`meters, this`totalMeters, this`filteredMeters, this`loading
      ensures Valid()
      ensures skip == Skip(currentPage, metersPerPage) && limit == metersPerPage
      ensures reply.Ok? ==>
                && SortedByDate(meters)
                && multiset(meters) == multiset(reply.data.data.GetOr([]))
                && totalMeters == reply.data.total.GetOr(0)
                && filteredMeters == meters
      ensures reply.Err? ==>
                meters == old(meters) && totalMeters == old(totalMeters) && filteredMeters == old(filteredMeters)
      ensures !loading
    {
      loading := true;
      skip, limit := Skip(currentPage, metersPerPage), metersPerPage;
      match reply {
        case Ok(page) =>
          var sorted := SortedCopy(page.data.GetOr([]));
          meters := sorted;
          totalMeters := page.total.GetOr(0);
          filteredMeters := sorted;
        case Err(_) =>
      }
      loading := false;
    }

    /** `fetchUsers`: keeps the users with a login; a failure leaves the list. */
    method FetchUsers(reply: ApiResult<seq<User>>)
      requires Valid()
      modifies this`users
      ensures Valid()
      ensures users == if reply.Ok? then NamedUsers(reply.data) else old(users)
    {
      if reply.Ok? {
        users := NamedUsers(reply.data);
      }
    }

    /** The filter effect, run whenever the term, the dates or the meters change. */
    method ApplyFilters()
      requires Valid()
      modifies this`filteredMeters
      ensures SortedByDate(filteredMeters)
      ensures multiset(filteredMeters) == multiset(SearchMeters(meters, searchTerm))
    {
      filteredMeters := FilterAndSort(meters, searchTerm);
    }

    method SetSearchTerm(term: String)
      requires Valid()
      modifies this`searchTerm
      ensures Valid()
      ensures searchTerm == term
    {
      searchTerm := term;
    }

    /** `clearFilters`. */
    method ClearFilters()
      requires Valid()
      modifies this`searchTerm, this`dateFrom, this`dateTo
      ensures Valid()
      ensures searchTerm == [] && !HasActiveFilters(searchTerm, dateFrom, dateTo)
    {
      searchTerm, dateFrom, dateTo := [], [], [];
    }

    /** The "per page" selector: a new page size starts again from page 1. */
    method SetMetersPerPage(perPage: nat)
      requires Valid() && perPage in PageSizes
      modifies this`metersPerPage, this`currentPage
      ensures Valid() && metersPerPage == perPage && currentPage == 1
    {
      metersPerPage := perPage;
      currentPage := 1;
    }

    method NextPage()
      requires Valid()
      modifies this`currentPage
      ensures Valid()
      ensures currentPage == NextPageOf(old(currentPage), Pages())
    {
      if currentPage < Pages() {
        currentPage := currentPage + 1;
      }
    }

    method PrevPage()
      requires Valid()
      modifies this`currentPage
      ensures Valid()
      ensures currentPage == PrevPageOf(old(currentPage))
    {
      if currentPage > 1 {
        currentPage := currentPage - 1;
      }
    }

    /** A page link of the window. */
    method Paginate(page: int)
      requires Valid() && page in PageWindow(currentPage, Pages())
      modifies this`currentPage
      ensures Valid() && currentPage == page && page <= Pages()
    {
      PageWindowShape(currentPage, Pages());
      currentPage := page;
    }

    /** `handleDeleteSuccess`: back to the first page before the list is fetched again. */
    method HandleDeleteSuccess()
      requires Valid()
      modifies this`currentPage
      ensures Valid() && currentPage == 1
    {
      currentPage := 1;
    }
  }
}
