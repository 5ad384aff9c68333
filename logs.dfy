/** The top-level index-logs screen (components/index-logs): usage logs
    merged from three series, search-API logs turned into table rows with
    generated ids, and a paginated table for each. */
module IndexLogs {
  import opened Common
  import opened Text
  import opened Usage
  import opened Paging

  /** One entry of the search-API log (`method`, `url`, `answer_code`). */
  datatype SearchLog = SearchLog(httpMethod: string, url: string, answerCode: string)

  /** The body of the log call; None where it has no `logs` field. */
  datatype SearchLogBody = SearchLogBody(logs: Option<seq<SearchLog>>)

  /** One row of the search-log table. */
  datatype SearchLogRow = SearchLogRow(id: string, httpMethod: string, url: string, answerCode: string)

  /** The row id `${method}-${position}`. */
  function SearchLogId(httpMethod: string, position: nat): (id: string)
    ensures httpMethod <= id && id[|httpMethod|..] == "-" + NatToString(position)
  {
    httpMethod + "-" + NatToString(position)
  }

  /** Where the parts of `m + "-" + d` sit. */
  lemma DashJoinLayout(m: string, d: string)
    ensures |m + "-" + d| == |m| + 1 + |d|
    ensures (m + "-" + d)[|m|] == '-'
    ensures forall k :: 0 <= k < |d| ==> (m + "-" + d)[|m| + 1 + k] == d[k]
  {
  }

  /** In `m + "-" + d` with `d` free of dashes, `d` is everything after the
      last dash, so it is determined by the whole string. */
  lemma DashSuffixUnique(m1: string, d1: string, m2: string, d2: string)
    requires '-' !in d1 && '-' !in d2
    requires m1 + "-" + d1 == m2 + "-" + d2
    ensures d1 == d2
  {
    DashJoinLayout(m1, d1);
    DashJoinLayout(m2, d2);
    var s := m1 + "-" + d1;
    // With unequal lengths the dash before the shorter suffix would fall
    // inside the longer, dash-free one.
    if |d1| == |d2| {
      assert d1 == s[|s| - |d1|..] == d2;
    }
  }

  /** Rows at different positions never share an id, whatever their methods. */
  lemma SearchLogIdsDistinct(m1: string, i: nat, m2: string, j: nat)
    requires i != j
    ensures SearchLogId(m1, i) != SearchLogId(m2, j)
  {
    if SearchLogId(m1, i) == SearchLogId(m2, j) {
      var d1, d2 := NatToString(i), NatToString(j);
      assert forall k :: 0 <= k < |d1| ==> d1[k] != '-';
      assert forall k :: 0 <= k < |d2| ==> d2[k] != '-';
      DashSuffixUnique(m1, d1, m2, d2);
      NatToStringInjective(i, j);
    }
  }

  /** `logs.map((log, index) => ({ id: `${log.method}-${index}`, ...log }))`. */
  function FormatSearchLogs(logs: seq<SearchLog>): (rows: seq<SearchLogRow>)
    ensures |rows| == |logs|
    ensures forall i :: 0 <= i < |logs| ==>
      rows[i].httpMethod == logs[i].httpMethod && rows[i].url == logs[i].url && rows[i].answerCode == logs[i].answerCode
    ensures forall i :: 0 <= i < |logs| ==> rows[i].id == SearchLogId(logs[i].httpMethod, i)
  {
    seq(|logs|, i requires 0 <= i < |logs| =>
      SearchLogRow(SearchLogId(logs[i].httpMethod, i), logs[i].httpMethod, logs[i].url, logs[i].answerCode))
  }

  /** The generated ids are unique within one response. */
  lemma FormattedIdsDistinct(logs: seq<SearchLog>)
    ensures forall i, j :: 0 <= i < j < |logs| ==> FormatSearchLogs(logs)[i].id != FormatSearchLogs(logs)[j].id
  {
    forall i, j | 0 <= i < j < |logs|
      ensures FormatSearchLogs(logs)[i].id != FormatSearchLogs(logs)[j].id
    {
      SearchLogIdsDistinct(logs[i].httpMethod, i, logs[j].httpMethod, j);
    }
  }

  /** The rows the success path of `fetchSearchLogs` stores, or None where
      `logs.map` throws because the body has no `logs`. */
  function SearchLogRows(body: SearchLogBody): (rows: Option<seq<SearchLogRow>>)
    ensures rows.None? <==> body.logs.None?
    ensures rows.Some? ==> |rows.value| == |body.logs.value|
    ensures rows.Some? ==> forall i, j :: 0 <= i < j < |rows.value| ==> rows.value[i].id != rows.value[j].id
  {
    match body.logs
    case None => None
    case Some(logs) =>
      FormattedIdsDistinct(logs);
      Some(FormatSearchLogs(logs))
  }

  const DefaultItemsPerPage: int := 10

  /** The state of the top-level index-logs screen: its `useState` slots. */
  class LogsScreen {
    var index: string
    var logs: seq<UsageRow>
    var searchLogs: seq<SearchLogRow>
    var error: Option<Message>
    var currentPageUsage: int
    var itemsPerPageUsage: int
    var currentPageSearch: int
    var itemsPerPageSearch: int

    constructor ()
      ensures index == "" && logs == [] && searchLogs == [] && error == None
      ensures currentPageUsage == 1 && itemsPerPageUsage == DefaultItemsPerPage
      ensures currentPageSearch == 1 && itemsPerPageSearch == DefaultItemsPerPage
    {
      index, logs, searchLogs, error := "", [], [], None;
      currentPageUsage, itemsPerPageUsage := 1, DefaultItemsPerPage;
      currentPageSearch, itemsPerPageSearch := 1, DefaultItemsPerPage;
    }

    /** The usage rows on the current usage page. */
    function CurrentUsageLogs(): (rows: seq<UsageRow>)
      reads this
      ensures forall x :: x in rows ==> x in logs
      ensures 1 <= currentPageUsage && 0 <= itemsPerPageUsage ==> |rows| <= itemsPerPageUsage
    {
      PageOf(logs, currentPageUsage, itemsPerPageUsage)
    }

    /** The search-log rows on the current search page. */
    function CurrentSearchLogs(): (rows: seq<SearchLogRow>)
      reads this
      ensures forall x :: x in rows ==> x in searchLogs
      ensures 1 <= currentPageSearch && 0 <= itemsPerPageSearch ==> |rows| <= itemsPerPageSearch
    {
      PageOf(searchLogs, currentPageSearch, itemsPerPageSearch)
    }

    /** The index input's change handler. */
    method EditIndex(name: string)
      modifies this`index
      ensures index == name
    {
      index := name;
    }

    /** `fetchLogs`: an empty index is refused before any request; otherwise
        the merged rows are stored, or any failure empties them. */
    method FetchLogs(usage: Response<UsageBody>) returns (requested: bool)
      modifies this`logs, this`error
      ensures requested <==> index != ""
      ensures !requested ==> error == Some(IndexRequired) && logs == old(logs)
      ensures requested && usage.Ok? && UsageRows(usage.data).Some? ==>
        logs == UsageRows(usage.data).value && error == None
      ensures requested && !(usage.Ok? && UsageRows(usage.data).Some?) ==>
        logs == [] && error == Some(FetchRecordsError)
    {
      if index == "" {
        error := Some(IndexRequired);
        return false;
      }
      requested := true;
      var rows := None;
      if usage.Ok? {
        rows := BuildUsageRows(usage.data);
      }
      match rows
      case Some(r) =>
        logs := r;
        error := None;
      case None =>
        error := Some(FetchRecordsError);
        logs := [];
    }

    /** `fetchSearchLogs`: no index check; the formatted rows are stored, or
        any failure empties them. */
    method FetchSearchLogs(response: Response<SearchLogBody>)
      modifies this`searchLogs, this`error
      ensures response.Ok? && SearchLogRows(response.data).Some? ==>
        searchLogs == SearchLogRows(response.data).value && error == None
      ensures !(response.Ok? && SearchLogRows(response.data).Some?) ==>
        searchLogs == [] && error == Some(FetchRecordsError)
    {
      if response.Ok? && response.data.logs.Some? {
        searchLogs := FormatSearchLogs(response.data.logs.value);
        error := None;
      } else {
        error := Some(FetchRecordsError);
        searchLogs := [];
      }
    }

    /** The usage table's page change (`setCurrentPageUsage`). */
    method PageChangeUsage(page: int)
      modifies this`currentPageUsage
      ensures currentPageUsage == page
    {
      currentPageUsage := page;
    }

    /** The search table's page change (`setCurrentPageSearch`). */
    method PageChangeSearch(page: int)
      modifies this`currentPageSearch
      ensures currentPageSearch == page
    {
      currentPageSearch := page;
    }

    /** `handlePerPageChangeUsage`: the new size, back to page 1, which then
        shows the first rows; the search table is untouched. */
    method PerPageChangeUsage(perPage: int)
      modifies this`itemsPerPageUsage, this`currentPageUsage
      ensures itemsPerPageUsage == perPage && currentPageUsage == 1
      ensures 0 <= perPage ==> CurrentUsageLogs() == logs[..Min(perPage, |logs|)]
    {
      itemsPerPageUsage := perPage;
      currentPageUsage := 1;
      if 0 <= perPage {
        FirstPage(logs, perPage);
      }
    }

    /** `handlePerPageChangeSearch`: the new size, back to page 1, which then
        shows the first rows; the usage table is untouched. */
    method PerPageChangeSearch(perPage: int)
      modifies this`itemsPerPageSearch, this`currentPageSearch
      ensures itemsPerPageSearch == perPage && currentPageSearch == 1
      ensures 0 <= perPage ==> CurrentSearchLogs() == searchLogs[..Min(perPage, |searchLogs|)]
    {
      itemsPerPageSearch := perPage;
      currentPageSearch := 1;
      if 0 <= perPage {
        FirstPage(searchLogs, perPage);
      }
    }
  }
}
