/** The analytics screen: four analytics calls awaited one after another,
    combined into counters and a top-searches list. The copies in
    components/analytics and components/channels have the same handler, so
    one model serves both. */
module Analytics {
  import opened Common

  /** The body of a count call (`count`), None where it is undefined. */
  datatype CountBody = CountBody(count: Option<int>)

  /** The body of the no-result-rate call (`noResultRate`). */
  datatype RateBody = RateBody(noResultRate: Option<real>)

  datatype TopSearch = TopSearch(search: string, count: int)

  /** The body of the top-searches call; None where `searches` is not an
      array (absent included). */
  datatype SearchesBody = SearchesBody(searches: Option<seq<TopSearch>>)

  /** The combined counters; a None field is JavaScript's `undefined`. */
  datatype AnalyticsData = AnalyticsData(
    totalSearches: Option<int>,
    totalUsers: Option<int>,
    noResultsRate: Option<real>)

  /** The four calls, in the order the handler awaits them. */
  datatype Endpoint = SearchesCount | UsersCount | NoResultRate | TopSearches

  const CallOrder: seq<Endpoint> := [SearchesCount, UsersCount, NoResultRate, TopSearches]

  /** The slots the handler writes. */
  datatype AnalyticsSlots = AnalyticsSlots(
    analyticsData: Option<AnalyticsData>,
    topSearches: seq<TopSearch>,
    error: Option<Message>)

  predicate AllOk(searches: Response<CountBody>, users: Response<CountBody>,
                  rate: Response<RateBody>, top: Response<SearchesBody>)
  {
    searches.Ok? && users.Ok? && rate.Ok? && top.Ok?
  }

  /** The calls actually sent: each is awaited before the next is sent, so
      the sequence stops at the first failure. */
  function CallsSent(searches: Response<CountBody>, users: Response<CountBody>,
                     rate: Response<RateBody>, top: Response<SearchesBody>): (sent: seq<Endpoint>)
    ensures 1 <= |sent| <= |CallOrder| && sent == CallOrder[..|sent|]
    ensures |sent| == |CallOrder| <==> searches.Ok? && users.Ok? && rate.Ok?
    ensures UsersCount in sent <==> searches.Ok?
    ensures NoResultRate in sent <==> searches.Ok? && users.Ok?
    ensures TopSearches in sent <==> searches.Ok? && users.Ok? && rate.Ok?
  {
    if searches.Failed? then [SearchesCount]
    else if users.Failed? then [SearchesCount, UsersCount]
    else if rate.Failed? then [SearchesCount, UsersCount, NoResultRate]
    else CallOrder
  }

  /** The slots after `fetchAnalyticsData`. They do not depend on the slots
      before it: either all four calls succeed and everything is written
      from their bodies, or the `catch` resets all three. */
  function AnalyticsOutcome(searches: Response<CountBody>, users: Response<CountBody>,
                            rate: Response<RateBody>, top: Response<SearchesBody>): (r: AnalyticsSlots)
    ensures r.error.None? <==> AllOk(searches, users, rate, top)
    ensures r.error.Some? ==> r == AnalyticsSlots(None, [], Some(FetchRecordsError))
    ensures r.error.None? ==>
      r.analyticsData == Some(AnalyticsData(searches.data.count, users.data.count, rate.data.noResultRate))
    ensures r.error.None? && top.data.searches.Some? ==> r.topSearches == top.data.searches.value
    ensures r.error.None? && top.data.searches.None? ==> r.topSearches == []
  {
    if AllOk(searches, users, rate, top) then
      AnalyticsSlots(
        Some(AnalyticsData(searches.data.count, users.data.count, rate.data.noResultRate)),
        match top.data.searches case Some(list) => list case None => [],
        None)
    else
      AnalyticsSlots(None, [], Some(FetchRecordsError))
  }

  /** Data is shown only after all four calls were sent and answered; a
      failure of the top-searches call, sent last, still discards the three
      counters already received. */
  lemma ShownOnlyAfterAllCalls(searches: Response<CountBody>, users: Response<CountBody>,
                               rate: Response<RateBody>, top: Response<SearchesBody>)
    ensures AnalyticsOutcome(searches, users, rate, top).analyticsData.Some? ==>
      CallsSent(searches, users, rate, top) == CallOrder && top.Ok?
    ensures searches.Ok? && users.Ok? && rate.Ok? && top.Failed? ==>
      CallsSent(searches, users, rate, top) == CallOrder &&
      AnalyticsOutcome(searches, users, rate, top).analyticsData.None?
  {
  }

  /** A counter as displayed: `undefined` shows as 0. */
  function DisplayedCount(count: Option<int>): (n: int)
    ensures count.None? ==> n == 0
    ensures count.Some? ==> n == count.value
  {
    match count
    case Some(c) => c
    case None => 0
  }

  /** The no-result rate as displayed: `undefined` shows as 0. */
  function DisplayedRate(rate: Option<real>): (x: real)
    ensures rate.None? ==> x == 0.0
    ensures rate.Some? ==> x == rate.value
  {
    match rate
    case Some(v) => v
    case None => 0.0
  }

  /** The state of one analytics screen. */
  class AnalyticsScreen {
    var indexName: string
    var analyticsData: Option<AnalyticsData>
    var topSearches: seq<TopSearch>
    var error: Option<Message>

    function Slots(): AnalyticsSlots
      reads this
    {
      AnalyticsSlots(analyticsData, topSearches, error)
    }

    constructor ()
      ensures indexName == "" && Slots() == AnalyticsSlots(None, [], None)
    {
      indexName := "";
      analyticsData, topSearches, error := None, [], None;
    }

    /** The index-name input's change handler. */
    method EditIndexName(name: string)
      modifies this`indexName
      ensures indexName == name
    {
      indexName := name;
    }

    /** `fetchAnalyticsData`: the four awaits in order, stopping at the
        first failure, with state written only after the last one. */
    method FetchAnalyticsData(searches: Response<CountBody>, users: Response<CountBody>,
                              rate: Response<RateBody>, top: Response<SearchesBody>)
      returns (sent: seq<Endpoint>)
      modifies this`analyticsData, this`topSearches, this`error
      ensures Slots() == AnalyticsOutcome(searches, users, rate, top)
      ensures sent == CallsSent(searches, users, rate, top)
    {
      sent := [SearchesCount];
      if searches.Failed? {
        ResetAfterFailure();
        return;
      }
      sent := sent + [UsersCount];
      if users.Failed? {
        ResetAfterFailure();
        return;
      }
      sent := sent + [NoResultRate];
      if rate.Failed? {
        ResetAfterFailure();
        return;
      }
      sent := sent + [TopSearches];
      if top.Failed? {
        ResetAfterFailure();
        return;
      }
      analyticsData := Some(AnalyticsData(searches.data.count, users.data.count, rate.data.noResultRate));
      if top.data.searches.Some? {
        topSearches := top.data.searches.value;
      } else {
        topSearches := [];
      }
      error := None;
    }

    /** The handler's `catch` block. */
    method ResetAfterFailure()
      modifies this`analyticsData, this`topSearches, this`error
      ensures Slots() == AnalyticsSlots(None, [], Some(FetchRecordsError))
    {
      error := Some(FetchRecordsError);
      analyticsData := None;
      topSearches := [];
    }
  }
}
