/**
 * The admin dashboard: five list requests in sequence, whose lengths and
 * status counts replace the dashboard figures only when all five succeed.
 */
module Dashboard {
  import opened Wrappers
  import opened Tally

  /** The figures the dashboard shows. */
  datatype DashboardData = DashboardData(
    totalUsers: nat,
    totalBusinesses: nat, activeBusinesses: nat, inactiveBusinesses: nat, pendingBusinesses: nat, archivedBusinesses: nat,
    totalInvestibles: nat, availableInvestibles: nat, soldInvestibles: nat, pendingInvestibles: nat,
    totalMarkers: nat, totalReports: nat)

  const Zeros := DashboardData(0, 0, 0, 0, 0, 0, 0, 0, 0, 0, 0, 0)

  /**
   * The outcome of one GET: the `status` of each listed entry (only the
   * length is read for users, markers and reports), or a failure with the
   * response status, None when there was no response.
   */
  datatype Fetch = Fetched(statuses: seq<string>) | Failed(httpStatus: Option<int>)

  /** The endpoints, in the order they are awaited. */
  const Endpoints: seq<string> := ["users/", "businesses/", "investibles/", "markers/", "reports/"]

  const FetchFailedText := "Failed to load dashboard data. Please try again."

  /** A failure that logs the user out: a 401 or 403 response. */
  predicate LogsOut(f: Fetch) {
    f.Failed? && f.httpStatus.Some? && (f.httpStatus.value == 401 || f.httpStatus.value == 403)
  }

  /** The figures computed from the five lists. */
  function Summarize(users: seq<string>, businesses: seq<string>, investibles: seq<string>,
                     markers: seq<string>, reports: seq<string>): (d: DashboardData)
    ensures d.totalUsers == |users| && d.totalBusinesses == |businesses| && d.totalInvestibles == |investibles|
    ensures d.totalMarkers == |markers| && d.totalReports == |reports|
    ensures d.activeBusinesses == multiset(businesses)["active"] && d.inactiveBusinesses == multiset(businesses)["inactive"]
    ensures d.pendingBusinesses == multiset(businesses)["pending"] && d.archivedBusinesses == multiset(businesses)["archived"]
    ensures d.availableInvestibles == multiset(investibles)["available"]
    ensures d.soldInvestibles == multiset(investibles)["sold"] && d.pendingInvestibles == multiset(investibles)["pending"]
    ensures d.activeBusinesses + d.inactiveBusinesses + d.pendingBusinesses + d.archivedBusinesses <= d.totalBusinesses
    ensures d.availableInvestibles + d.soldInvestibles + d.pendingInvestibles <= d.totalInvestibles
  {
    FourCountsBounded(businesses, "active", "inactive", "pending", "archived");
    FourCountsBounded(investibles, "available", "sold", "pending", "");
    DashboardData(
      |users|,
      |businesses|, CountEq(businesses, "active"), CountEq(businesses, "inactive"),
      CountEq(businesses, "pending"), CountEq(businesses, "archived"),
      |investibles|, CountEq(investibles, "available"), CountEq(investibles, "sold"), CountEq(investibles, "pending"),
      |markers|, |reports|)
  }

  /** The position of the first failed request, or the number of requests when none failed. */
  function FirstFailure(results: seq<Fetch>): (i: nat)
    ensures i <= |results|
    ensures forall j | 0 <= j < i :: results[j].Fetched?
    ensures i < |results| ==> results[i].Failed?
  {
    if results == [] then 0
    else if results[0].Failed? then 0
    else 1 + FirstFailure(results[1..])
  }

  /** The requests made: up to and including the first failed one. */
  function Requested(results: seq<Fetch>): seq<string>
    requires |results| == |Endpoints|
  {
    var n := FirstFailure(results);
    if n < |Endpoints| then Endpoints[..n + 1] else Endpoints
  }

  class DashPage {
    var data: DashboardData
    var isLoading: bool
    var fetchError: Option<string>

    constructor ()
      ensures data == Zeros && isLoading && fetchError.None?
    {
      data := Zeros;
      isLoading := true;
      fetchError := None;
    }

    /** The `catch` and `finally` of the fetch: record the error, log out on 401/403, stop loading. */
    method Fail(f: Fetch) returns (loggedOut: bool)
      requires f.Failed?
      modifies this
      ensures data == old(data) && fetchError == Some(FetchFailedText) && !isLoading
      ensures loggedOut == LogsOut(f)
    {
      fetchError := Some(FetchFailedText);
      loggedOut := LogsOut(f);
      isLoading := false;
    }

    /**
     * `fetchDashboardData`, with the outcomes of the five requests as
     * parameters. While authentication is loading it returns at once and the
     * page keeps loading; with no user it navigates to /login.
     */
    method FetchDashboardData(authLoading: bool, hasUser: bool, results: seq<Fetch>)
      returns (requested: seq<string>, navigatedToLogin: bool, loggedOut: bool)
      requires |results| == |Endpoints|
      modifies this
      ensures authLoading ==>
                requested == [] && !navigatedToLogin && !loggedOut
                && data == old(data) && isLoading && fetchError.None?
      ensures !authLoading && !hasUser ==>
                requested == [] && navigatedToLogin && !loggedOut
                && data == old(data) && !isLoading && fetchError.None?
      ensures !authLoading && hasUser ==>
                requested == Requested(results) && !navigatedToLogin && !isLoading
      ensures !authLoading && hasUser && FirstFailure(results) == |Endpoints| ==>
                data == Summarize(results[0].statuses, results[1].statuses, results[2].statuses,
                                  results[3].statuses, results[4].statuses)
                && fetchError.None? && !loggedOut
      ensures !authLoading && hasUser && FirstFailure(results) < |Endpoints| ==>
                data == old(data) && fetchError == Some(FetchFailedText)
                && loggedOut == LogsOut(results[FirstFailure(results)])
    {
      isLoading := true;
      fetchError := None;
      requested, navigatedToLogin, loggedOut := [], false, false;
      if authLoading {
        return;
      }
      if !hasUser {
        navigatedToLogin := true;
        isLoading := false;
        return;
      }
      requested := ["users/"];
      if results[0].Failed? {
        loggedOut := Fail(results[0]);
        return;
      }
      requested := requested + ["businesses/"];
      if results[1].Failed? {
        loggedOut := Fail(results[1]);
        return;
      }
      requested := requested + ["investibles/"];
      if results[2].Failed? {
        loggedOut := Fail(results[2]);
        return;
      }
      requested := requested + ["markers/"];
      if results[3].Failed? {
        loggedOut := Fail(results[3]);
        return;
      }
      requested := requested + ["reports/"];
      if results[4].Failed? {
        loggedOut := Fail(results[4]);
        return;
      }
      data := Summarize(results[0].statuses, results[1].statuses, results[2].statuses,
                        results[3].statuses, results[4].statuses);
      isLoading := false;
    }
  }

  /**
   * A dashboard whose third request fails with 403: users and businesses
   * were fetched, markers and reports never requested, the figures stay at
   * zero, and the user is logged out.
   */
  method ForbiddenInvestibles(users: seq<string>, businesses: seq<string>)
    returns (requested: seq<string>, shown: DashboardData, loggedOut: bool, error: Option<string>)
    ensures requested == ["users/", "businesses/", "investibles/"]
    ensures shown == Zeros && loggedOut && error == Some(FetchFailedText)
  {
    var page := new DashPage();
    var results := [Fetched(users), Fetched(businesses), Failed(Some(403)), Fetched([]), Fetched([])];
    assert FirstFailure(results[2..]) == 0;
    assert FirstFailure(results[1..]) == 1;
    var navigated;
    requested, navigated, loggedOut := page.FetchDashboardData(false, true, results);
    shown := page.data;
    error := page.fetchError;
  }
}
