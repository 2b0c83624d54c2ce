/**
 * The admin list pages (users, investibles, businesses): each fetches its
 * list, filters it by the search box, edits one row at a time in a modal,
 * and reports a failed submit with a message from `SubmitErrors`. The three
 * pages share their state and handlers; what differs is the row type and the
 * request a submit sends.
 */
module AdminPages {
  import opened Wrappers
  import opened MarkerData
  import opened Search
  import opened SubmitErrors
  import Js

  /** The outcome of the page's list GET. */
  datatype ListFetch<R> = Loaded(rows: seq<R>) | LoadFailed(httpStatus: Option<int>)

  predicate FetchLogsOut<R>(f: ListFetch<R>) {
    f.LoadFailed? && f.httpStatus.Some? && (f.httpStatus.value == 401 || f.httpStatus.value == 403)
  }

  /** The form data the user modal hands over, passed on as it is. */
  datatype UserForm = UserForm(fields: map<string, string>)

  /** A request a page's submit sends, with the path it is sent to. */
  datatype PageRequest =
    | UserPatch(path: string, form: UserForm)
    | UserPost(path: string, form: UserForm)
    | InvestiblePut(path: string, investible: InvestibleBody)
    | BusinessPut(path: string, business: BusinessBody, status: Shown)

  /** User page: PATCH `users/update/<id>/` when editing, else POST `users/create/`. */
  function UserRequest(editing: Option<UserRow>, form: UserForm): (r: PageRequest)
    ensures (r.UserPatch? || r.UserPost?) && r.form == form
    ensures editing.Some? <==> r.UserPatch?
    ensures editing.Some? ==> r.path == "users/update/" + Render(editing.value.id) + "/"
    ensures editing.None? ==> r.path == "users/create/"
  {
    match editing
    case Some(u) => UserPatch("users/update/" + Render(u.id) + "/", form)
    case None => UserPost("users/create/", form)
  }

  /**
   * Investible page: with an investible being edited, PUT `investibles/<id>/`
   * with the same defaulted body the map sends; otherwise no request.
   */
  function InvestibleRequest(editing: Option<InvestibleRow>, form: FormData): (r: Option<PageRequest>)
    ensures r.Some? <==> editing.Some?
    ensures r.Some? ==> r.value.InvestiblePut? && r.value.investible == InvestibleBodyOf(form)
                        && r.value.path == "investibles/" + Render(editing.value.investibleId) + "/"
  {
    match editing
    case Some(v) => Some(InvestiblePut("investibles/" + Render(v.investibleId) + "/", InvestibleBodyOf(form)))
    case None => None
  }

  /**
   * Business page: with a business being edited, PUT `businesses/<id>/` with
   * the form's name, address and industry and the business's own status;
   * otherwise no request.
   */
  function BusinessRequest(editing: Option<Search.BusinessRow>, form: FormData): (r: Option<PageRequest>)
    ensures r.Some? <==> editing.Some?
    ensures r.Some? ==> r.value.BusinessPut? && r.value.business == BusinessBodyOf(form)
                        && r.value.status == editing.value.status
                        && r.value.path == "businesses/" + Render(editing.value.businessId) + "/"
  {
    match editing
    case Some(b) => Some(BusinessPut("businesses/" + Render(b.businessId) + "/", BusinessBodyOf(form), b.status))
    case None => None
  }

  /** The user page's `statusDisplay[u.user_status]`: only 'active' and 'archive' have a label. */
  function StatusDisplay(status: Shown): (shown: Option<string>)
    ensures shown.Some? <==> status == Str("active") || status == Str("archive")
    ensures status == Str("archive") ==> shown == Some("Archived")
  {
    if status == Str("active") then Some("Active")
    else if status == Str("archive") then Some("Archived")
    else None
  }

  /** Of the three statuses a user can have, 'online' and 'offline' show nothing. */
  lemma StoredUserStatusesDisplay()
    ensures StatusDisplay(Str("online")).None? && StatusDisplay(Str("offline")).None?
    ensures StatusDisplay(Str("archive")) == Some("Archived")
  {
  }

  /** The state one admin list page keeps. */
  class ListPage<R> {
    var rows: seq<R>
    var search: string
    var modalOpen: bool
    var editing: Option<R>
    var isLoading: bool
    var fetchError: Option<string>
    var submitError: Option<string>
    /** The page's fetch failure text, e.g. 'Failed to load users. Please try again.' */
    const fetchFailedText: string

    constructor (fetchFailedText: string)
      ensures rows == [] && search == "" && !modalOpen && editing.None? && isLoading
      ensures fetchError.None? && submitError.None? && this.fetchFailedText == fetchFailedText
    {
      rows, search, modalOpen, editing := [], "", false, None;
      isLoading, fetchError, submitError := true, None, None;
      this.fetchFailedText := fetchFailedText;
    }

    /** The rows the table shows: the filter by the search box. */
    function Visible(text: R -> string): seq<R>
      reads this
    {
      Filter(rows, text, search)
    }

    method TypeSearch(s: string)
      modifies this
      ensures search == s
      ensures rows == old(rows) && modalOpen == old(modalOpen) && editing == old(editing)
      ensures isLoading == old(isLoading) && fetchError == old(fetchError) && submitError == old(submitError)
    {
      search := s;
    }

    /**
     * The page's fetch, with the GET's outcome as a parameter: nothing while
     * authentication is loading (the page keeps loading), a redirect to
     * /login with no user, else one GET whose rows replace the list, or
     * whose failure is reported (logging out on 401/403).
     */
    method Fetch(authLoading: bool, hasUser: bool, outcome: ListFetch<R>)
      returns (requested: bool, navigatedToLogin: bool, loggedOut: bool)
      modifies this
      ensures authLoading ==> !requested && !navigatedToLogin && !loggedOut && isLoading && rows == old(rows)
      ensures !authLoading && !hasUser ==> !requested && navigatedToLogin && !loggedOut && !isLoading && rows == old(rows)
      ensures !authLoading && hasUser ==> requested && !navigatedToLogin && !isLoading
      ensures !authLoading && hasUser && outcome.Loaded? ==> rows == outcome.rows && fetchError.None? && !loggedOut
      ensures !authLoading && hasUser && outcome.LoadFailed? ==>
                rows == old(rows) && fetchError == Some(fetchFailedText) && loggedOut == FetchLogsOut(outcome)
      ensures !(!authLoading && hasUser && outcome.LoadFailed?) ==> fetchError.None?
      ensures search == old(search) && modalOpen == old(modalOpen) && editing == old(editing)
      ensures submitError == old(submitError)
    {
      isLoading := true;
      fetchError := None;
      requested, navigatedToLogin, loggedOut := false, false, false;
      if authLoading {
        return;
      }
      if !hasUser {
        navigatedToLogin := true;
        isLoading := false;
        return;
      }
      requested := true;
      match outcome {
        case Loaded(fetched) =>
          rows := fetched;
        case LoadFailed(_) =>
          fetchError := Some(fetchFailedText);
          loggedOut := FetchLogsOut(outcome);
      }
      isLoading := false;
    }

    /** `handleAdd` (user page): open the modal for a new row. */
    method Add()
      modifies this
      ensures editing.None? && submitError.None? && modalOpen
      ensures rows == old(rows) && search == old(search) && isLoading == old(isLoading) && fetchError == old(fetchError)
    {
      editing, submitError, modalOpen := None, None, true;
    }

    /** `handleEdit`: open the modal on a row. */
    method Edit(row: R)
      modifies this
      ensures editing == Some(row) && submitError.None? && modalOpen
      ensures rows == old(rows) && search == old(search) && isLoading == old(isLoading) && fetchError == old(fetchError)
    {
      editing, submitError, modalOpen := Some(row), None, true;
    }

    /** The modal's `onClose`: close it and forget the submit error. */
    method CloseModal()
      modifies this
      ensures !modalOpen && submitError.None?
      ensures rows == old(rows) && search == old(search) && editing == old(editing)
      ensures isLoading == old(isLoading) && fetchError == old(fetchError)
    {
      modalOpen, submitError := false, None;
    }

    /**
     * `handleModalSubmit`, given the request the page would send (None when
     * it sends none) and that request's failure, if any. With no user it
     * only navigates to /login. Otherwise, once the request succeeds or when
     * there is none, the list is fetched again (not awaited) and the modal
     * closes; a failed request leaves the modal open with its message, and a
     * 401/403 logs the user out.
     */
    method Submit(hasUser: bool, request: Option<PageRequest>, failure: Option<SubmitFailure>)
      returns (sent: Option<PageRequest>, refetch: bool, navigatedToLogin: bool, loggedOut: bool)
      modifies this
      ensures !hasUser ==> sent.None? && !refetch && navigatedToLogin && !loggedOut
                           && modalOpen == old(modalOpen) && submitError == old(submitError)
      ensures hasUser ==> sent == request && !navigatedToLogin
      ensures hasUser && (request.None? || failure.None?) ==> refetch && !modalOpen && submitError.None? && !loggedOut
      ensures hasUser && request.Some? && failure.Some? ==>
                !refetch && modalOpen == old(modalOpen) && submitError == Some(ErrorMessage(failure.value))
                && loggedOut == LogsOut(failure.value)
      ensures rows == old(rows) && search == old(search) && editing == old(editing)
      ensures isLoading == old(isLoading) && fetchError == old(fetchError)
    {
      sent, refetch, navigatedToLogin, loggedOut := None, false, false, false;
      if !hasUser {
        navigatedToLogin := true;
        return;
      }
      submitError := None;
      sent := request;
      if request.Some? && failure.Some? {
        submitError := Some(ErrorMessage(failure.value));
        loggedOut := LogsOut(failure.value);
        return;
      }
      refetch := true;
      modalOpen := false;
    }
  }

  /**
   * Editing an investible from its page: the page's modal hands back only
   * name, address and industry, so the PUT carries the default description
   * and resets the status to 'available', whatever the investible had.
   */
  method EditInvestibleFromPage(row: InvestibleRow, name: string, address: string, industry: string)
    returns (sent: Option<PageRequest>, modalOpen: bool)
    ensures sent.Some? && sent.value.InvestiblePut?
    ensures sent.value.investible.status == "available"
    ensures sent.value.investible.description == Some("Investible property")
    ensures sent.value.investible.location == Some(address)
    ensures !modalOpen
  {
    var page := new ListPage<InvestibleRow>("Failed to load investibles. Please try again.");
    page.Edit(row);
    var refetch, navigated, loggedOut;
    sent, refetch, navigated, loggedOut :=
      page.Submit(true, InvestibleRequest(page.editing, ThreeFields(name, address, industry)), None);
    modalOpen := page.modalOpen;
  }

  /**
   * Editing a user whose object has no `id` property (the user serializer
   * calls it `user_id`): the PATCH goes to `users/update/undefined/`.
   */
  method EditUserWithoutId(row: UserRow, form: UserForm) returns (sent: Option<PageRequest>)
    requires row.id.Undefined?
    ensures sent == Some(UserPatch("users/update/undefined/", form))
  {
    var page := new ListPage<UserRow>("Failed to load users. Please try again.");
    page.Edit(row);
    assert "users/update/" + Render(row.id) + "/" == "users/update/undefined/";
    var refetch, navigated, loggedOut;
    sent, refetch, navigated, loggedOut := page.Submit(true, Some(UserRequest(page.editing, form)), None);
  }

  /**
   * A 400 whose body holds one message for each of two fields (and no
   * `detail`) is shown as the two messages joined with ", ".
   */
  lemma TwoFieldErrorsJoined(field1: string, first: string, field2: string, second: string)
    requires field1 != "detail" && field2 != "detail"
    ensures ErrorMessage(HttpError(400, DObject([(field1, EList([first])), (field2, EList([second]))])))
            == first + ", " + second
  {
    var body := DObject([(field1, EList([first])), (field2, EList([second]))]);
    assert DetailIn(body.entries[1..][1..]) == None;
    assert DetailIn(body.entries) == None;
    assert !DetailTruthy(body) && DataTruthy(body);
    var vs := Values(body);
    assert vs == [EList([first]), EList([second])];
    assert Flatten(vs[1..][1..]) == [];
    assert Flatten(vs[1..]) == [second];
    assert Flatten(vs) == [first, second];
    assert Js.Join([first, second], ", ") == first + ", " + second;
    assert ErrorMessage(HttpError(400, body)) == Js.Join(Flatten(vs), ", ");
  }

  /** Django REST framework's message for an empty string in a required text field. */
  const BlankText := "This field may not be blank."

  /** Django REST framework's message for a value outside a choice field's choices, quoting the value. */
  function InvalidChoiceText(input: string): (text: string)
    ensures |text| == |input| + 25
    ensures text[..1] == "\"" && text[|input| + 1..] == "\" is not a valid choice."
    ensures text[1..|input| + 1] == input
  {
    "\"" + input + "\" is not a valid choice."
  }

  /**
   * A business edit refused with a validation error: the modal stays open
   * and shows the field messages joined with ", "; nothing is fetched again.
   * The server refused a blank name and the industry value `industry`.
   */
  method RejectedBusinessEdit(row: Search.BusinessRow, form: FormData, industry: string)
    returns (message: Option<string>, modalOpen: bool, refetch: bool)
    ensures message == Some(BlankText + ", " + InvalidChoiceText(industry))
    ensures modalOpen && !refetch
  {
    var page := new ListPage<Search.BusinessRow>("Failed to load businesses. Please try again.");
    page.Edit(row);
    var failure := HttpError(400, DObject([("bsns_name", EList([BlankText])), ("industry", EList([InvalidChoiceText(industry)]))]));
    TwoFieldErrorsJoined("bsns_name", BlankText, "industry", InvalidChoiceText(industry));
    var request := BusinessRequest(page.editing, form);
    assert request.Some?;
    var sent, navigated, loggedOut;
    sent, refetch, navigated, loggedOut := page.Submit(true, request, Some(failure));
    message := page.submitError;
    modalOpen := page.modalOpen;
  }

  /**
   * The business page after a load: typing a search shows exactly the rows
   * whose rendered text matches it, and clearing the box shows every row again.
   */
  method SearchBusinesses(businesses: seq<BusinessRow>, s: string) returns (shown: seq<BusinessRow>, afterClear: seq<BusinessRow>)
    ensures forall i | 0 <= i < |businesses| :: businesses[i] in shown <==> Matches(BusinessText(businesses[i]), s)
    ensures forall b | b in shown :: b in businesses
    ensures afterClear == businesses
  {
    var page := new ListPage<BusinessRow>("Failed to load businesses. Please try again.");
    var requested, navigated, loggedOut := page.Fetch(false, true, Loaded(businesses));
    page.TypeSearch(s);
    shown := page.Visible(BusinessText);
    page.TypeSearch("");
    afterClear := page.Visible(BusinessText);
    EmptySearchKeepsAll(businesses, BusinessText);
  }
}
