/**
 * The message the user, investible and business pages show when a submit
 * fails, chosen from the error response in a fixed order of precedence.
 */
module SubmitErrors {
  import opened Wrappers
  import opened Js

  /** A value in an error body: a string, or a list of strings (DRF's per-field error lists). */
  datatype ErrorValue = EStr(s: string) | EList(items: seq<string>)

  /** `err.response.data`: absent or null, a string, an array, or an object with its entries in key order. */
  datatype ErrorData = NoData | DText(text: string) | DArray(items: seq<ErrorValue>) | DObject(entries: seq<(string, ErrorValue)>)

  /** A rejected request: no response at all, or a response with a status and a body. */
  datatype SubmitFailure = NoResponse | HttpError(status: int, data: ErrorData)

  const DefaultText := "Failed to perform action. Please try again."
  const MethodNotAllowedText := "Action not allowed for this resource. (Method Not Allowed)"
  const AuthFailedText := "Authentication failed. Please log in again."

  /** JavaScript truthiness of `err.response.data`. */
  predicate DataTruthy(d: ErrorData) {
    match d
    case NoData => false
    case DText(t) => t != ""
    case DArray(_) => true
    case DObject(_) => true
  }

  /** `data.detail`: the value of the first `detail` key of an object; strings and arrays have none. */
  function Detail(d: ErrorData): Option<ErrorValue> {
    if d.DObject? then DetailIn(d.entries) else None
  }

  function DetailIn(entries: seq<(string, ErrorValue)>): Option<ErrorValue> {
    if entries == [] then None
    else if entries[0].0 == "detail" then Some(entries[0].1)
    else DetailIn(entries[1..])
  }

  /** JavaScript truthiness of `data.detail`: a non-empty string, or any array. */
  predicate DetailTruthy(d: ErrorData) {
    var v := Detail(d);
    v.Some? && (v.value.EList? || v.value.s != "")
  }

  /** `detail` as the page renders it: a string as it is, an array's strings one after another. */
  function DetailText(v: ErrorValue): string {
    match v
    case EStr(s) => s
    case EList(items) => Join(items, "")
  }

  /** `values.flat()`: each string, or each element of each list, in order. */
  function Flatten(values: seq<ErrorValue>): (r: seq<string>)
    ensures forall i | 0 <= i < |values| :: values[i].EStr? ==> values[i].s in r
    ensures forall i, j | 0 <= i < |values| && values[i].EList? && 0 <= j < |values[i].items| :: values[i].items[j] in r
  {
    if values == [] then []
    else
      var head := match values[0] case EStr(s) => [s] case EList(items) => items;
      var rest := Flatten(values[1..]);
      assert forall i | 1 <= i < |values| :: values[i] == values[1..][i - 1];
      head + rest
  }

  /** `Object.values(data)`. */
  function Values(d: ErrorData): seq<ErrorValue> {
    match d
    case DArray(items) => items
    case DObject(entries) => seq(|entries|, i requires 0 <= i < |entries| => entries[i].1)
    case _ => []
  }

  /** Whether the failure logs the user out: a 401 or a 403 response. */
  predicate LogsOut(f: SubmitFailure) {
    f.HttpError? && (f.status == 401 || f.status == 403)
  }

  /**
   * The message of the submit handlers' `catch`: 405 first, then 401/403,
   * then a truthy `detail`, then an object's (or array's) values flattened
   * and joined with ", ", then a non-empty string body, else the default.
   */
  function ErrorMessage(f: SubmitFailure): (m: string)
    ensures f.NoResponse? ==> m == DefaultText
    ensures f.HttpError? && f.status == 405 ==> m == MethodNotAllowedText
    ensures LogsOut(f) ==> m == AuthFailedText
    ensures f.HttpError? && f.status != 405 && !LogsOut(f) && DetailTruthy(f.data) ==> m == DetailText(Detail(f.data).value)
    ensures f.HttpError? && f.status != 405 && !LogsOut(f) && !DetailTruthy(f.data) && !DataTruthy(f.data) ==> m == DefaultText
    ensures f.HttpError? && f.status != 405 && !LogsOut(f) && f.data.DText? && f.data.text != "" ==> m == f.data.text
  {
    match f
    case NoResponse => DefaultText
    case HttpError(status, data) =>
      if status == 405 then MethodNotAllowedText
      else if status == 401 || status == 403 then AuthFailedText
      else if DataTruthy(data) && DetailTruthy(data) then DetailText(Detail(data).value)
      else if DataTruthy(data) then
        if data.DText? then data.text else Join(Flatten(Values(data)), ", ")
      else DefaultText
  }

  /** Every part of a joined list is in the joined text. */
  lemma {:induction false} JoinIncludesParts(parts: seq<string>, sep: string, k: nat)
    requires k < |parts|
    ensures Includes(Join(parts, sep), parts[k])
  {
    if |parts| == 1 {
      IncludesSelf(parts[0]);
    } else {
      var tail := Join(parts[1..], sep);
      var whole := parts[0] + sep + tail;
      if k == 0 {
        assert OccursAt(whole, parts[0], 0);
      } else {
        JoinIncludesParts(parts[1..], sep, k - 1);
        var i :| 0 <= i <= |tail| && OccursAt(tail, parts[1..][k - 1], i);
        var off := |parts[0] + sep|;
        assert whole[off + i..off + i + |parts[k]|] == tail[i..i + |parts[k]|];
        assert OccursAt(whole, parts[k], off + i);
      }
    }
  }

  /**
   * A validation error body (an object of per-field error lists with no
   * `detail`) is shown with every one of its messages.
   */
  lemma FieldErrorsAllShown(status: int, entries: seq<(string, ErrorValue)>, field: nat, k: nat)
    requires status != 405 && status != 401 && status != 403
    requires DetailIn(entries) == None
    requires field < |entries| && entries[field].1.EList? && k < |entries[field].1.items|
    ensures Includes(ErrorMessage(HttpError(status, DObject(entries))), entries[field].1.items[k])
  {
    var data := DObject(entries);
    var values := Values(data);
    var flat := Flatten(values);
    assert !DetailTruthy(data) && DataTruthy(data);
    assert ErrorMessage(HttpError(status, data)) == Join(flat, ", ");
    var message := entries[field].1.items[k];
    assert values[field] == entries[field].1;
    assert message in flat;
    var pos :| 0 <= pos < |flat| && flat[pos] == message;
    JoinIncludesParts(flat, ", ", pos);
  }

  /** A 401 or 403 is reported the same way whatever its body says, and logs the user out. */
  lemma AuthFailureIgnoresBody(status: int, a: ErrorData, b: ErrorData)
    requires status == 401 || status == 403
    ensures ErrorMessage(HttpError(status, a)) == ErrorMessage(HttpError(status, b)) == AuthFailedText
    ensures LogsOut(HttpError(status, a))
  {
  }
}
