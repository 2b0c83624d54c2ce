/**
 * The validate-then-respond views of the two Django back ends (`backend/api`
 * and the older `backend/imbds/api`): required-field checks, the "no changes"
 * check of a business update, the viewset permission switch and the forced
 * partial update. Whether a serializer accepts its data is a parameter.
 */
module BackendViews {
  import opened Wrappers

  /** A value of the request's JSON body. */
  datatype Value = Text(s: string) | Number(n: int) | Flag(b: bool) | Null

  /** Python truthiness: "", 0, False and None are falsy. */
  predicate Falsy(v: Option<Value>) {
    match v
    case None => true
    case Some(Text(s)) => s == ""
    case Some(Number(n)) => n == 0
    case Some(Flag(b)) => !b
    case Some(Null) => true
  }

  /** `data.get(key)`. */
  function Get(data: map<string, Value>, key: string): Option<Value> {
    if key in data then Some(data[key]) else None
  }

  /** `a` is `b` with some elements left out, the rest in their order. */
  predicate SubsequenceOf(a: seq<string>, b: seq<string>) {
    if a == [] then true
    else if b == [] then false
    else if a[0] == b[0] then SubsequenceOf(a[1..], b[1..])
    else SubsequenceOf(a, b[1..])
  }

  /** `[field for field in required if not data.get(field)]`: the absent or empty fields, in the order listed. */
  function MissingFields(required: seq<string>, data: map<string, Value>): (missing: seq<string>)
    ensures forall f :: f in missing <==> f in required && Falsy(Get(data, f))
    ensures SubsequenceOf(missing, required)
  {
    if required == [] then []
    else
      var rest := MissingFields(required[1..], data);
      if Falsy(Get(data, required[0])) then [required[0]] + rest else rest
  }

  const BusinessFields: seq<string> := ["bsns_name", "bsns_address", "industry"]
  const UserFields: seq<string> := ["username", "email", "password", "first_name", "last_name"]
  const InvestibleFields: seq<string> := ["invst_location", "invst_description"]

  /** What a view answers. */
  datatype Body =
    | MissingFieldsError(fields: seq<string>)  // 'The following fields are required:'
    | InvalidData                              // serializer errors
    | Saved                                    // the serializer's data after save()
    | NoChanges                                // 'No changes made'
    | NotFound                                 // '<Entity> not found'
    | DeletedMessage                           // '<Entity> deleted successfully'
    | NoContent
    | ServerError                              // an exception the view does not catch
  datatype Response = Response(status: int, body: Body)

  /** A create view with a required-field check: 400 naming the missing fields, else the serializer decides. */
  function CreateWithRequired(required: seq<string>, data: map<string, Value>, serializerValid: bool): (r: Response)
    ensures MissingFields(required, data) != [] ==> r == Response(400, MissingFieldsError(MissingFields(required, data)))
    ensures MissingFields(required, data) == [] && serializerValid ==> r == Response(201, Saved)
    ensures MissingFields(required, data) == [] && !serializerValid ==> r == Response(400, InvalidData)
    ensures r.status == 201 <==> serializerValid && forall f | f in required :: !Falsy(Get(data, f))
  {
    var missing := MissingFields(required, data);
    if missing != [] then
      assert missing[0] in missing;
      Response(400, MissingFieldsError(missing))
    else if serializerValid then Response(201, Saved)
    else Response(400, InvalidData)
  }

  /** `create_business`: created iff name, address and industry are all given and the serializer accepts the data. */
  function CreateBusiness(data: map<string, Value>, serializerValid: bool): (r: Response)
    ensures r.status == 201 <==> serializerValid && forall f | f in BusinessFields :: !Falsy(Get(data, f))
    ensures r.status != 201 ==> r.status == 400
  {
    CreateWithRequired(BusinessFields, data, serializerValid)
  }

  /** `create_user`: created iff all five fields are given and the serializer accepts the data. */
  function CreateUser(data: map<string, Value>, serializerValid: bool): (r: Response)
    ensures r.status == 201 <==> serializerValid && forall f | f in UserFields :: !Falsy(Get(data, f))
    ensures r.status != 201 ==> r.status == 400
  {
    CreateWithRequired(UserFields, data, serializerValid)
  }

  /** `create_investible` in `backend/api`: created iff location and description are given and the serializer accepts the data. */
  function CreateInvestible(data: map<string, Value>, serializerValid: bool): (r: Response)
    ensures r.status == 201 <==> serializerValid && forall f | f in InvestibleFields :: !Falsy(Get(data, f))
    ensures r.status != 201 ==> r.status == 400
  {
    CreateWithRequired(InvestibleFields, data, serializerValid)
  }

  /** A created user had a username, email, password, first name and last name. */
  lemma CreateUserNeedsAll(data: map<string, Value>, serializerValid: bool)
    requires CreateUser(data, serializerValid).status == 201
    ensures !Falsy(Get(data, "username")) && !Falsy(Get(data, "email")) && !Falsy(Get(data, "password"))
    ensures !Falsy(Get(data, "first_name")) && !Falsy(Get(data, "last_name"))
  {
    SavedCreatesHaveRequiredFields(UserFields, data, serializerValid);
  }

  /** A created investible had a location and a description. */
  lemma CreateInvestibleNeedsBoth(data: map<string, Value>, serializerValid: bool)
    requires CreateInvestible(data, serializerValid).status == 201
    ensures !Falsy(Get(data, "invst_location")) && !Falsy(Get(data, "invst_description"))
  {
    SavedCreatesHaveRequiredFields(InvestibleFields, data, serializerValid);
  }

  /** `create_investible` in `backend/imbds/api`: the serializer alone decides. */
  function CreateInvestibleImbds(serializerValid: bool): (r: Response)
    ensures r.status == 201 <==> serializerValid
    ensures r.body.MissingFieldsError? == false
  {
    if serializerValid then Response(201, Saved) else Response(400, InvalidData)
  }

  /** A create is saved only when every required field is present and non-empty. */
  lemma SavedCreatesHaveRequiredFields(required: seq<string>, data: map<string, Value>, serializerValid: bool)
    requires CreateWithRequired(required, data, serializerValid).status == 201
    ensures forall f :: f in required ==> !Falsy(Get(data, f))
  {
    assert MissingFields(required, data) == [];
  }

  /** An empty name alone is reported as the one missing business field. */
  lemma EmptyNameIsReported(address: string, industry: string, serializerValid: bool)
    requires address != "" && industry != ""
    ensures CreateBusiness(map["bsns_name" := Text(""), "bsns_address" := Text(address), "industry" := Text(industry)],
                           serializerValid)
            == Response(400, MissingFieldsError(["bsns_name"]))
  {
    var data := map["bsns_name" := Text(""), "bsns_address" := Text(address), "industry" := Text(industry)];
    assert Get(data, "bsns_name") == Some(Text(""));
    assert Get(data, "bsns_address") == Some(Text(address));
    assert Get(data, "industry") == Some(Text(industry));
    assert ["industry"][1..] == [];
    assert MissingFields(["industry"], data) == [];
    assert ["bsns_address", "industry"][1..] == ["industry"];
    assert MissingFields(["bsns_address", "industry"], data) == [];
    assert BusinessFields[1..] == ["bsns_address", "industry"];
    assert MissingFields(BusinessFields, data) == ["bsns_name"];
  }

  /**
   * `any(original.get(f) != updated.get(f) for f in updated)`, over the
   * validated fields in their order.
   */
  function ChangesMade(fields: seq<string>, original: map<string, Value>, updated: map<string, Value>): (changed: bool)
    ensures changed <==> exists i :: 0 <= i < |fields| && Get(original, fields[i]) != Get(updated, fields[i])
  {
    if fields == [] then false
    else if Get(original, fields[0]) != Get(updated, fields[0]) then true
    else
      var rest := ChangesMade(fields[1..], original, updated);
      assert forall i :: 1 <= i < |fields| ==> fields[i] == fields[1..][i - 1];
      rest
  }

  /**
   * `update_business`: 404 for an unknown id; with valid data, 'No changes
   * made' when no validated field differs, otherwise saved; 400 on invalid data.
   * `fields` lists the keys of `validated` in the dictionary's order.
   */
  function UpdateBusiness(exists_: bool, serializerValid: bool, fields: seq<string>,
                          original: map<string, Value>, validated: map<string, Value>): (r: Response)
    requires forall f :: f in fields <==> f in validated
    ensures !exists_ ==> r == Response(404, NotFound)
    ensures exists_ && !serializerValid ==> r == Response(400, InvalidData)
    ensures exists_ && serializerValid ==>
              (r == Response(200, NoChanges) <==>
               forall f | f in validated :: Get(original, f) == Some(validated[f]))
    ensures r.body == Saved ==> exists_ && serializerValid && ChangesMade(fields, original, validated)
  {
    if !exists_ then Response(404, NotFound)
    else if !serializerValid then Response(400, InvalidData)
    else if !ChangesMade(fields, original, validated) then Response(200, NoChanges)
    else Response(200, Saved)
  }

  /** Re-sending the stored values is answered 'No changes made' and saves nothing. */
  lemma ResendingStoredValuesChangesNothing(fields: seq<string>, original: map<string, Value>)
    requires forall f :: f in fields <==> f in original
    ensures UpdateBusiness(true, true, fields, original, original) == Response(200, NoChanges)
  {
  }

  /** `update_investible` in either back end: 404, then a full (not partial) update decided by the serializer. */
  function UpdateInvestible(exists_: bool, serializerValid: bool): (r: Response)
    ensures r.status == 404 <==> !exists_
    ensures r.status == 200 <==> exists_ && serializerValid
    ensures r.status == 400 <==> exists_ && !serializerValid
  {
    if !exists_ then Response(404, NotFound)
    else if serializerValid then Response(200, Saved)
    else Response(400, InvalidData)
  }

  /** The viewset actions. */
  datatype Action = List | Retrieve | Create | Update | PartialUpdate | Destroy

  /**
   * `get_permissions` of the Marker, Business and Investible viewsets in
   * `backend/api`: `AllowAny` for list and retrieve, `IsAuthenticated` otherwise.
   */
  function ViewSetAllows(action: Action, authenticated: bool): (allowed: bool)
    ensures allowed <==> action in {List, Retrieve} || authenticated
  {
    if action == List || action == Retrieve then true else authenticated
  }

  /** Anonymous users can read every viewset but change nothing. */
  lemma AnonymousReadOnly(action: Action)
    ensures ViewSetAllows(action, false) <==> action == List || action == Retrieve
  {
  }

  /** The keyword arguments the framework passes to `update`: `partial_update` (PATCH) adds `partial`. */
  function FrameworkKwargs(action: Action): set<string> {
    if action == PartialUpdate then {"pk", "partial"} else {"pk"}
  }

  /** What the overridden `update` hands on to the framework's update. */
  datatype UpdateCall = UpdateWith(partial: bool) | DuplicateKeyword

  /**
   * `super().update(request, *args, **kwargs, partial=True)`: Python raises
   * TypeError when `kwargs` already holds `partial`.
   */
  function ForcedPartialAsWritten(kwargs: set<string>): (c: UpdateCall)
    ensures c == DuplicateKeyword <==> "partial" in kwargs
    ensures c != DuplicateKeyword ==> c.partial
  {
    if "partial" in kwargs then DuplicateKeyword else UpdateWith(true)
  }

  /** A PUT reaches the framework as a partial update, but a PATCH raises TypeError (answered with a 500). */
  lemma PatchRaisesTypeError()
    ensures ForcedPartialAsWritten(FrameworkKwargs(Update)) == UpdateWith(true)
    ensures ForcedPartialAsWritten(FrameworkKwargs(PartialUpdate)) == DuplicateKeyword
  {
  }

  /** Setting `kwargs['partial'] = True` before delegating, which never clashes. */
  function ForcedPartial(kwargs: set<string>): (c: UpdateCall)
    ensures c == UpdateWith(true)
  {
    var rest := kwargs - {"partial"};
    assert "partial" !in rest;
    ForcedPartialAsWritten(rest)
  }

  /** With the keyword set instead of repeated, PUT and PATCH both become partial updates. */
  lemma EveryUpdateIsPartial(action: Action)
    requires action == Update || action == PartialUpdate
    ensures ForcedPartial(FrameworkKwargs(action)) == UpdateWith(true)
  {
  }
}
