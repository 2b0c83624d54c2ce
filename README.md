# IMBDS in Dafny

IMBDS is a business-mapping system for San Fernando. Administrators draw markers on a Leaflet map and record businesses and investible properties behind them. They manage users, businesses and investibles from list pages, and read a dashboard and an industry report. Investors see a public map bounded by the city's boundary. The back end is a Django REST API, in two generations (`backend/api` and the older `backend/imbds/api`).

This project models the core of that system:

- **The admin map (`front-end/src/MapAPI/Map.jsx`).** Modelled as the class `AdminMap.MapModel`. The component state is its fields, drawn Leaflet layers are objects of class `AdminMap.Layer`, and every handler is a method. Each method states the complete new state through `Snapshot()`. Remote calls are returned as `ApiCall` values, and their outcomes are parameters. `handleMarkerSubmit` is split at its first `await` (`SubmitStart` / `SubmitFinish`), because the form calls `onClose` in between.
- **The marker form and edit modals.** Classes `FormModal.MarkerForm` (both copies; a constant tells them apart) and `EditModal.EditForm`. Their callbacks into the parent are returned in call order.
- **The icon table (`icons.js`).** `Icons`: the object literal as it evaluates, duplicate key included.
- **The list pages (users, investibles, businesses).** `Search`, `SubmitErrors` and `AdminPages`: the search filters, the submit error message, the request each page sends, and one `ListPage` class for the state and handlers the three pages share.
- **The dashboard and report pages.** `Dashboard`, `Report`, and `Tally` (the shared counting).
- **The Django views.** `BackendViews` holds the validate-then-respond views and permissions switch. `BackendStore` holds a class over the three tables (businesses, investibles, markers) for the deleting views and the foreign-key cascade.
- **The permission classes.** `Permissions`.
- **The investor map's bounds.** `InvestorBounds`.

Scenario methods (`MapScenarios`, and the last methods of `AdminPages`, `Dashboard`, `BackendStore` and `InvestorBounds`) run handlers in the order the UI calls them and state the outcome.

## Model

| member | source | states |
|---|---|---|
| Icons.Resolve | front-end/src/MapAPI/Map.jsx:316 | `businessIcons[key] \|\| businessIcons.default`: the table's icon for a listed key, the default icon for any other |
| Icons.DefaultIcon | front-end/src/assets/icons/icons.js:48 | the default icon is the question-circle glyph |
| Icons.EvaluateKeys | front-end/src/assets/icons/icons.js:41-49 | an object literal's keys are exactly the keys written in it |
| Icons.EvaluateLastWins | front-end/src/assets/icons/icons.js:41-49 | a key written more than once takes the value of its last occurrence |
| Icons.TableFacts | front-end/src/assets/icons/icons.js:41-49 | the table's keys are exactly mall, school, restaurant, hospital, office and default |
| Icons.MallIsShoppingBag | front-end/src/assets/icons/icons.js:42-45 | `mall` is written twice and the later entry, the shopping bag, is the one kept; no icon is the store glyph |
| Icons.UnlistedIndustriesFallBack | front-end/src/assets/icons/icons.js:41-49 | 'market', 'other' and an undefined industry have no entry and resolve to the default icon |
| Icons.UniformGeometry | front-end/src/assets/icons/icons.js:34-36 | every icon in the table is 32x32, anchored at [16, 32], with its popup at [0, -32] |
| MarkerData.InvestibleBodyOf | front-end/src/MapAPI/Map.jsx:360-369 | the investible body always has a non-empty description: the preferred business, or 'Investible property'. Its status is 'available' exactly when the form's status is missing, empty or 'available' |
| MarkerList.Ids | front-end/src/MapAPI/Map.jsx:431 | the ids of the saved records, position by position |
| MarkerList.WithoutId | front-end/src/MapAPI/Map.jsx:431 | the result is the list less one entry per record carrying the id, and no record with the id is left |
| MarkerList.WithoutIdKeepsOthers | front-end/src/MapAPI/Map.jsx:431 | every record without the id is kept exactly as often as it occurs |
| MarkerList.WithoutIdSingle | front-end/src/MapAPI/Map.jsx:431 | a single record survives exactly when it does not carry the id |
| MarkerList.WithoutIdConcat | front-end/src/MapAPI/Map.jsx:431 | filtering a concatenation concatenates the filtered parts, so the kept records stay in list order |
| MarkerList.WithoutIdStep | front-end/src/MapAPI/Map.jsx:431 | the filter decides the first record and then filters the rest |
| MarkerList.UpdateWhereOnlyMatching | front-end/src/MapAPI/Map.jsx:460-475 | the `map` rewrite keeps length and order; it rewrites exactly the records carrying the id and leaves the rest as they were |
| MarkerList.UpdateWhereKeepsIds | front-end/src/MapAPI/Map.jsx:546-548 | a rewrite that keeps each record's id keeps the list of ids |
| MarkerList.UpdateWhereAbsent | front-end/src/MapAPI/Map.jsx:460-475 | with no record carrying the id, the rewrite changes nothing |
| MarkerList.CountZeroMeansAbsent | front-end/src/MapAPI/Map.jsx:431 | a count of zero means no record carries the id |
| MarkerList.WithoutAbsentId | front-end/src/MapAPI/Map.jsx:431 | filtering out an id no record carries changes nothing |
| MarkerList.DeleteUndoesAppend | front-end/src/MapAPI/Map.jsx:431 | a record appended under a fresh id is removed again by the delete filter, and nothing else is |
| AdminMap.Layer.constructor | front-end/src/MapAPI/Map.jsx:152-187 | a drawn layer starts with no marker id and the default icon |
| AdminMap.EffectIconIsLastRecord | front-end/src/MapAPI/Map.jsx:266-272 | the saved-markers effect gives the layers bound to an id the icon of the last record carrying that (truthy) id |
| AdminMap.EffectIconAbsent | front-end/src/MapAPI/Map.jsx:266-272 | with no record carrying the id, or a falsy id, the effect leaves those layers' icons alone |
| AdminMap.InvestibleRecordIcon | front-end/src/MapAPI/Map.jsx:268-269 | a record without a business (an investible marker) gives its layers the default icon |
| AdminMap.TempIdAt | front-end/src/MapAPI/Map.jsx:391 | the fallback id is `temp-` followed by decimal digits, and is truthy |
| AdminMap.MarkerPost | front-end/src/MapAPI/Map.jsx:349-376 | the marker POST carries the draft's position and the id of the business or investible just created. Its label is the form's for a business and "Investible" for an investible |
| AdminMap.FallbackRecord | front-end/src/MapAPI/Map.jsx:389-412 | the fallback record has the temp id and the draft's position. It holds the form data under the chosen type's key only. An investible gets label "Investible" and status defaulting to 'available' |
| AdminMap.MapModel.constructor | front-end/src/MapAPI/Map.jsx:209-232 | the initial value of every state variable |
| AdminMap.MapModel.RefreshStart | front-end/src/MapAPI/Map.jsx:245-248 | `refreshMarkers` GETs markers/ and raises the loading flag, nothing else |
| AdminMap.MapModel.RefreshFinish | front-end/src/MapAPI/Map.jsx:248-254 | the list is replaced on success and kept on failure; loading ends either way |
| AdminMap.MapModel.SetLayerIconByMarkerId | front-end/src/MapAPI/Map.jsx:234-243 | every drawn layer bound to the id gets the icon; every other layer keeps its own |
| AdminMap.MapModel.SavedMarkersEffect | front-end/src/MapAPI/Map.jsx:266-272 | after the loop each layer's icon is the one the last matching record sets, or its old icon |
| AdminMap.MapModel.HandleNewMarker | front-end/src/MapAPI/Map.jsx:284-291 | a fresh draft: position and layer, pendingDelete {layer, null}, industry cleared, default icon, chooser open; nothing else changes |
| AdminMap.MapModel.DrawMarker | front-end/src/MapAPI/Map.jsx:152-187 | drawing adds one fresh layer with the default icon and no id. Its click handler keeps the delete mode of that moment, and the draft starts as in `handleNewMarker` |
| AdminMap.MapModel.Select | front-end/src/MapAPI/Map.jsx:293-303 | choosing a type closes the chooser, records the type and opens the form |
| AdminMap.MapModel.SelectionCancel | front-end/src/MapAPI/Map.jsx:305-311 | the drafted layer is removed only if it has no marker id, and the draft is dropped |
| AdminMap.MapModel.FormClose | front-end/src/MapAPI/Map.jsx:715-728 | as for cancelling the chooser; the form, industry and type are also cleared |
| AdminMap.MapModel.ModalIndustryChange | front-end/src/MapAPI/Map.jsx:313-317 | the industry is stored and the drafted layer previews its icon |
| AdminMap.MapModel.FormBack | front-end/src/MapAPI/Map.jsx:320-326 | back to the chooser with the draft kept |
| AdminMap.MapModel.SubmitStart | front-end/src/MapAPI/Map.jsx:328-369 | with no draft or no type, nothing happens. For a business the layer gets its industry's icon and the business POST goes out. For an investible, `setIcon(undefined)` throws before the `try`: no request is made |
| AdminMap.MapModel.SubmitFinish | front-end/src/MapAPI/Map.jsx:349-416 | on success the server id is bound on the layer, exactly that record is appended and the draft is reset. On any failure exactly one fallback record is appended and its temp id is bound. Only the business request reaches it; the investible branch is kept as written |
| AdminMap.MapModel.ResetForm | front-end/src/MapAPI/Map.jsx:381-385 | the form, the draft, the industry and the type are cleared and nothing else changes |
| AdminMap.MapModel.MarkerDelete | front-end/src/MapAPI/Map.jsx:421-437 | on success every layer and record with the id is removed and ok is returned; on failure nothing changes |
| AdminMap.RemoveBound | front-end/src/MapAPI/Map.jsx:424-429 | a layer of the group stays exactly when it is not bound to the deleted id |
| AdminMap.MapModel.RequestDelete | front-end/src/MapAPI/Map.jsx:551-554 | the pending delete is remembered and the confirmation opens |
| AdminMap.MapModel.RenderedMarkerClick | front-end/src/MapAPI/Map.jsx:632-640 | in delete mode a click is a delete request; otherwise it selects the marker |
| AdminMap.MapModel.DrawnLayerClick | front-end/src/MapAPI/Map.jsx:174-179 | a drawn layer's click is a delete request only if delete mode was on when the layer was drawn |
| AdminMap.MapModel.EditClick | front-end/src/MapAPI/Map.jsx:560-564 | the edit modal opens on the marker and the side panel closes |
| AdminMap.MapModel.EditModalClose | front-end/src/MapAPI/Map.jsx:769-772 | the edit modal closes and forgets the marker |
| AdminMap.MapModel.EditIndustryChange | front-end/src/MapAPI/Map.jsx:775-779 | only a business marker's layers preview the new icon |
| AdminMap.MapModel.EditSubmit | front-end/src/MapAPI/Map.jsx:439-530 | each branch PUTs the entity and then the marker. On success it rewrites only the matching record; any failure leaves everything unchanged. With neither branch there is no request, but the modal closes |
| AdminMap.MapModel.EditBusiness | front-end/src/MapAPI/Map.jsx:443-476 | the business PUT, then the marker PUT with the business id. Both succeed: only the matching records are rewritten and only the layers bound to the marker get the new industry's icon. Otherwise nothing changes |
| AdminMap.MapModel.EditInvestible | front-end/src/MapAPI/Map.jsx:478-519 | the investible PUT, then the marker PUT with the investible id. Both succeed: only the matching records are rewritten. Otherwise nothing changes |
| AdminMap.MapModel.Close | front-end/src/MapAPI/Map.jsx:524-526 | the edit modal and side panel close and nothing else changes |
| AdminMap.MapModel.MarkerDrag | front-end/src/MapAPI/Map.jsx:532-549 | PUT at the new position; on success only the dragged record moves, on failure nothing changes |
| AdminMap.MapModel.ToggleDeleteMode | front-end/src/MapAPI/Map.jsx:572-578 | the mode flips, and the warning opens when it turns on |
| AdminMap.MapModel.WarningCancel | front-end/src/MapAPI/Map.jsx:786-789 | cancelling the warning turns delete mode off |
| AdminMap.MapModel.WarningConfirm | front-end/src/MapAPI/Map.jsx:790-793 | confirming the warning keeps delete mode on |
| AdminMap.MapModel.DeleteCancel | front-end/src/MapAPI/Map.jsx:737-740 | no request; the pending delete is dropped |
| AdminMap.MapModel.DeleteConfirm | front-end/src/MapAPI/Map.jsx:741-763 | the API is called only with a truthy marker id; otherwise the layer is removed locally. Both paths close the modal and clear the pending delete |
| MapScenarios.CreateBusiness | front-end/src/components/Modals/MarkerFormModal.jsx:28-32 | saving a business posts the business and then the marker with its id. The close handler has already removed the layer, and exactly one record is appended |
| MapScenarios.CreateInvestibleThrows | front-end/src/MapAPI/Map.jsx:328-339 | saving an investible throws at `setIcon(investibleIcon)`: no request goes out, no record is added, and the closed form has already removed the layer |
| MapScenarios.LateSuccessStrandsNextDraft | front-end/src/MapAPI/Map.jsx:382-386 | a late success clears the next draft's state, so that draft's layer stays in the group with no id |
| MapScenarios.DeleteModeWarning | front-end/src/MapAPI/Map.jsx:786-793 | on, then Cancel: delete mode is off; on, then Confirm: it stays on; the warning was shown |
| MapScenarios.DeleteSavedMarker | front-end/src/MapAPI/Map.jsx:741-763 | in delete mode, clicking and confirming deletes the record through the API |
| MapScenarios.StaleDeleteModeOnDrawnLayer | front-end/src/MapAPI/Map.jsx:174-179 | a layer drawn before delete mode was on ignores clicks in delete mode; one drawn after does not |
| MapScenarios.EditFromSidePanel | front-end/src/MapAPI/Map.jsx:766-781 | the map passes no `defaultValues`, so each render empties what was typed; Save Changes is blocked by the required fields, nothing is sent, no record changes and the modal stays open |
| MapScenarios.DeleteTemporaryMarker | front-end/src/MapAPI/Map.jsx:421-437 | a temporary record's truthy id is sent to the API; when the server refuses, the record stays |
| FormModal.MarkerForm.WithIndustry | front-end/src/components/Modals/MarkerFormModal.jsx:10-15 | the map's copy starts empty except for `initialIndustry`, not confirming |
| FormModal.MarkerForm.Plain | frontend/src/components/Modals/MarkerFormModal.jsx:4-7 | the older copy starts with every field empty, not confirming |
| FormModal.MarkerForm.ResetForm | frontend/src/components/Modals/MarkerFormModal.jsx:9-14 | all three fields are "" and confirming is false |
| FormModal.MarkerForm.TypeLabel | front-end/src/components/Modals/MarkerFormModal.jsx:67 | only the name changes |
| FormModal.MarkerForm.TypeLocation | front-end/src/components/Modals/MarkerFormModal.jsx:81 | only the address changes |
| FormModal.MarkerForm.HandleIndustryChange | front-end/src/components/Modals/MarkerFormModal.jsx:39-42 | the industry is stored and reported with the same value (the older copy stores it only) |
| FormModal.MarkerForm.InitialIndustryEffect | front-end/src/components/Modals/MarkerFormModal.jsx:17-19 | the industry follows `initialIndustry`, or becomes "" |
| FormModal.MarkerForm.Continue | front-end/src/components/Modals/MarkerFormModal.jsx:52-56 | Continue never submits; it moves to confirmation only when all three required fields are filled |
| FormModal.MarkerForm.Back | front-end/src/components/Modals/MarkerFormModal.jsx:149 | back to editing with the values kept |
| FormModal.MarkerForm.FinalSubmit | front-end/src/components/Modals/MarkerFormModal.jsx:28-32 | `onSubmit` with exactly {label, location, industry}, then a reset, then `onClose` |
| FormModal.MarkerForm.Cancel | front-end/src/components/Modals/MarkerFormModal.jsx:34-37 | reset and `onClose`, never `onSubmit` |
| FormModal.FillAndSave | front-end/src/components/Modals/MarkerFormModal.jsx:28-56 | filling in the form reports the industry once, Continue calls nothing, and Confirm & Save calls `onSubmit` with the three values and then `onClose` |
| EditModal.PropOrEmpty | front-end/src/components/Modals/MarkerEditModal.jsx:18-20 | a missing key reads "", a present key reads its value |
| EditModal.EditForm.constructor | front-end/src/components/Modals/MarkerEditModal.jsx:12-14 | the fields start empty |
| EditModal.EditForm.PrefillEffect | front-end/src/components/Modals/MarkerEditModal.jsx:16-22 | while open the fields load from `defaultValues`, "" where a key is missing; while closed nothing changes |
| EditModal.EditForm.Rerender | front-end/src/components/Modals/MarkerEditModal.jsx:9-22 | without `defaultValues` every render runs the prefill with a fresh `{}` and empties the three fields; with them nothing changes |
| EditModal.EditForm.TypeLabel | front-end/src/components/Modals/MarkerEditModal.jsx:48 | only the name changes, and without `defaultValues` the next render empties every field again |
| EditModal.EditForm.TypeLocation | front-end/src/components/Modals/MarkerEditModal.jsx:60 | only the address changes, and without `defaultValues` the next render empties every field again |
| EditModal.EditForm.PickIndustry | front-end/src/components/Modals/MarkerEditModal.jsx:72 | only the industry changes and the parent hears the new value; without `defaultValues` the render empties the fields and the parent then hears "" |
| EditModal.EditForm.IndustryEffect | front-end/src/components/Modals/MarkerEditModal.jsx:24-28 | `onIndustryChange` receives the current industry |
| EditModal.EditForm.Submit | front-end/src/components/Modals/MarkerEditModal.jsx:30-74 | when the three required fields are filled, `onSubmit` with exactly {label, location, industry}, no marker type and no close; otherwise nothing is called |
| EditModal.EditForm.Cancel | front-end/src/components/Modals/MarkerEditModal.jsx:94 | `onClose` only |
| EditModal.FillWithoutDefaults | front-end/src/components/Modals/MarkerEditModal.jsx:9-33 | with no `defaultValues`, filling in every field ends with all three empty, the parent hears "", the industry and "" again, and Save calls nothing |
| EditModal.FillWithDefaults | front-end/src/components/Modals/MarkerEditModal.jsx:9-33 | with `defaultValues` passed, a filled-in form is submitted with exactly what was typed |
| BackendViews.MissingFields | backend/api/views.py:200 | a field is reported iff it is required and absent or falsy; the report keeps the required order |
| BackendViews.CreateWithRequired | backend/api/views.py:198-212 | 400 naming the missing fields, else 201 when the serializer accepts the data and 400 when it does not; 201 exactly when the serializer accepts and no required field is falsy |
| BackendViews.CreateBusiness | backend/api/views.py:198-212 | create_business answers 201 exactly when the serializer accepts and none of bsns_name, bsns_address, industry is falsy, and 400 otherwise |
| BackendViews.CreateUser | backend/api/views.py:272-295 | create_user answers 201 exactly when the serializer accepts and none of its five required fields is falsy, and 400 otherwise |
| BackendViews.CreateInvestible | backend/api/views.py:362-376 | create_investible answers 201 exactly when the serializer accepts and neither invst_location nor invst_description is falsy, and 400 otherwise |
| BackendViews.CreateUserNeedsAll | backend/api/views.py:274-282 | a 201 from create_user means username, email, password, first_name and last_name were all present and non-empty |
| BackendViews.CreateInvestibleNeedsBoth | backend/api/views.py:364-370 | a 201 from create_investible means invst_location and invst_description were both present and non-empty |
| BackendViews.CreateInvestibleImbds | backend/imbds/api/views.py:123-129 | the older create is 201 iff the serializer accepts the data, with no required-field check |
| BackendViews.SavedCreatesHaveRequiredFields | backend/api/views.py:272-295 | a 201 from a create means every required field was present and non-empty |
| BackendViews.EmptyNameIsReported | backend/api/views.py:198-206 | an empty `bsns_name` alone gives 400 naming just that field |
| BackendViews.ChangesMade | backend/api/views.py:226 | true iff some validated field differs from the stored value |
| BackendViews.UpdateBusiness | backend/api/views.py:216-233 | 404 for an unknown id, 400 on invalid data. With valid data, whose keys are the fields compared, it answers 'No changes made' iff every validated value equals the stored one, and saves only when one differs |
| BackendViews.ResendingStoredValuesChangesNothing | backend/api/views.py:223-229 | re-sending the stored values is answered 'No changes made' |
| BackendViews.UpdateInvestible | backend/imbds/api/views.py:131-142 | 404 iff unknown, 200 iff valid data, 400 iff invalid data |
| BackendViews.ViewSetAllows | backend/api/views.py:135-140 | list and retrieve are open to anyone; every other action needs authentication |
| BackendViews.AnonymousReadOnly | backend/api/views.py:166-174 | an anonymous user may list and retrieve, and nothing else |
| BackendViews.ForcedPartialAsWritten | backend/api/views.py:142-143 | the duplicate-keyword TypeError happens iff `partial` is already among the keyword arguments; otherwise the update is partial |
| BackendViews.PatchRaisesTypeError | backend/api/views.py:248-249 | a PUT becomes a partial update, a PATCH raises TypeError |
| BackendViews.ForcedPartial | backend/api/views.py:142-143 | the corrected form of this override, which sets `partial` instead of passing it twice, always hands on a partial update |
| BackendViews.EveryUpdateIsPartial | backend/api/views.py:142-143 | with the correction, both PUT and PATCH are partial updates |
| BackendStore.Store.constructor | backend/imbds/api/models.py:88-94 | a store over the given rows |
| BackendStore.Store.DeleteBusiness | backend/imbds/api/models.py:91 | the row goes and the cascade takes exactly the markers pointing at it; referential integrity is kept |
| BackendStore.Store.DeleteInvestibleRow | backend/imbds/api/models.py:92 | the same for an investible |
| BackendStore.Store.DestroyMarker | backend/api/views.py:145-158 | 404 for an unknown marker. Otherwise the marker goes, and so do its business and investible exactly when no other marker references them; 204. A store with no orphans keeps none |
| BackendStore.Store.DestroyMarkerBusinessOnly | backend/imbds/api/views.py:21-30 | the same for the business only; the investible is never deleted |
| BackendStore.Store.DeleteInvestibles | backend/api/views.py:395-403 | 400 iff the id is unknown; otherwise the investible and, by cascade, its markers are deleted, and 200 |
| BackendStore.Store.DeleteInvestiblesAsWritten | backend/imbds/api/views.py:145-152 | the lookup raises FieldError: every call is a 500 and nothing changes |
| BackendStore.NoReferenceNoCascade | backend/imbds/api/models.py:91 | a cascade from an unreferenced business removes no marker |
| BackendStore.StillReferenced | backend/api/views.py:153-154 | a business referenced by another marker is still referenced after a marker is removed |
| BackendStore.StillReferencedInvestible | backend/api/views.py:156-157 | the same for investibles |
| BackendStore.NoInvestibleReferenceNoCascade | backend/imbds/api/models.py:92 | a cascade from an unreferenced investible removes no marker |
| BackendStore.DestroyOnlyMarkerOfInvestible | backend/imbds/api/views.py:21-30 | removing an investible's only marker deletes the investible in `backend/api` and leaves it behind in `backend/imbds/api` |
| Permissions.IsAdminOrEmployee | backend/api/permissions.py:3-9 | allowed iff authenticated with role exactly 'Admin' or 'Employee'; coincides with `IsStaffOrAdmin` |
| Permissions.IsAdminOrEmployeeReadOnly | backend/api/permissions.py:11-18 | Admin may use any method, Employee only safe methods, anyone else nothing; whatever it allows, `IsStaffOrAdmin` allows |
| Permissions.IsSelfOrAdmin | backend/api/permissions.py:28-30 | an anonymous user raises AttributeError. Otherwise the check allows exactly an Admin, or the object that is the requesting user |
| Permissions.AdminPassesEveryClass | backend/api/permissions.py:3-30 | an authenticated 'Admin' passes all five classes |
| Permissions.EmployeeReadsOnly | backend/api/permissions.py:11-18 | an 'Employee' passes the read-only class exactly for GET, HEAD and OPTIONS |
| Permissions.StoredRolesPassNoRoleCheck | backend/api/permissions.py:8-26 | the stored lowercase roles pass none of the role checks, because the comparison is case-sensitive |
| Permissions.AnonymousPassesNothing | backend/api/permissions.py:3-26 | an anonymous user passes none of the four request-level classes |
| Tally.CountEq | frontend/src/Pages/DashPage.jsx:50-66 | `filter(s => s === v).length` is the multiset count of v, 0 iff v is absent |
| Tally.FourCountsBounded | frontend/src/Pages/ReportPage.jsx:51-54 | four counts of distinct values sum to at most the length |
| Tally.FourCountsCover | frontend/src/Pages/ReportPage.jsx:51-54 | when every entry is one of the four values, the counts sum to the length |
| Report.Industries | frontend/src/Pages/ReportPage.jsx:56-59 | the industries of the businesses, position by position |
| Report.Statuses | frontend/src/Pages/ReportPage.jsx:51-54 | the statuses of the businesses, position by position |
| Report.Keys | frontend/src/Pages/ReportPage.jsx:204 | `Object.keys`: the entries' keys in insertion order |
| Report.Bump | frontend/src/Pages/ReportPage.jsx:57 | one more for the key; a new key goes last; every other count is kept; the total grows by one |
| Report.Distribution | frontend/src/Pages/ReportPage.jsx:56-59 | keys exactly the industries that occur, each once. Each count is that industry's number of businesses, and the counts sum to the total |
| Report.BumpStatus | frontend/src/Pages/ReportPage.jsx:61-67 | the industry's breakdown gets one more for the status; others are kept |
| Report.BreakdownOf | frontend/src/Pages/ReportPage.jsx:61-67 | the breakdown has the same keys, in the same order, as the distribution |
| Report.CountEqAppend | frontend/src/Pages/ReportPage.jsx:61-67 | counting over a list with one more entry |
| Report.TickExpected | frontend/src/Pages/ReportPage.jsx:65 | one status tick adds that status to the expected counts |
| Report.BreakdownCounts | frontend/src/Pages/ReportPage.jsx:61-67 | an industry's breakdown counts each known status among its businesses. An unknown status shows up as an extra key |
| Report.StatusesInLength | frontend/src/Pages/ReportPage.jsx:56-67 | an industry's status list is as long as its distribution count |
| Report.StatusesInKnown | frontend/src/Pages/ReportPage.jsx:61-67 | when every status is known, so is every status of each industry |
| Report.BreakdownMatchesDistribution | frontend/src/Pages/ReportPage.jsx:56-67 | with only known statuses, each industry's breakdown sums to its distribution count |
| Report.GenerateReportData | frontend/src/Pages/ReportPage.jsx:49-77 | the total is the length; each status count is the number with exactly that status; counts sum to at most the total; the distribution sums to the total |
| Report.LargestIndex | frontend/src/Pages/ReportPage.jsx:204-208 | the reduce picks a maximal count, the later key on a tie |
| Report.LargestSector | frontend/src/Pages/ReportPage.jsx:204-208 | there is no sector iff the distribution is empty (the reduce throws); otherwise the key has a maximal count |
| Report.Insert | frontend/src/Pages/ReportPage.jsx:251-253 | inserting into a list sorted by descending count keeps it sorted and adds exactly the new entry (as a multiset); no entry exceeds the larger of the new entry and the old head |
| Report.Rank | frontend/src/Pages/ReportPage.jsx:251-253 | sorted by descending count, and a permutation of the keys |
| Report.SecondRanked | frontend/src/Pages/ReportPage.jsx:250-256 | a second sector is named iff there is more than one industry; with distinct keys its count is the largest count once the largest sector's entry is set aside |
| Report.BumpKeepsDistinct | frontend/src/Pages/ReportPage.jsx:57 | counting one more business never repeats a key |
| Report.DistinctNoRepeat | frontend/src/Pages/ReportPage.jsx:204 | with distinct keys no entry occurs twice |
| Report.LookupEntry | frontend/src/Pages/ReportPage.jsx:204 | with distinct keys, an entry's key looks up that entry's count |
| Report.SortedSecondIsRunnerUpCount | frontend/src/Pages/ReportPage.jsx:251-253 | in any ordering by decreasing count, the entry at index 1 counts as much as the largest entry other than the largest sector's |
| Report.RankSecondIsRunnerUpCount | frontend/src/Pages/ReportPage.jsx:251-253 | the sort's entry at index 1, looked up by key, has the runner-up's count |
| Report.SecondRankedTiesRunnerUp | frontend/src/Pages/ReportPage.jsx:250-256 | the page's second sector and the intended runner-up have the same count; they differ at most in which tied sector is named |
| Report.TiedSectorsNamedTwice | frontend/src/Pages/ReportPage.jsx:204-256 | with two industries tied, the dominant sector and the "second" sector are the same industry |
| Report.RunnerUp | frontend/src/Pages/ReportPage.jsx:250-256 | the runner-up differs from the largest sector and is maximal among the others |
| Report.LargestExcept | frontend/src/Pages/ReportPage.jsx:250-256 | an entry other than the skipped one that is at least as large as every other such entry; none only when the skipped entry is the only one |
| Report.TiedSectorsNamedOnce | frontend/src/Pages/ReportPage.jsx:250-256 | with two industries tied, the runner-up is the other industry |
| Dashboard.Summarize | frontend/src/Pages/DashPage.jsx:45-68 | each total is a list length and each status figure the number with exactly that status; status figures sum to at most their total |
| Dashboard.FirstFailure | frontend/src/Pages/DashPage.jsx:42-86 | every request before it succeeded, and the one at it failed |
| Dashboard.DashPage.constructor | frontend/src/Pages/DashPage.jsx:10-25 | zeros, loading, no error |
| Dashboard.DashPage.Fail | frontend/src/Pages/DashPage.jsx:84-92 | the figures are kept, the error is set, 401/403 log out, loading ends |
| Dashboard.DashPage.FetchDashboardData | frontend/src/Pages/DashPage.jsx:27-93 | while authentication loads: nothing, still loading. With no user: to /login. Otherwise requests up to the first failure; the figures are replaced only when all five succeed, and any failure sets the error |
| Dashboard.ForbiddenInvestibles | frontend/src/Pages/DashPage.jsx:42-89 | a 403 on the third request: two requests before it, none after, zeros kept, logged out |
| Search.Render | frontend/src/Pages/UserPage.jsx:120 | a template literal renders a string as itself and a missing property as "undefined" |
| Search.Filter | frontend/src/Pages/UserPage.jsx:118-122 | every kept row is a row of the table that matches, and every matching row is kept |
| Search.FilterSingle | frontend/src/Pages/UserPage.jsx:118-122 | a single row is kept exactly when its lower-cased text includes the lower-cased search |
| Search.FilterConcat | frontend/src/Pages/UserPage.jsx:118-122 | filtering a concatenation concatenates the filtered parts, so the kept rows stay in table order |
| Search.AllMatchKeepsAll | front-end/src/Pages/InvestiblePage.jsx:109-113 | when every row matches, the list is kept as it is |
| Search.EmptySearchKeepsAll | front-end/src/Pages/BusinessPage.jsx:105-109 | an empty search keeps every row |
| AdminPages.SearchBusinesses | front-end/src/Pages/BusinessPage.jsx:105-109 | on the loaded business page a row is shown exactly when its rendered id, name, address and industry contain the search (case-folded), only loaded rows are shown, and clearing the search shows every row again in order |
| Search.LowerTwice | frontend/src/Pages/UserPage.jsx:121 | lower-casing is idempotent |
| Search.SearchIgnoresCase | frontend/src/Pages/UserPage.jsx:121 | a search and its lower-cased form keep the same rows |
| Search.UserWithoutIdMatchesUndefined | frontend/src/Pages/UserPage.jsx:118-122 | a user object without `id` matches any part of "undefined" |
| SubmitErrors.Flatten | frontend/src/Pages/UserPage.jsx:109 | `flat()` contains every string and every list element |
| SubmitErrors.ErrorMessage | frontend/src/Pages/UserPage.jsx:94-113 | 405, then 401/403, then a truthy `detail`, then the values joined with ", ", then a string body, else the default text |
| SubmitErrors.JoinIncludesParts | frontend/src/Pages/UserPage.jsx:109 | every part of a joined list is in the joined text |
| SubmitErrors.FieldErrorsAllShown | front-end/src/Pages/BusinessPage.jsx:82-101 | a validation error object without `detail` shows every one of its messages |
| SubmitErrors.AuthFailureIgnoresBody | front-end/src/Pages/InvestiblePage.jsx:87-105 | a 401 or 403 gives the same message whatever the body, and logs out |
| AdminPages.UserRequest | frontend/src/Pages/UserPage.jsx:83-91 | PATCH `users/update/<id>/` iff editing, else POST `users/create/`, with the form as it is |
| AdminPages.InvestibleRequest | front-end/src/Pages/InvestiblePage.jsx:71-81 | a PUT with the defaulted body iff an investible is being edited |
| AdminPages.BusinessRequest | front-end/src/Pages/BusinessPage.jsx:71-77 | a PUT iff a business is being edited: name, address and industry from the form, and the business's own status |
| AdminPages.StatusDisplay | frontend/src/Pages/UserPage.jsx:124-127 | a label exists iff the status is 'active' or 'archive' |
| AdminPages.StoredUserStatusesDisplay | frontend/src/Pages/UserPage.jsx:124-127 | 'online' and 'offline' display nothing |
| AdminPages.ListPage.constructor | frontend/src/Pages/UserPage.jsx:11-17 | the pages' initial state |
| AdminPages.ListPage.TypeSearch | frontend/src/Pages/UserPage.jsx:138 | only the search text changes |
| AdminPages.ListPage.Fetch | frontend/src/Pages/UserPage.jsx:19-61 | while authentication loads: nothing. With no user: /login. Otherwise one GET; its rows replace the list, or its failure is reported and a 401/403 logs out |
| AdminPages.ListPage.Add | frontend/src/Pages/UserPage.jsx:63-67 | the modal opens on a new row with no error |
| AdminPages.ListPage.Edit | frontend/src/Pages/UserPage.jsx:69-73 | the modal opens on the row with no error |
| AdminPages.ListPage.CloseModal | frontend/src/Pages/UserPage.jsx:212-216 | the modal closes and the submit error clears |
| AdminPages.ListPage.Submit | frontend/src/Pages/UserPage.jsx:75-116 | with no user, only /login. Otherwise the request (if any) is sent; success or no request refetches and closes. A failure keeps the modal open with its message, and 401/403 log out |
| AdminPages.EditInvestibleFromPage | front-end/src/Pages/InvestiblePage.jsx:61-84 | were the handler reached, the page's PUT would reset the status to 'available' and the description to 'Investible property'. The page passes no `defaultValues`, so its modal empties every field on each render and never reaches it |
| AdminPages.EditUserWithoutId | frontend/src/Pages/UserPage.jsx:85-86 | a user without `id` is PATCHed at `users/update/undefined/` |
| AdminPages.RejectedBusinessEdit | front-end/src/Pages/BusinessPage.jsx:61-103 | a 400 validation error (a blank name, and an industry outside the serializer's choices, reported as `"<value>" is not a valid choice.`) keeps the modal open with the field messages joined by ", ", and nothing is refetched |
| AdminPages.TwoFieldErrorsJoined | front-end/src/Pages/BusinessPage.jsx:82-101 | a body of two per-field error lists with no `detail` is shown as the first message, ", ", then the second |
| InvestorBounds.FirstPolygonal | frontend_investor/src/MapAPI/Map.jsx:150 | the first feature whose geometry is present and polygonal; None iff there is none |
| InvestorBounds.Flat | frontend_investor/src/MapAPI/Map.jsx:154-156 | the flattened list contains every ring of every polygon |
| InvestorBounds.FirstNonEmpty | frontend_investor/src/MapAPI/Map.jsx:154-158 | the first polygon with a ring; every one before it is empty |
| InvestorBounds.FlatHead | frontend_investor/src/MapAPI/Map.jsx:154-158 | `coords[0]` after flattening is the first ring of the first polygon that has one; the list is empty iff no polygon has a ring |
| InvestorBounds.FirstRing | frontend_investor/src/MapAPI/Map.jsx:152-158 | a Polygon's outer ring, or a MultiPolygon's first ring after flattening; undefined iff there is none |
| InvestorBounds.Swap | frontend_investor/src/MapAPI/Map.jsx:159 | each [lng, lat] becomes [lat, lng], keeping length and order |
| InvestorBounds.SwapRoundTrip | frontend_investor/src/MapAPI/Map.jsx:159 | for two-number positions, swapping back gives the ring |
| InvestorBounds.ExtractBounds | frontend_investor/src/MapAPI/Map.jsx:148-161 | no bounds iff no polygonal feature; a throw iff that feature has no first ring; otherwise the swapped first ring |
| InvestorBounds.InvestorMap.constructor | frontend_investor/src/MapAPI/Map.jsx:142 | bounds start null |
| InvestorBounds.InvestorMap.LoadBounds | frontend_investor/src/MapAPI/Map.jsx:145-162 | bounds are set only when a first ring was found; otherwise they keep their value |
| InvestorBounds.MountWithoutRing | frontend_investor/src/MapAPI/Map.jsx:142-151 | with no polygonal feature or no ring, the map ends with no bounds |
| InvestorBounds.EmptyFirstPolygonSkipped | frontend_investor/src/MapAPI/Map.jsx:154-159 | a MultiPolygon whose first polygon has no ring gives the next polygon's outer ring |

## Left out

- Leaflet itself:
  - Layer removal is modelled as set difference on the feature group.
  - `setIcon(undefined)` on a layer that is on the map throws in Leaflet's icon set-up. The model records the throw (`SubmitStart` returns `threw`) and the icon as `None`; Leaflet's own state after the throw is not modelled.
- The remote calls, `Date.now()`, the GeoJSON fetch and the serializer are inputs:
  - the outcome of every request, the clock and the fetched features are parameters;
  - whether a Django serializer accepts its data is a boolean parameter;
  - the URL routing in `urls.py` is not part of this model.
- GeoJSON hover highlighting, `LockedGeoJSONLayer`, `DrawingTools` gesture wiring, the full-screen control, and the popups with areas and radii are left out. They are UI decoration or foreign-library events. The drawing outcome is modelled by `DrawMarker`.
- Floating point:
  - coordinates are opaque `real` values that are moved, never computed on;
  - the report's `toFixed` percentages are not modelled.
- The report's text rendering (capitalising the first letter of a sector name) is not modelled; only which sector is named is.
- Report.Rank: states sortedness and permutation but not the stability of JavaScript's sort; `Insert` does place a tie after the earlier key.
- Report.Keys: `Object.keys` puts integer-like keys first in ascending order. The model keeps plain insertion order, which is what industry names give.
- SubmitErrors.ErrorMessage: a nested object inside an error body is not modelled. `Object.values(...).flat()` would render it as "[object Object]".
- The report page's fetch has the same guards as the dashboard's and is not modelled separately.
- `backend/api/models.py` defines no `Marker` and no `Report` class, yet `backend/api/views.py:7` and `backend/api/serializers.py:2` import both, so as written that module fails at import. BackendViews and BackendStore assume those two models exist, with the fields `backend/imbds/api/models.py` gives them.
- AdminMap.MapModel.SubmitStart: `icons.js` exports `businessIcons` only (line 41), yet `Map.jsx:14` imports `investibleIcon` from it. Under ES modules that import is a link error and the map module never loads; the model assumes it loads with `investibleIcon` undefined.
- Js.Lower: folds the ASCII letters A-Z only, where `toLowerCase` also folds other letters ("É" to "é"). For text with such letters the model can keep fewer rows than the page.
- Search.Filter: matches through Js.Lower, so it inherits the ASCII-only folding.
- Search.SearchIgnoresCase: proved for ASCII case only, for the same reason.
- BackendViews.CreateWithRequired: a 400 for data the serializer refuses is the single body `InvalidData`. In the source, create_business and create_user wrap the serializer errors as `{'error': 'Invalid data.', 'details': …}` (views.py:212, :295), while create_investible returns the bare serializer errors (views.py:376). The model does not tell these two bodies apart, nor does it model the serializer errors themselves.
- AdminPages.RejectedBusinessEdit: `BusinessSerializer` declares `industry` as a choice field over `Business.INDUSTRY_CHOICES` (serializers.py:22), which `backend/api/models.py` does not define (`backend/imbds/api/models.py:33` does). The scenario assumes the choices exist and that the server refused the given industry value.
- Search.LowerTwice: idempotence of the ASCII-only folding, which `toLowerCase` also has.
- Icons.Resolve: models a lookup in the table's own keys. `businessIcons[key]` also finds inherited properties, so an industry named "constructor" or "toString" resolves to a function, not the default icon.
- Login, logout, token refresh, the authentication context, the user modal, and the layouts and routers are not part of this model.
- Concurrency between handlers is modelled only in the orders the scenario methods call them.

## Findings

| source | as written | input that shows it | evidently intended | confidence | as-written member | corrected member |
|---|---|---|---|---|---|---|
| frontend/src/Pages/ReportPage.jsx:204-256 | the largest sector (a reduce, ties to the later key) and the second sector (a stable sort, ties keep the earlier key first, index 1) are chosen by different tie rules | the distribution {mall: 1, school: 1} names "school" as dominant and "school" as second | the second sector is a different industry from the dominant one | not executed | Report.TiedSectorsNamedTwice | Report.RunnerUp |
| backend/imbds/api/views.py:145-152 | `delete_investibles` looks up `User` by `investible_id`, a field `User` does not have, so Django raises FieldError (500) for every id | any id | 400 for an unknown investible, else delete it and answer 200, as `backend/api/views.py:395-403` does | not executed | BackendStore.Store.DeleteInvestiblesAsWritten | BackendStore.Store.DeleteInvestibles |
| backend/api/views.py:142-143 | `update` passes `partial=True` on top of `**kwargs` (in both viewsets of this module, the second copy at lines 248-249, and a third time in `backend/imbds/api/views.py` at lines 17-18); DRF's `partial_update` already puts `partial` in kwargs | any PATCH to the marker or investible viewset | PATCH and PUT both become partial updates | not executed | BackendViews.PatchRaisesTypeError | BackendViews.EveryUpdateIsPartial |
