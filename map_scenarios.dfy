/**
 * Whole interactions with the admin map, from a freshly mounted component:
 * the handlers of `AdminMap` and the modals of `FormModal` and `EditModal`
 * called in the order the browser calls them.
 */
module MapScenarios {
  import opened Wrappers
  import opened Icons
  import opened MarkerData
  import opened MarkerList
  import opened AdminMap
  import FM = FormModal
  import EM = EditModal

  /**
   * Drawing a marker and saving it as a business through the form. Confirm &
   * Save calls `onSubmit` and then `onClose` without waiting, so the close
   * handler removes the drafted layer while the requests are in flight; the
   * server's id is bound afterwards on a layer no longer in the feature group,
   * and the marker is shown from `savedMarkers` alone.
   */
  method CreateBusiness(lat: real, lng: real, name: string, address: string, industry: string,
                        businessId: int, created: MarkerRecord, now: nat)
    returns (first: ApiCall, second: Option<ApiCall>, saved: seq<MarkerRecord>, groupSize: nat,
             boundId: Option<MarkerId>, formCalls: seq<FM.Callback>)
    requires name != "" && address != "" && industry != ""
    ensures formCalls == [FM.OnSubmit(ThreeFields(name, address, industry)), FM.OnClose]
    ensures first == PostBusiness(BusinessBody(Some(name), Some(address), Some(industry)))
    ensures second == Some(PostMarker(MarkerBody(Some(name), lat, lng, Some(businessId), None)))
    ensures saved == [created]
    ensures groupSize == 0
    ensures boundId == Some(created.markerId)
  {
    var m := new MapModel();
    var layer := m.DrawMarker(lat, lng);
    m.Select(BusinessKind);
    var industryCalls, none;
    industryCalls, none, formCalls := FM.FillAndSave(m.selectedIndustry, name, address, industry);
    m.ModalIndustryChange(industryCalls[0].industry);
    var req, threw := m.SubmitStart(formCalls[0].values);
    m.FormClose();
    first := req.value.request;
    second := m.SubmitFinish(req.value, Created(businessId, created), now);
    saved := m.savedMarkers;
    groupSize := |m.drawn|;
    boundId := layer.markerId;
  }

  /**
   * Saving an investible through the three-field form: the drafted layer's
   * icon is set to `undefined` and Leaflet throws before any request, so no
   * POST goes out and no record is kept. The form calls `onClose` anyway,
   * and that removes the still unsaved layer from the feature group.
   */
  method CreateInvestibleThrows(lat: real, lng: real, name: string, address: string, industry: string)
    returns (threw: bool, request: Option<PendingCreate>, saved: seq<MarkerRecord>, inGroup: bool, icon: Option<Icon>)
    requires name != "" && address != "" && industry != ""
    ensures threw && request.None?
    ensures saved == [] && !inGroup && icon.None?
  {
    var m := new MapModel();
    var layer := m.DrawMarker(lat, lng);
    m.Select(InvestibleKind);
    var industryCalls, none, formCalls := FM.FillAndSave(m.selectedIndustry, name, address, industry);
    m.ModalIndustryChange(industry);
    request, threw := m.SubmitStart(formCalls[0].values);
    assert m.DraftLayer() == Some(layer) && layer.markerId.None?;
    m.FormClose();
    saved := m.savedMarkers;
    inGroup := layer in m.drawn;
    icon := layer.icon;
  }

  /**
   * A create that succeeds after the user has drawn a second marker: the
   * success path clears `newMarker` and `pendingDelete`, which now belong to
   * the second draft. Its submit then stops at the guard without a request,
   * and closing the form cannot find the layer, which stays in the feature
   * group with no marker id.
   */
  method LateSuccessStrandsNextDraft(first: MarkerRecord, now: nat)
    returns (secondRequest: Option<PendingCreate>, saved: seq<MarkerRecord>, stranded: bool, strandedId: Option<MarkerId>)
    ensures secondRequest.None?
    ensures saved == [first]
    ensures stranded && strandedId.None?
  {
    var m := new MapModel();
    var a := m.DrawMarker(1.0, 1.0);
    m.Select(BusinessKind);
    var reqA, threwA := m.SubmitStart(ThreeFields("A", "Street A", "school"));
    assert reqA.Some? && reqA.value.draft.layer == a;
    m.FormClose();
    assert m.savedMarkers == [];
    var b := m.DrawMarker(2.0, 2.0);
    assert b != a && b in m.drawn;
    var call := m.SubmitFinish(reqA.value, Created(7, first), now);
    assert m.newMarker.None? && m.savedMarkers == [first];
    assert b in m.drawn && b.markerId.None?;
    m.Select(BusinessKind);
    var threwB;
    secondRequest, threwB := m.SubmitStart(ThreeFields("B", "Street B", "office"));
    assert m.DraftLayer().None?;
    m.FormClose();
    saved := m.savedMarkers;
    stranded := b in m.drawn;
    strandedId := b.markerId;
  }

  /** Switching delete mode on and cancelling the warning turns it off again; confirming keeps it on. */
  method DeleteModeWarning() returns (afterCancel: bool, afterConfirm: bool, warningShown: bool)
    ensures !afterCancel && afterConfirm && warningShown
  {
    var m := new MapModel();
    m.ToggleDeleteMode();
    warningShown := m.warningOpen;
    m.WarningCancel();
    afterCancel := m.deleteMode;
    m.ToggleDeleteMode();
    m.WarningConfirm();
    afterConfirm := m.deleteMode;
  }

  /**
   * In delete mode a click on a saved marker asks for confirmation, and
   * confirming deletes it through the API: its record is gone. A marker id of
   * 0 is falsy, so that marker would only have its layer removed locally.
   */
  method DeleteSavedMarker(rec: MarkerRecord, target: Layer, succeeds: bool)
    returns (call: Option<ApiCall>, saved: seq<MarkerRecord>, pending: Option<PendingDelete>)
    ensures rec.markerId.Truthy() ==> call == Some(DeleteMarker(rec.markerId))
    ensures rec.markerId.Truthy() && succeeds ==> saved == []
    ensures rec.markerId.Truthy() && !succeeds ==> saved == [rec]
    ensures !rec.markerId.Truthy() ==> call.None? && saved == [rec]
    ensures pending.None?
  {
    var m := new MapModel();
    var get := m.RefreshStart();
    m.RefreshFinish(Some([rec]));
    m.ToggleDeleteMode();
    m.WarningConfirm();
    m.RenderedMarkerClick(rec, target);
    call := m.DeleteConfirm(succeeds);
    saved := m.savedMarkers;
    pending := m.pendingDelete;
  }

  /**
   * A drawn layer keeps the delete mode of the moment it was drawn: a layer
   * drawn while delete mode was off ignores clicks after it is switched on,
   * and stays; a layer drawn after it is on asks for confirmation.
   */
  method StaleDeleteModeOnDrawnLayer()
    returns (earlierAsks: bool, earlierStays: bool, laterAsks: bool)
    ensures !earlierAsks && earlierStays && laterAsks
  {
    var m := new MapModel();
    var b := m.DrawMarker(2.0, 2.0);
    m.ToggleDeleteMode();
    m.WarningConfirm();
    m.DrawnLayerClick(b);
    earlierAsks := m.deleteModalOpen;
    earlierStays := b in m.drawn;
    var c := m.DrawMarker(3.0, 3.0);
    m.DrawnLayerClick(c);
    laterAsks := m.deleteModalOpen;
  }

  /**
   * Editing from the side panel. The map hands the modal `markerToEdit`, not
   * `defaultValues`, so the prop defaults to a new empty object at every
   * render and the prefill effect empties the fields again after each
   * keystroke. Save Changes is then blocked by the required inputs: the
   * submit handler never runs, no request goes out, the record is unchanged
   * and the edit modal stays open.
   */
  method EditFromSidePanel(rec: MarkerRecord, name: string, address: string)
    returns (labelAfterRender: string, submitted: seq<EM.Callback>, saved: seq<MarkerRecord>, editOpen: bool)
    ensures labelAfterRender == ""
    ensures submitted == [] && saved == [rec] && editOpen
  {
    var m := new MapModel();
    m.RefreshFinish(Some([rec]));
    var target := new Layer(rec.lat, rec.lng, false);
    m.RenderedMarkerClick(rec, target);
    m.EditClick(rec);
    var modal := new EM.EditForm(None);
    modal.PrefillEffect(m.editModalOpen, map[]);
    modal.TypeLabel(name);
    modal.TypeLocation(address);
    labelAfterRender := modal.labelText;
    submitted := modal.Submit();
    saved := m.savedMarkers;
    editOpen := m.editModalOpen;
  }

  /**
   * A temporary record kept after a failed create carries a truthy string id,
   * so deleting it sends `DELETE markers/temp-…/`; when the server refuses,
   * the record stays.
   */
  method DeleteTemporaryMarker(now: nat, target: Layer)
    returns (call: Option<ApiCall>, remaining: nat)
    ensures call == Some(DeleteMarker(TempIdAt(now)))
    ensures remaining == 1
  {
    var m := new MapModel();
    var layer := m.DrawMarker(0.5, 0.5);
    m.Select(BusinessKind);
    var req, threw := m.SubmitStart(ThreeFields("Shop", "Road", "mall"));
    m.FormClose();
    var markerCall := m.SubmitFinish(req.value, EntityFailed, now);
    m.ToggleDeleteMode();
    m.WarningConfirm();
    m.RenderedMarkerClick(m.savedMarkers[0], target);
    call := m.DeleteConfirm(false);
    remaining := |m.savedMarkers|;
  }
}
