/**
 * The admin Map component: its state (`savedMarkers`, the drafted marker, the
 * pending delete, the modal and mode flags) and its event handlers, together
 * with the Leaflet layers the user draws into the feature group.
 *
 * An async handler runs synchronously up to its first `await`; the model
 * splits such a handler where another handler can run in between, and takes
 * the outcome of each remote call as a parameter.
 */
module AdminMap {
  import opened Wrappers
  import opened Js
  import opened Icons
  import opened MarkerData
  import opened MarkerList

  /** A marker layer drawn with the drawing tools. */
  class Layer {
    /** `layer.options.markerId`: unset until a create binds an id. */
    var markerId: Option<MarkerId>
    /** The icon last given to `setIcon`; None is the undefined `investibleIcon`. */
    var icon: Option<Icon>
    const lat: real
    const lng: real
    /** The `deleteMode` the click handler closed over when the layer was drawn. */
    const clickDeletes: bool

    /** A layer as the create handler leaves it: no marker id and the default icon. */
    constructor (lat: real, lng: real, clickDeletes: bool)
      ensures this.lat == lat && this.lng == lng && this.clickDeletes == clickDeletes
      ensures markerId == None && icon == Some(DefaultIcon())
    {
      this.lat := lat;
      this.lng := lng;
      this.clickDeletes := clickDeletes;
      markerId := None;
      icon := Some(DefaultIcon());
    }
  }

  /** `!layer.options?.markerId`: the layer has not been bound to a marker. */
  predicate Unsaved(l: Layer)
    reads l
  {
    !(l.markerId.Some? && l.markerId.value.Truthy())
  }

  /** The drafted marker: its position and its layer (`newMarker`). */
  datatype Draft = Draft(lat: real, lng: real, layer: Layer)

  /** The marker a delete confirmation is about (`pendingDelete`). */
  datatype PendingDelete = PendingDelete(markerId: Option<MarkerId>, layer: Option<Layer>)
  {
    /** Confirming goes through the API: the marker id is truthy. */
    predicate DeletesRemotely() {
      markerId.Some? && markerId.value.Truthy()
    }

    /** The layer removed locally otherwise, if any. */
    function LayerSet(): set<Layer> {
      if layer.Some? then {layer.value} else {}
    }
  }

  /** A create whose first request has been sent: what the submit handler closed over. */
  datatype PendingCreate = PendingCreate(kind: Kind, form: FormData, draft: Draft, request: ApiCall)

  /** How a create's requests end. */
  datatype CreateOutcome =
    | Created(entityId: int, record: MarkerRecord)  // both POSTs succeed
    | EntityFailed                                  // the business or investible POST fails
    | MarkerFailed(entityId: int)                   // the marker POST fails

  /** The icon the saved-markers effect gives a record's layer. */
  function RecordIcon(m: MarkerRecord): Icon {
    ResolveOpt(if m.business.Some? then m.business.value.industry else None)
  }

  /** The icon the saved-markers effect last sets on layers carrying `id`, if any record sets one. */
  function EffectIcon(saved: seq<MarkerRecord>, id: MarkerId): Option<Icon> {
    if saved == [] then None
    else
      var m := saved[|saved| - 1];
      if m.markerId.Truthy() && m.markerId == id then Some(RecordIcon(m)) else EffectIcon(saved[..|saved| - 1], id)
  }

  /** A layer's icon after the saved-markers effect, given its marker id and its icon before. */
  function EffectResult(saved: seq<MarkerRecord>, markerId: Option<MarkerId>, before: Option<Icon>): Option<Icon> {
    if markerId.Some? && EffectIcon(saved, markerId.value).Some? then EffectIcon(saved, markerId.value) else before
  }

  /**
   * The effect restyles the layers bound to `id` exactly when some record
   * carries that (truthy) id, and the icon they end with is the one of the
   * last such record in the list.
   */
  lemma {:induction false} EffectIconIsLastRecord(saved: seq<MarkerRecord>, id: MarkerId, k: nat)
    requires k < |saved| && saved[k].markerId == id && id.Truthy()
    requires forall j | k < j < |saved| :: saved[j].markerId != id
    ensures EffectIcon(saved, id) == Some(RecordIcon(saved[k]))
  {
    if k < |saved| - 1 {
      var init := saved[..|saved| - 1];
      assert forall j | k < j < |init| :: init[j] == saved[j];
      EffectIconIsLastRecord(init, id, k);
    }
  }

  /** No record with the id, or an id that is not truthy: the effect leaves those layers' icons alone. */
  lemma {:induction false} EffectIconAbsent(saved: seq<MarkerRecord>, id: MarkerId)
    requires !id.Truthy() || forall j | 0 <= j < |saved| :: saved[j].markerId != id
    ensures EffectIcon(saved, id).None?
    ensures forall before :: EffectResult(saved, Some(id), before) == before
  {
    if saved != [] {
      var init := saved[..|saved| - 1];
      assert forall j | 0 <= j < |init| :: init[j] == saved[j];
      EffectIconAbsent(init, id);
    }
  }

  /** Records without a nested business (investible markers) give their layers the default icon. */
  lemma InvestibleRecordIcon(m: MarkerRecord)
    requires m.business.None?
    ensures RecordIcon(m) == DefaultIcon()
  {
    UnlistedIndustriesFallBack();
  }

  /** The feature group without `layer` when that layer is unsaved. */
  function DropIfUnsaved(drawn: set<Layer>, layer: Option<Layer>): set<Layer>
    reads if layer.Some? then {layer.value} else {}
  {
    if layer.Some? && Unsaved(layer.value) then drawn - {layer.value} else drawn
  }

  /** The layers left in the feature group once those bound to `id` are removed. */
  function Unbound(drawn: set<Layer>, id: MarkerId): set<Layer>
    reads drawn
  {
    set l | l in drawn && l.markerId != Some(id)
  }

  /**
   * The `eachLayer` walk of `handleMarkerDelete`: each layer bound to `id`
   * is removed from the group, every other layer stays.
   */
  method RemoveBound(drawn: set<Layer>, id: MarkerId) returns (kept: set<Layer>)
    ensures kept <= drawn
    ensures forall l | l in drawn :: l in kept <==> l.markerId != Some(id)
  {
    var todo := drawn;
    kept := drawn;
    while todo != {}
      invariant todo <= drawn && kept <= drawn
      invariant forall l | l in drawn :: l in kept <==> (l in todo || l.markerId != Some(id))
      decreases todo
    {
      var l :| l in todo;
      if l.markerId == Some(id) {
        kept := kept - {l};
      }
      todo := todo - {l};
    }
  }

  /** The temporary id of a record created while offline: `temp-${Date.now()}`. */
  function TempIdAt(now: nat): (id: MarkerId)
    ensures id.TempId? && |id.text| > 5 && id.text[..5] == "temp-"
    ensures forall i :: 5 <= i < |id.text| ==> '0' <= id.text[i] <= '9'
    ensures id.Truthy()
  {
    TempId("temp-" + Decimal(now))
  }

  /** The marker POST that follows a successful business or investible POST. */
  function MarkerPost(req: PendingCreate, entityId: int): (call: ApiCall)
    ensures call.PostMarker?
    ensures call.marker.lat == req.draft.lat && call.marker.lng == req.draft.lng
    ensures req.kind == BusinessKind ==> call.marker.businessId == Some(entityId) && call.marker.investibleId.None?
                                         && call.marker.labelText == req.form.labelText
    ensures req.kind == InvestibleKind ==> call.marker.investibleId == Some(entityId) && call.marker.businessId.None?
                                           && call.marker.labelText == Some("Investible")
  {
    match req.kind
    case BusinessKind => PostMarker(MarkerBody(req.form.labelText, req.draft.lat, req.draft.lng, Some(entityId), None))
    case InvestibleKind => PostMarker(MarkerBody(Some("Investible"), req.draft.lat, req.draft.lng, None, Some(entityId)))
  }

  /** The record the submit handler keeps when a request fails. */
  function FallbackRecord(req: PendingCreate, now: nat): (r: MarkerRecord)
    ensures r.markerId == TempIdAt(now)
    ensures r.lat == req.draft.lat && r.lng == req.draft.lng
    ensures r.invst.None?
    ensures r.business.Some? <==> req.kind == BusinessKind
    ensures r.investible.Some? <==> req.kind == InvestibleKind
    ensures req.kind == BusinessKind ==>
              r.labelText == req.form.labelText && r.business.value == Business(None, req.form.labelText, req.form.location, req.form.industry)
    ensures req.kind == InvestibleKind ==>
              r.labelText == Some("Investible")
              && r.investible.value.description == req.form.preferredBusiness
              && r.investible.value.status == Some(OrElse(req.form.status, "available"))
              && r.investible.value.location == req.form.location
  {
    var f := req.form;
    match req.kind
    case BusinessKind =>
      MarkerRecord(TempIdAt(now), f.labelText, req.draft.lat, req.draft.lng,
                   Some(Business(None, f.labelText, f.location, f.industry)), None, None)
    case InvestibleKind =>
      MarkerRecord(TempIdAt(now), Some("Investible"), req.draft.lat, req.draft.lng, None,
                   Some(Investible(None, f.location, f.preferredBusiness, f.area, f.preferredBusiness, f.landmark,
                                   f.contactPerson, f.contactNumber, Some(OrElse(f.status, "available")))),
                   None)
  }

  /** The edited record of a business marker: new label, and the business spread with the form's fields. */
  function EditedBusiness(m: MarkerRecord, form: FormData): MarkerRecord {
    var id := if m.business.Some? then m.business.value.businessId else None;
    m.(labelText := form.labelText, business := Some(Business(id, form.labelText, form.location, form.industry)))
  }

  /** The edited record of an investible marker: new label, and `investible` spread with the form's fields. */
  function EditedInvestible(m: MarkerRecord, form: FormData): MarkerRecord {
    var id := if m.investible.Some? then m.investible.value.investibleId else None;
    m.(labelText := form.labelText,
       investible := Some(Investible(id, form.location, form.preferredBusiness, form.area, form.preferredBusiness,
                                     form.landmark, form.contactPerson, form.contactNumber,
                                     Some(OrElse(form.status, "available")))))
  }

  /** A dragged record at its new position. */
  function Moved(m: MarkerRecord, lat: real, lng: real): MarkerRecord {
    m.(lat := lat, lng := lng)
  }

  /** `markerToEdit.investible?.investible_id || markerToEdit.invst?.investible_id`. */
  function InvestibleIdOf(m: MarkerRecord): Option<int> {
    OrElseInt(if m.investible.Some? then m.investible.value.investibleId else None,
              if m.invst.Some? then m.invst.value.investibleId else None)
  }

  /** The edit goes down the business branch. */
  predicate EditsBusiness(form: FormData, m: MarkerRecord) {
    form.markerType == Some("business") && m.business.Some? && TruthyInt(m.business.value.businessId)
  }

  /** The edit goes down the investible branch. */
  predicate EditsInvestible(form: FormData, m: MarkerRecord) {
    !EditsBusiness(form, m) && form.markerType == Some("investible") && TruthyInt(InvestibleIdOf(m))
  }

  /** The component state, for stating what a handler leaves alone. */
  datatype State = State(
    savedMarkers: seq<MarkerRecord>,
    drawn: set<Layer>,
    newMarker: Option<Draft>,
    pendingDelete: Option<PendingDelete>,
    selectedIndustry: string,
    markerType: Option<Kind>,
    selectionOpen: bool,
    modalOpen: bool,
    deleteMode: bool,
    warningOpen: bool,
    deleteModalOpen: bool,
    editModalOpen: bool,
    markerToEdit: Option<MarkerRecord>,
    selectedMarker: Option<MarkerRecord>,
    isLoading: bool)

  class MapModel {
    var savedMarkers: seq<MarkerRecord>
    /** The layers of the user feature group. */
    var drawn: set<Layer>
    var newMarker: Option<Draft>
    var pendingDelete: Option<PendingDelete>
    var selectedIndustry: string
    var markerType: Option<Kind>
    var selectionOpen: bool
    var modalOpen: bool
    var deleteMode: bool
    var warningOpen: bool
    var deleteModalOpen: bool
    var editModalOpen: bool
    var markerToEdit: Option<MarkerRecord>
    var selectedMarker: Option<MarkerRecord>
    var isLoading: bool

    function Snapshot(): State
      reads this
    {
      State(savedMarkers, drawn, newMarker, pendingDelete, selectedIndustry, markerType, selectionOpen, modalOpen,
            deleteMode, warningOpen, deleteModalOpen, editModalOpen, markerToEdit, selectedMarker, isLoading)
    }

    /** `pendingDelete?.layer || newMarker?.layer`. */
    function DraftLayer(): Option<Layer>
      reads this
    {
      if pendingDelete.Some? && pendingDelete.value.layer.Some? then pendingDelete.value.layer
      else if newMarker.Some? then Some(newMarker.value.layer)
      else None
    }

    function DraftFrame(): set<Layer>
      reads this
    {
      if DraftLayer().Some? then {DraftLayer().value} else {}
    }

    /** The initial state of every `useState`. */
    constructor ()
      ensures Snapshot() == State([], {}, None, None, "", None, false, false, false, false, false, false, None, None, false)
    {
      savedMarkers := [];
      drawn := {};
      newMarker := None;
      pendingDelete := None;
      selectedIndustry := "";
      markerType := None;
      selectionOpen := false;
      modalOpen := false;
      deleteMode := false;
      warningOpen := false;
      deleteModalOpen := false;
      editModalOpen := false;
      markerToEdit := None;
      selectedMarker := None;
      isLoading := false;
    }

    /** `refreshMarkers` up to its request: the loading flag is raised. */
    method RefreshStart() returns (call: ApiCall)
      modifies this
      ensures call == GetMarkers
      ensures Snapshot() == old(Snapshot()).(isLoading := true)
    {
      isLoading := true;
      call := GetMarkers;
    }

    /** `refreshMarkers` after the response: the list is replaced on success, kept on failure, loading ends either way. */
    method RefreshFinish(response: Option<seq<MarkerRecord>>)
      modifies this
      ensures Snapshot() == old(Snapshot()).(savedMarkers := if response.Some? then response.value else old(savedMarkers),
                                            isLoading := false)
    {
      if response.Some? {
        savedMarkers := response.value;
      }
      isLoading := false;
    }

    /** `setLayerIconByMarkerId`: every drawn layer bound to `id` gets `icon`, the others keep theirs. */
    method SetLayerIconByMarkerId(id: MarkerId, icon: Option<Icon>)
      modifies drawn
      ensures forall l :: l in drawn ==> l.markerId == old(l.markerId)
      ensures forall l :: l in drawn ==> l.icon == (if l.markerId == Some(id) then icon else old(l.icon))
    {
      var todo := drawn;
      while todo != {}
        invariant todo <= drawn
        invariant forall l :: l in drawn ==> l.markerId == old(l.markerId)
        invariant forall l :: l in drawn ==> l.icon == (if l !in todo && l.markerId == Some(id) then icon else old(l.icon))
        decreases todo
      {
        var l :| l in todo;
        if l.markerId == Some(id) {
          l.icon := icon;
        }
        todo := todo - {l};
      }
    }

    /** The effect on `savedMarkers`: each record with a truthy id restyles the layers bound to it, in list order. */
    method SavedMarkersEffect()
      modifies drawn
      ensures forall l :: l in drawn ==> l.markerId == old(l.markerId)
      ensures forall l :: l in drawn ==> l.icon == EffectResult(savedMarkers, l.markerId, old(l.icon))
    {
      var i := 0;
      while i < |savedMarkers|
        invariant 0 <= i <= |savedMarkers|
        invariant forall l :: l in drawn ==> l.markerId == old(l.markerId)
        invariant forall l :: l in drawn ==> l.icon == EffectResult(savedMarkers[..i], l.markerId, old(l.icon))
      {
        var m := savedMarkers[i];
        assert savedMarkers[..i + 1][..i] == savedMarkers[..i];
        if m.markerId.Truthy() {
          SetLayerIconByMarkerId(m.markerId, Some(RecordIcon(m)));
        }
        i := i + 1;
      }
      assert savedMarkers[..i] == savedMarkers;
    }

    /** `handleNewMarker`: a fresh draft, with the default icon, and the type chooser open. */
    method HandleNewMarker(lat: real, lng: real, layer: Layer)
      modifies this, layer
      ensures Snapshot() == old(Snapshot()).(newMarker := Some(Draft(lat, lng, layer)),
                                            pendingDelete := Some(PendingDelete(None, Some(layer))),
                                            selectedIndustry := "", selectionOpen := true)
      ensures layer.icon == Some(DefaultIcon()) && layer.markerId == old(layer.markerId)
    {
      newMarker := Some(Draft(lat, lng, layer));
      pendingDelete := Some(PendingDelete(None, Some(layer)));
      selectedIndustry := "";
      layer.icon := Some(DefaultIcon());
      selectionOpen := true;
    }

    /**
     * Drawing a marker: the create handler adds a new layer to the feature
     * group, closes its click handler over the current delete mode, gives it
     * the default icon and hands it to `handleNewMarker`.
     */
    method DrawMarker(lat: real, lng: real) returns (layer: Layer)
      modifies this
      ensures fresh(layer)
      ensures layer.lat == lat && layer.lng == lng && layer.clickDeletes == old(deleteMode)
      ensures layer.markerId == None && layer.icon == Some(DefaultIcon())
      ensures Snapshot() == old(Snapshot()).(drawn := old(drawn) + {layer},
                                            newMarker := Some(Draft(lat, lng, layer)),
                                            pendingDelete := Some(PendingDelete(None, Some(layer))),
                                            selectedIndustry := "", selectionOpen := true)
    {
      layer := new Layer(lat, lng, deleteMode);
      drawn := drawn + {layer};
      HandleNewMarker(lat, lng, layer);
    }

    /** `handleSelectionBusiness` and `handleSelectionInvestible`. */
    method Select(kind: Kind)
      modifies this
      ensures Snapshot() == old(Snapshot()).(selectionOpen := false, markerType := Some(kind), modalOpen := true)
    {
      selectionOpen := false;
      markerType := Some(kind);
      modalOpen := true;
    }

    /** `handleSelectionCancel`: the drafted layer goes only if unsaved, and the draft is dropped. */
    method SelectionCancel()
      modifies this
      ensures Snapshot() == old(Snapshot()).(drawn := old(DropIfUnsaved(drawn, DraftLayer())),
                                            selectionOpen := false, newMarker := None, pendingDelete := None)
    {
      drawn := DropIfUnsaved(drawn, DraftLayer());
      selectionOpen := false;
      newMarker := None;
      pendingDelete := None;
    }

    /** The marker form's `onClose`: like cancelling the chooser, and the form's own state is cleared too. */
    method FormClose()
      modifies this
      ensures Snapshot() == old(Snapshot()).(drawn := old(DropIfUnsaved(drawn, DraftLayer())),
                                            modalOpen := false, newMarker := None, pendingDelete := None,
                                            selectedIndustry := "", markerType := None)
    {
      drawn := DropIfUnsaved(drawn, DraftLayer());
      ResetForm();
    }

    /** `handleModalIndustryChange`: the industry is stored and the drafted layer previews its icon. */
    method ModalIndustryChange(industry: string)
      modifies this, DraftFrame()
      ensures Snapshot() == old(Snapshot()).(selectedIndustry := industry)
      ensures old(DraftLayer()).Some? ==> old(DraftLayer()).value.icon == Some(Resolve(industry))
      ensures forall l :: l in old(DraftFrame()) ==> l.markerId == old(l.markerId)
    {
      selectedIndustry := industry;
      var layer := DraftLayer();
      if layer.Some? {
        layer.value.icon := Some(Resolve(industry));
      }
    }

    /** `handleFormBack`: back from the form to the chooser, keeping the draft. */
    method FormBack()
      modifies this
      ensures Snapshot() == old(Snapshot()).(modalOpen := false, selectionOpen := true, markerType := None)
    {
      modalOpen := false;
      selectionOpen := true;
      markerType := None;
    }

    /**
     * `handleMarkerSubmit` up to its first `await`: without a draft or a type
     * nothing happens. A business draft gets its industry's icon and the
     * business POST goes out. An investible draft gets the icon `undefined`
     * (the imported `investibleIcon` does not exist), and Leaflet, re-creating
     * the icon of a marker on the map, throws a TypeError outside the `try`:
     * the handler's promise rejects and no request is made.
     */
    method SubmitStart(form: FormData) returns (req: Option<PendingCreate>, threw: bool)
      modifies if newMarker.Some? then {newMarker.value.layer} else {}
      ensures threw <==> old(newMarker).Some? && old(markerType) == Some(InvestibleKind)
      ensures req.Some? <==> old(newMarker).Some? && old(markerType) == Some(BusinessKind)
      ensures req.Some? ==>
                req.value == PendingCreate(BusinessKind, form, newMarker.value, PostBusiness(BusinessBodyOf(form)))
                && req.value.draft.layer.icon == Some(ResolveOpt(form.industry))
      ensures threw ==> newMarker.value.layer.icon.None?
      ensures newMarker.Some? ==> newMarker.value.layer.markerId == old(newMarker.value.layer.markerId)
      ensures req.None? && !threw && newMarker.Some? ==> newMarker.value.layer.icon == old(newMarker.value.layer.icon)
    {
      req, threw := None, false;
      if newMarker.None? || markerType.None? {
        return;
      }
      var draft := newMarker.value;
      match markerType.value
      case BusinessKind =>
        draft.layer.icon := Some(ResolveOpt(form.industry));
        req := Some(PendingCreate(BusinessKind, form, draft, PostBusiness(BusinessBodyOf(form))));
      case InvestibleKind =>
        draft.layer.icon := None;
        threw := true;
    }

    /**
     * `handleMarkerSubmit` after its requests: on success the server's id is
     * bound on the drafted layer, its record appended and the draft state
     * reset; on any failure a temporary record is appended and its id bound.
     */
    method SubmitFinish(req: PendingCreate, outcome: CreateOutcome, now: nat) returns (markerCall: Option<ApiCall>)
      modifies this, req.draft.layer
      ensures outcome.EntityFailed? <==> markerCall.None?
      ensures !outcome.EntityFailed? ==> markerCall == Some(MarkerPost(req, outcome.entityId))
      ensures outcome.Created? ==>
                req.draft.layer.markerId == Some(outcome.record.markerId)
                && Snapshot() == old(Snapshot()).(savedMarkers := old(savedMarkers) + [outcome.record],
                                                 modalOpen := false, newMarker := None, pendingDelete := None,
                                                 selectedIndustry := "", markerType := None)
      ensures !outcome.Created? ==>
                req.draft.layer.markerId == Some(TempIdAt(now))
                && Snapshot() == old(Snapshot()).(savedMarkers := old(savedMarkers) + [FallbackRecord(req, now)])
      ensures req.draft.layer.icon == old(req.draft.layer.icon)
    {
      markerCall := if outcome.EntityFailed? then None else Some(MarkerPost(req, outcome.entityId));
      var record := if outcome.Created? then outcome.record else FallbackRecord(req, now);
      req.draft.layer.markerId := Some(record.markerId);
      savedMarkers := savedMarkers + [record];
      if outcome.Created? {
        ResetForm();
      }
    }

    /** The marker form's reset after a save or a close: the form and the draft are cleared. */
    method ResetForm()
      modifies this
      ensures Snapshot() == old(Snapshot()).(modalOpen := false, newMarker := None, pendingDelete := None,
                                            selectedIndustry := "", markerType := None)
    {
      modalOpen := false;
      newMarker := None;
      pendingDelete := None;
      selectedIndustry := "";
      markerType := None;
    }

    /**
     * `handleMarkerDelete`: on success every drawn layer and every saved record
     * with the id is removed and ok is returned; on failure nothing changes.
     */
    method MarkerDelete(id: MarkerId, succeeds: bool) returns (ok: bool, call: ApiCall)
      modifies this
      ensures call == DeleteMarker(id) && ok == succeeds
      ensures ok ==> Snapshot() == old(Snapshot()).(drawn := old(Unbound(drawn, id)),
                                                   savedMarkers := WithoutId(old(savedMarkers), id))
      ensures !ok ==> Snapshot() == old(Snapshot())
    {
      call := DeleteMarker(id);
      ok := succeeds;
      if !succeeds {
        return;
      }
      var layers := RemoveBound(drawn, id);
      assert layers == Unbound(drawn, id);
      drawn := layers;
      savedMarkers := WithoutId(savedMarkers, id);
    }

    /** `handleRequestDelete`: remember what to delete and ask for confirmation. */
    method RequestDelete(markerId: Option<MarkerId>, layer: Option<Layer>)
      modifies this
      ensures Snapshot() == old(Snapshot()).(pendingDelete := Some(PendingDelete(markerId, layer)), deleteModalOpen := true)
    {
      pendingDelete := Some(PendingDelete(markerId, layer));
      deleteModalOpen := true;
    }

    /** A click on a rendered saved marker: a delete request in delete mode, otherwise the side panel. */
    method RenderedMarkerClick(marker: MarkerRecord, target: Layer)
      modifies this
      ensures old(deleteMode) ==>
                Snapshot() == old(Snapshot()).(pendingDelete := Some(PendingDelete(Some(marker.markerId), Some(target))),
                                               deleteModalOpen := true)
      ensures !old(deleteMode) ==> Snapshot() == old(Snapshot()).(selectedMarker := Some(marker))
    {
      if deleteMode {
        RequestDelete(Some(marker.markerId), Some(target));
      } else {
        selectedMarker := Some(marker);
      }
    }

    /** A click on a drawn layer: a delete request only if delete mode was on when the layer was drawn. */
    method DrawnLayerClick(layer: Layer)
      modifies this
      ensures layer.clickDeletes ==>
                Snapshot() == old(Snapshot()).(pendingDelete := Some(PendingDelete(layer.markerId, Some(layer))),
                                               deleteModalOpen := true)
      ensures !layer.clickDeletes ==> Snapshot() == old(Snapshot())
    {
      if layer.clickDeletes {
        RequestDelete(layer.markerId, Some(layer));
      }
    }

    /** `handleEditClick`: open the edit modal on the marker and close the side panel. */
    method EditClick(marker: MarkerRecord)
      modifies this
      ensures Snapshot() == old(Snapshot()).(editModalOpen := true, markerToEdit := Some(marker), selectedMarker := None)
    {
      editModalOpen := true;
      markerToEdit := Some(marker);
      selectedMarker := None;
    }

    /** The edit modal's `onClose`. */
    method EditModalClose()
      modifies this
      ensures Snapshot() == old(Snapshot()).(editModalOpen := false, markerToEdit := None)
    {
      editModalOpen := false;
      markerToEdit := None;
    }

    /** The edit modal's `onIndustryChange`: a business marker's layers preview the icon. */
    method EditIndustryChange(industry: string)
      modifies drawn
      ensures forall l :: l in drawn ==> l.markerId == old(l.markerId)
      ensures markerToEdit.Some? && markerToEdit.value.business.Some? ==>
                forall l :: l in drawn ==>
                  l.icon == (if l.markerId == Some(markerToEdit.value.markerId) then Some(Resolve(industry)) else old(l.icon))
      ensures !(markerToEdit.Some? && markerToEdit.value.business.Some?) ==> forall l :: l in drawn ==> l.icon == old(l.icon)
    {
      if markerToEdit.Some? && markerToEdit.value.business.Some? {
        SetLayerIconByMarkerId(markerToEdit.value.markerId, Some(Resolve(industry)));
      }
    }

    /**
     * `handleEditSubmit`. A business edit PUTs the business, then the marker,
     * then rewrites the record and restyles its layers; an investible edit
     * does the same for the investible. A failed request stops the handler
     * with nothing changed; otherwise, whichever branch ran, if any, the edit
     * modal and side panel close.
     */
    method EditSubmit(form: FormData, entityOk: bool, markerOk: bool) returns (calls: seq<ApiCall>)
      modifies this, drawn
      ensures forall l :: l in old(drawn) ==> l.markerId == old(l.markerId)
      ensures old(markerToEdit).None? ==> calls == [] && Snapshot() == old(Snapshot())
      ensures old(markerToEdit).Some? && !EditsBusiness(form, old(markerToEdit).value) && !EditsInvestible(form, old(markerToEdit).value) ==>
                calls == [] && Snapshot() == old(Snapshot()).(editModalOpen := false, markerToEdit := None, selectedMarker := None)
      ensures old(markerToEdit).Some? && EditsBusiness(form, old(markerToEdit).value) ==>
                var m := old(markerToEdit).value;
                var bid := m.business.value.businessId.value;
                calls == [PutBusiness(bid, BusinessBodyOf(form))]
                         + (if entityOk then [PutMarker(m.markerId, MarkerBody(form.labelText, m.lat, m.lng, Some(bid), None))] else [])
                && (entityOk && markerOk ==>
                      Snapshot() == old(Snapshot()).(savedMarkers := UpdateWhere(old(savedMarkers), m.markerId, r => EditedBusiness(r, form)),
                                                     editModalOpen := false, markerToEdit := None, selectedMarker := None)
                      && forall l :: l in old(drawn) ==>
                           l.icon == (if l.markerId == Some(m.markerId) then Some(ResolveOpt(form.industry)) else old(l.icon)))
                && (!(entityOk && markerOk) ==> Snapshot() == old(Snapshot()))
      ensures old(markerToEdit).Some? && EditsInvestible(form, old(markerToEdit).value) ==>
                var m := old(markerToEdit).value;
                var iid := InvestibleIdOf(m).value;
                calls == [PutInvestible(iid, InvestibleBodyOf(form))]
                         + (if entityOk then [PutMarker(m.markerId, MarkerBody(form.labelText, m.lat, m.lng, None, Some(iid)))] else [])
                && (entityOk && markerOk ==>
                      Snapshot() == old(Snapshot()).(savedMarkers := UpdateWhere(old(savedMarkers), m.markerId, r => EditedInvestible(r, form)),
                                                     editModalOpen := false, markerToEdit := None, selectedMarker := None))
                && (!(entityOk && markerOk) ==> Snapshot() == old(Snapshot()))
      ensures !(old(markerToEdit).Some? && EditsBusiness(form, old(markerToEdit).value)) ==>
                forall l :: l in old(drawn) ==> l.icon == old(l.icon)
    {
      calls := [];
      if markerToEdit.Some? {
        var m := markerToEdit.value;
        var done := true;
        if EditsBusiness(form, m) {
          calls, done := EditBusiness(m, form, entityOk, markerOk);
        } else if EditsInvestible(form, m) {
          calls, done := EditInvestible(m, form, entityOk, markerOk);
        }
        if done {
          Close();
        }
      }
    }

    /** The end of `handleEditSubmit`: the edit modal and the side panel close. */
    method Close()
      modifies this
      ensures Snapshot() == old(Snapshot()).(editModalOpen := false, markerToEdit := None, selectedMarker := None)
    {
      editModalOpen := false;
      markerToEdit := None;
      selectedMarker := None;
    }

    /**
     * The business branch of `handleEditSubmit`: PUT the business, then the
     * marker, then rewrite the record and restyle its layers. `done` says
     * whether both requests succeeded; a failure leaves everything as it was.
     */
    method EditBusiness(m: MarkerRecord, form: FormData, entityOk: bool, markerOk: bool) returns (calls: seq<ApiCall>, done: bool)
      requires EditsBusiness(form, m)
      modifies this, drawn
      ensures done == (entityOk && markerOk)
      ensures calls == [PutBusiness(m.business.value.businessId.value, BusinessBodyOf(form))]
                       + (if entityOk then [PutMarker(m.markerId, MarkerBody(form.labelText, m.lat, m.lng, m.business.value.businessId, None))]
                          else [])
      ensures done ==> Snapshot() == old(Snapshot()).(savedMarkers := UpdateWhere(old(savedMarkers), m.markerId, r => EditedBusiness(r, form)))
      ensures !done ==> Snapshot() == old(Snapshot())
      ensures forall l :: l in old(drawn) ==> l.markerId == old(l.markerId)
      ensures forall l :: l in old(drawn) ==>
                l.icon == (if done && l.markerId == Some(m.markerId) then Some(ResolveOpt(form.industry)) else old(l.icon))
    {
      var bid := m.business.value.businessId.value;
      calls := [PutBusiness(bid, BusinessBodyOf(form))];
      done := false;
      if !entityOk {
        return;
      }
      calls := calls + [PutMarker(m.markerId, MarkerBody(form.labelText, m.lat, m.lng, Some(bid), None))];
      if !markerOk {
        return;
      }
      savedMarkers := UpdateWhere(savedMarkers, m.markerId, r => EditedBusiness(r, form));
      SetLayerIconByMarkerId(m.markerId, Some(ResolveOpt(form.industry)));
      done := true;
    }

    /**
     * The investible branch of `handleEditSubmit`: PUT the investible, then
     * the marker, then rewrite the record. Layers are not restyled.
     */
    method EditInvestible(m: MarkerRecord, form: FormData, entityOk: bool, markerOk: bool) returns (calls: seq<ApiCall>, done: bool)
      requires EditsInvestible(form, m)
      modifies this
      ensures done == (entityOk && markerOk)
      ensures calls == [PutInvestible(InvestibleIdOf(m).value, InvestibleBodyOf(form))]
                       + (if entityOk then [PutMarker(m.markerId, MarkerBody(form.labelText, m.lat, m.lng, None, InvestibleIdOf(m)))] else [])
      ensures done ==> Snapshot() == old(Snapshot()).(savedMarkers := UpdateWhere(old(savedMarkers), m.markerId, r => EditedInvestible(r, form)))
      ensures !done ==> Snapshot() == old(Snapshot())
    {
      var iid := InvestibleIdOf(m).value;
      calls := [PutInvestible(iid, InvestibleBodyOf(form))];
      done := false;
      if !entityOk {
        return;
      }
      calls := calls + [PutMarker(m.markerId, MarkerBody(form.labelText, m.lat, m.lng, None, Some(iid)))];
      if !markerOk {
        return;
      }
      savedMarkers := UpdateWhere(savedMarkers, m.markerId, r => EditedInvestible(r, form));
      done := true;
    }

    /** `handleMarkerDrag`: PUT the marker at its new position, then move only its record. */
    method MarkerDrag(marker: MarkerRecord, lat: real, lng: real, succeeds: bool) returns (call: ApiCall)
      modifies this
      ensures call == PutMarker(marker.markerId,
                                MarkerBody(marker.labelText, lat, lng,
                                           if marker.business.Some? then marker.business.value.businessId else None, None))
      ensures succeeds ==>
                Snapshot() == old(Snapshot()).(savedMarkers := UpdateWhere(old(savedMarkers), marker.markerId, r => Moved(r, lat, lng)))
      ensures !succeeds ==> Snapshot() == old(Snapshot())
    {
      call := PutMarker(marker.markerId,
                        MarkerBody(marker.labelText, lat, lng,
                                   if marker.business.Some? then marker.business.value.businessId else None, None));
      if succeeds {
        savedMarkers := UpdateWhere(savedMarkers, marker.markerId, r => Moved(r, lat, lng));
      }
    }

    /** The delete-mode button: flip the mode, and open the warning when it turns on. */
    method ToggleDeleteMode()
      modifies this
      ensures Snapshot() == old(Snapshot()).(deleteMode := !old(deleteMode), warningOpen := old(warningOpen) || !old(deleteMode))
    {
      var next := !deleteMode;
      if next {
        warningOpen := true;
      }
      deleteMode := next;
    }

    /** The warning's Cancel: delete mode goes back off. */
    method WarningCancel()
      modifies this
      ensures Snapshot() == old(Snapshot()).(warningOpen := false, deleteMode := false)
    {
      warningOpen := false;
      deleteMode := false;
    }

    /** The warning's Confirm: delete mode stays on. */
    method WarningConfirm()
      modifies this
      ensures Snapshot() == old(Snapshot()).(warningOpen := false, deleteMode := true)
    {
      warningOpen := false;
      deleteMode := true;
    }

    /** The delete confirmation's Cancel: no request, the pending delete is dropped. */
    method DeleteCancel()
      modifies this
      ensures Snapshot() == old(Snapshot()).(deleteModalOpen := false, pendingDelete := None)
    {
      deleteModalOpen := false;
      pendingDelete := None;
    }

    /**
     * The delete confirmation's Confirm: with a truthy marker id the marker is
     * deleted through the API, otherwise the pending layer is removed locally;
     * either way the confirmation closes and the pending delete is dropped.
     */
    method DeleteConfirm(succeeds: bool) returns (call: Option<ApiCall>)
      modifies this
      ensures old(pendingDelete).None? ==> call.None? && Snapshot() == old(Snapshot()).(deleteModalOpen := false)
      ensures old(pendingDelete).Some? && old(pendingDelete).value.DeletesRemotely() ==>
                call == Some(DeleteMarker(old(pendingDelete).value.markerId.value))
                && Snapshot() == old(Snapshot()).(
                     drawn := if succeeds then old(Unbound(drawn, pendingDelete.value.markerId.value)) else old(drawn),
                     savedMarkers := if succeeds then WithoutId(old(savedMarkers), old(pendingDelete).value.markerId.value)
                                     else old(savedMarkers),
                     deleteModalOpen := false, pendingDelete := None)
      ensures old(pendingDelete).Some? && !old(pendingDelete).value.DeletesRemotely() ==>
                call.None?
                && Snapshot() == old(Snapshot()).(drawn := old(drawn) - old(pendingDelete).value.LayerSet(),
                                                 deleteModalOpen := false, pendingDelete := None)
    {
      call := None;
      var pd := pendingDelete;
      if pd.Some? {
        if pd.value.DeletesRemotely() {
          var ok, c := MarkerDelete(pd.value.markerId.value, succeeds);
          call := Some(c);
        } else {
          drawn := drawn - pd.value.LayerSet();
        }
      }
      DeleteCancel();
    }
  }
}
