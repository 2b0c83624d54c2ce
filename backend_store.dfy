/**
 * The rows the deleting views touch: businesses, investibles and the markers
 * that point at them through nullable `ON DELETE CASCADE` foreign keys
 * (`Marker.business`, related name `business_markers`; `Marker.invst`,
 * related name `investment_markers`).
 */
module BackendStore {
  import opened Wrappers

  /** A marker row's foreign keys. */
  datatype MarkerLinks = MarkerLinks(business: Option<int>, invst: Option<int>)

  /** `business.business_markers.exists()`. */
  predicate BusinessReferenced(markers: map<int, MarkerLinks>, b: int) {
    exists id | id in markers :: markers[id].business == Some(b)
  }

  /** `investible.investment_markers.exists()`. */
  predicate InvestibleReferenced(markers: map<int, MarkerLinks>, v: int) {
    exists id | id in markers :: markers[id].invst == Some(v)
  }

  /** The markers left after a cascade from business `b`. */
  function WithoutBusiness(markers: map<int, MarkerLinks>, b: int): map<int, MarkerLinks> {
    map id | id in markers && markers[id].business != Some(b) :: markers[id]
  }

  /** The markers left after a cascade from investible `v`. */
  function WithoutInvestible(markers: map<int, MarkerLinks>, v: int): map<int, MarkerLinks> {
    map id | id in markers && markers[id].invst != Some(v) :: markers[id]
  }

  /** The businesses left after deleting a marker with these links, when the view cleans up its business. */
  function BusinessesAfter(businesses: set<int>, remaining: map<int, MarkerLinks>, links: MarkerLinks): set<int> {
    if links.business.Some? && !BusinessReferenced(remaining, links.business.value)
    then businesses - {links.business.value} else businesses
  }

  /** The investibles left after deleting a marker with these links, when the view cleans up its investible. */
  function InvestiblesAfter(investibles: set<int>, remaining: map<int, MarkerLinks>, links: MarkerLinks): set<int> {
    if links.invst.Some? && !InvestibleReferenced(remaining, links.invst.value)
    then investibles - {links.invst.value} else investibles
  }

  class Store {
    var businesses: set<int>
    var investibles: set<int>
    var markers: map<int, MarkerLinks>

    /** Every foreign key points at an existing row. */
    predicate Valid()
      reads this
    {
      forall id | id in markers ::
        (markers[id].business.Some? ==> markers[id].business.value in businesses)
        && (markers[id].invst.Some? ==> markers[id].invst.value in investibles)
    }

    /** Every business and every investible is shown by at least one marker. */
    predicate NoOrphans()
      reads this
    {
      (forall b | b in businesses :: BusinessReferenced(markers, b))
      && (forall v | v in investibles :: InvestibleReferenced(markers, v))
    }

    constructor (businesses: set<int>, investibles: set<int>, markers: map<int, MarkerLinks>)
      ensures this.businesses == businesses && this.investibles == investibles && this.markers == markers
    {
      this.businesses := businesses;
      this.investibles := investibles;
      this.markers := markers;
    }

    /** `business.delete()`: the row goes, and the cascade takes the markers pointing at it. */
    method DeleteBusiness(b: int)
      requires Valid()
      modifies this
      ensures Valid()
      ensures businesses == old(businesses) - {b} && investibles == old(investibles)
      ensures markers == WithoutBusiness(old(markers), b)
    {
      businesses := businesses - {b};
      markers := WithoutBusiness(markers, b);
    }

    /** `investible.delete()`: the row goes, and the cascade takes the markers pointing at it. */
    method DeleteInvestibleRow(v: int)
      requires Valid()
      modifies this
      ensures Valid()
      ensures investibles == old(investibles) - {v} && businesses == old(businesses)
      ensures markers == WithoutInvestible(old(markers), v)
    {
      investibles := investibles - {v};
      markers := WithoutInvestible(markers, v);
    }

    /**
     * `MarkerViewSet.destroy` in `backend/api`: 404 for an unknown marker;
     * otherwise the marker goes, then its business and its investible, each
     * only if no other marker still points at it.
     */
    method DestroyMarker(pk: int) returns (status: int)
      requires Valid()
      modifies this
      ensures Valid()
      ensures pk !in old(markers) ==> status == 404 && businesses == old(businesses)
                                      && investibles == old(investibles) && markers == old(markers)
      ensures pk in old(markers) ==>
                status == 204
                && markers == old(markers) - {pk}
                && businesses == BusinessesAfter(old(businesses), old(markers) - {pk}, old(markers)[pk])
                && investibles == InvestiblesAfter(old(investibles), old(markers) - {pk}, old(markers)[pk])
      ensures old(NoOrphans()) ==> NoOrphans()
    {
      if pk !in markers {
        return 404;
      }
      ghost var before := markers;
      var links := markers[pk];
      markers := markers - {pk};
      if links.business.Some? && !BusinessReferenced(markers, links.business.value) {
        NoReferenceNoCascade(markers, links.business.value);
        DeleteBusiness(links.business.value);
      }
      if links.invst.Some? && !InvestibleReferenced(markers, links.invst.value) {
        NoInvestibleReferenceNoCascade(markers, links.invst.value);
        DeleteInvestibleRow(links.invst.value);
      }
      status := 204;
      if old(NoOrphans()) {
        forall b | b in businesses
          ensures BusinessReferenced(markers, b)
        {
          StillReferenced(before, pk, b);
        }
        forall v | v in investibles
          ensures InvestibleReferenced(markers, v)
        {
          StillReferencedInvestible(before, pk, v);
        }
      }
    }

    /**
     * `MarkerViewSet.destroy` in `backend/imbds/api`: the same, but only the
     * business is cleaned up.
     */
    method DestroyMarkerBusinessOnly(pk: int) returns (status: int)
      requires Valid()
      modifies this
      ensures Valid()
      ensures investibles == old(investibles)
      ensures pk !in old(markers) ==> status == 404 && businesses == old(businesses) && markers == old(markers)
      ensures pk in old(markers) ==>
                status == 204
                && markers == old(markers) - {pk}
                && businesses == BusinessesAfter(old(businesses), old(markers) - {pk}, old(markers)[pk])
      ensures old(forall b | b in businesses :: BusinessReferenced(markers, b)) ==>
                forall b | b in businesses :: BusinessReferenced(markers, b)
    {
      if pk !in markers {
        return 404;
      }
      ghost var before := markers;
      var links := markers[pk];
      markers := markers - {pk};
      if links.business.Some? && !BusinessReferenced(markers, links.business.value) {
        NoReferenceNoCascade(markers, links.business.value);
        DeleteBusiness(links.business.value);
      }
      status := 204;
      if old(forall b | b in businesses :: BusinessReferenced(markers, b)) {
        forall b | b in businesses
          ensures BusinessReferenced(markers, b)
        {
          StillReferenced(before, pk, b);
        }
      }
    }

    /**
     * `delete_investibles` in `backend/api`: 400 for an unknown id, otherwise
     * the investible (and, by cascade, its markers) is deleted and 200 returned.
     */
    method DeleteInvestibles(pk: int) returns (status: int)
      requires Valid()
      modifies this
      ensures Valid()
      ensures pk !in old(investibles) <==> status == 400
      ensures status == 400 ==> investibles == old(investibles) && markers == old(markers) && businesses == old(businesses)
      ensures status != 400 ==>
                status == 200 && investibles == old(investibles) - {pk}
                && markers == WithoutInvestible(old(markers), pk) && businesses == old(businesses)
      ensures pk !in investibles
    {
      if pk !in investibles {
        return 400;
      }
      DeleteInvestibleRow(pk);
      status := 200;
    }

    /**
     * `delete_investibles` in `backend/imbds/api` as written: it looks up a
     * `User` by `investible_id`, a field `User` does not have, so the query
     * raises FieldError, which the view does not catch: every call is a 500
     * and nothing is deleted.
     */
    method DeleteInvestiblesAsWritten(pk: int) returns (status: int)
      ensures status == 500
    {
      status := 500;
    }
  }

  /** A cascade from a business no marker points at removes no marker. */
  lemma NoReferenceNoCascade(markers: map<int, MarkerLinks>, b: int)
    requires !BusinessReferenced(markers, b)
    ensures WithoutBusiness(markers, b) == markers
  {
    forall id | id in markers
      ensures id in WithoutBusiness(markers, b)
    {
      assert markers[id].business != Some(b);
    }
  }

  /**
   * A business referenced before a marker is removed is still referenced
   * afterwards, unless that marker was the only one pointing at it.
   */
  lemma StillReferenced(before: map<int, MarkerLinks>, pk: int, b: int)
    requires BusinessReferenced(before, b)
    requires pk in before ==> before[pk].business != Some(b) || BusinessReferenced(before - {pk}, b)
    ensures BusinessReferenced(before - {pk}, b)
  {
    var id :| id in before && before[id].business == Some(b);
    if id != pk {
      assert (before - {pk})[id] == before[id];
    }
  }

  /** The same for investibles. */
  lemma StillReferencedInvestible(before: map<int, MarkerLinks>, pk: int, v: int)
    requires InvestibleReferenced(before, v)
    requires pk in before ==> before[pk].invst != Some(v) || InvestibleReferenced(before - {pk}, v)
    ensures InvestibleReferenced(before - {pk}, v)
  {
    var id :| id in before && before[id].invst == Some(v);
    if id != pk {
      assert (before - {pk})[id] == before[id];
    }
  }

  /** A cascade from an investible no marker points at removes no marker. */
  lemma NoInvestibleReferenceNoCascade(markers: map<int, MarkerLinks>, v: int)
    requires !InvestibleReferenced(markers, v)
    ensures WithoutInvestible(markers, v) == markers
  {
    forall id | id in markers
      ensures id in WithoutInvestible(markers, v)
    {
      assert markers[id].invst != Some(v);
    }
  }

  /**
   * Deleting the only marker of an investible: the `backend/api` view deletes
   * the investible too, the `backend/imbds/api` view leaves it behind.
   */
  method DestroyOnlyMarkerOfInvestible(marker: int, investible: int)
    returns (apiStatus: int, apiInvestibles: set<int>, imbdsStatus: int, imbdsInvestibles: set<int>)
    ensures apiStatus == 204 && apiInvestibles == {}
    ensures imbdsStatus == 204 && imbdsInvestibles == {investible}
  {
    var links := map[marker := MarkerLinks(None, Some(investible))];
    var api := new Store({}, {investible}, links);
    apiStatus := api.DestroyMarker(marker);
    apiInvestibles := api.investibles;
    var imbds := new Store({}, {investible}, links);
    imbdsStatus := imbds.DestroyMarkerBusinessOnly(marker);
    imbdsInvestibles := imbds.investibles;
  }
}
