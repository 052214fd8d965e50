/** The service listing (src/app/api/services/route.ts): the orders that have
    a next service date, optionally narrowed by a search on the order id or the
    customer's email, earliest service first. ADMIN and EMPLOYEE only. */
module Services {
  import opened Common
  import opened Text
  import opened Sequences
  import opened Orders

  /** The `where` clause: a service date is set, and the search text, when
      there is one, occurs in the order id or the email, ignoring case. */
  predicate ServiceMatch(search: string, o: Order) {
    o.nextDateOfService.Some? &&
    (search == "" || ContainsInsensitive(o.orderId, search) ||
     ContainsInsensitive(o.customerEmail, search))
  }

  /** The sort key; it is only applied to orders that have a service date. */
  function ServiceDate(o: Order): int {
    o.nextDateOfService.GetOr(0)
  }

  /** GET /api/services over the stored order rows. */
  function ListServices(session: Option<Session>, searchParam: Option<string>, rows: seq<Order>): (r: Result<seq<Order>>)
    ensures session.None? ==> r == Failure(Unauthorized)
    ensures session.Some? && !IsStaff(session.value.role) ==> r == Failure(Forbidden)
    ensures r.Success? <==> session.Some? && IsStaff(session.value.role)
    ensures r.Success? ==> forall k :: 0 <= k < |r.value| ==> r.value[k].nextDateOfService.Some?
    ensures r.Success? && Truthy(searchParam) ==> forall k :: 0 <= k < |r.value| ==>
      ContainsInsensitive(r.value[k].orderId, searchParam.value) ||
      ContainsInsensitive(r.value[k].customerEmail, searchParam.value)
    ensures r.Success? ==> forall i, j :: 0 <= i < j < |r.value| ==>
      r.value[i].nextDateOfService.value <= r.value[j].nextDateOfService.value
  {
    if session.None? then Failure(Unauthorized)
    else if !IsStaff(session.value.role) then Failure(Forbidden)
    else
      var search := searchParam.GetOr("");
      var kept := Filter(rows, (o: Order) => ServiceMatch(search, o));
      var sorted := SortBy(kept, ServiceDate);
      assert forall k :: 0 <= k < |sorted| ==> sorted[k] in multiset(kept);
      assert forall k :: 0 <= k < |sorted| ==> ServiceMatch(search, sorted[k]);
      Success(sorted)
  }

  /** Exactly the stored orders that pass both conditions come back, each as
      often as it is stored: nothing extra and nothing dropped. */
  lemma ServicesAreTheMatchingOrders(s: Session, searchParam: Option<string>, rows: seq<Order>, o: Order)
    requires IsStaff(s.role)
    ensures multiset(ListServices(Some(s), searchParam, rows).value)[o] ==
      if ServiceMatch(searchParam.GetOr(""), o) then multiset(rows)[o] else 0
    ensures o in ListServices(Some(s), searchParam, rows).value <==>
      o in rows && ServiceMatch(searchParam.GetOr(""), o)
  {
    var search := searchParam.GetOr("");
    SortedFilterMembers(rows, (x: Order) => ServiceMatch(search, x), ServiceDate, o);
  }

  /** Without a search every order with a service date is listed. */
  lemma EmptySearchKeepsAllScheduled(s: Session, rows: seq<Order>, o: Order)
    requires IsStaff(s.role)
    ensures o in ListServices(Some(s), None, rows).value <==>
      o in rows && o.nextDateOfService.Some?
  {
    ServicesAreTheMatchingOrders(s, None, rows, o);
  }
}
