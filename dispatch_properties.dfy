/**
 * What the order of the gates in `handle` guarantees, and what the list
 * handlers put in their meta block.
 */
module DispatchProperties {
  import opened Wrappers
  import opened Json
  import opened PhpCast
  import opened Config
  import opened Http
  import opened AuthGuard
  import opened Pagination
  import opened Serializer
  import opened Dispatcher

  /**
   * The status names the gate that stopped the request: 503 only for a
   * disabled API, 401 only for a failed credential once enabled, and a
   * request is logged exactly when it got past both gates with logging on.
   */
  lemma StatusNamesGate(settings: Settings, store: TreeStore, req: Request)
    ensures var r := Dispatch(settings, store, req);
      && (r.status == 503 <==> !ApiEnabled(settings))
      && (r.status == 401 <==> ApiEnabled(settings) && !IsAuthenticated(settings, req))
      && (Logged(settings, req) <==> r.status != 503 && r.status != 401 && LogRequests(settings))
  {
    if ApiEnabled(settings) && IsAuthenticated(settings, req) {
      assert Dispatch(settings, store, req) == Routed(store, req);
    }
  }

  /**
   * With the API disabled, every request, whatever its credential, path,
   * tree or the store's contents, gets the same 503 and is not logged.
   */
  lemma DisabledIgnoresRequest(settings: Settings, s1: TreeStore, r1: Request, s2: TreeStore, r2: Request)
    requires !ApiEnabled(settings)
    ensures Dispatch(settings, s1, r1) == Dispatch(settings, s2, r2)
    ensures Dispatch(settings, s1, r1).status == 503
    ensures !Logged(settings, r1)
  {
  }

  /** An unknown tree is a 404 before the path is looked at. */
  lemma UnknownTreeBeforeRouting(settings: Settings, store: TreeStore, req: Request, path: string)
    requires ApiEnabled(settings) && IsAuthenticated(settings, req)
    requires IntCast(req.routeTree) !in store
    ensures Dispatch(settings, store, req) == ErrorResponse(MessageNoTree, 404)
    ensures Dispatch(settings, store, req.(path := path)) == ErrorResponse(MessageNoTree, 404)
  {
  }

  /** A lookup that throws gives 500 with the exception's own message. */
  lemma LookupFaultIs500(settings: Settings, store: TreeStore, req: Request, message: string)
    requires ApiEnabled(settings) && IsAuthenticated(settings, req)
    requires IntCast(req.routeTree) in store && store[IntCast(req.routeTree)] == Failure(message)
    ensures Dispatch(settings, store, req) == ErrorResponse(message, 500)
    ensures Get(Dispatch(settings, store, req).body, "error") == Some(JString(message))
  {
  }

  /**
   * Once a tree is found, the path prefix picks the handler: the
   * individuals list, the families list, or a 404 for any other path; a
   * collection that throws while being read gives 500 with its message.
   */
  lemma RouteByPrefix(settings: Settings, store: TreeStore, req: Request, tree: Tree)
    requires ApiEnabled(settings) && IsAuthenticated(settings, req)
    requires IntCast(req.routeTree) in store && store[IntCast(req.routeTree)] == Success(tree)
    ensures var r := Dispatch(settings, store, req);
      && (IndividualsPrefix <= req.path && tree.individuals.Success? ==>
            r.status == 200 &&
            Get(r.body, "data") == Some(JArray(Serialized(Page(tree.individuals.value, PageWindow(req.query)),
                                                          IndividualDocument))))
      && (!(IndividualsPrefix <= req.path) && FamiliesPrefix <= req.path && tree.families.Success? ==>
            r.status == 200 &&
            Get(r.body, "data") == Some(JArray(Serialized(Page(tree.families.value, PageWindow(req.query)),
                                                          FamilyDocument))))
      && (IndividualsPrefix <= req.path && tree.individuals.Failure? ==>
            r == ErrorResponse(tree.individuals.error, 500))
      && (!(IndividualsPrefix <= req.path) && FamiliesPrefix <= req.path && tree.families.Failure? ==>
            r == ErrorResponse(tree.families.error, 500))
      && (!(IndividualsPrefix <= req.path) && !(FamiliesPrefix <= req.path) ==>
            r == ErrorResponse(MessageNoEndpoint, 404))
  {
    assert Dispatch(settings, store, req) == Routed(store, req);
  }

  /**
   * The meta block of a list: `total` is the size of the whole collection
   * whatever the window, `limit` and `offset` echo the clamped window, and
   * `returned` is the number of documents in `data`, that is
   * min(max(limit, 0), max(0, total - offset)).
   */
  lemma ListMeta<R>(records: seq<R>, query: map<string, string>, serialize: R -> Json)
    ensures var outcome := ListOutcome(Success(records), query, serialize);
      var w := PageWindow(query);
      && outcome.Success? && outcome.value.status == 200
      && Path(outcome.value.body, ["meta", "total"]) == Some(JInt(|records|))
      && Path(outcome.value.body, ["meta", "limit"]) == Some(JInt(w.limit))
      && Path(outcome.value.body, ["meta", "offset"]) == Some(JInt(w.offset))
      && Path(outcome.value.body, ["meta", "returned"]) ==
         Some(JInt(Min(Max(w.limit, 0), Max(0, |records| - w.offset))))
      && Get(outcome.value.body, "data").Some? && Get(outcome.value.body, "data").value.JArray?
      && |Get(outcome.value.body, "data").value.items| == Min(Max(w.limit, 0), Max(0, |records| - w.offset))
  {
  }

  /**
   * Five people, `limit=2&offset=4`: one document, the fifth person's, and
   * meta {total: 5, limit: 2, offset: 4, returned: 1}.
   */
  lemma FivePeopleScenario(people: seq<Individual>, query: map<string, string>)
    requires |people| == 5
    requires query == map["limit" := "2", "offset" := "4"]
    ensures var outcome := ListOutcome(Success(people), query, IndividualDocument);
      && outcome.Success?
      && Get(outcome.value.body, "data") == Some(JArray([IndividualDocument(people[4])]))
      && Path(outcome.value.body, ["meta", "total"]) == Some(JInt(5))
      && Path(outcome.value.body, ["meta", "limit"]) == Some(JInt(2))
      && Path(outcome.value.body, ["meta", "offset"]) == Some(JInt(4))
      && Path(outcome.value.body, ["meta", "returned"]) == Some(JInt(1))
  {
    assert DecimalString(2) == "2" && DecimalString(4) == "4";
    assert DecimalString(2) + [] == "2";
    DecimalLimit(query, 2, []);
    DecimalOffset(query, 4);
    var w := PageWindow(query);
    assert w == Window(2, 4);
    var page := Page(people, w);
    assert |page| == 1 && page[0] == people[4];
    assert Serialized(page, IndividualDocument) == [IndividualDocument(people[4])];
    ListMeta(people, query, IndividualDocument);
  }
}
