/**
 * `handle`: the gates one request passes through, in order (API enabled,
 * credential, optional logging, tree lookup, route by path prefix, and the
 * catch that turns a thrown exception into a 500), and the two list
 * handlers it routes to.
 */
module Dispatcher {
  import opened Wrappers
  import opened Json
  import opened PhpCast
  import opened Config
  import opened Http
  import opened AuthGuard
  import opened Pagination
  import opened Serializer

  /**
   * A tree as the handler reads it: each collection is either read, or its
   * reading throws an exception with the given message.
   */
  datatype Tree = Tree(
    individuals: Result<seq<Individual>, string>,
    families: Result<seq<Family>, string>)

  /**
   * `Registry::treeService()->find($id)`: an id absent from the map finds
   * no tree; `Failure(message)` is a lookup that throws.
   */
  type TreeStore = map<int, Result<Tree, string>>

  const MessageDisabled: string := "API désactivée"
  const MessageBadKey: string := "Clé API invalide ou manquante"
  const MessageNoTree: string := "Arbre généalogique introuvable"
  const MessageNoEndpoint: string := "Endpoint non trouvé"

  const IndividualsPrefix: string := "/api/individuals/"
  const FamiliesPrefix: string := "/api/families/"

  /**
   * What a list handler returns, or the message of the exception reading the
   * collection throws: the window of the collection serialized, and a meta
   * block whose total is a separate count of the whole collection.
   */
  function ListOutcome<R>(collection: Result<seq<R>, string>, query: map<string, string>,
                          serialize: R -> Json): Result<Response, string>
  {
    match collection
    case Failure(message) => Failure(message)
    case Success(records) =>
      var w := PageWindow(query);
      Success(CreateJsonResponse(PageBody(Serialized(Page(records, w), serialize), |records|, w), 200))
  }

  /** `getIndividuals($request, $tree)`. */
  function IndividualsOutcome(req: Request, tree: Tree): Result<Response, string>
  {
    ListOutcome(tree.individuals, req.query, IndividualDocument)
  }

  /** `getFamilies($request, $tree)`. */
  function FamiliesOutcome(req: Request, tree: Tree): Result<Response, string>
  {
    ListOutcome(tree.families, req.query, FamilyDocument)
  }

  /** The `try` block of `handle` with its `catch`: only 200, 404 or 500 come out of it. */
  function Routed(store: TreeStore, req: Request): (r: Response)
    ensures r.status == 200 || r.status == 404 || r.status == 500
    ensures HasJsonHeaders(r)
  {
    var id := IntCast(req.routeTree);
    if id !in store then ErrorResponse(MessageNoTree, 404)
    else match store[id]
      case Failure(message) => ErrorResponse(message, 500)
      case Success(tree) =>
        var outcome :=
          if IndividualsPrefix <= req.path then IndividualsOutcome(req, tree)
          else if FamiliesPrefix <= req.path then FamiliesOutcome(req, tree)
          else Success(ErrorResponse(MessageNoEndpoint, 404));
        match outcome
        case Success(response) => response
        case Failure(message) => ErrorResponse(message, 500)
  }

  /**
   * The response `handle` gives. Whatever the branch, it carries the JSON
   * headers; a disabled API answers 503 and a failed credential 401 before
   * anything else is looked at.
   */
  function Dispatch(settings: Settings, store: TreeStore, req: Request): (r: Response)
    ensures HasJsonHeaders(r)
    ensures !ApiEnabled(settings) ==> r == ErrorResponse(MessageDisabled, 503)
    ensures ApiEnabled(settings) && !IsAuthenticated(settings, req) ==>
      r == ErrorResponse(MessageBadKey, 401)
  {
    if !ApiEnabled(settings) then ErrorResponse(MessageDisabled, 503)
    else if !IsAuthenticated(settings, req) then ErrorResponse(MessageBadKey, 401)
    else Routed(store, req)
  }

  /** Whether `handle` writes a log entry for the request. */
  predicate Logged(settings: Settings, req: Request)
  {
    ApiEnabled(settings) && IsAuthenticated(settings, req) && LogRequests(settings)
  }

  /** One line of the request log; `timestamp` is the clock reading. */
  datatype LogEntry = LogEntry(timestamp: string, ip: string, verb: string, uri: string, userAgent: string)

  /** The entry `logRequest` writes for a request. */
  function EntryFor(req: Request, timestamp: string): (e: LogEntry)
    ensures "REMOTE_ADDR" !in req.server ==> e.ip == "unknown"
    ensures "REMOTE_ADDR" in req.server ==> e.ip == req.server["REMOTE_ADDR"]
    ensures e.userAgent == HeaderLine(req, "User-Agent")
  {
    var ip := if "REMOTE_ADDR" in req.server then req.server["REMOTE_ADDR"] else "unknown";
    LogEntry(timestamp, ip, req.verb, req.uri, HeaderLine(req, "User-Agent"))
  }

  /**
   * The module: its stored preferences and the log file it appends to.
   */
  class ApiRestModule {
    var settings: Settings
    var log: seq<LogEntry>

    constructor (settings: Settings)
      ensures this.settings == settings && log == []
    {
      this.settings := settings;
      log := [];
    }

    /** `logRequest($request)`: one entry appended, nothing else changed. */
    method LogRequest(req: Request, now: string)
      modifies this`log
      ensures log == old(log) + [EntryFor(req, now)]
    {
      log := log + [EntryFor(req, now)];
    }

    /** `getIndividuals`: the window loop over the individuals, then the meta block. */
    method GetIndividuals(req: Request, tree: Tree) returns (outcome: Result<Response, string>)
      ensures outcome == IndividualsOutcome(req, tree)
    {
      match tree.individuals
      case Failure(message) =>
        outcome := Failure(message);
      case Success(people) =>
        var w := PageWindow(req.query);
        var docs := CollectWindow(people, w, IndividualDocument);
        var total := |people|;
        outcome := Success(CreateJsonResponse(PageBody(docs, total, w), 200));
    }

    /** `getFamilies`: the window loop over the families, then the meta block. */
    method GetFamilies(req: Request, tree: Tree) returns (outcome: Result<Response, string>)
      ensures outcome == FamiliesOutcome(req, tree)
    {
      match tree.families
      case Failure(message) =>
        outcome := Failure(message);
      case Success(families) =>
        var w := PageWindow(req.query);
        var docs := CollectWindow(families, w, FamilyDocument);
        var total := |families|;
        outcome := Success(CreateJsonResponse(PageBody(docs, total, w), 200));
    }

    /**
     * `handle($request)`: the response is `Dispatch`'s, and exactly one log
     * entry is appended when the request is `Logged`, none otherwise.
     */
    method Handle(store: TreeStore, req: Request, now: string) returns (resp: Response)
      modifies this`log
      ensures resp == Dispatch(settings, store, req)
      ensures log == old(log) + (if Logged(settings, req) then [EntryFor(req, now)] else [])
    {
      if Preference(settings, SettingEnabled, "0") != "1" {
        return ErrorResponse(MessageDisabled, 503);
      }
      if !IsAuthenticated(settings, req) {
        return ErrorResponse(MessageBadKey, 401);
      }
      assert Dispatch(settings, store, req) == Routed(store, req);
      var treeArg := req.routeTree;
      var path := req.path;
      if Preference(settings, SettingLogRequests, "0") == "1" {
        LogRequest(req, now);
      }
      assert log == old(log) + (if Logged(settings, req) then [EntryFor(req, now)] else []);
      var id := IntCast(treeArg);
      if id !in store {
        return ErrorResponse(MessageNoTree, 404);
      }
      match store[id]
      case Failure(message) =>
        resp := ErrorResponse(message, 500);
      case Success(tree) =>
        var outcome;
        if IndividualsPrefix <= path {
          outcome := GetIndividuals(req, tree);
        } else if FamiliesPrefix <= path {
          outcome := GetFamilies(req, tree);
        } else {
          outcome := Success(ErrorResponse(MessageNoEndpoint, 404));
        }
        match outcome
        case Success(response) =>
          resp := response;
        case Failure(message) =>
          resp := ErrorResponse(message, 500);
    }
  }
}
