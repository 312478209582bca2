/** What the routers share: the route table an APIRouter accumulates, the
    outcome of a route handler, and the parent a child router is built on.
    FastAPI itself (summaries, response models, request parsing) is not part of
    this model: a route is its method, its path and its tags. */
module Routes {
  import opened Base
  import opened MongoModels
  import opened Store

  datatype Method = GET | POST | PUT | PATCH | DELETE

  /** One `add_api_route(path, endpoint, methods=[method], tags=tags)`. */
  datatype Route = Route(verb: Method, path: string, tags: seq<string>)

  /** No two routes share a method and a path, so none shadows another. */
  predicate DistinctPairs(routes: seq<Route>) {
    forall i, j | 0 <= i < j < |routes| ::
      routes[i].verb != routes[j].verb || routes[i].path != routes[j].path
  }

  /** The routes of an APIRouter, in registration order. Child routers hold
      their parent and register into its table. */
  class RouteTable {
    var routes: seq<Route>

    constructor ()
      ensures routes == []
    {
      routes := [];
    }

    /** `_add_api_route`: one route appended. */
    method Add(route: Route)
      modifies this
      ensures routes == old(routes) + [route]
    {
      routes := routes + [route];
    }
  }

  /** `"/{id}/" + name`: the prefix under which a child router registers
      its routes, below the parent's item path. */
  function ChildPrefix(name: string): (p: string)
    ensures |p| == 6 + |name| && p[..6] == "/{id}/" && p[6..] == name
  {
    "/{id}/" + name
  }

  /** What a request gets: the handler's return value, an `HTTPException`
      with its status code, or an exception no handler catches. */
  datatype Outcome<+T> = Body(value: T) | Http(code: int) | Unhandled(exc: Exc)

  /** `if response is None: raise HTTPException(code, ...)`, else the
      response; an exception of the repository passes through. */
  function NoneTo(r: Result<PyObj>, code: int): (o: Outcome<PyObj>)
    ensures o.Http? <==> r == Ok(PyNone)
    ensures o.Http? ==> o.code == code
    ensures o.Body? <==> r.Ok? && r.value != PyNone
    ensures o.Body? ==> o.value == r.value
    ensures o.Unhandled? <==> r.Raise?
    ensures o.Unhandled? ==> o.exc == r.exc
  {
    match r
    case Raise(e) => Unhandled(e)
    case Ok(v) => if v == PyNone then Http(code) else Body(v)
  }

  /** `if not len(response): raise HTTPException(404, ...)`, else the list. */
  function EmptyTo404(response: seq<PyObj>): (o: Outcome<seq<PyObj>>)
    ensures o.Http? <==> response == []
    ensures o.Http? ==> o.code == 404
    ensures o.Body? ==> o.value == response
    ensures !o.Unhandled?
  {
    if |response| == 0 then Http(404) else Body(response)
  }

  /** An attribute that an object may lack, may hold None, or may hold a
      model. */
  datatype Attr = Missing | AttrNone | AttrSome(model: ModelName)

  /** What a child router reads from its `parent_router`: the model, the
      database, the collection, the `model_out` attribute and the table that
      `_add_api_route` appends to. */
  datatype Parent = Parent(model: ModelName, db: Database, collectionName: string, modelOut: Attr,
                           table: RouteTable)
}
