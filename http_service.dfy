/** The HTTP routes over the in-memory dataset (index.js:52-80) and the
    process that holds that dataset (index.js:15-42). */
module HttpService {
  import opened Records
  import DataProvider

  datatype Request =
    | GetAll                 // GET /brains
    | GetById(id: string)    // GET /brains/:id
    | Create                 // POST /create
    | Edit                   // PUT /edit
    | Delete                 // DELETE /delete

  datatype Body =
    | JsonArray(records: Dataset)  // response.json(data)
    | JsonObject(record: Record)   // response.json(item)
    | Text(text: string)           // response.send(...)

  datatype Response = Response(status: nat, body: Body)

  const NotFoundText: string := "Item not found"
  const CreateText: string := "This is a POST request at /create"
  const EditText: string := "This is a PUT request at /edit"
  const DeleteText: string := "This is a DELETE request at /delete"

  /** `data.find` restricted to positions `i..`: the first record from `i`
      on whose `Run` equals `id`. */
  function FindFrom(data: Dataset, id: string, i: nat): (r: Option<Record>)
    requires i <= |data|
    ensures r.Some? ==> HasRun(r.value, id) && r.value in data[i..]
    decreases |data| - i
  {
    if i == |data| then None
    else if HasRun(data[i], id) then Some(data[i])
    else FindFrom(data, id, i + 1)
  }

  /** `data.find((d) => d.Run === id)`. */
  function Find(data: Dataset, id: string): (r: Option<Record>)
    ensures r.Some? ==> HasRun(r.value, id) && r.value in data
  {
    assert data[0..] == data;
    FindFrom(data, id, 0)
  }

  /** What `find` promises, for the search from position `i`: a result is
      the first matching record at or after `i`, and there is no result
      exactly when no record from `i` on matches. */
  lemma {:induction false} FindFromIsFirstMatch(data: Dataset, id: string, i: nat)
    requires i <= |data|
    ensures FindFrom(data, id, i).Some? ==>
              exists j ::
                i <= j < |data| && data[j] == FindFrom(data, id, i).value && HasRun(data[j], id) &&
                forall k :: i <= k < j ==> !HasRun(data[k], id)
    ensures FindFrom(data, id, i).None? <==> forall k :: i <= k < |data| ==> !HasRun(data[k], id)
    decreases |data| - i
  {
    if i < |data| && !HasRun(data[i], id) {
      FindFromIsFirstMatch(data, id, i + 1);
      if FindFrom(data, id, i).Some? {
        var j :| i + 1 <= j < |data| && data[j] == FindFrom(data, id, i).value && HasRun(data[j], id) &&
          forall k :: i + 1 <= k < j ==> !HasRun(data[k], id);
        assert forall k :: i <= k < j ==> !HasRun(data[k], id);
      }
    }
  }

  /** Every record is reachable by its own `Run`: looking it up yields the
      first record in load order carrying that `Run`, never a later one. */
  lemma FindReturnsEarliest(data: Dataset, id: string, j: nat)
    requires j < |data| && HasRun(data[j], id)
    ensures Find(data, id).Some? && HasRun(Find(data, id).value, id)
    ensures exists i ::
              0 <= i <= j && data[i] == Find(data, id).value &&
              forall k :: 0 <= k < i ==> !HasRun(data[k], id)
  {
    FindFromIsFirstMatch(data, id, 0);
  }

  /** The linear scan behind `GET /brains/:id`. */
  method FindByRun(data: Dataset, id: string) returns (item: Option<Record>)
    ensures item == Find(data, id)
  {
    var i := 0;
    while i < |data|
      invariant 0 <= i <= |data|
      invariant FindFrom(data, id, i) == Find(data, id)
    {
      if HasRun(data[i], id) {
        return Some(data[i]);
      }
      i := i + 1;
    }
    return None;
  }

  /** `GET /brains`: the dataset, unchanged. */
  function GetAllResponse(data: Dataset): Response
  {
    Response(200, JsonArray(data))
  }

  /** `GET /brains/:id`: the first matching record, or 404 with a fixed text. */
  function GetByIdResponse(data: Dataset, id: string): (r: Response)
    ensures r.status == 200 || r == Response(404, Text(NotFoundText))
    ensures r.status == 200 ==> r.body.JsonObject? && r.body.record in data && HasRun(r.body.record, id)
  {
    match Find(data, id)
    case Some(item) => Response(200, JsonObject(item))
    case None => Response(404, Text(NotFoundText))
  }

  /** The handler a request is routed to. No handler has access to anything
      but the dataset it reads. Every route answers 200, except a lookup
      that no record matches, which answers 404. */
  function Respond(data: Dataset, req: Request): (r: Response)
    ensures r.status == 200 || r.status == 404
    ensures r.status == 404 <==> req.GetById? && forall k :: 0 <= k < |data| ==> !HasRun(data[k], req.id)
  {
    match req
    case GetAll => GetAllResponse(data)
    case GetById(id) =>
      GetByIdNotFound(data, id);
      GetByIdResponse(data, id)
    case Create => Response(200, Text(CreateText))
    case Edit => Response(200, Text(EditText))
    case Delete => Response(200, Text(DeleteText))
  }

  /** A found record is an element of the dataset whose `Run` is `id`, and
      no earlier record has that `Run`. */
  lemma GetByIdFound(data: Dataset, id: string)
    requires GetByIdResponse(data, id).status == 200
    ensures GetByIdResponse(data, id).body.JsonObject?
    ensures exists j ::
              0 <= j < |data| && data[j] == GetByIdResponse(data, id).body.record &&
              HasRun(data[j], id) && forall k :: 0 <= k < j ==> !HasRun(data[k], id)
  {
    FindFromIsFirstMatch(data, id, 0);
  }

  /** `GET /brains/:id` answers 404 "Item not found" exactly when no record
      has `Run == id`. */
  lemma GetByIdNotFound(data: Dataset, id: string)
    ensures GetByIdResponse(data, id) == Response(404, Text(NotFoundText)) <==>
      forall k :: 0 <= k < |data| ==> !HasRun(data[k], id)
  {
    FindFromIsFirstMatch(data, id, 0);
  }

  /** The write routes are inert placeholders: status 200, a fixed text
      naming the route, and no dependence on (or effect on) the dataset. */
  lemma WriteRoutesAreAcknowledgements(data: Dataset, other: Dataset, req: Request)
    requires req.Create? || req.Edit? || req.Delete?
    ensures Respond(data, req).status == 200
    ensures req.Create? ==> Respond(data, req).body == Text(CreateText)
    ensures req.Edit? ==> Respond(data, req).body == Text(EditText)
    ensures req.Delete? ==> Respond(data, req).body == Text(DeleteText)
    ensures Respond(data, req) == Respond(other, req)
  {
  }

  /** The running process. `data` and `mode` are constants assigned once by
      the startup branch in the constructor; request handling declares no
      `modifies` clause, so no route can write them. */
  class Server {
    const mode: DataProvider.Mode
    const data: Dataset

    /** Startup (index.js:18-42): try the configured file, fall back to the
        bundled file on failure, use the bundled file when no path is set. */
    constructor (config: Option<string>, load: string -> DataProvider.LoadResult, bundled: Dataset)
      ensures DataProvider.Selection(mode, data) == DataProvider.SelectSource(config, load, bundled)
    {
      if DataProvider.PathConfigured(config) {
        match load(config.value)
        case Loaded(d) =>
          data := d;
          mode := DataProvider.Real;
        case LoadFailed =>
          data := bundled;
          mode := DataProvider.Fallback;
      } else {
        data := bundled;
        mode := DataProvider.PublicDefault;
      }
    }

    /** Answer one request from the startup dataset. */
    method Handle(req: Request) returns (resp: Response)
      ensures resp == Respond(data, req)
    {
      match req
      case GetAll =>
        resp := Response(200, JsonArray(data));
      case GetById(id) =>
        var item := FindByRun(data, id);
        if item.Some? {
          resp := Response(200, JsonObject(item.value));
        } else {
          resp := Response(404, Text(NotFoundText));
        }
      case Create =>
        resp := Response(200, Text(CreateText));
      case Edit =>
        resp := Response(200, Text(EditText));
      case Delete =>
        resp := Response(200, Text(DeleteText));
    }
  }

  /** Any run of requests against one server: however many writes precede
      it, a `GET /brains` returns the startup dataset unchanged. The loop
      needs no invariant about the data: the guarantee comes from `data`
      being a `const` of the server and from `Handle` having no `modifies`
      clause, so no earlier request can have changed what is listed. */
  method ServeThenList(s: Server, earlier: seq<Request>) returns (listing: Response)
    ensures listing == Response(200, JsonArray(s.data))
  {
    var i := 0;
    while i < |earlier|
      invariant 0 <= i <= |earlier|
    {
      var _ := s.Handle(earlier[i]);
      i := i + 1;
    }
    listing := s.Handle(GetAll);
  }
}
