/**
 * The application: four routes under `/users`, each an ordered chain of
 * stages, a not-found fallback and the error handler. `Respond` is the whole
 * application as a function from a request and the table to the response
 * and the new table; `Handle` runs the stages on an `Exchange` and the
 * repository object and is proved to agree with it.
 */
module Handler {
  import opened Wrappers
  import opened Json
  import opened Errors
  import opened UserSchema
  import opened Repository
  import opened HttpResponses
  import opened EmailGuards
  import opened Middleware
  import SchemaProperties

  datatype Verb = GET | POST | PUT | DELETE | OtherVerb(name: string)

  /** A request: its method, the non-empty segments of its path, and its parsed JSON body. */
  datatype Request = Request(verb: Verb, path: seq<string>, body: Option<Value>)

  datatype Route = CreateRoute | ReadRoute(id: string) | UpdateRoute(id: string) | DeleteRoute(id: string) | NoRoute

  /** Failures of the storage service, other than a failed write condition, for the read and for the write of one request. */
  datatype Faults = Faults(read: Option<AppError>, write: Option<AppError>)

  /** The response to one request and the table it leaves. */
  datatype Served = Served(response: HttpResponse, table: Table)

  const USERS := "users"
  const ID_MISMATCH := "User ID in payload does not match ID in URL"

  /** The routes of the users router, mounted at `/users`; every other request falls through to the fallback. */
  function Resolve(req: Request): (r: Route)
    ensures r == CreateRoute <==> req.verb == POST && req.path == [USERS]
    ensures r.ReadRoute? || r.UpdateRoute? || r.DeleteRoute? ==>
      |req.path| == 2 && req.path[0] == USERS && req.path[1] == r.id
    ensures |req.path| == 2 && req.path[0] == USERS && req.path[1] != "" ==>
      (req.verb == GET <==> r.ReadRoute?) && (req.verb == PUT <==> r.UpdateRoute?) && (req.verb == DELETE <==> r.DeleteRoute?)
    ensures !(|req.path| in {1, 2}) || req.path[0] != USERS ==> r == NoRoute
  {
    if req.path == [USERS] && req.verb == POST then CreateRoute
    else if |req.path| == 2 && req.path[0] == USERS && req.path[1] != "" then
      match req.verb
      case GET => ReadRoute(req.path[1])
      case PUT => UpdateRoute(req.path[1])
      case DELETE => DeleteRoute(req.path[1])
      case _ => NoRoute
    else NoRoute
  }

  /** `if (!body.id) body.id = uuid()`: the fields after the in-place assignment. */
  function WithId(fields: seq<Field>, newId: string): (r: seq<Field>)
    ensures Get(r, ID) == if Truthy(Get(fields, ID)) then Get(fields, ID) else Some(Str(newId))
    ensures forall k :: k != ID ==> Get(r, k) == Get(fields, k)
  {
    if !Truthy(Get(fields, ID)) then SetField(fields, ID, Str(newId)) else fields
  }

  /** The user a parsed payload stands for, with `newId` standing in for an absent id. */
  function ItemOf(d: Draft, newId: string): (u: User)
    ensures u.id == if d.id.Some? then d.id.value else newId
    ensures d.Complete() ==> u == d.ToUser()
    ensures d.id.None? && d.firstName.Some? && d.lastName.Some? && d.emails.Some? && d.dob.Some? ==>
      u == d.(id := Some(newId)).ToUser()
  {
    User(d.id.GetOr(newId), d.firstName.GetOr(""), d.lastName.GetOr(""), d.emails.GetOr([]), d.dob.GetOr(""))
  }

  // ---------------------------------------------------------------- the whole application as a function

  /** POST /users: validate with `id` optional, assign an id when there is none, create. */
  function RespondCreate(body: Option<Value>, t: Table, newId: string, fault: Option<AppError>): Served {
    var p := Parsed(body, {ID});
    if p.NextError? then Served(ErrorHandler(p.error), t)
    else
      var d := Validate(body, {ID}).value;
      var w := Insert(t, ItemOf(d, newId), fault);
      if w.outcome.Fail? then Served(ErrorHandler(w.outcome.error), t)
      else Served(SendSuccess(201, Some(Obj(WithId(EncodeDraft(d).fields, newId)))), w.table)
  }

  /** GET /users/:id: fetch, then answer the fetched user. */
  function RespondRead(id: string, t: Table, fault: Option<AppError>): Served {
    var f := Lookup(t, id, fault);
    var c := Fetched(f);
    if c.NextError? then Served(ErrorHandler(c.error), t)
    else Served(SendSuccess(200, Some(Encode(f.value.value))), t)
  }

  /** PUT /users/:id: fetch, validate the full schema, guard the e-mails, compare the ids, update. */
  function RespondUpdate(id: string, body: Option<Value>, t: Table, faults: Faults): Served {
    var f := Lookup(t, id, faults.read);
    var c := Fetched(f);
    if c.NextError? then Served(ErrorHandler(c.error), t)
    else
      var p := Parsed(body, {});
      if p.NextError? then Served(ErrorHandler(p.error), t)
      else
        var d := Validate(body, {}).value;
        var g := CallOf(SrcEmailGuard(Some(EncodeDraft(d)), f.value));
        if g.NextError? then Served(ErrorHandler(g.error), t)
        else if Get(EncodeDraft(d).fields, ID) != Some(Str(id)) then
          Served(ErrorHandler(InvalidPayloadError(None, Some(ID_MISMATCH))), t)
        else
          var w := Replace(t, ItemOf(d, id), faults.write);
          if w.Err? then Served(ErrorHandler(w.error), t)
          else Served(SendSuccess(200, Some(EncodeDraft(d))), w.value.0)
  }

  /** DELETE /users/:id: delete without an existence check, answer 204 without data. */
  function RespondDelete(id: string, t: Table, fault: Option<AppError>): Served {
    var w := Remove(t, id, fault);
    if w.outcome.Fail? then Served(ErrorHandler(w.outcome.error), t)
    else Served(SendSuccess(204, None), w.table)
  }

  function Respond(req: Request, t: Table, newId: string, faults: Faults): Served {
    match Resolve(req)
    case CreateRoute => RespondCreate(req.body, t, newId, faults.write)
    case ReadRoute(id) => RespondRead(id, t, faults.read)
    case UpdateRoute(id) => RespondUpdate(id, req.body, t, faults)
    case DeleteRoute(id) => RespondDelete(id, t, faults.write)
    case NoRoute => Served(ErrorHandler(RouteNotFoundError(None)), t)
  }

  // ---------------------------------------------------------------- the route handlers

  /** `getUser`: answers 200 with the fetched user as data. */
  method GetUser(x: Exchange) returns (resp: HttpResponse)
    modifies x
    ensures resp == SendSuccess(200, if old(x.fetchedUser).Some? then Some(Encode(old(x.fetchedUser).value)) else None)
    ensures x.sent == old(x.sent) + [resp]
    ensures x.calls == old(x.calls) && x.body == old(x.body) && x.fetchedUser == old(x.fetchedUser)
  {
    resp := SendSuccess(200, if x.fetchedUser.Some? then Some(Encode(x.fetchedUser.value)) else None);
    x.sent := x.sent + [resp];
  }

  /**
   * `createUser`: assigns a fresh id to the body in place when it has none,
   * creates the user, and answers 201 with the body or forwards the error.
   */
  method CreateUser(x: Exchange, repo: UserRepository, newId: string, fault: Option<AppError>) returns (r: Result<HttpResponse, AppError>)
    requires Validate(x.body, {ID}).Ok?
    modifies x, repo
    ensures x.body == Some(Obj(WithId(old(x.body).value.fields, newId)))
    ensures var w := Insert(old(repo.items), ItemOf(Validate(old(x.body), {ID}).value, newId), fault);
      && repo.items == w.table
      && r == (if w.outcome.Pass? then Ok(SendSuccess(201, x.body)) else Err(w.outcome.error))
    ensures r.Ok? ==> x.sent == old(x.sent) + [r.value] && x.calls == old(x.calls)
    ensures r.Err? ==> x.calls == old(x.calls) + [NextError(r.error)] && x.sent == old(x.sent)
    ensures x.fetchedUser == old(x.fetchedUser)
  {
    var d := Validate(x.body, {ID}).value;
    var fields := x.body.value.fields;
    if !Truthy(Get(fields, ID)) {
      x.body := Some(Obj(SetField(fields, ID, Str(newId))));
    }
    var out := repo.Create(ItemOf(d, newId), fault);
    if out.Fail? {
      x.calls := x.calls + [NextError(out.error)];
      return Err(out.error);
    }
    var resp := SendSuccess(201, x.body);
    x.sent := x.sent + [resp];
    r := Ok(resp);
  }

  /**
   * `updateUser`: a payload whose id differs from the URL's is forwarded as an
   * invalid payload without writing; otherwise the whole item is replaced and
   * the payload is answered with 200.
   */
  method UpdateUser(x: Exchange, repo: UserRepository, fault: Option<AppError>) returns (r: Result<HttpResponse, AppError>)
    requires Validate(x.body, {}).Ok?
    modifies x, repo
    ensures Get(old(x.body).value.fields, ID) != Some(Str(x.id)) ==>
      r == Err(InvalidPayloadError(None, Some(ID_MISMATCH))) && repo.items == old(repo.items)
    ensures Get(old(x.body).value.fields, ID) == Some(Str(x.id)) ==>
      var w := Replace(old(repo.items), ItemOf(Validate(old(x.body), {}).value, x.id), fault);
      && repo.items == Updated(old(repo.items), ItemOf(Validate(old(x.body), {}).value, x.id), fault)
      && r == (if w.Ok? then Ok(SendSuccess(200, old(x.body))) else Err(w.error))
    ensures r.Ok? ==> x.sent == old(x.sent) + [r.value] && x.calls == old(x.calls)
    ensures r.Err? ==> x.calls == old(x.calls) + [NextError(r.error)] && x.sent == old(x.sent)
    ensures x.body == old(x.body) && x.fetchedUser == old(x.fetchedUser)
  {
    var d := Validate(x.body, {}).value;
    if Get(x.body.value.fields, ID) != Some(Str(x.id)) {
      var e := InvalidPayloadError(None, Some(ID_MISMATCH));
      x.calls := x.calls + [NextError(e)];
      return Err(e);
    }
    var out := repo.Update(ItemOf(d, x.id), fault);
    if out.Err? {
      x.calls := x.calls + [NextError(out.error)];
      return Err(out.error);
    }
    var resp := SendSuccess(200, x.body);
    x.sent := x.sent + [resp];
    r := Ok(resp);
  }

  /** `deleteUser`: deletes by the URL id and answers 204, or forwards the error. */
  method DeleteUser(x: Exchange, repo: UserRepository, fault: Option<AppError>) returns (r: Result<HttpResponse, AppError>)
    modifies x, repo
    ensures var w := Remove(old(repo.items), x.id, fault);
      && repo.items == w.table
      && r == (if w.outcome.Pass? then Ok(SendSuccess(204, None)) else Err(w.outcome.error))
    ensures r.Ok? ==> x.sent == old(x.sent) + [r.value] && x.calls == old(x.calls)
    ensures r.Err? ==> x.calls == old(x.calls) + [NextError(r.error)] && x.sent == old(x.sent)
    ensures x.body == old(x.body) && x.fetchedUser == old(x.fetchedUser)
  {
    var out := repo.Delete(x.id, fault);
    if out.Fail? {
      x.calls := x.calls + [NextError(out.error)];
      return Err(out.error);
    }
    var resp := SendSuccess(204, None);
    x.sent := x.sent + [resp];
    r := Ok(resp);
  }

  // ---------------------------------------------------------------- the route chains

  method HandleCreate(repo: UserRepository, body: Option<Value>, newId: string, fault: Option<AppError>) returns (resp: HttpResponse)
    modifies repo
    ensures Served(resp, repo.items) == RespondCreate(body, old(repo.items), newId, fault)
  {
    var x := new Exchange("", body);
    assert Mask([ID]) == {ID};
    var c := ValidatePayload(x, [ID]);
    if c.NextError? {
      return ErrorHandler(c.error);
    }
    var r := CreateUser(x, repo, newId, fault);
    resp := if r.Ok? then r.value else ErrorHandler(r.error);
  }

  method HandleRead(repo: UserRepository, id: string, fault: Option<AppError>) returns (resp: HttpResponse)
    ensures Served(resp, repo.items) == RespondRead(id, repo.items, fault)
  {
    var x := new Exchange(id, None);
    var c := FetchUser(x, repo, fault);
    if c.NextError? {
      return ErrorHandler(c.error);
    }
    resp := GetUser(x);
  }

  method HandleUpdate(repo: UserRepository, id: string, body: Option<Value>, faults: Faults) returns (resp: HttpResponse)
    modifies repo
    ensures Served(resp, repo.items) == RespondUpdate(id, body, old(repo.items), faults)
  {
    var x := new Exchange(id, body);
    var c := FetchUser(x, repo, faults.read);
    if c.NextError? {
      return ErrorHandler(c.error);
    }
    assert Mask([]) == {};
    c := ValidatePayload(x, []);
    if c.NextError? {
      return ErrorHandler(c.error);
    }
    c := GuardEmails(x);
    if c.NextError? {
      return ErrorHandler(c.error);
    }
    var r := UpdateUser(x, repo, faults.write);
    resp := if r.Ok? then r.value else ErrorHandler(r.error);
  }

  method HandleDelete(repo: UserRepository, id: string, fault: Option<AppError>) returns (resp: HttpResponse)
    modifies repo
    ensures Served(resp, repo.items) == RespondDelete(id, old(repo.items), fault)
  {
    var x := new Exchange(id, None);
    var r := DeleteUser(x, repo, fault);
    resp := if r.Ok? then r.value else ErrorHandler(r.error);
  }

  /** One request through the application: its route's chain, or the not-found fallback, then the error handler. */
  method Handle(repo: UserRepository, req: Request, newId: string, faults: Faults) returns (resp: HttpResponse)
    modifies repo
    ensures Served(resp, repo.items) == Respond(req, old(repo.items), newId, faults)
  {
    match Resolve(req)
    case CreateRoute =>
      resp := HandleCreate(repo, req.body, newId, faults.write);
    case ReadRoute(id) =>
      resp := HandleRead(repo, id, faults.read);
    case UpdateRoute(id) =>
      resp := HandleUpdate(repo, id, req.body, faults);
    case DeleteRoute(id) =>
      resp := HandleDelete(repo, id, faults.write);
    case NoRoute =>
      resp := ErrorHandler(RouteNotFoundError(None));
  }
}
