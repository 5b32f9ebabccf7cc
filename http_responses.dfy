/**
 * The uniform response envelope and the error handler that projects a thrown
 * error onto it. A response is its status code and the JSON object written
 * as its body; an undefined property of the envelope is absent from the
 * serialised body.
 */
module HttpResponses {
  import opened Wrappers
  import opened Json
  import opened Issues
  import opened Errors

  datatype HttpResponse = HttpResponse(status: int, body: Value)

  const DEFAULT_ERROR_STATUS := 500

  function PathElemJson(p: PathElem): Value {
    match p
    case Key(name) => Str(name)
    case Index(i) => Num(i)
  }

  /** Reading from a two-field object literal. */
  lemma GetPair(a: Field, b: Field, k: string)
    ensures Get([a, b], k) == if a.key == k then Some(a.value) else if b.key == k then Some(b.value) else None
  {
    var ab := [a, b];
    assert ab[0] == a && ab[1..] == [b];
    assert Get([b], k) == if b.key == k then Some(b.value) else Get([b][1..], k);
    assert [b][1..] == [];
  }

  /** An issue's path as a JSON array: keys as strings, indices as numbers, in order. */
  function PathJson(path: seq<PathElem>): (v: Value)
    ensures v.Arr? && |v.items| == |path|
    ensures forall j :: 0 <= j < |path| ==> v.items[j] == (if path[j].Key? then Str(path[j].name) else Num(path[j].i))
  {
    Arr(seq(|path|, i requires 0 <= i < |path| => PathElemJson(path[i])))
  }

  /**
   * Whether an issue's message comes from the library's error map, so that the
   * message is added after the path. The other issues of this schema are raised
   * with their own message, which keeps its place before the path.
   */
  predicate MessageFromErrorMap(code: IssueCode) {
    code == InvalidType || code == UnrecognizedKeys
  }

  /**
   * One validation issue as it is serialised: its code, the unrecognised keys
   * when there are any, then its path and its message, the message first when
   * the issue was raised with its own message.
   */
  function IssueJson(x: Issue): (v: Value)
    ensures v.Obj?
    ensures Get(v.fields, "code") == Some(Str(x.code.Name()))
    ensures Get(v.fields, "message") == Some(Str(x.message))
    ensures Get(v.fields, "keys") == if x.code == UnrecognizedKeys then Some(StrArray(x.keys)) else None
    ensures Get(v.fields, "path") == Some(PathJson(x.path))
    ensures Keys(v.fields) == ["code"] + (if x.code == UnrecognizedKeys then ["keys"] else [])
                              + (if MessageFromErrorMap(x.code) then ["path", "message"] else ["message", "path"])
  {
    var keys := if x.code == UnrecognizedKeys then Some(StrArray(x.keys)) else None;
    var path, message := Field("path", PathJson(x.path)), Field("message", Str(x.message));
    var code, rest := [Field("code", Str(x.code.Name()))], if MessageFromErrorMap(x.code) then [path, message] else [message, path];
    GetAppend(code + Entry("keys", keys), rest, "message");
    GetAppend(code, Entry("keys", keys), "message");
    GetAppend(code + Entry("keys", keys), rest, "keys");
    GetAppend(code, Entry("keys", keys), "keys");
    GetAppend(code + Entry("keys", keys), rest, "path");
    GetAppend(code, Entry("keys", keys), "path");
    GetEntry("keys", keys, "message");
    GetEntry("keys", keys, "keys");
    GetEntry("keys", keys, "path");
    GetPair(rest[0], rest[1], "keys");
    GetPair(rest[0], rest[1], "message");
    GetPair(rest[0], rest[1], "path");
    var fs := code + Entry("keys", keys) + rest;
    assert Keys(fs) == ["code"] + (if x.code == UnrecognizedKeys then ["keys"] else [])
                       + (if MessageFromErrorMap(x.code) then ["path", "message"] else ["message", "path"]);
    Obj(fs)
  }

  function IssuesJson(xs: seq<Issue>): (v: Value)
    ensures v.Arr? && |v.items| == |xs|
    ensures forall i :: 0 <= i < |xs| ==> v.items[i] == IssueJson(xs[i])
  {
    Arr(seq(|xs|, i requires 0 <= i < |xs| => IssueJson(xs[i])))
  }

  /** `sendSuccessResponse`: `{status: 'success', data}` with the given status. */
  function SendSuccess(statusCode: int, data: Option<Value>): (r: HttpResponse)
    ensures r.status == statusCode && r.body.Obj?
    ensures Get(r.body.fields, "status") == Some(Str("success"))
    ensures Get(r.body.fields, "data") == data
    ensures Keys(r.body.fields) == if data.Some? then ["status", "data"] else ["status"]
  {
    var head := [Field("status", Str("success"))];
    GetAppend(head, Entry("data", data), "data");
    GetAppend(head, Entry("data", data), "status");
    GetEntry("data", data, "data");
    HttpResponse(statusCode, Obj(head + Entry("data", data)))
  }

  /** `sendErrorResponse`: `{status: 'error', message, errors}`, with status 500 when none is given. */
  function SendError(statusCode: Option<int>, message: string, errors: Option<seq<Issue>>): (r: HttpResponse)
    ensures statusCode.Some? ==> r.status == statusCode.value
    ensures statusCode.None? ==> r.status == DEFAULT_ERROR_STATUS
    ensures r.body.Obj?
    ensures Get(r.body.fields, "status") == Some(Str("error"))
    ensures Get(r.body.fields, "message") == Some(Str(message))
    ensures Get(r.body.fields, "errors") == if errors.Some? then Some(IssuesJson(errors.value)) else None
    ensures Keys(r.body.fields) == if errors.Some? then ["status", "message", "errors"] else ["status", "message"]
  {
    var head := [Field("status", Str("error")), Field("message", Str(message))];
    var tail := if errors.Some? then Entry("errors", Some(IssuesJson(errors.value))) else [];
    GetAppend(head, tail, "errors");
    GetAppend(head, tail, "status");
    GetAppend(head, tail, "message");
    GetPair(head[0], head[1], "errors");
    GetPair(head[0], head[1], "status");
    GetPair(head[0], head[1], "message");
    HttpResponse(statusCode.GetOr(DEFAULT_ERROR_STATUS), Obj(head + tail))
  }

  /**
   * `errorHandlerMiddleware`: the status code, message and issue list of the
   * error, verbatim; the error's status code, when it has one, decides the status.
   */
  function ErrorHandler(e: AppError): (r: HttpResponse)
    ensures r.status == if e.StatusCode().Some? then e.StatusCode().value else 500
    ensures r.body.Obj?
    ensures Get(r.body.fields, "status") == Some(Str("error"))
    ensures Get(r.body.fields, "message") == Some(Str(e.message))
    ensures Get(r.body.fields, "errors") == if e.errors.Some? then Some(IssuesJson(e.errors.value)) else None
  {
    SendError(e.StatusCode(), e.message, e.errors)
  }

  // ---------------------------------------------------------------- properties

  /** The handler consults the error's status code, message and issue list and nothing else. */
  lemma ErrorHandlerReadsThreeFields(e1: AppError, e2: AppError)
    requires e1.StatusCode() == e2.StatusCode() && e1.message == e2.message && e1.errors == e2.errors
    ensures ErrorHandler(e1) == ErrorHandler(e2)
  {
  }

  /** A plain error has no status code: the answer is 500 with the error's own message and no issue list. */
  lemma PlainErrorIs500(typeName: string, message: string)
    ensures ErrorHandler(UntypedError(typeName, message)) == HttpResponse(500, Obj([Field("status", Str("error")), Field("message", Str(message))]))
  {
  }

  /** A domain error without issues is answered with its own status and default message, and no `errors` key. */
  lemma DomainErrorAnswers()
    ensures ErrorHandler(UserNotFoundError(None)) == HttpResponse(404, Obj([Field("status", Str("error")), Field("message", Str("User not found"))]))
    ensures ErrorHandler(RouteNotFoundError(None)) == HttpResponse(404, Obj([Field("status", Str("error")), Field("message", Str("Route not found"))]))
    ensures ErrorHandler(UserAlreadyExistsError(None)).status == 400
    ensures ErrorHandler(InvalidEmailDeletionError(None)) ==
      HttpResponse(400, Obj([Field("status", Str("error")), Field("message", Str("Deleting an email address is not allowed"))]))
  {
  }
}
