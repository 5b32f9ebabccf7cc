/**
 * The request stages that change the request in place: fetching the addressed
 * user into the request context, replacing the body by the validated payload,
 * and the e-mail guard. An `Exchange` holds what the stages read and write:
 * the id in the URL, the body, the fetched user, every call of `next` and
 * every response written, in order.
 */
module Middleware {
  import opened Wrappers
  import opened Json
  import opened Issues
  import opened Errors
  import opened UserSchema
  import opened Repository
  import opened HttpResponses
  import opened EmailGuards
  import SchemaProperties

  /** One call of `next`: `next()` or `next(error)`. */
  datatype Call = Next | NextError(error: AppError)

  function CallOf(o: Outcome<AppError>): (c: Call)
    ensures c.Next? <==> o.Pass?
    ensures o.Fail? ==> c.error == o.error
  {
    if o.Pass? then Next else NextError(o.error)
  }

  class Exchange {
    const id: string
    var body: Option<Value>
    var fetchedUser: Option<User>
    var calls: seq<Call>
    var sent: seq<HttpResponse>

    constructor(id: string, body: Option<Value>)
      ensures this.id == id && this.body == body && fetchedUser.None? && calls == [] && sent == []
    {
      this.id := id;
      this.body := body;
      fetchedUser := None;
      calls := [];
      sent := [];
    }
  }

  // ---------------------------------------------------------------- fetching the user

  /** The call the fetch stage makes for the result of reading the table. */
  function Fetched(r: Result<Option<User>, AppError>): (c: Call)
    ensures c.Next? <==> r.Ok? && r.value.Some?
    ensures r.Err? ==> c == NextError(r.error)
    ensures r == Ok(None) ==> c == NextError(UserNotFoundError(None))
  {
    match r
    case Err(e) => NextError(e)
    case Ok(None) => NextError(UserNotFoundError(None))
    case Ok(Some(_)) => Next
  }

  /** The body written by the not-found branch of the fetch stage as written: `{error: message}`. */
  function NotFoundBody(): Value {
    Obj([Field("error", Str(UserNotFoundError(None).message))])
  }

  /**
   * `fetchUserMiddleware` as written: a rejected read is neither forwarded nor
   * answered (it escapes the stage); a missing user is forwarded as an error
   * AND answered with a 404 `{error}` body; a found user is stored in the
   * context.
   */
  method FetchUserAsWritten(x: Exchange, repo: UserRepository, fault: Option<AppError>) returns (escaped: Option<AppError>)
    modifies x
    ensures x.body == old(x.body)
    ensures Lookup(repo.items, x.id, fault).Err? ==>
      escaped == Some(Lookup(repo.items, x.id, fault).error)
      && x.calls == old(x.calls) && x.sent == old(x.sent) && x.fetchedUser == old(x.fetchedUser)
    ensures Lookup(repo.items, x.id, fault) == Ok(None) ==>
      escaped.None? && x.fetchedUser == old(x.fetchedUser)
      && x.calls == old(x.calls) + [NextError(UserNotFoundError(None))]
      && x.sent == old(x.sent) + [HttpResponse(404, NotFoundBody())]
    ensures Lookup(repo.items, x.id, fault).Ok? && Lookup(repo.items, x.id, fault).value.Some? ==>
      escaped.None? && x.fetchedUser == Lookup(repo.items, x.id, fault).value
      && x.calls == old(x.calls) + [Next] && x.sent == old(x.sent)
  {
    var r := repo.Get(x.id, fault);
    if r.Err? {
      return Some(r.error);
    }
    escaped := None;
    if r.value.None? {
      x.calls := x.calls + [NextError(UserNotFoundError(None))];
      var error := UserNotFoundError(None);
      x.sent := x.sent + [HttpResponse(error.StatusCode().value, Obj([Field("error", Str(error.message))]))];
      return;
    }
    x.fetchedUser := r.value;
    x.calls := x.calls + [Next];
  }

  /**
   * The fetch stage as its callers rely on it: exactly one call of `next` and
   * no response; a rejected read and a missing user are forwarded as errors.
   */
  method FetchUser(x: Exchange, repo: UserRepository, fault: Option<AppError>) returns (c: Call)
    modifies x
    ensures c == Fetched(Lookup(repo.items, x.id, fault))
    ensures x.calls == old(x.calls) + [c]
    ensures c.Next? ==> x.fetchedUser == Lookup(repo.items, x.id, fault).value
    ensures c.NextError? ==> x.fetchedUser == old(x.fetchedUser)
    ensures x.body == old(x.body) && x.sent == old(x.sent)
  {
    var r := repo.Get(x.id, fault);
    if r.Err? {
      c := NextError(r.error);
    } else if r.value.None? {
      c := NextError(UserNotFoundError(None));
    } else {
      x.fetchedUser := r.value;
      c := Next;
    }
    x.calls := x.calls + [c];
  }

  // ---------------------------------------------------------------- validating the payload

  /** The call the validation stage makes for a body. */
  function Parsed(body: Option<Value>, optional: set<string>): (c: Call)
    ensures c.Next? <==> Validate(body, optional).Ok?
    ensures c.NextError? ==> c.error == InvalidPayloadError(Some(Validate(body, optional).error), None)
  {
    match Validate(body, optional)
    case Ok(_) => Next
    case Err(issues) => NextError(InvalidPayloadError(Some(issues), None))
  }

  /**
   * `validatePayloadMiddleware(optionalKeys)` as written: the failure branch
   * forwards the error and then falls through, so the body becomes undefined
   * and `next()` is called a second time.
   */
  method ValidatePayloadAsWritten(x: Exchange, optionalKeys: seq<string>)
    modifies x
    ensures var v := Validate(old(x.body), Mask(optionalKeys));
      && x.calls == old(x.calls) + (if v.Ok? then [Next] else [Parsed(old(x.body), Mask(optionalKeys)), Next])
      && x.body == (if v.Ok? then Some(EncodeDraft(v.value)) else None)
    ensures x.fetchedUser == old(x.fetchedUser) && x.sent == old(x.sent)
  {
    var v := Validate(x.body, Mask(optionalKeys));
    if v.Err? {
      x.calls := x.calls + [NextError(InvalidPayloadError(Some(v.error), None))];
    }
    x.body := if v.Ok? then Some(EncodeDraft(v.value)) else None;
    x.calls := x.calls + [Next];
  }

  /**
   * The validation stage with the missing `return` restored: one call of
   * `next`; on success the body is replaced by the parsed payload, which
   * validates again to the same payload.
   */
  method ValidatePayload(x: Exchange, optionalKeys: seq<string>) returns (c: Call)
    modifies x
    ensures c == Parsed(old(x.body), Mask(optionalKeys))
    ensures x.calls == old(x.calls) + [c]
    ensures c.NextError? ==> x.body == old(x.body)
    ensures c.Next? ==> x.body == Some(EncodeDraft(Validate(old(x.body), Mask(optionalKeys)).value))
    ensures c.Next? ==> Validate(x.body, Mask(optionalKeys)) == Validate(old(x.body), Mask(optionalKeys))
    ensures x.fetchedUser == old(x.fetchedUser) && x.sent == old(x.sent)
  {
    var optional := Mask(optionalKeys);
    var v := Validate(x.body, optional);
    if v.Err? {
      c := NextError(InvalidPayloadError(Some(v.error), None));
      x.calls := x.calls + [c];
      return;
    }
    SchemaProperties.ValidateSound(x.body, optional);
    SchemaProperties.ValidateAccepts(v.value, optional);
    x.body := Some(EncodeDraft(v.value));
    c := Next;
    x.calls := x.calls + [c];
  }

  // ---------------------------------------------------------------- the e-mail guard

  /** `validateEmailUpdatesMiddleware`: one call of `next`, with the guard's error if any; nothing else changes. */
  method GuardEmails(x: Exchange) returns (c: Call)
    modifies x
    ensures c == CallOf(SrcEmailGuard(old(x.body), old(x.fetchedUser)))
    ensures x.calls == old(x.calls) + [c]
    ensures x.body == old(x.body) && x.fetchedUser == old(x.fetchedUser) && x.sent == old(x.sent)
  {
    c := CallOf(SrcEmailGuard(x.body, x.fetchedUser));
    x.calls := x.calls + [c];
  }

  // ---------------------------------------------------------------- defects of the stages as written

  /** A missing body fails validation, and the stage as written then calls `next()` again with the body undefined. */
  method InvalidPayloadFallsThrough() returns (calls: seq<Call>, body: Option<Value>)
    ensures calls == [NextError(InvalidPayloadError(Some([Issue(InvalidType, REQUIRED, [], [])]), None)), Next]
    ensures body.None?
  {
    var x := new Exchange("", None);
    ValidatePayloadAsWritten(x, []);
    calls, body := x.calls, x.body;
  }

  /** On an empty table the stage as written both forwards a not-found error and answers 404 itself. */
  method MissingUserForwardedAndAnswered(id: string) returns (calls: seq<Call>, sent: seq<HttpResponse>)
    ensures calls == [NextError(UserNotFoundError(None))]
    ensures sent == [HttpResponse(404, NotFoundBody())]
  {
    var repo := new UserRepository();
    var x := new Exchange(id, None);
    var escaped := FetchUserAsWritten(x, repo, None);
    calls, sent := x.calls, x.sent;
  }

  /** A failed read escapes the stage as written: `next` is not called and nothing is answered. */
  method RejectedReadEscapes(id: string, failure: AppError) returns (calls: seq<Call>, sent: seq<HttpResponse>, escaped: Option<AppError>)
    ensures calls == [] && sent == []
    ensures escaped == Some(failure)
  {
    var repo := new UserRepository();
    var x := new Exchange(id, None);
    escaped := FetchUserAsWritten(x, repo, Some(failure));
    calls, sent := x.calls, x.sent;
  }
}
