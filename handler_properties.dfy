/**
 * What the application promises across its routes: a created user can be read
 * back, deleting is idempotent, an update can add addresses but never drop
 * one, only successful requests change the table, and the table only ever
 * holds well-formed users stored under their own ids.
 */
module HandlerProperties {
  import opened Wrappers
  import opened Json
  import opened Issues
  import opened Formats
  import opened Errors
  import opened UserSchema
  import opened Repository
  import opened HttpResponses
  import opened EmailGuards
  import opened Middleware
  import opened Handler
  import SchemaProperties

  const NO_FAULTS := Faults(None, None)

  /** The body of a request carrying a user, and the parsed payload it yields under either mask. */
  lemma UserBodyParses(u: User)
    requires WellFormed(u)
    ensures Validate(Some(Encode(u)), {}) == Ok(FromUser(u))
    ensures Validate(Some(Encode(u)), {ID}) == Ok(FromUser(u))
    ensures Get(Encode(u).fields, ID) == Some(Str(u.id))
    ensures Get(Encode(u).fields, EMAILS) == Some(StrArray(u.emails))
  {
    SchemaProperties.WellFormedIffAccepted(u);
    SchemaProperties.MaskingOnlyRelaxes(Some(Encode(u)), {ID});
    SchemaProperties.GetEncoded(FromUser(u));
  }

  /** A UUID is never empty, so a present id is truthy and kept. */
  lemma UuidIsTruthy(s: string)
    requires IsUuid(s)
    ensures Truthy(Some(Str(s)))
  {
  }

  // ---------------------------------------------------------------- create and read

  /** Posting a well-formed user with a new id stores it as sent and answers 201 with it; reading it back answers 200 with it. */
  lemma CreateThenRead(t: Table, u: User, newId: string)
    requires WellFormed(u) && u.id !in t
    ensures RespondCreate(Some(Encode(u)), t, newId, None) == Served(SendSuccess(201, Some(Encode(u))), t[u.id := u])
    ensures RespondRead(u.id, t[u.id := u], None) == Served(SendSuccess(200, Some(Encode(u))), t[u.id := u])
  {
    UserBodyParses(u);
    UuidIsTruthy(u.id);
  }

  /** Posting a user whose id is already stored answers 400 'A user with the same id already exists' and changes nothing. */
  lemma CreateExistingRejected(t: Table, u: User, newId: string)
    requires WellFormed(u) && u.id in t
    ensures RespondCreate(Some(Encode(u)), t, newId, None) == Served(ErrorHandler(UserAlreadyExistsError(None)), t)
    ensures ErrorHandler(UserAlreadyExistsError(None)).status == 400
  {
    UserBodyParses(u);
  }

  /** A payload that parses and whose user is new is stored, and the body with its id is answered with 201. */
  lemma CreateAccepted(body: Option<Value>, t: Table, newId: string, d: Draft)
    requires Validate(body, {ID}) == Ok(d) && ItemOf(d, newId).id !in t
    ensures RespondCreate(body, t, newId, None) ==
      Served(SendSuccess(201, Some(Obj(WithId(EncodeDraft(d).fields, newId)))), t[ItemOf(d, newId).id := ItemOf(d, newId)])
  {
  }

  /** A payload without an id gets the fresh id appended as its last key, and the user is stored under it. */
  lemma CreateAssignsFreshId(t: Table, d: Draft, newId: string)
    requires d.id.None? && d.Admissible({ID}) && newId !in t
    ensures RespondCreate(Some(EncodeDraft(d)), t, newId, None) ==
      Served(SendSuccess(201, Some(Obj(EncodeDraft(d).fields + [Field(ID, Str(newId))]))),
             t[newId := d.(id := Some(newId)).ToUser()])
  {
    SchemaProperties.ValidateAccepts(d, {ID});
    FreshItem(d, newId);
    CreateParsedWithoutId(t, d, newId);
  }

  lemma FreshItem(d: Draft, newId: string)
    requires d.id.None? && d.Admissible({ID})
    ensures d.(id := Some(newId)).Complete() && ItemOf(d, newId) == d.(id := Some(newId)).ToUser()
  {
  }

  lemma CreateParsedWithoutId(t: Table, d: Draft, newId: string)
    requires d.id.None? && Validate(Some(EncodeDraft(d)), {ID}) == Ok(d) && newId !in t
    ensures RespondCreate(Some(EncodeDraft(d)), t, newId, None) ==
      Served(SendSuccess(201, Some(Obj(EncodeDraft(d).fields + [Field(ID, Str(newId))]))),
             t[newId := ItemOf(d, newId)])
  {
    FreshIdAppended(d, newId);
    CreateAccepted(Some(EncodeDraft(d)), t, newId, d);
  }

  lemma FreshIdAppended(d: Draft, newId: string)
    requires d.id.None?
    ensures WithId(EncodeDraft(d).fields, newId) == EncodeDraft(d).fields + [Field(ID, Str(newId))]
  {
    var fs := EncodeDraft(d).fields;
    SchemaProperties.GetEncoded(d);
    assert Get(fs, ID).None?;
    SetFieldAppends(fs, ID, Str(newId));
  }

  // ---------------------------------------------------------------- delete

  /** Deleting answers 204 without data whether or not the user exists, so deleting twice succeeds twice. */
  lemma DeleteTwice(t: Table, id: string)
    ensures RespondDelete(id, t, None) == Served(SendSuccess(204, None), t - {id})
    ensures RespondDelete(id, t - {id}, None) == Served(SendSuccess(204, None), t - {id})
    ensures Keys(SendSuccess(204, None).body.fields) == ["status"]
  {
    assert (t - {id}) - {id} == t - {id};
  }

  // ---------------------------------------------------------------- update

  /** `errors` lists an issue with the given message at the given serialised path. */
  predicate ListsIssueAt(errors: Value, message: string, path: Value) {
    errors.Arr? &&
    exists j :: 0 <= j < |errors.items| && errors.items[j].Obj? &&
      Get(errors.items[j].fields, "message") == Some(Str(message)) && Get(errors.items[j].fields, "path") == Some(path)
  }

  lemma IssueListed(xs: seq<Issue>, x: Issue)
    requires x in xs
    ensures ListsIssueAt(IssuesJson(xs), x.message, PathJson(x.path))
  {
    var j :| 0 <= j < |xs| && xs[j] == x;
    assert IssuesJson(xs).items[j] == IssueJson(x);
  }

  /**
   * Creating with an element of `emails` that is not an address answers 400
   * 'Invalid payload', lists 'Invalid email format' at ["emails", i], and writes nothing.
   */
  lemma CreateInvalidEmailAnswered(fields: seq<Field>, items: seq<Value>, i: nat, t: Table, newId: string, fault: Option<AppError>)
    requires Get(fields, EMAILS) == Some(Arr(items))
    requires i < |items| && items[i].Str? && !IsEmail(items[i].s)
    ensures var s := RespondCreate(Some(Obj(fields)), t, newId, fault);
      s.table == t && s.response.status == 400 && Get(s.response.body.fields, "message") == Some(Str("Invalid payload"))
    ensures var s := RespondCreate(Some(Obj(fields)), t, newId, fault);
      Get(s.response.body.fields, "errors").Some? &&
      ListsIssueAt(Get(s.response.body.fields, "errors").value, EMAIL_FORMAT, Arr([Str(EMAILS), Num(i)]))
  {
    var x := Issue(InvalidString, EMAIL_FORMAT, [Key(EMAILS), Index(i)], []);
    SchemaProperties.InvalidEmailReportedAtIndex(fields, {ID}, items, i);
    CreateRejectionLists(Some(Obj(fields)), t, newId, fault, x);
    ElementPathJson(i);
  }

  lemma ElementPathJson(i: nat)
    ensures PathJson([Key(EMAILS), Index(i)]) == Arr([Str(EMAILS), Num(i)])
  {
    assert PathJson([Key(EMAILS), Index(i)]).items == [Str(EMAILS), Num(i)];
  }

  /** A create whose payload fails the schema answers 400 'Invalid payload', lists each issue, and writes nothing. */
  lemma CreateRejectionLists(body: Option<Value>, t: Table, newId: string, fault: Option<AppError>, x: Issue)
    requires Validate(body, {ID}).Err? && x in Validate(body, {ID}).error
    ensures var s := RespondCreate(body, t, newId, fault);
      s.table == t && s.response.status == 400 && Get(s.response.body.fields, "message") == Some(Str("Invalid payload"))
    ensures var s := RespondCreate(body, t, newId, fault);
      Get(s.response.body.fields, "errors").Some? &&
      ListsIssueAt(Get(s.response.body.fields, "errors").value, x.message, PathJson(x.path))
  {
    var errs := Validate(body, {ID}).error;
    assert RespondCreate(body, t, newId, fault) == Served(ErrorHandler(InvalidPayloadError(Some(errs), None)), t);
    IssueListed(errs, x);
  }

  /** Updating a user that is not stored answers 404 before the payload is even looked at. */
  lemma UpdateMissingUserIs404(t: Table, id: string, body: Option<Value>, write: Option<AppError>)
    requires id !in t
    ensures RespondUpdate(id, body, t, Faults(None, write)) == Served(ErrorHandler(UserNotFoundError(None)), t)
    ensures ErrorHandler(UserNotFoundError(None)).status == 404
  {
  }

  /** An update whose payload fails the schema answers 400 'Invalid payload' with the issue list and writes nothing. */
  lemma UpdateInvalidPayloadRejected(t: Table, id: string, body: Option<Value>, write: Option<AppError>)
    requires id in t && Validate(body, {}).Err?
    ensures RespondUpdate(id, body, t, Faults(None, write)) ==
      Served(ErrorHandler(InvalidPayloadError(Some(Validate(body, {}).error), None)), t)
  {
  }

  /** Sending a user back without one of its stored addresses answers 400 'Deleting an email address is not allowed'. */
  lemma UpdateDroppingEmailRejected(t: Table, v: User, i: nat, write: Option<AppError>)
    requires WellFormed(v) && v.id in t
    requires i < |t[v.id].emails| && t[v.id].emails[i] !in v.emails
    ensures RespondUpdate(v.id, Some(Encode(v)), t, Faults(None, write)) == Served(ErrorHandler(InvalidEmailDeletionError(None)), t)
    ensures ErrorHandler(InvalidEmailDeletionError(None)).status == 400
  {
    UserBodyParses(v);
    DroppingAnAddressFails(Encode(v).fields, t[v.id], v.emails, i);
  }

  /** Sending a well-formed user that keeps every stored address (in any order, with additions) replaces it and answers 200. */
  lemma UpdateKeepingEmailsAccepted(t: Table, v: User)
    requires WellFormed(v) && v.id in t && Superset(t[v.id].emails, v.emails)
    ensures RespondUpdate(v.id, Some(Encode(v)), t, NO_FAULTS) == Served(SendSuccess(200, Some(Encode(v))), t[v.id := v])
  {
    UserBodyParses(v);
    SrcGuardIsSuperset(Encode(v).fields, t[v.id], v.emails);
  }

  /** A payload whose id is not the URL's answers 400 with the mismatch message and no issue list, and writes nothing. */
  lemma UpdateIdMismatchRejected(t: Table, id: string, v: User)
    requires WellFormed(v) && id in t && v.id != id && Superset(t[id].emails, v.emails)
    ensures RespondUpdate(id, Some(Encode(v)), t, NO_FAULTS) ==
      Served(ErrorHandler(InvalidPayloadError(None, Some(ID_MISMATCH))), t)
    ensures ErrorHandler(InvalidPayloadError(None, Some(ID_MISMATCH))) ==
      HttpResponse(400, Obj([Field("status", Str("error")), Field("message", Str(ID_MISMATCH))]))
  {
    UserBodyParses(v);
    SrcGuardIsSuperset(Encode(v).fields, t[id], v.emails);
  }

  // ---------------------------------------------------------------- across all routes

  /** A request that matches no route answers 404 'Route not found' and changes nothing. */
  lemma UnknownRouteIs404(req: Request, t: Table, newId: string, faults: Faults)
    requires Resolve(req) == NoRoute
    ensures Respond(req, t, newId, faults) ==
      Served(HttpResponse(404, Obj([Field("status", Str("error")), Field("message", Str("Route not found"))])), t)
  {
  }

  /** A failure of the storage service is answered 500 with its own message, and changes nothing. */
  lemma StorageFailureIs500(req: Request, t: Table, newId: string, name: string, message: string)
    requires Resolve(req) != NoRoute
    requires Resolve(req) == CreateRoute ==> Validate(req.body, {ID}).Ok?
    ensures var failing := Faults(Some(UntypedError(name, message)), Some(UntypedError(name, message)));
      Respond(req, t, newId, failing) ==
        Served(HttpResponse(500, Obj([Field("status", Str("error")), Field("message", Str(message))])), t)
  {
    var e := UntypedError(name, message);
    PlainErrorIs500(name, message);
    match Resolve(req)
    case CreateRoute =>
      assert Insert(t, ItemOf(Validate(req.body, {ID}).value, newId), Some(e)).outcome == Fail(e);
    case _ =>
  }

  /** Only a successful request changes the table: every error answer leaves it as it was. */
  lemma OnlySuccessWrites(req: Request, t: Table, newId: string, faults: Faults)
    ensures var s := Respond(req, t, newId, faults);
      s.table != t ==> s.response.status in {200, 201, 204} && Get(s.response.body.fields, "status") == Some(Str("success"))
  {
    match Resolve(req)
    case CreateRoute => CreateWritesOnSuccess(req.body, t, newId, faults.write);
    case UpdateRoute(id) => UpdateWritesOnSuccess(id, req.body, t, faults);
    case DeleteRoute(id) => DeleteWritesOnSuccess(id, t, faults.write);
    case _ =>
  }

  /** `s` changed the table `t` only with a success answer. */
  predicate WroteOnSuccess(s: Served, t: Table) {
    s.table != t ==> s.response.status in {200, 201, 204} && s.response.body.Obj? && Get(s.response.body.fields, "status") == Some(Str("success"))
  }

  lemma CreateWritesOnSuccess(body: Option<Value>, t: Table, newId: string, fault: Option<AppError>)
    ensures WroteOnSuccess(RespondCreate(body, t, newId, fault), t)
  {
  }

  lemma UpdateWritesOnSuccess(id: string, body: Option<Value>, t: Table, faults: Faults)
    ensures WroteOnSuccess(RespondUpdate(id, body, t, faults), t)
  {
    var s := RespondUpdate(id, body, t, faults);
    var f := Lookup(t, id, faults.read);
    if Fetched(f).Next? && Parsed(body, {}).Next? {
      var d := Validate(body, {}).value;
      var g := CallOf(SrcEmailGuard(Some(EncodeDraft(d)), f.value));
      var w := Replace(t, ItemOf(d, id), faults.write);
      if g.Next? && Get(EncodeDraft(d).fields, ID) == Some(Str(id)) && w.Ok? {
        assert s.response == SendSuccess(200, Some(EncodeDraft(d)));
      } else {
        assert s.table == t;
      }
    } else {
      assert s.table == t;
    }
  }

  lemma DeleteWritesOnSuccess(id: string, t: Table, fault: Option<AppError>)
    ensures WroteOnSuccess(RespondDelete(id, t, fault), t)
  {
  }

  /** The user a parsed payload stands for obeys the schema when the payload was admissible. */
  lemma ItemWellFormed(d: Draft, optional: set<string>, newId: string)
    requires optional <= {ID} && d.Admissible(optional)
    requires d.id.None? ==> IsUuid(newId)
    ensures WellFormed(ItemOf(d, newId))
  {
  }

  /** The user a payload accepted under `optional` stands for obeys the schema. */
  lemma AcceptedItemWellFormed(body: Option<Value>, optional: set<string>, newId: string)
    requires optional <= {ID} && Validate(body, optional).Ok?
    requires optional == {ID} ==> IsUuid(newId)
    ensures WellFormed(ItemOf(Validate(body, optional).value, newId))
  {
    var d := Validate(body, optional).value;
    SchemaProperties.ValidateSound(body, optional);
    ItemWellFormed(d, optional, newId);
  }

  /** Creating either leaves the table as it was or stores the parsed user under its id. */
  lemma CreateTable(body: Option<Value>, t: Table, newId: string, fault: Option<AppError>)
    ensures var t' := RespondCreate(body, t, newId, fault).table;
      t' == t || (Validate(body, {ID}).Ok? && ItemOf(Validate(body, {ID}).value, newId).id !in t
        && t' == t[ItemOf(Validate(body, {ID}).value, newId).id := ItemOf(Validate(body, {ID}).value, newId)])
  {
  }

  /** Updating either leaves the table as it was or stores the parsed user under the URL's id. */
  lemma UpdateTable(id: string, body: Option<Value>, t: Table, faults: Faults)
    ensures var t' := RespondUpdate(id, body, t, faults).table;
      t' == t || (Validate(body, {}).Ok? && ItemOf(Validate(body, {}).value, id).id == id
        && t' == t[id := ItemOf(Validate(body, {}).value, id)])
  {
    var s := RespondUpdate(id, body, t, faults);
    var f := Lookup(t, id, faults.read);
    if Fetched(f).Next? && Parsed(body, {}).Next? {
      var d := Validate(body, {}).value;
      var g := CallOf(SrcEmailGuard(Some(EncodeDraft(d)), f.value));
      if g.Next? && Get(EncodeDraft(d).fields, ID) == Some(Str(id)) {
        var w := Replace(t, ItemOf(d, id), faults.write);
        assert s.table == if w.Err? then t else w.value.0;
      } else {
        assert s.table == t;
      }
    } else {
      assert s.table == t;
    }
  }

  /** Storing a well-formed user under its own id keeps a keyed, well-formed table so. */
  lemma StorePut(t: Table, u: User)
    requires Keyed(t) && AllWellFormed(t) && WellFormed(u)
    ensures Keyed(t[u.id := u]) && AllWellFormed(t[u.id := u])
  {
    assert forall k :: k in t[u.id := u] ==> t[u.id := u][k] == if k == u.id then u else t[k];
  }

  lemma CreateKeepsStore(body: Option<Value>, t: Table, newId: string, fault: Option<AppError>)
    requires Keyed(t) && AllWellFormed(t) && IsUuid(newId)
    ensures Keyed(RespondCreate(body, t, newId, fault).table)
    ensures AllWellFormed(RespondCreate(body, t, newId, fault).table)
  {
    CreateTable(body, t, newId, fault);
    if Validate(body, {ID}).Ok? {
      AcceptedItemWellFormed(body, {ID}, newId);
      StorePut(t, ItemOf(Validate(body, {ID}).value, newId));
    }
  }

  lemma UpdateKeepsStore(id: string, body: Option<Value>, t: Table, faults: Faults)
    requires Keyed(t) && AllWellFormed(t)
    ensures Keyed(RespondUpdate(id, body, t, faults).table)
    ensures AllWellFormed(RespondUpdate(id, body, t, faults).table)
  {
    UpdateTable(id, body, t, faults);
    if Validate(body, {}).Ok? {
      AcceptedItemWellFormed(body, {}, id);
      StorePut(t, ItemOf(Validate(body, {}).value, id));
    }
  }

  /** Whatever the request, a table of well-formed users under their own ids stays one, given a UUID for a fresh id. */
  lemma StoreInvariant(req: Request, t: Table, newId: string, faults: Faults)
    requires Keyed(t) && AllWellFormed(t) && IsUuid(newId)
    ensures Keyed(Respond(req, t, newId, faults).table)
    ensures AllWellFormed(Respond(req, t, newId, faults).table)
  {
    match Resolve(req)
    case CreateRoute =>
      CreateKeepsStore(req.body, t, newId, faults.write);
    case UpdateRoute(id) =>
      UpdateKeepsStore(id, req.body, t, faults);
    case _ =>
  }

  /** An update that writes keeps every address the stored user had. */
  lemma UpdateKeepsEmails(id: string, body: Option<Value>, t: Table, faults: Faults)
    ensures var t' := RespondUpdate(id, body, t, faults).table;
      t' == t || (id in t && id in t' && Superset(t[id].emails, t'[id].emails))
  {
    UpdateTable(id, body, t, faults);
    var t' := RespondUpdate(id, body, t, faults).table;
    if t' != t {
      var d := Validate(body, {}).value;
      SchemaProperties.ValidateSound(body, {});
      SchemaProperties.GetEncoded(d);
      SrcGuardIsSuperset(EncodeDraft(d).fields, t[id], d.emails.value);
    }
  }

  /** Whatever the request, no user that is still stored afterwards has lost an address. */
  lemma EmailsOnlyGrow(req: Request, t: Table, newId: string, faults: Faults)
    ensures var t' := Respond(req, t, newId, faults).table;
      forall k :: k in t && k in t' ==> Superset(t[k].emails, t'[k].emails)
  {
    match Resolve(req)
    case CreateRoute => CreateLosesNoAddress(req.body, t, newId, faults.write);
    case UpdateRoute(id) => UpdateLosesNoAddress(id, req.body, t, faults);
    case DeleteRoute(id) => DeleteLosesNoAddress(id, t, faults.write);
    case _ =>
  }

  /** Every user of `t` still stored in `t'` has kept all its addresses. */
  predicate NoAddressLost(t: Table, t': Table) {
    forall k :: k in t && k in t' ==> Superset(t[k].emails, t'[k].emails)
  }

  lemma CreateLosesNoAddress(body: Option<Value>, t: Table, newId: string, fault: Option<AppError>)
    ensures NoAddressLost(t, RespondCreate(body, t, newId, fault).table)
  {
    var t' := RespondCreate(body, t, newId, fault).table;
    CreateTable(body, t, newId, fault);
    assert forall k :: k in t && k in t' ==> t'[k] == t[k];
  }

  lemma UpdateLosesNoAddress(id: string, body: Option<Value>, t: Table, faults: Faults)
    ensures NoAddressLost(t, RespondUpdate(id, body, t, faults).table)
  {
    var t' := RespondUpdate(id, body, t, faults).table;
    UpdateTable(id, body, t, faults);
    UpdateKeepsEmails(id, body, t, faults);
    assert forall k :: k in t && k in t' && k != id ==> t'[k] == t[k];
  }

  lemma DeleteLosesNoAddress(id: string, t: Table, fault: Option<AppError>)
    ensures NoAddressLost(t, RespondDelete(id, t, fault).table)
  {
    var t' := RespondDelete(id, t, fault).table;
    assert forall k :: k in t && k in t' ==> t'[k] == t[k];
  }
}
