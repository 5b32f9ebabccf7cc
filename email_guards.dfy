/**
 * The e-mail mutation guard: an update may add addresses but must keep every
 * address the stored user already has. Three revisions are modelled: the
 * current guard, an older one that is skipped when there is nothing to
 * compare, and an older stage that validates the payload first and then
 * guards the parsed payload. Each decides one call of `next`: `Pass` for
 * `next()`, `Fail(e)` for `next(e)`.
 */
module EmailGuards {
  import opened Wrappers
  import opened Json
  import opened Errors
  import opened UserSchema
  import SchemaProperties

  /** `emails.every(e => present.has(e))`, stopping at the first address that is missing. */
  function Every(emails: seq<string>, present: set<Value>): bool {
    if |emails| == 0 then true
    else Str(emails[0]) in present && Every(emails[1..], present)
  }

  lemma {:induction false} EveryIff(emails: seq<string>, present: set<Value>)
    ensures Every(emails, present) <==> forall i :: 0 <= i < |emails| ==> Str(emails[i]) in present
  {
    if |emails| > 0 {
      EveryIff(emails[1..], present);
      assert forall i :: 1 <= i < |emails| ==> emails[i] == emails[1..][i - 1];
    }
  }

  /** Every stored address is among the incoming ones. */
  predicate Superset(stored: seq<string>, incoming: seq<string>) {
    forall e :: e in stored ==> e in incoming
  }

  /** For a list of strings, the `Set`/`every` test is exactly the superset test. */
  lemma EveryIsSuperset(stored: seq<string>, incoming: seq<string>)
    ensures NewSet(Some(StrArray(incoming))).Some?
    ensures Every(stored, NewSet(Some(StrArray(incoming))).value) <==> Superset(stored, incoming)
  {
    var present := NewSet(Some(StrArray(incoming))).value;
    EveryIff(stored, present);
    var items := StrArray(incoming).items;
    assert forall e :: Str(e) in present <==> e in incoming by {
      forall e
        ensures Str(e) in present <==> e in incoming
      {
        if e in incoming {
          var i :| 0 <= i < |incoming| && incoming[i] == e;
          assert items[i] == Str(e);
        }
        if Str(e) in present {
          var i :| 0 <= i < |items| && items[i] == Str(e);
          assert incoming[i] == e;
        }
      }
    }
  }

  /** A thrown TypeError; the runtime's message is given only approximately for non-iterables. */
  function TypeError(message: string): AppError {
    UntypedError("TypeError", message)
  }

  function NotIterable(v: Value): string {
    TypeName(v) + " is not iterable"
  }

  /**
   * The current guard: no fetched user is a not-found error; otherwise the
   * incoming `emails` (read without optional chaining, collected by `new Set`)
   * must contain every stored address.
   */
  function SrcEmailGuard(body: Option<Value>, fetched: Option<User>): (r: Outcome<AppError>)
    ensures fetched.None? ==> r == Fail(UserNotFoundError(None))
    ensures fetched.Some? && (body.None? || body == Some(Null)) ==> r.Fail? && r.error.kind == Untyped("TypeError")
    ensures r.Fail? && fetched.Some? && r.error.kind != Untyped("TypeError") ==> r.error == InvalidEmailDeletionError(None)
  {
    if fetched.None? then Fail(UserNotFoundError(None))
    else
      match Prop(body, EMAILS)
      case Err(message) => Fail(TypeError(message))
      case Ok(emails) =>
        match NewSet(emails)
        case None => Fail(TypeError(NotIterable(emails.value)))
        case Some(present) =>
          if Every(fetched.value.emails, present) then Pass else Fail(InvalidEmailDeletionError(None))
  }

  /**
   * The older guard: skipped (a plain `next()`) unless the body has truthy
   * `emails` and there is a fetched user; then the same superset test, with
   * the older error revision.
   */
  function LegacyEmailGuard(body: Option<Value>, fetched: Option<User>): (r: Outcome<AppError>)
    ensures !Truthy(OptionalProp(body, EMAILS)) || fetched.None? ==> r == Pass
    ensures r.Fail? && r.error.kind != Untyped("TypeError") ==> r.error == LegacyInvalidEmailDeletionError(None)
  {
    var emails := OptionalProp(body, EMAILS);
    if Truthy(emails) && fetched.Some? then
      match NewSet(emails)
      case None => Fail(TypeError(NotIterable(emails.value)))
      case Some(present) =>
        if Every(fetched.value.emails, present) then Pass else Fail(LegacyInvalidEmailDeletionError(None))
    else Pass
  }

  /**
   * The older combined stage: the full schema first, forwarding the issue list
   * on failure; then, when there is a fetched user, the superset test on the
   * parsed payload's addresses.
   */
  function ValidateUpdatePayload(body: Option<Value>, fetched: Option<User>): (r: Outcome<AppError>)
    ensures Validate(body, {}).Err? ==> r == Fail(InvalidPayloadError(Some(Validate(body, {}).error), None))
    ensures r.Fail? && Validate(body, {}).Ok? ==> r.error == LegacyInvalidEmailDeletionError(None)
  {
    match Validate(body, {})
    case Err(issues) => Fail(InvalidPayloadError(Some(issues), None))
    case Ok(payload) =>
      if payload.emails.Some? && fetched.Some? then
        var present := NewSet(Some(StrArray(payload.emails.value))).value;
        if Every(fetched.value.emails, present) then Pass else Fail(LegacyInvalidEmailDeletionError(None))
      else Pass
  }

  // ---------------------------------------------------------------- properties

  /** With a list of strings as `emails`, the current guard passes exactly when no stored address is dropped. */
  lemma SrcGuardIsSuperset(fields: seq<Field>, u: User, incoming: seq<string>)
    requires Get(fields, EMAILS) == Some(StrArray(incoming))
    ensures SrcEmailGuard(Some(Obj(fields)), Some(u)) == Pass <==> Superset(u.emails, incoming)
    ensures SrcEmailGuard(Some(Obj(fields)), Some(u)) != Pass ==>
      SrcEmailGuard(Some(Obj(fields)), Some(u)) == Fail(InvalidEmailDeletionError(None))
  {
    EveryIsSuperset(u.emails, incoming);
  }

  /** Reordering the stored addresses and appending new ones passes: only membership is checked, not length or uniqueness. */
  lemma ReorderAndAddPass(fields: seq<Field>, u: User, reordered: seq<string>, added: seq<string>)
    requires multiset(reordered) == multiset(u.emails)
    requires Get(fields, EMAILS) == Some(StrArray(reordered + added))
    ensures SrcEmailGuard(Some(Obj(fields)), Some(u)) == Pass
  {
    SrcGuardIsSuperset(fields, u, reordered + added);
    forall e | e in u.emails
      ensures e in reordered + added
    {
      assert e in multiset(u.emails);
      assert e in multiset(reordered);
    }
  }

  /** A body without `emails` counts as an empty list: it passes only a user with no address. */
  lemma MissingEmailsIsEmpty(fields: seq<Field>, u: User)
    requires Get(fields, EMAILS).None?
    ensures SrcEmailGuard(Some(Obj(fields)), Some(u)) == Pass <==> |u.emails| == 0
  {
    EveryIff(u.emails, {});
    if |u.emails| > 0 {
      assert Str(u.emails[0]) !in {};
    }
  }

  /** Dropping a stored address fails the current guard with the current error revision. */
  lemma DroppingAnAddressFails(fields: seq<Field>, u: User, incoming: seq<string>, i: nat)
    requires Get(fields, EMAILS) == Some(StrArray(incoming))
    requires i < |u.emails| && u.emails[i] !in incoming
    ensures SrcEmailGuard(Some(Obj(fields)), Some(u)) == Fail(InvalidEmailDeletionError(None))
  {
    SrcGuardIsSuperset(fields, u, incoming);
  }

  /** When it is not skipped, the older guard applies the same superset test. */
  lemma LegacyGuardIsSuperset(fields: seq<Field>, u: User, incoming: seq<string>)
    requires Get(fields, EMAILS) == Some(StrArray(incoming))
    ensures LegacyEmailGuard(Some(Obj(fields)), Some(u)) == Pass <==> Superset(u.emails, incoming)
    ensures LegacyEmailGuard(Some(Obj(fields)), Some(u)) != Pass ==>
      LegacyEmailGuard(Some(Obj(fields)), Some(u)) == Fail(LegacyInvalidEmailDeletionError(None))
  {
    EveryIsSuperset(u.emails, incoming);
  }

  /** Sending the stored user back with a new first name passes the older guard. */
  lemma LegacyGuardKeepsSameEmails(u: User, firstName: string)
    ensures LegacyEmailGuard(Some(Encode(u.(firstName := firstName))), Some(u)) == Pass
  {
    SchemaProperties.GetEncoded(FromUser(u.(firstName := firstName)));
    LegacyGuardIsSuperset(Encode(u.(firstName := firstName)).fields, u, u.emails);
  }

  /** Replacing the addresses of a user who has some by one new address fails the older guard. */
  lemma LegacyGuardRejectsReplacement(u: User, address: string)
    requires |u.emails| > 0 && address !in u.emails
    ensures LegacyEmailGuard(Some(Encode(u.(emails := [address]))), Some(u)) == Fail(LegacyInvalidEmailDeletionError(None))
  {
    SchemaProperties.GetEncoded(FromUser(u.(emails := [address])));
    LegacyGuardIsSuperset(Encode(u.(emails := [address])).fields, u, [address]);
    assert u.emails[0] !in [address];
  }

  /**
   * The combined stage passes exactly when the payload obeys the full schema
   * and, when there is a fetched user, keeps every stored address.
   */
  lemma UpdateStageIsSchemaThenSuperset(body: Option<Value>, fetched: Option<User>)
    ensures ValidateUpdatePayload(body, fetched) == Pass <==>
      Validate(body, {}).Ok? && (fetched.Some? ==> Superset(fetched.value.emails, Validate(body, {}).value.emails.GetOr([])))
  {
    var v := Validate(body, {});
    if v.Ok? {
      SchemaProperties.FullSchemaYieldsUser(body);
      if fetched.Some? {
        EveryIsSuperset(fetched.value.emails, v.value.emails.value);
      }
    }
  }

  /**
   * An update the combined stage accepts is a complete, well-formed user whose
   * addresses include every stored one.
   */
  lemma AcceptedUpdateIsWellFormedSuperset(body: Option<Value>, fetched: Option<User>)
    requires ValidateUpdatePayload(body, fetched) == Pass
    ensures Validate(body, {}).Ok? && Validate(body, {}).value.Complete()
    ensures WellFormed(Validate(body, {}).value.ToUser())
    ensures fetched.Some? ==> Superset(fetched.value.emails, Validate(body, {}).value.emails.value)
  {
    var v := Validate(body, {});
    assert v.Ok?;
    SchemaProperties.FullSchemaYieldsUser(body);
    if fetched.Some? {
      EveryIsSuperset(fetched.value.emails, v.value.emails.value);
    }
  }
}
