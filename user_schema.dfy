/**
 * The User record and its schema: an explicit, ordered set of field rules that
 * turns a request body into either the parsed user or the list of issues it
 * violates. The rules are checked for every key of the shape in the order
 * id, firstName, lastName, emails, dob, and the strict check for unrecognised
 * keys follows them; all issues are collected.
 */
module UserSchema {
  import opened Wrappers
  import opened Json
  import opened Formats
  import opened Issues

  const ID := "id"
  const FIRST_NAME := "firstName"
  const LAST_NAME := "lastName"
  const EMAILS := "emails"
  const DOB := "dob"
  /** The keys of the schema, in declaration order. */
  const SHAPE: seq<string> := [ID, FIRST_NAME, LAST_NAME, EMAILS, DOB]

  const MIN_EMAILS := 1
  const MAX_EMAILS := 3

  const UUID_MESSAGE := "The id needs to be a valid UUID"
  const FIRST_NAME_REQUIRED := "First name is required"
  const FIRST_NAME_EMPTY := "First name cannot be an empty string"
  const LAST_NAME_REQUIRED := "Last name is required"
  const LAST_NAME_EMPTY := "Last name cannot be an empty string"
  const EMAILS_REQUIRED := "The emails field is required"
  const EMAIL_FORMAT := "Invalid email format"
  const EMAILS_TOO_FEW := "A user must have at least 1 email"
  const EMAILS_TOO_MANY := "A user can have at most 3 emails"
  const EMAILS_NOT_UNIQUE := "All the emails must be unique"
  const DOB_REQUIRED := "Date of birth is required"
  const DOB_FORMAT := "dob must be in the format YYYY-MM-DD"
  /** The validation library's own message for a missing value that has no custom message. */
  const REQUIRED := "Required"

  datatype User = User(id: string, firstName: string, lastName: string, emails: seq<string>, dob: string)

  /** The elements of a list, as `new Set(emails)` collects them. */
  function ToSet(s: seq<string>): set<string> {
    set e | e in s
  }

  /** The uniqueness refinement: the set of the emails is as large as the list. */
  predicate AllUnique(emails: seq<string>) {
    |ToSet(emails)| == |emails|
  }

  predicate NoDuplicates(s: seq<string>) {
    forall i, j :: 0 <= i < j < |s| ==> s[i] != s[j]
  }

  /** Comparing the set size with the length is exactly a duplicate check. */
  lemma {:induction false} UniqueIffNoDuplicates(s: seq<string>)
    ensures |ToSet(s)| <= |s|
    ensures AllUnique(s) <==> NoDuplicates(s)
  {
    if |s| > 0 {
      var t, x := s[..|s| - 1], s[|s| - 1];
      assert s == t + [x];
      UniqueIffNoDuplicates(t);
      assert ToSet(s) == ToSet(t) + {x};
      if x in t {
        var k :| 0 <= k < |t| && t[k] == x;
        assert s[k] == s[|s| - 1];
        assert ToSet(s) == ToSet(t);
      } else {
        assert |ToSet(s)| == |ToSet(t)| + 1;
        if NoDuplicates(t) {
          forall i, j | 0 <= i < j < |s| ensures s[i] != s[j] {
            if j == |s| - 1 { assert s[i] == t[i]; }
            else { assert s[i] == t[i] && s[j] == t[j]; }
          }
        } else {
          var i, j :| 0 <= i < j < |t| && t[i] == t[j];
          assert s[i] == s[j];
        }
      }
    }
  }

  /** Every rule of the schema holds of the user. */
  predicate WellFormed(u: User) {
    && IsUuid(u.id)
    && |u.firstName| > 0
    && |u.lastName| > 0
    && MIN_EMAILS <= |u.emails| <= MAX_EMAILS
    && (forall i :: 0 <= i < |u.emails| ==> IsEmail(u.emails[i]))
    && AllUnique(u.emails)
    && IsDate(u.dob)
  }

  // ---------------------------------------------------------------- field rules

  function Received(v: Value): string {
    "Expected string, received " + TypeName(v)
  }

  /** `id`: a string that is a UUID; no custom message for a missing or mistyped value. */
  function IdIssues(v: Option<Value>): seq<Issue> {
    match v
    case None => [Issue(InvalidType, REQUIRED, [Key(ID)], [])]
    case Some(Str(s)) => if IsUuid(s) then [] else [Issue(InvalidString, UUID_MESSAGE, [Key(ID)], [])]
    case Some(other) => [Issue(InvalidType, Received(other), [Key(ID)], [])]
  }

  /** `firstName` and `lastName`: a string (the required message otherwise) of length at least 1. */
  function NameIssues(key: string, v: Option<Value>, required: string, empty: string): seq<Issue> {
    match v
    case Some(Str(s)) => if |s| >= 1 then [] else [Issue(TooSmall, empty, [Key(key)], [])]
    case _ => [Issue(InvalidType, required, [Key(key)], [])]
  }

  /** One element of `emails`: a string that is an e-mail address, reported at its index. */
  function ElementIssues(item: Value, i: nat): seq<Issue> {
    match item
    case Str(s) => if IsEmail(s) then [] else [Issue(InvalidString, EMAIL_FORMAT, [Key(EMAILS), Index(i)], [])]
    case _ => [Issue(InvalidType, Received(item), [Key(EMAILS), Index(i)], [])]
  }

  /** The element issues of items[from..], in index order. */
  function ElementsIssues(items: seq<Value>, from: nat): seq<Issue>
    decreases |items| - from
  {
    if from >= |items| then [] else ElementIssues(items[from], from) + ElementsIssues(items, from + 1)
  }

  predicate AllStrings(items: seq<Value>) {
    forall i :: 0 <= i < |items| ==> items[i].Str?
  }

  function Strings(items: seq<Value>): (r: seq<string>)
    requires AllStrings(items)
    ensures |r| == |items| && forall i :: 0 <= i < |items| ==> items[i] == Str(r[i])
  {
    if |items| == 0 then [] else [items[0].s] + Strings(items[1..])
  }

  /**
   * `emails`: an array (the required message otherwise); then the length bounds,
   * then every element; the uniqueness refinement runs only when no element had
   * the wrong type, since such an element aborts the array.
   */
  function EmailsIssues(v: Option<Value>): seq<Issue> {
    match v
    case Some(Arr(items)) =>
      (if |items| < MIN_EMAILS then [Issue(TooSmall, EMAILS_TOO_FEW, [Key(EMAILS)], [])] else [])
      + (if |items| > MAX_EMAILS then [Issue(TooBig, EMAILS_TOO_MANY, [Key(EMAILS)], [])] else [])
      + ElementsIssues(items, 0)
      + (if AllStrings(items) && !AllUnique(Strings(items)) then [Issue(Custom, EMAILS_NOT_UNIQUE, [Key(EMAILS)], [])] else [])
    case _ => [Issue(InvalidType, EMAILS_REQUIRED, [Key(EMAILS)], [])]
  }

  /** `dob`: a string (the required message otherwise) that is a calendar date. */
  function DobIssues(v: Option<Value>): seq<Issue> {
    match v
    case Some(Str(s)) => if IsDate(s) then [] else [Issue(InvalidString, DOB_FORMAT, [Key(DOB)], [])]
    case _ => [Issue(InvalidType, DOB_REQUIRED, [Key(DOB)], [])]
  }

  /** The five keys of the shape, as a closed set of slots. */
  datatype Slot = IdSlot | FirstNameSlot | LastNameSlot | EmailsSlot | DobSlot {
    function Key(): string {
      match this
      case IdSlot => ID
      case FirstNameSlot => FIRST_NAME
      case LastNameSlot => LAST_NAME
      case EmailsSlot => EMAILS
      case DobSlot => DOB
    }
  }

  /** The issues of one key of the shape; an optional key that is absent has none. */
  function FieldIssues(fields: seq<Field>, slot: Slot, optional: set<string>): seq<Issue> {
    var v := Get(fields, slot.Key());
    if slot.Key() in optional && v.None? then []
    else
      match slot
      case IdSlot => IdIssues(v)
      case FirstNameSlot => NameIssues(FIRST_NAME, v, FIRST_NAME_REQUIRED, FIRST_NAME_EMPTY)
      case LastNameSlot => NameIssues(LAST_NAME, v, LAST_NAME_REQUIRED, LAST_NAME_EMPTY)
      case EmailsSlot => EmailsIssues(v)
      case DobSlot => DobIssues(v)
  }

  /** The issues of the shape, key by key in declaration order. */
  function ShapeIssues(fields: seq<Field>, optional: set<string>): seq<Issue> {
    FieldIssues(fields, IdSlot, optional)
    + FieldIssues(fields, FirstNameSlot, optional)
    + FieldIssues(fields, LastNameSlot, optional)
    + FieldIssues(fields, EmailsSlot, optional)
    + FieldIssues(fields, DobSlot, optional)
  }

  /** The keys of the body outside the shape, in enumeration order. */
  function UnknownKeys(fields: seq<Field>): seq<string> {
    if |fields| == 0 then []
    else if fields[0].key in SHAPE then UnknownKeys(fields[1..])
    else [fields[0].key] + UnknownKeys(fields[1..])
  }

  /** A key is listed exactly when it is outside the shape and some field carries it. */
  lemma {:induction false} UnknownKeysListed(fields: seq<Field>)
    ensures forall k :: k in UnknownKeys(fields) <==> k !in SHAPE && exists i :: 0 <= i < |fields| && fields[i].key == k
  {
    if |fields| > 0 {
      UnknownKeysListed(fields[1..]);
      assert forall i :: 1 <= i < |fields| ==> fields[i] == fields[1..][i - 1];
      forall k | k !in SHAPE && (exists i :: 0 <= i < |fields| && fields[i].key == k)
        ensures k in UnknownKeys(fields)
      {
        var i :| 0 <= i < |fields| && fields[i].key == k;
        if i > 0 { assert fields[1..][i - 1].key == k; }
      }
    }
  }

  /** `'a', 'b'`: the keys quoted and separated by commas. */
  function QuotedList(ks: seq<string>): string {
    if |ks| == 0 then ""
    else if |ks| == 1 then "'" + ks[0] + "'"
    else "'" + ks[0] + "', " + QuotedList(ks[1..])
  }

  function UnrecognizedMessage(ks: seq<string>): string {
    "Unrecognized key(s) in object: " + QuotedList(ks)
  }

  /** The strict check: one issue listing every unrecognised key. */
  function StrictIssues(fields: seq<Field>): seq<Issue> {
    var ks := UnknownKeys(fields);
    if ks == [] then [] else [Issue(UnrecognizedKeys, UnrecognizedMessage(ks), [], ks)]
  }

  // ---------------------------------------------------------------- parse result

  /** The parsed payload: a field is absent only when its key was optional and missing. */
  datatype Draft = Draft(
    id: Option<string>,
    firstName: Option<string>,
    lastName: Option<string>,
    emails: Option<seq<string>>,
    dob: Option<string>)
  {
    predicate Complete() {
      id.Some? && firstName.Some? && lastName.Some? && emails.Some? && dob.Some?
    }

    function ToUser(): User
      requires Complete()
    {
      User(id.value, firstName.value, lastName.value, emails.value, dob.value)
    }

    /** Every present field obeys its rule and every absent field is optional. */
    predicate Admissible(optional: set<string>) {
      && (if id.Some? then IsUuid(id.value) else ID in optional)
      && (if firstName.Some? then |firstName.value| > 0 else FIRST_NAME in optional)
      && (if lastName.Some? then |lastName.value| > 0 else LAST_NAME in optional)
      && (if emails.Some? then
            && MIN_EMAILS <= |emails.value| <= MAX_EMAILS
            && (forall i :: 0 <= i < |emails.value| ==> IsEmail(emails.value[i]))
            && AllUnique(emails.value)
          else EMAILS in optional)
      && (if dob.Some? then IsDate(dob.value) else DOB in optional)
    }
  }

  function FromUser(u: User): (d: Draft)
    ensures d.Complete() && d.ToUser() == u
  {
    Draft(Some(u.id), Some(u.firstName), Some(u.lastName), Some(u.emails), Some(u.dob))
  }

  function AsString(v: Option<Value>): Option<string> {
    if v.Some? && v.value.Str? then Some(v.value.s) else None
  }

  function AsStrings(v: Option<Value>): Option<seq<string>> {
    if v.Some? && v.value.Arr? && AllStrings(v.value.items) then Some(Strings(v.value.items)) else None
  }

  /** The parse output: the shape's keys read off the body. */
  function DraftOf(fields: seq<Field>): Draft {
    Draft(AsString(Get(fields, ID)), AsString(Get(fields, FIRST_NAME)), AsString(Get(fields, LAST_NAME)),
          AsStrings(Get(fields, EMAILS)), AsString(Get(fields, DOB)))
  }

  function OptStr(s: Option<string>): Option<Value> {
    if s.Some? then Some(Str(s.value)) else None
  }

  function OptStrArray(s: Option<seq<string>>): Option<Value> {
    if s.Some? then Some(StrArray(s.value)) else None
  }

  /** A draft as a JSON object: its present fields, in the order of the shape. */
  function EncodeDraft(d: Draft): Value {
    Obj(Entry(ID, OptStr(d.id)) + Entry(FIRST_NAME, OptStr(d.firstName)) + Entry(LAST_NAME, OptStr(d.lastName))
        + Entry(EMAILS, OptStrArray(d.emails)) + Entry(DOB, OptStr(d.dob)))
  }

  /** A user as the JSON object a client sends or receives. */
  function Encode(u: User): Value {
    EncodeDraft(FromUser(u))
  }

  /**
   * `UserSchema.partial(mask).safeParse(body)`: the keys in `optional` may be
   * missing; every other rule applies in full. An empty `optional` is the full,
   * strict, all-required schema.
   */
  function Validate(body: Option<Value>, optional: set<string>): Result<Draft, seq<Issue>> {
    match body
    case None => Err([Issue(InvalidType, REQUIRED, [], [])])
    case Some(Obj(fields)) =>
      var issues := ShapeIssues(fields, optional) + StrictIssues(fields);
      if issues == [] then Ok(DraftOf(fields)) else Err(issues)
    case Some(other) => Err([Issue(InvalidType, "Expected object, received " + TypeName(other), [], [])])
  }

  /** The set the mask built by folding over `optionalKeys` marks as optional. */
  function Mask(optionalKeys: seq<string>): (m: set<string>)
    ensures forall k :: k in m <==> k in optionalKeys
  {
    if |optionalKeys| == 0 then {} else Mask(optionalKeys[..|optionalKeys| - 1]) + {optionalKeys[|optionalKeys| - 1]}
  }
}
