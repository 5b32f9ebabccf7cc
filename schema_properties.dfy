/**
 * What the schema promises: a well-formed user is accepted unchanged, an
 * accepted payload is well-formed, and each violated rule is reported with
 * its message and path.
 */
module SchemaProperties {
  import opened Wrappers
  import opened Json
  import opened Formats
  import opened Issues
  import opened UserSchema

  // ---------------------------------------------------------------- helpers

  /** Reading a key from optional entries laid out one after another finds the first present one with that key. */
  lemma GetEntryThen(key: string, v: Option<Value>, rest: seq<Field>, k: string)
    ensures Get(Entry(key, v) + rest, k) == if key == k && v.Some? then v else Get(rest, k)
  {
    GetAppend(Entry(key, v), rest, k);
    GetEntry(key, v, k);
  }

  /** Reading a key from five optional entries laid out in order. */
  lemma GetFive(k1: string, k2: string, k3: string, k4: string, k5: string,
                v1: Option<Value>, v2: Option<Value>, v3: Option<Value>, v4: Option<Value>, v5: Option<Value>, k: string)
    ensures Get(Entry(k1, v1) + (Entry(k2, v2) + (Entry(k3, v3) + (Entry(k4, v4) + Entry(k5, v5)))), k) ==
      if k == k1 && v1.Some? then v1
      else if k == k2 && v2.Some? then v2
      else if k == k3 && v3.Some? then v3
      else if k == k4 && v4.Some? then v4
      else if k == k5 then v5
      else None
  {
    GetEntryThen(k1, v1, Entry(k2, v2) + (Entry(k3, v3) + (Entry(k4, v4) + Entry(k5, v5))), k);
    GetEntryThen(k2, v2, Entry(k3, v3) + (Entry(k4, v4) + Entry(k5, v5)), k);
    GetEntryThen(k3, v3, Entry(k4, v4) + Entry(k5, v5), k);
    GetEntryThen(k4, v4, Entry(k5, v5), k);
    GetEntry(k5, v5, k);
  }

  /** The five keys of the shape are distinct. */
  lemma ShapeKeysDistinct()
    ensures ID != FIRST_NAME && ID != LAST_NAME && ID != EMAILS && ID != DOB
    ensures FIRST_NAME != LAST_NAME && FIRST_NAME != EMAILS && FIRST_NAME != DOB
    ensures LAST_NAME != EMAILS && LAST_NAME != DOB && EMAILS != DOB
  {
    assert |ID| == 2 && |FIRST_NAME| == 9 && |LAST_NAME| == 8 && |EMAILS| == 6 && |DOB| == 3;
  }

  /** Every key of an encoded draft is a key of the shape. */
  lemma EncodedKeysInShape(d: Draft)
    ensures forall i :: 0 <= i < |EncodeDraft(d).fields| ==> EncodeDraft(d).fields[i].key in SHAPE
  {
    var v1, v2, v3, v4, v5 := OptStr(d.id), OptStr(d.firstName), OptStr(d.lastName), OptStrArray(d.emails), OptStr(d.dob);
    var e1, e2, e3, e4, e5 := Entry(ID, v1), Entry(FIRST_NAME, v2), Entry(LAST_NAME, v3), Entry(EMAILS, v4), Entry(DOB, v5);
    assert EncodeDraft(d).fields == e1 + e2 + e3 + e4 + e5;
  }

  /** Reading a key back from an encoded draft yields the draft's field. */
  lemma GetEncoded(d: Draft)
    ensures Get(EncodeDraft(d).fields, ID) == OptStr(d.id)
    ensures Get(EncodeDraft(d).fields, FIRST_NAME) == OptStr(d.firstName)
    ensures Get(EncodeDraft(d).fields, LAST_NAME) == OptStr(d.lastName)
    ensures Get(EncodeDraft(d).fields, EMAILS) == OptStrArray(d.emails)
    ensures Get(EncodeDraft(d).fields, DOB) == OptStr(d.dob)
    ensures forall i :: 0 <= i < |EncodeDraft(d).fields| ==> EncodeDraft(d).fields[i].key in SHAPE
  {
    var v1, v2, v3, v4, v5 := OptStr(d.id), OptStr(d.firstName), OptStr(d.lastName), OptStrArray(d.emails), OptStr(d.dob);
    assert EncodeDraft(d).fields == Entry(ID, v1) + (Entry(FIRST_NAME, v2) + (Entry(LAST_NAME, v3) + (Entry(EMAILS, v4) + Entry(DOB, v5))));
    ShapeKeysDistinct();
    GetFive(ID, FIRST_NAME, LAST_NAME, EMAILS, DOB, v1, v2, v3, v4, v5, ID);
    GetFive(ID, FIRST_NAME, LAST_NAME, EMAILS, DOB, v1, v2, v3, v4, v5, FIRST_NAME);
    GetFive(ID, FIRST_NAME, LAST_NAME, EMAILS, DOB, v1, v2, v3, v4, v5, LAST_NAME);
    GetFive(ID, FIRST_NAME, LAST_NAME, EMAILS, DOB, v1, v2, v3, v4, v5, EMAILS);
    GetFive(ID, FIRST_NAME, LAST_NAME, EMAILS, DOB, v1, v2, v3, v4, v5, DOB);
    EncodedKeysInShape(d);
  }

  lemma {:induction false} StringsOfStrArray(es: seq<string>)
    ensures AllStrings(StrArray(es).items) && Strings(StrArray(es).items) == es
  {
    var items := StrArray(es).items;
    assert AllStrings(items);
    var r := Strings(items);
    assert |r| == |es| && forall i :: 0 <= i < |es| ==> Str(r[i]) == Str(es[i]);
  }

  /** Every element of items[from..] is a string that is an e-mail address, element by element. */
  predicate AddressesFrom(items: seq<Value>, from: nat)
    decreases |items| - from
  {
    from >= |items| || (items[from].Str? && IsEmail(items[from].s) && AddressesFrom(items, from + 1))
  }

  lemma {:induction false} ElementsIssuesEmpty(items: seq<Value>, from: nat)
    ensures ElementsIssues(items, from) == [] <==> AddressesFrom(items, from)
    decreases |items| - from
  {
    if from < |items| {
      ElementsIssuesEmpty(items, from + 1);
      var head, tail := ElementIssues(items[from], from), ElementsIssues(items, from + 1);
      assert ElementsIssues(items, from) == head + tail;
      assert head + tail == [] <==> head == [] && tail == [];
    }
  }

  lemma {:induction false} AddressesFromIff(items: seq<Value>, from: nat)
    ensures AddressesFrom(items, from) <==> forall i :: from <= i < |items| ==> items[i].Str? && IsEmail(items[i].s)
    decreases |items| - from
  {
    if from < |items| {
      AddressesFromIff(items, from + 1);
      assert (forall i :: from <= i < |items| ==> items[i].Str? && IsEmail(items[i].s)) <==>
        (items[from].Str? && IsEmail(items[from].s)) && (forall i :: from + 1 <= i < |items| ==> items[i].Str? && IsEmail(items[i].s));
    }
  }

  lemma {:induction false} ElementIssuesIncluded(items: seq<Value>, from: nat, i: nat)
    requires from <= i < |items|
    ensures forall x :: x in ElementIssues(items[i], i) ==> x in ElementsIssues(items, from)
    decreases i - from
  {
    if from < i {
      ElementIssuesIncluded(items, from + 1, i);
    }
  }

  lemma HeadListed(ks: seq<string>)
    ensures ks != [] ==> ks[0] in ks
  {
  }

  lemma DraftOfEncoded(d: Draft)
    ensures DraftOf(EncodeDraft(d).fields) == d
    ensures UnknownKeys(EncodeDraft(d).fields) == []
  {
    GetEncoded(d);
    if d.emails.Some? {
      StringsOfStrArray(d.emails.value);
    }
    var ks := UnknownKeys(EncodeDraft(d).fields);
    UnknownKeysListed(EncodeDraft(d).fields);
    HeadListed(ks);
  }

  /** The rule of one key of the shape, for a value that is present. */
  predicate Obeys(slot: Slot, v: Value) {
    match slot
    case IdSlot => v.Str? && IsUuid(v.s)
    case FirstNameSlot => v.Str? && |v.s| > 0
    case LastNameSlot => v.Str? && |v.s| > 0
    case EmailsSlot =>
      && v.Arr? && MIN_EMAILS <= |v.items| <= MAX_EMAILS
      && (forall i :: 0 <= i < |v.items| ==> v.items[i].Str? && IsEmail(v.items[i].s))
      && AllStrings(v.items) && AllUnique(Strings(v.items))
    case DobSlot => v.Str? && IsDate(v.s)
  }

  lemma EmailsIssuesEmpty(v: Option<Value>)
    ensures EmailsIssues(v) == [] <==> v.Some? && Obeys(EmailsSlot, v.value)
  {
    if v.Some? && v.value.Arr? {
      var items := v.value.items;
      ElementsIssuesEmpty(items, 0);
      AddressesFromIff(items, 0);
      var a := if |items| < MIN_EMAILS then [Issue(TooSmall, EMAILS_TOO_FEW, [Key(EMAILS)], [])] else [];
      var b := if |items| > MAX_EMAILS then [Issue(TooBig, EMAILS_TOO_MANY, [Key(EMAILS)], [])] else [];
      var c := ElementsIssues(items, 0);
      var e := if AllStrings(items) && !AllUnique(Strings(items)) then [Issue(Custom, EMAILS_NOT_UNIQUE, [Key(EMAILS)], [])] else [];
      assert EmailsIssues(v) == a + b + c + e;
    }
  }

  /** A key of the shape has no issue exactly when it is optional and absent, or present and obeying its rule. */
  lemma FieldIssuesEmpty(fields: seq<Field>, slot: Slot, optional: set<string>)
    ensures FieldIssues(fields, slot, optional) == [] <==>
      (slot.Key() in optional && Get(fields, slot.Key()).None?) || (Get(fields, slot.Key()).Some? && Obeys(slot, Get(fields, slot.Key()).value))
  {
    var v := Get(fields, slot.Key());
    if !(slot.Key() in optional && v.None?) && slot == EmailsSlot {
      EmailsIssuesEmpty(v);
    }
  }

  /** Every issue of the shape or of the strict check makes the payload fail and is listed. */
  lemma InErrors(fields: seq<Field>, optional: set<string>, x: Issue)
    requires x in ShapeIssues(fields, optional) + StrictIssues(fields)
    ensures Validate(Some(Obj(fields)), optional).Err? && x in Validate(Some(Obj(fields)), optional).error
  {
  }

  /** The shape has no issue exactly when none of its five keys has one. */
  lemma ShapeIssuesEmpty(fields: seq<Field>, optional: set<string>)
    ensures ShapeIssues(fields, optional) == [] <==>
      FieldIssues(fields, IdSlot, optional) == [] && FieldIssues(fields, FirstNameSlot, optional) == [] &&
      FieldIssues(fields, LastNameSlot, optional) == [] && FieldIssues(fields, EmailsSlot, optional) == [] &&
      FieldIssues(fields, DobSlot, optional) == []
  {
  }

  /** The payload of an object body is accepted exactly when neither the shape nor the strict check has an issue. */
  lemma AcceptedIff(fields: seq<Field>, optional: set<string>)
    ensures Validate(Some(Obj(fields)), optional).Ok? <==>
      ShapeIssues(fields, optional) == [] && UnknownKeys(fields) == []
    ensures Validate(Some(Obj(fields)), optional).Ok? ==> Validate(Some(Obj(fields)), optional).value == DraftOf(fields)
  {
  }

  // ---------------------------------------------------------------- acceptance

  /** A draft whose fields obey the rules is accepted and parses back to itself. */
  lemma ValidateAccepts(d: Draft, optional: set<string>)
    requires d.Admissible(optional)
    ensures Validate(Some(EncodeDraft(d)), optional) == Ok(d)
  {
    var fs := EncodeDraft(d).fields;
    EncodedShapeClean(d, optional);
    GetEncoded(d);
    NoUnknownKeys(fs);
    DraftOfEncoded(d);
    AcceptedIff(fs, optional);
  }

  /** The encoding of an admissible draft raises no shape issue. */
  lemma EncodedShapeClean(d: Draft, optional: set<string>)
    requires d.Admissible(optional)
    ensures ShapeIssues(EncodeDraft(d).fields, optional) == []
  {
    EncodedSlotClean(d, optional, IdSlot);
    EncodedSlotClean(d, optional, FirstNameSlot);
    EncodedSlotClean(d, optional, LastNameSlot);
    EncodedSlotClean(d, optional, EmailsSlot);
    EncodedSlotClean(d, optional, DobSlot);
    ShapeIssuesEmpty(EncodeDraft(d).fields, optional);
  }

  lemma EncodedSlotClean(d: Draft, optional: set<string>, slot: Slot)
    requires d.Admissible(optional)
    ensures FieldIssues(EncodeDraft(d).fields, slot, optional) == []
  {
    var fs := EncodeDraft(d).fields;
    GetEncoded(d);
    match slot
    case IdSlot => FieldIssuesEmpty(fs, IdSlot, optional);
    case FirstNameSlot => FieldIssuesEmpty(fs, FirstNameSlot, optional);
    case LastNameSlot => FieldIssuesEmpty(fs, LastNameSlot, optional);
    case EmailsSlot =>
      if d.emails.Some? {
        StringsOfStrArray(d.emails.value);
      }
      FieldIssuesEmpty(fs, EmailsSlot, optional);
    case DobSlot => FieldIssuesEmpty(fs, DobSlot, optional);
  }

  /** Fields whose keys all belong to the shape leave nothing for the strict check. */
  lemma NoUnknownKeys(fields: seq<Field>)
    requires forall i :: 0 <= i < |fields| ==> fields[i].key in SHAPE
    ensures UnknownKeys(fields) == []
  {
    UnknownKeysListed(fields);
  }

  lemma StrArrayOfStrings(items: seq<Value>)
    requires AllStrings(items)
    ensures StrArray(Strings(items)) == Arr(items)
  {
    assert StrArray(Strings(items)).items == items;
  }

  /** The parsed draft of fields that raise no shape issue is admissible. */
  lemma ParsedAdmissible(fields: seq<Field>, optional: set<string>)
    requires ShapeIssues(fields, optional) == []
    ensures DraftOf(fields).Admissible(optional)
  {
    ShapeIssuesEmpty(fields, optional);
    FieldIssuesEmpty(fields, IdSlot, optional);
    FieldIssuesEmpty(fields, FirstNameSlot, optional);
    FieldIssuesEmpty(fields, LastNameSlot, optional);
    FieldIssuesEmpty(fields, EmailsSlot, optional);
    FieldIssuesEmpty(fields, DobSlot, optional);
  }

  /** Fields that raise no shape issue are exactly the encoding of their parsed draft, key by key. */
  lemma ParsedEncodes(fields: seq<Field>, optional: set<string>)
    requires ShapeIssues(fields, optional) == []
    ensures Get(fields, ID) == Get(EncodeDraft(DraftOf(fields)).fields, ID)
    ensures Get(fields, FIRST_NAME) == Get(EncodeDraft(DraftOf(fields)).fields, FIRST_NAME)
    ensures Get(fields, LAST_NAME) == Get(EncodeDraft(DraftOf(fields)).fields, LAST_NAME)
    ensures Get(fields, EMAILS) == Get(EncodeDraft(DraftOf(fields)).fields, EMAILS)
    ensures Get(fields, DOB) == Get(EncodeDraft(DraftOf(fields)).fields, DOB)
  {
    ShapeIssuesEmpty(fields, optional);
    ParsedSlotEncodes(fields, optional, IdSlot);
    ParsedSlotEncodes(fields, optional, FirstNameSlot);
    ParsedSlotEncodes(fields, optional, LastNameSlot);
    ParsedSlotEncodes(fields, optional, EmailsSlot);
    ParsedSlotEncodes(fields, optional, DobSlot);
  }

  lemma ParsedSlotEncodes(fields: seq<Field>, optional: set<string>, slot: Slot)
    requires FieldIssues(fields, slot, optional) == []
    ensures Get(fields, slot.Key()) == Get(EncodeDraft(DraftOf(fields)).fields, slot.Key())
  {
    GetEncoded(DraftOf(fields));
    FieldIssuesEmpty(fields, slot, optional);
    var v := Get(fields, EMAILS);
    if slot == EmailsSlot && v.Some? {
      StrArrayOfStrings(v.value.items);
    }
  }

  /** An accepted payload is an object that obeys every rule, has no other key, and carries exactly the parsed fields. */
  lemma ValidateSound(body: Option<Value>, optional: set<string>)
    requires Validate(body, optional).Ok?
    ensures body.Some? && body.value.Obj?
    ensures Validate(body, optional).value == DraftOf(body.value.fields)
    ensures Validate(body, optional).value.Admissible(optional)
    ensures UnknownKeys(body.value.fields) == []
    ensures Get(body.value.fields, ID) == Get(EncodeDraft(Validate(body, optional).value).fields, ID)
    ensures Get(body.value.fields, FIRST_NAME) == Get(EncodeDraft(Validate(body, optional).value).fields, FIRST_NAME)
    ensures Get(body.value.fields, LAST_NAME) == Get(EncodeDraft(Validate(body, optional).value).fields, LAST_NAME)
    ensures Get(body.value.fields, EMAILS) == Get(EncodeDraft(Validate(body, optional).value).fields, EMAILS)
    ensures Get(body.value.fields, DOB) == Get(EncodeDraft(Validate(body, optional).value).fields, DOB)
  {
    var fields := body.value.fields;
    AcceptedIff(fields, optional);
    ParsedAdmissible(fields, optional);
    ParsedEncodes(fields, optional);
  }

  /** A user is accepted by the full schema, unchanged, exactly when it obeys every rule. */
  lemma WellFormedIffAccepted(u: User)
    ensures Validate(Some(Encode(u)), {}) == Ok(FromUser(u)) <==> WellFormed(u)
  {
    if WellFormed(u) {
      ValidateAccepts(FromUser(u), {});
    }
    if Validate(Some(Encode(u)), {}) == Ok(FromUser(u)) {
      ValidateSound(Some(Encode(u)), {});
    }
  }

  /** Whatever the full schema accepts is a complete, well-formed user. */
  lemma FullSchemaYieldsUser(body: Option<Value>)
    requires Validate(body, {}).Ok?
    ensures Validate(body, {}).value.Complete() && WellFormed(Validate(body, {}).value.ToUser())
  {
    ValidateSound(body, {});
  }

  /** Making keys optional never rejects a payload the full schema accepts. */
  lemma MaskingOnlyRelaxes(body: Option<Value>, optional: set<string>)
    requires Validate(body, {}).Ok?
    ensures Validate(body, optional) == Validate(body, {})
  {
    var fields := body.value.fields;
    AcceptedIff(fields, {});
    ShapeIssuesEmpty(fields, {});
    PresentKeyIgnoresMask(fields, IdSlot, optional);
    PresentKeyIgnoresMask(fields, FirstNameSlot, optional);
    PresentKeyIgnoresMask(fields, LastNameSlot, optional);
    PresentKeyIgnoresMask(fields, EmailsSlot, optional);
    PresentKeyIgnoresMask(fields, DobSlot, optional);
    ShapeIssuesEmpty(fields, optional);
    AcceptedIff(fields, optional);
  }

  /** A key the full schema finds present and clean is judged the same whichever keys are optional. */
  lemma PresentKeyIgnoresMask(fields: seq<Field>, slot: Slot, optional: set<string>)
    requires FieldIssues(fields, slot, {}) == []
    ensures FieldIssues(fields, slot, optional) == []
  {
    FieldIssuesEmpty(fields, slot, {});
    FieldIssuesEmpty(fields, slot, optional);
  }

  // ---------------------------------------------------------------- rejection

  /** The payload of an object body fails and lists the issue `x`. */
  predicate Rejects(fields: seq<Field>, optional: set<string>, x: Issue)
  {
    Validate(Some(Obj(fields)), optional).Err? && x in Validate(Some(Obj(fields)), optional).error
  }

  /** An issue of any key of the shape makes the whole payload fail and is listed. */
  lemma FieldIssueReported(fields: seq<Field>, optional: set<string>, slot: Slot, x: Issue)
    requires x in FieldIssues(fields, slot, optional)
    ensures Rejects(fields, optional, x)
  {
    assert x in ShapeIssues(fields, optional);
    InErrors(fields, optional, x);
  }

  /** A required key keeps its full rule when other keys are made optional. */
  lemma RequiredKeyKeepsRule(fields: seq<Field>, optional: set<string>, slot: Slot)
    requires slot.Key() !in optional
    ensures FieldIssues(fields, slot, optional) == FieldIssues(fields, slot, {})
    ensures forall x :: x in FieldIssues(fields, slot, {}) ==> Rejects(fields, optional, x)
  {
    forall x | x in FieldIssues(fields, slot, {}) ensures Rejects(fields, optional, x) {
      FieldIssueReported(fields, optional, slot, x);
    }
  }

  /** A present id that is a string but not a UUID is rejected at ["id"]. */
  lemma IdMustBeUuid(fields: seq<Field>, optional: set<string>, s: string)
    requires Get(fields, ID) == Some(Str(s)) && !IsUuid(s)
    ensures Rejects(fields, optional, Issue(InvalidString, UUID_MESSAGE, [Key(ID)], []))
  {
    FieldIssueReported(fields, optional, IdSlot, Issue(InvalidString, UUID_MESSAGE, [Key(ID)], []));
  }

  /** Names: missing or not a string, and empty, each with its own message at [key]. */
  lemma NamesRequiredAndNonEmpty(fields: seq<Field>, optional: set<string>)
    ensures FIRST_NAME !in optional && !(Get(fields, FIRST_NAME).Some? && Get(fields, FIRST_NAME).value.Str?) ==>
      Rejects(fields, optional, Issue(InvalidType, FIRST_NAME_REQUIRED, [Key(FIRST_NAME)], []))
    ensures Get(fields, FIRST_NAME) == Some(Str("")) ==>
      Rejects(fields, optional, Issue(TooSmall, FIRST_NAME_EMPTY, [Key(FIRST_NAME)], []))
    ensures LAST_NAME !in optional && !(Get(fields, LAST_NAME).Some? && Get(fields, LAST_NAME).value.Str?) ==>
      Rejects(fields, optional, Issue(InvalidType, LAST_NAME_REQUIRED, [Key(LAST_NAME)], []))
    ensures Get(fields, LAST_NAME) == Some(Str("")) ==>
      Rejects(fields, optional, Issue(TooSmall, LAST_NAME_EMPTY, [Key(LAST_NAME)], []))
  {
    var first, last := Get(fields, FIRST_NAME), Get(fields, LAST_NAME);
    if FIRST_NAME !in optional && !(first.Some? && first.value.Str?) {
      FieldIssueReported(fields, optional, FirstNameSlot, Issue(InvalidType, FIRST_NAME_REQUIRED, [Key(FIRST_NAME)], []));
    }
    if first == Some(Str("")) {
      FieldIssueReported(fields, optional, FirstNameSlot, Issue(TooSmall, FIRST_NAME_EMPTY, [Key(FIRST_NAME)], []));
    }
    if LAST_NAME !in optional && !(last.Some? && last.value.Str?) {
      FieldIssueReported(fields, optional, LastNameSlot, Issue(InvalidType, LAST_NAME_REQUIRED, [Key(LAST_NAME)], []));
    }
    if last == Some(Str("")) {
      FieldIssueReported(fields, optional, LastNameSlot, Issue(TooSmall, LAST_NAME_EMPTY, [Key(LAST_NAME)], []));
    }
  }

  /** `emails` must be present and an array. */
  lemma EmailsFieldRequired(fields: seq<Field>, optional: set<string>)
    requires EMAILS !in optional && !(Get(fields, EMAILS).Some? && Get(fields, EMAILS).value.Arr?)
    ensures Rejects(fields, optional, Issue(InvalidType, EMAILS_REQUIRED, [Key(EMAILS)], []))
  {
    FieldIssueReported(fields, optional, EmailsSlot, Issue(InvalidType, EMAILS_REQUIRED, [Key(EMAILS)], []));
  }

  /** An accepted list holds between 1 and 3 addresses; outside that the bound's message is reported at ["emails"]. */
  lemma EmailCountBounded(fields: seq<Field>, optional: set<string>, items: seq<Value>)
    requires Get(fields, EMAILS) == Some(Arr(items))
    ensures |items| == 0 ==>
      Rejects(fields, optional, Issue(TooSmall, EMAILS_TOO_FEW, [Key(EMAILS)], []))
    ensures |items| > 3 ==>
      Rejects(fields, optional, Issue(TooBig, EMAILS_TOO_MANY, [Key(EMAILS)], []))
  {
    if |items| == 0 {
      FieldIssueReported(fields, optional, EmailsSlot, Issue(TooSmall, EMAILS_TOO_FEW, [Key(EMAILS)], []));
    }
    if |items| > 3 {
      FieldIssueReported(fields, optional, EmailsSlot, Issue(TooBig, EMAILS_TOO_MANY, [Key(EMAILS)], []));
    }
  }

  /** An element that is not an e-mail address is reported at ["emails", i] for its own index i. */
  lemma InvalidEmailReportedAtIndex(fields: seq<Field>, optional: set<string>, items: seq<Value>, i: nat)
    requires Get(fields, EMAILS) == Some(Arr(items))
    requires i < |items| && items[i].Str? && !IsEmail(items[i].s)
    ensures Rejects(fields, optional, Issue(InvalidString, EMAIL_FORMAT, [Key(EMAILS), Index(i)], []))
  {
    var x := Issue(InvalidString, EMAIL_FORMAT, [Key(EMAILS), Index(i)], []);
    ElementIssuesIncluded(items, 0, i);
    assert x in ElementsIssues(items, 0);
    assert x in EmailsIssues(Some(Arr(items)));
    FieldIssueReported(fields, optional, EmailsSlot, x);
  }

  /** A list of strings with a repeated address fails the uniqueness rule at ["emails"]. */
  lemma DuplicateEmailsRejected(fields: seq<Field>, optional: set<string>, items: seq<Value>, i: nat, j: nat)
    requires Get(fields, EMAILS) == Some(Arr(items)) && AllStrings(items)
    requires i < j < |items| && items[i] == items[j]
    ensures Rejects(fields, optional, Issue(Custom, EMAILS_NOT_UNIQUE, [Key(EMAILS)], []))
  {
    var es := Strings(items);
    assert es[i] == es[j];
    UniqueIffNoDuplicates(es);
    FieldIssueReported(fields, optional, EmailsSlot, Issue(Custom, EMAILS_NOT_UNIQUE, [Key(EMAILS)], []));
  }

  /** `dob`: missing or not a string, and not a YYYY-MM-DD date, each with its own message. */
  lemma DobRequiredAndDated(fields: seq<Field>, optional: set<string>)
    ensures DOB !in optional && !(Get(fields, DOB).Some? && Get(fields, DOB).value.Str?) ==>
      Rejects(fields, optional, Issue(InvalidType, DOB_REQUIRED, [Key(DOB)], []))
    ensures Get(fields, DOB).Some? && Get(fields, DOB).value.Str? && !IsDate(Get(fields, DOB).value.s) ==>
      Rejects(fields, optional, Issue(InvalidString, DOB_FORMAT, [Key(DOB)], []))
  {
    var v := Get(fields, DOB);
    if DOB !in optional && !(v.Some? && v.value.Str?) {
      FieldIssueReported(fields, optional, DobSlot, Issue(InvalidType, DOB_REQUIRED, [Key(DOB)], []));
    }
    if v.Some? && v.value.Str? && !IsDate(v.value.s) {
      FieldIssueReported(fields, optional, DobSlot, Issue(InvalidString, DOB_FORMAT, [Key(DOB)], []));
    }
  }

  /** A key outside the shape is rejected; the issue lists every such key, quoted in its message. */
  lemma UnknownKeyRejected(fields: seq<Field>, optional: set<string>, i: nat)
    requires i < |fields| && fields[i].key !in SHAPE
    ensures Rejects(fields, optional, Issue(UnrecognizedKeys, UnrecognizedMessage(UnknownKeys(fields)), [], UnknownKeys(fields)))
    ensures fields[i].key in UnknownKeys(fields)
  {
    UnknownKeyListed(fields, i);
    StrictIssueReported(fields, optional);
  }

  lemma {:induction false} UnknownKeyListed(fields: seq<Field>, i: nat)
    requires i < |fields| && fields[i].key !in SHAPE
    ensures fields[i].key in UnknownKeys(fields)
  {
    if i > 0 {
      UnknownKeyListed(fields[1..], i - 1);
    }
  }

  /** A non-empty list of unknown keys is reported as one issue. */
  lemma StrictIssueReported(fields: seq<Field>, optional: set<string>)
    requires UnknownKeys(fields) != []
    ensures Rejects(fields, optional, Issue(UnrecognizedKeys, UnrecognizedMessage(UnknownKeys(fields)), [], UnknownKeys(fields)))
  {
    var ks := UnknownKeys(fields);
    var x := Issue(UnrecognizedKeys, UnrecognizedMessage(ks), [], ks);
    assert StrictIssues(fields) == [x];
    InErrors(fields, optional, x);
  }

  /** With a single unrecognised key, the message quotes just that key. */
  lemma SingleUnknownKeyMessage(k: string)
    ensures UnrecognizedMessage([k]) == "Unrecognized key(s) in object: '" + k + "'"
  {
    assert QuotedList([k]) == "'" + k + "'";
  }

  /** A body that is missing or not an object yields one issue at the root. */
  lemma NonObjectRejected(body: Option<Value>, optional: set<string>)
    requires body.None? || !body.value.Obj?
    ensures Validate(body, optional).Err? && |Validate(body, optional).error| == 1
    ensures Validate(body, optional).error[0].code == InvalidType && Validate(body, optional).error[0].path == []
  {
  }
}
