/**
 * The validation rules of the reminder-creation request body
 * (CreateMedicationReminderDto): class-validator decorators read as one
 * predicate over the parsed JSON body.
 */
module ReminderDto {
  import opened Js
  import opened Recurrence

  /** The parsed body; a property the client left out is Undefined. */
  datatype CreateReminderBody = CreateReminderBody(
    title: JsValue,
    userId: JsValue,
    message: JsValue,
    recurrence: JsValue,
    active: JsValue)

  /** `@IsNotEmpty()`: not '', not null, not undefined. */
  predicate IsNotEmpty(v: JsValue) {
    v != Str("") && !v.Null? && !v.Undefined?
  }

  /** The variation selectors VS15 and VS16 (text and emoji presentation). */
  predicate IsPresentationSelector(c: char) {
    c == '\U{FE0E}' || c == '\U{FE0F}'
  }

  /** The length validator.js's isLength measures: a surrogate pair counts as
      one character (one `char` here) and a presentation selector as none. */
  function DisplayLength(s: string): (n: nat)
    ensures n <= |s|
    ensures (forall k :: 0 <= k < |s| ==> !IsPresentationSelector(s[k])) ==> n == |s|
  {
    if s == [] then 0
    else DisplayLength(s[..|s| - 1]) + (if IsPresentationSelector(s[|s| - 1]) then 0 else 1)
  }

  /** `@Length(min, max)`: a string whose measured length lies in the bounds. */
  predicate HasLength(v: JsValue, min: nat, max: nat) {
    v.Str? && min <= DisplayLength(v.s) <= max
  }

  /** `@IsString() @IsNotEmpty() @Length(1, 255)` */
  predicate TitleOk(v: JsValue) {
    v.Str? && IsNotEmpty(v) && HasLength(v, 1, 255)
  }

  /** `@IsString() @IsNotEmpty() @Length(1, 2000)` */
  predicate MessageOk(v: JsValue) {
    v.Str? && IsNotEmpty(v) && HasLength(v, 1, 2000)
  }

  predicate IsHexDigit(c: char) {
    IsDigit(c) || 'a' <= c <= 'f' || 'A' <= c <= 'F'
  }

  /** The 8-4-4-4-12 hexadecimal layout of a UUID. */
  predicate UuidLayout(s: string) {
    && |s| == 36
    && forall k :: 0 <= k < 36 ==>
         if k == 8 || k == 13 || k == 18 || k == 23 then s[k] == '-' else IsHexDigit(s[k])
  }

  /** `@IsUUID() @IsNotEmpty()` */
  predicate UserIdOk(v: JsValue) {
    v.Str? && IsNotEmpty(v) && UuidLayout(v.s)
  }

  /** `@IsString() @IsNotEmpty() @Matches(<request-body pattern>)` */
  predicate RecurrenceOk(v: JsValue) {
    v.Str? && IsNotEmpty(v) && MatchesRecurrence(RequestBody, v.s)
  }

  /** `@IsBoolean() @IsOptional()`: the optional rule skips every other
      rule when the value is null or undefined. */
  predicate ActiveOk(v: JsValue) {
    v.Undefined? || v.Null? || v.Bool?
  }

  predicate ValidBody(b: CreateReminderBody) {
    && TitleOk(b.title)
    && UserIdOk(b.userId)
    && MessageOk(b.message)
    && RecurrenceOk(b.recurrence)
    && ActiveOk(b.active)
  }

  /** A title passes iff it is a string of 1 to 255 measured characters;
      the non-empty rule adds nothing to the length rule. */
  lemma TitleRule(v: JsValue)
    ensures TitleOk(v) <==> v.Str? && 1 <= DisplayLength(v.s) <= 255
  {
    if v.Str? && 1 <= DisplayLength(v.s) {
      assert v != Str("");
    }
  }

  /** A message passes iff it is a string of 1 to 2000 measured characters. */
  lemma MessageRule(v: JsValue)
    ensures MessageOk(v) <==> v.Str? && 1 <= DisplayLength(v.s) <= 2000
  {
    if v.Str? && 1 <= DisplayLength(v.s) {
      assert v != Str("");
    }
  }

  /** A title made of a presentation selector alone measures 0 and fails,
      although it is a non-empty string. */
  lemma SelectorOnlyTitleRejected()
    ensures !TitleOk(Str("\U{FE0F}"))
  {
    assert DisplayLength("\U{FE0F}") == DisplayLength("") + 0;
  }

  /** A recurrence passes iff it is a string the request-body pattern
      matches; the pattern never matches the empty string. */
  lemma RecurrenceRule(v: JsValue)
    ensures RecurrenceOk(v) <==> v.Str? && MatchesRecurrence(RequestBody, v.s)
  {
    if v.Str? && MatchesRecurrence(RequestBody, v.s) {
      RecogniseIsConcatenation(RequestBody, v.s);
      TokenDelimited(RequestBody);
      ConcatenationStartsSolid(TokenOf(RequestBody), v.s, CronFields);
      assert v != Str("");
    }
  }

  /** A recurrence the request body admits is also one the agent tool admits. */
  lemma BodyRecurrenceIsToolRecurrence(b: CreateReminderBody)
    requires ValidBody(b)
    ensures MatchesRecurrence(AgentTool, b.recurrence.s)
  {
    BodyWithinTool(b.recurrence.s);
  }

  /** `active` may be left out, or given as a boolean, or given as null
      (the optional rule lets null through); any other value fails. */
  lemma ActiveRule(b: CreateReminderBody)
    ensures ValidBody(b) ==> b.active.Undefined? || b.active.Null? || b.active.Bool?
    ensures ValidBody(b) && !b.active.Bool? ==> ValidBody(b.(active := Undefined))
    ensures ValidBody(b) && !b.active.Bool? ==> ValidBody(b.(active := Null))
    ensures ValidBody(b) ==> !ValidBody(b.(active := Str("true")))
    ensures ValidBody(b) ==> !ValidBody(b.(active := Number("1")))
  {
  }
}
