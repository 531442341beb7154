/**
 * The agent's create_medication_reminder tool: the zod schema that checks
 * the arguments the model supplies, the mapping of those arguments onto a
 * createReminder call for the chat's own user, and the strings the tool
 * answers with.
 */
module ReminderTool {
  import opened Outcomes
  import opened Js
  import opened Recurrence
  import opened Reminders

  /** The arguments once zod has checked them (the callback's parameter). */
  datatype ToolArgs = ToolArgs(title: string, message: string, recurrence: string, active: Option<bool>)

  /** A string's `length`: UTF-16 code units, two for a character beyond
      the Basic Multilingual Plane. zod's `.min`/`.max` count these. */
  function Utf16Len(s: string): (n: nat)
    ensures |s| <= n <= 2 * |s|
  {
    if s == [] then 0 else Utf16Len(s[..|s| - 1]) + (if s[|s| - 1] as int > 0xFFFF then 2 else 1)
  }

  /** `z.string().min(lo).max(hi)`. */
  predicate StringWithin(v: JsValue, lo: nat, hi: nat) {
    v.Str? && lo <= Utf16Len(v.s) <= hi
  }

  /** `z.boolean().optional().default(true)`: undefined becomes true, any
      other non-boolean (null included) is refused. */
  function ActiveArg(v: JsValue): (r: Option<bool>)
    ensures r.Some? <==> v.Undefined? || v.Bool?
    ensures v.Undefined? ==> r == Some(true)
    ensures v.Bool? ==> r == Some(v.b)
  {
    match v
    case Undefined => Some(true)
    case Bool(b) => Some(b)
    case _ => None
  }

  /** The schema's verdict on one field each. */
  predicate ArgsAcceptable(args: JsValue) {
    && args.Object?
    && StringWithin(Get(args, "title"), 1, 255)
    && StringWithin(Get(args, "message"), 1, 2000)
    && Get(args, "recurrence").Str? && MatchesRecurrence(AgentTool, Get(args, "recurrence").s)
    && ActiveArg(Get(args, "active")).Some?
  }

  /** What zod hands the callback, or None when it refuses the arguments.
      Keys the schema does not name, `userId` among them, are dropped. */
  function ParseArgs(args: JsValue): (r: Option<ToolArgs>)
    ensures r.Some? <==> ArgsAcceptable(args)
  {
    if ArgsAcceptable(args) then
      Some(ToolArgs(Get(args, "title").s, Get(args, "message").s, Get(args, "recurrence").s,
                    ActiveArg(Get(args, "active"))))
    else None
  }

  /** Arguments the callback may receive: what the schema lets through. */
  predicate ValidArgs(a: ToolArgs) {
    && 1 <= Utf16Len(a.title) <= 255
    && 1 <= Utf16Len(a.message) <= 2000
    && MatchesRecurrence(AgentTool, a.recurrence)
    && a.active.Some?
  }

  /** The arguments written back as the object the model would send. */
  function ArgsObject(a: ToolArgs): JsValue {
    Object(map["title" := Str(a.title), "message" := Str(a.message), "recurrence" := Str(a.recurrence)]
           + (if a.active.Some? then map["active" := Bool(a.active.value)] else map[]))
  }

  /** The schema refuses exactly the arguments a callback cannot take, and
      hands over what it was sent. */
  lemma ParseArgsRoundTrip(a: ToolArgs)
    ensures ParseArgs(ArgsObject(a)).Some? <==> ValidArgs(a) || (a.active.None? && ValidArgs(a.(active := Some(true))))
    ensures ValidArgs(a) ==> ParseArgs(ArgsObject(a)) == Some(a)
    ensures a.active.None? && ValidArgs(a.(active := Some(true))) ==> ParseArgs(ArgsObject(a)) == Some(a.(active := Some(true)))
  {
    var o := ArgsObject(a);
    assert Get(o, "title") == Str(a.title);
    assert Get(o, "message") == Str(a.message);
    assert Get(o, "recurrence") == Str(a.recurrence);
    assert Get(o, "active") == (if a.active.Some? then Bool(a.active.value) else Undefined);
  }

  /** What passes the schema satisfies it. */
  lemma ParsedArgsValid(args: JsValue)
    ensures ParseArgs(args).Some? ==> ValidArgs(ParseArgs(args).value)
    ensures ParseArgs(args).Some? ==> Get(args, "recurrence") == Str(ParseArgs(args).value.recurrence)
  {
  }

  /** A `userId` among the arguments changes nothing: the schema neither
      reads nor passes it on. */
  lemma UserIdArgumentIgnored(props: map<string, JsValue>, forged: JsValue)
    ensures ParseArgs(Object(props["userId" := forged])) == ParseArgs(Object(props))
  {
    var o, o' := Object(props), Object(props["userId" := forged]);
    assert Get(o', "title") == Get(o, "title");
    assert Get(o', "message") == Get(o, "message");
    assert Get(o', "recurrence") == Get(o, "recurrence");
    assert Get(o', "active") == Get(o, "active");
  }

  /** The call the callback makes: always for the tool's own user, with
      `active` defaulting to true. */
  function ReminderRequest(userId: Id, a: ToolArgs): (input: CreateReminderInput)
    ensures input.userId == userId
    ensures input.title == a.title && input.message == a.message && input.recurrence == a.recurrence
    ensures input.active == Some(if a.active.Some? then a.active.value else true)
  {
    CreateReminderInput(a.title, userId, a.message, a.recurrence,
                        Some(if a.active.Some? then a.active.value else true))
  }

  /** Leaving `active` out asks for an active reminder, whichever of the
      schema's default and the callback's default applies. */
  lemma ActiveDefaultsToTrue(userId: Id, props: map<string, JsValue>)
    requires "active" !in props
    requires ParseArgs(Object(props)).Some?
    ensures ParseArgs(Object(props)).value.active == Some(true)
    ensures ReminderRequest(userId, ParseArgs(Object(props)).value).active == Some(true)
  {
  }

  const SuccessHeader := "Medication" + " reminder created successfully!\n\nTitle: "
  const IdLabel := "\nID: "
  const FailureReply := "Failed" + " to create medication reminder. Please check the provided information and try again."

  function YesNo(b: bool): (r: string)
    ensures r == "Yes" <==> b
  {
    if b then "Yes" else "No"
  }

  /** The lines between the title and the id. */
  function MiddleLines(r: Reminder): string {
    "\nMessage: " + r.message + "\nRecurrence: " + r.recurrence + "\nActive: " + YesNo(r.active)
  }

  /** The success text: header, then title, message, recurrence, active
      and id in that order. */
  function SuccessReply(r: Reminder): string {
    SuccessHeader + r.title + MiddleLines(r) + IdLabel + r.id
  }

  /** The callback's answer: the created reminder's fields, or the fixed
      apology when createReminder threw. */
  function Reply(outcome: Result<ReminderWithUser, ServiceError>): string {
    match outcome
    case Failure(_) => FailureReply
    case Success(x) => SuccessReply(x.reminder)
  }

  /** Where the four parts of a concatenation lie. */
  lemma FourParts(a: string, b: string, c: string, d: string)
    ensures var s := a + b + c + d;
      && s[..|a|] == a && s[|a|..|a| + |b|] == b
      && s[|a| + |b|..|s| - |d|] == c && s[|s| - |d|..] == d
  {
    var s := a + b + c + d;
    assert s == a + (b + (c + d));
    assert s[..|a|] == a;
    assert s[|a|..] == b + (c + d);
    assert (b + (c + d))[..|b|] == b;
    assert s[|a| + |b|..] == c + d;
    assert (c + d)[..|c|] == c;
  }

  /** A success opens with the header and the title and closes with the
      id, so it never reads like the failure text. */
  lemma SuccessReplyShape(r: Reminder)
    ensures var s := SuccessReply(r);
      && |s| >= |SuccessHeader| + |r.title| + |IdLabel| + |r.id|
      && s[..|SuccessHeader|] == SuccessHeader
      && s[|SuccessHeader|..|SuccessHeader| + |r.title|] == r.title
      && s[|s| - |r.id| - |IdLabel|..] == IdLabel + r.id
      && s[|SuccessHeader| + |r.title|..|s| - |r.id| - |IdLabel|] == MiddleLines(r)
      && s != FailureReply
  {
    var s := SuccessReply(r);
    var m := MiddleLines(r);
    assert s == SuccessHeader + r.title + m + (IdLabel + r.id);
    FourParts(SuccessHeader, r.title, m, IdLabel + r.id);
    assert s[0] == 'M';
    assert FailureReply[0] == 'F';
  }

  /** Every failure reads the same, and only a failure reads that way. */
  lemma ReplyShape(outcome: Result<ReminderWithUser, ServiceError>)
    ensures outcome.Failure? <==> Reply(outcome) == FailureReply
    ensures outcome.Success? ==> Reply(outcome) == SuccessReply(outcome.value.reminder)
  {
    if outcome.Success? {
      SuccessReplyShape(outcome.value.reminder);
    }
  }

  /** The whole tool call: None when the schema refuses the arguments (the
      framework reports that, the callback never runs), otherwise the
      request made and the reply to the outcome `create` gives it. */
  function Invoke(userId: Id, args: JsValue, create: CreateReminderInput -> Result<ReminderWithUser, ServiceError>)
    : (r: Option<(CreateReminderInput, string)>)
    ensures r.Some? <==> ArgsAcceptable(args)
    ensures r.Some? ==> r.value.0.userId == userId
    ensures r.Some? ==> (r.value.1 == FailureReply <==> create(r.value.0).Failure?)
    ensures r.Some? ==> r.value.0 == ReminderRequest(userId, ParseArgs(args).value)
    ensures r.Some? ==> r.value.1 == Reply(create(r.value.0))
  {
    match ParseArgs(args)
    case None => None
    case Some(a) =>
      var input := ReminderRequest(userId, a);
      ReplyShape(create(input));
      Some((input, Reply(create(input))))
  }
}
