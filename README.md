# Virtual pet doctor: medication reminders, recurrence patterns and agent tools

This project models, in Dafny, the core of a chat-based medication-reminder
assistant:

- **The medication-reminder service** (`Reminders`, `reminder_service.dfy`).
  Reminders are persisted with an `active` flag. For each active reminder the
  service keeps a cron job in the scheduler's registry under the name
  `reminder-<id>`, and it mirrors that job in its own map from reminder id to
  job name. The service is a class whose map fields the methods update:
  - startup reconciliation;
  - `scheduleReminder`, a guarded insert;
  - create, activate and deactivate;
  - the tick that sends a reminder's text.

  Each method is proved against a specification function on a `Jobs` value:
  - `Schedule`;
  - `Unschedule`;
  - `Reconcile`, a fold of `Schedule` over the loaded reminders.

  Lemmas about those functions state what the source promises: idempotence,
  one job per recorded id, startup giving a job to exactly the stored active
  reminders the cron library accepts, counts that add up, and deactivation
  undoing a start. The invariant `Valid` says the registry and the id map describe the
  same jobs. Every method preserves it.
- **The two recurrence patterns** (`Recurrence`, `recurrence.dfy`). Each is a
  recogniser over the five time fields of a crontab entry (minute, hour, day of
  month, month, day of week, as in the crontab INPUT FILES format of
  POSIX.1-2017). The `*/n` step is the Vixie-cron extension.
  - The request-body pattern (`RequestBody`) admits per field `*`, `*/n` or
    one value in range, written without a leading zero.
  - The agent tool's pattern (`AgentTool`) admits per field comma lists of
    `*`, `*/n`, `a`, `a-b`, `a/n` and `a-b/n`.

  The scanning recogniser is proved equal to the anchored concatenation
  `F0 \s+ F1 \s+ ... F4` both ways. Each field's value alternative is proved
  equal to a numeric range. The body pattern is proved to be contained in the
  tool pattern. Concrete accepted and rejected strings are proved as well.
- **The request DTO** (`ReminderDto`, `reminder_dto.dfy`): its class-validator
  decorators, read as one validity predicate over the parsed body, with one
  lemma per field.
- **The agent's create-reminder tool** (`ReminderTool`, `reminder_tool.dfy`):
  - the zod schema, with lengths counted in UTF-16 code units;
  - the mapping onto `createReminder` for the chat's own user, with `active`
    defaulting to true;
  - the success and failure replies.
- **The knowledge-base tool** (`KnowledgeBase`, `knowledge_base.dfy`):
  - its configuration checks;
  - `formatResults`: type guards, a per-record template numbered by the
    record's own position, filtering of dropped records, and the join.
- **The AI service's response-text extraction** (`ResponseText`,
  `response_text.dfy`).
- `Js` (`js_value.dfy`) models the JavaScript values these functions inspect:
  - truthiness;
  - `in` on object-typed values;
  - `??`;
  - `String()`;
  - the whitespace that `\s` and `trim` use;
  - `Array.prototype.join`.
- `Outcomes` (`outcomes.dfy`) holds `Option` and `Result`.

External effects are parameters:

- the database, as maps, plus a `storeDown` flag or a listing that may be a
  failure;
- whether the cron library accepts an expression (`cronOk`);
- whether the chat gateway delivers (`gatewayOk`);
- `score.toFixed(3)` (`fixed3`);
- `createReminder` as the tool sees it (`create`).

The code calls `scheduleReminder` inside the `try` of `createReminder` and
`activateReminder`, so there the failure reaches the caller as
`InternalServerErrorException`, although the row is already written. The model
follows the code: `CreateReminder` and `ActivateReminder` return a failure
then. Only the startup loop counts such a reminder as skipped.

Grammar quirks of the tool pattern are stated as proved facts:

- after a comma, a star is admitted only as `" *"`, with one leading space, so
  `"0,* * * * *"` is rejected;
- the day-of-month field also takes `0`;
- minute and hour also take one leading zero.

## Model

| member | source | states |
|---|---|---|
| Reminders.Schedule | src/medication-reminder/medication-reminder.service.ts:137-174 | (specification function) scheduleReminder on the job state; characterised by ScheduleIdempotent, ScheduleEffect and SchedulePreservesValid |
| Reminders.Unschedule | src/medication-reminder/medication-reminder.service.ts:203-209 | (specification function) the job half of deactivateReminder; characterised by UnscheduleEffect and UnscheduleUndoesSchedule |
| Reminders.Reconcile | src/medication-reminder/medication-reminder.service.ts:52-68 | (specification function) the startup loop over a listing; characterised by ReconcileCounts, ReconcileFromEmpty and StartupSchedulesActive |
| Reminders.ListsActive | src/medication-reminder/medication-reminder.service.ts:38-46 | (definition) a faithful answer of the active-reminder query: each stored active reminder once, as stored, with its owner |
| Reminders.StartupSchedulesActive | src/medication-reminder/medication-reminder.service.ts:34-81 | startup over a faithful listing gives a job to exactly the stored active reminders the cron library accepts, one each, and counts every other one as skipped |
| Reminders.JobName | src/medication-reminder/medication-reminder.service.ts:139 | the job name of a reminder is `reminder-` followed by its id, and the id can be read back from it |
| Reminders.JobNameOfId | src/medication-reminder/medication-reminder.service.ts:139 | every well-formed job name is the job name of the id it encodes |
| Reminders.JobNameInjective | src/medication-reminder/medication-reminder.service.ts:139 | two reminders never share a job name |
| Reminders.ScheduleIdempotent | src/medication-reminder/medication-reminder.service.ts:145-150 | when `reminder-<id>` already exists, scheduling returns with nothing changed; scheduling twice leaves the state of scheduling once, and a second call after a start reports the job as already there |
| Reminders.ScheduleEffect | src/medication-reminder/medication-reminder.service.ts:137-174 | a job is started iff none exists and the cron library accepts the expression; a rejected one changes neither the registry nor the id map; a start adds exactly the running job `reminder-<id>` with the reminder's expression in America/Sao_Paulo, keeps every other job, and records the id |
| Reminders.ScheduleKeys | src/medication-reminder/medication-reminder.service.ts:166 | scheduling records no id other than the scheduled reminder's |
| Reminders.SchedulePreservesValid | src/medication-reminder/medication-reminder.service.ts:137-174 | scheduling keeps registry and id map describing the same running jobs; in such a state a job exists iff its id is recorded |
| Reminders.FreshIdHasNoJob | src/medication-reminder/medication-reminder.service.ts:145 | in a consistent state an id without a record has no job |
| Reminders.ScheduleFresh | src/medication-reminder/medication-reminder.service.ts:152-167 | for a reminder with no job, the id map gains its id, and grows by one, exactly when the cron library accepts the expression; otherwise the outcome is a rejection |
| Reminders.UnscheduleEffect | src/medication-reminder/medication-reminder.service.ts:203-209 | in a consistent state, deactivation removes exactly the id's job and record, and is a no-op (not an error) when there is none; consistency is kept |
| Reminders.UnscheduleUndoesSchedule | src/medication-reminder/medication-reminder.service.ts:203-209 | deactivating a reminder that had no job and was then scheduled gives back the job state from before |
| Reminders.ReconcileCounts | src/medication-reminder/medication-reminder.service.ts:52-68 | every loaded reminder is counted exactly once: scheduled + skipped equals the number loaded |
| Reminders.ReconcilePreservesValid | src/medication-reminder/medication-reminder.service.ts:55-68 | the startup loop keeps registry and id map consistent |
| Reminders.ReconcileIdsFrom | src/medication-reminder/medication-reminder.service.ts:55-68 | the startup loop records no id other than those recorded before and those of the loaded reminders |
| Reminders.LastIdFresh | src/medication-reminder/medication-reminder.service.ts:55-68 | with distinct ids, a reminder has no job before its own turn of the loop |
| Reminders.ReconcileFromEmptyJobs | src/medication-reminder/medication-reminder.service.ts:52-68 | from no jobs, the recorded ids are the accepted ones, the scheduled count is their number, and the skipped count is the number rejected |
| Reminders.RegistryMatchesScheduled | src/medication-reminder/medication-reminder.service.ts:166 | in a consistent state the registry holds exactly one job per recorded id |
| Reminders.NamesCardinality | src/medication-reminder/medication-reminder.service.ts:139 | a set of ids has as many job names as ids |
| Reminders.ReconcileFromEmpty | src/medication-reminder/medication-reminder.service.ts:34-81 | startup from no jobs over distinct ids: exactly the accepted reminders get a job, one each, the scheduled count equals the job count, every rejection is counted as skipped, and the state is consistent |
| Reminders.AcceptedIdsExactly | src/medication-reminder/medication-reminder.service.ts:55-67 | with distinct ids a loaded reminder gets a job iff the cron library accepts its expression: a failing reminder never stops the loop or costs another its job |
| Reminders.AcceptedIdsFrom | src/medication-reminder/medication-reminder.service.ts:55-67 | an accepted id is the id of one of the loaded reminders |
| Reminders.ReminderText | src/medication-reminder/medication-reminder.service.ts:180 | the fired text is the pill emoji and a space, the title, a blank line, then the message, each at its position |
| Reminders.SendReminderMessage | src/medication-reminder/medication-reminder.service.ts:176-193 | the text goes to the owner's chat; a gateway failure is recorded as not delivered and never raised |
| Reminders.ReminderService.constructor | src/medication-reminder/medication-reminder.service.ts:18-24 | the service starts with the stored rows, no jobs and an empty id map, consistent and mirroring the active flags |
| Reminders.ReminderService.ScheduleReminder | src/medication-reminder/medication-reminder.service.ts:137-174 | the new registry, id map and outcome are those of `Schedule` on the old ones |
| Reminders.ReminderService.LoadActiveReminders | src/medication-reminder/medication-reminder.service.ts:34-81 | a failed query is caught and changes nothing; otherwise the jobs and the two counters are those of `Reconcile` over the listing, the counters add up to the number found, consistency is kept, jobs still mirror active rows when the listing holds active rows, and from no jobs over a faithful listing the recorded ids are exactly the stored active reminders the cron library accepts, one job each |
| Reminders.ReminderService.CreateReminder | src/medication-reminder/medication-reminder.service.ts:83-135 | a failed write changes nothing and raises `Failed to create reminder`; otherwise the row is stored with `active` defaulting to true, scheduled exactly when active, and a cron rejection raises the same error with the row left written |
| Reminders.ReminderService.DeactivateReminder | src/medication-reminder/medication-reminder.service.ts:195-217 | a failed update changes nothing and raises `Failed to deactivate reminder`; otherwise the row reads inactive, is returned, and exactly its job and record are gone (`Unschedule`), whether or not it had one |
| Reminders.ReminderService.ActivateReminder | src/medication-reminder/medication-reminder.service.ts:219-236 | a failed update changes nothing and raises `Failed to activate reminder`; otherwise the row reads active and is scheduled as by `Schedule`, a rejection is raised, and an already scheduled reminder keeps its one job and succeeds |
| Reminders.ReminderService.Tick | src/medication-reminder/medication-reminder.service.ts:152-160 | a tick of a registered, running job sends that job's captured reminder text to its owner's chat, and the dispatch is delivered exactly when the gateway works, so a gateway failure is swallowed; any other name sends nothing |
| ReminderDto.TitleOk | src/medication-reminder/dto/create-medication-reminder.dto.ts:19-22 | (definition) `@IsString() @IsNotEmpty() @Length(1, 255)`; characterised by TitleRule |
| ReminderDto.MessageOk | src/medication-reminder/dto/create-medication-reminder.dto.ts:38-41 | (definition) `@IsString() @IsNotEmpty() @Length(1, 2000)`; characterised by MessageRule |
| ReminderDto.UserIdOk | src/medication-reminder/dto/create-medication-reminder.dto.ts:28-30 | (definition) `@IsUUID() @IsNotEmpty()`: a non-empty string with the 8-4-4-4-12 hexadecimal layout; the version and variant digits are left out, see the ReminderDto.UserIdOk line under "## Left out" |
| ReminderDto.RecurrenceOk | src/medication-reminder/dto/create-medication-reminder.dto.ts:49-57 | (definition) a non-empty string the request-body pattern matches; characterised by RecurrenceRule |
| ReminderDto.ActiveOk | src/medication-reminder/dto/create-medication-reminder.dto.ts:65-67 | (definition) `@IsBoolean() @IsOptional()`: absent, null or boolean; characterised by ActiveRule |
| ReminderDto.ValidBody | src/medication-reminder/dto/create-medication-reminder.dto.ts:12-68 | (definition) the body passes validation iff every field passes its rule |
| ReminderDto.DisplayLength | src/medication-reminder/dto/create-medication-reminder.dto.ts:21 | the length `@Length` measures is at most the character count, and equals it for a string without presentation selectors |
| ReminderDto.TitleRule | src/medication-reminder/dto/create-medication-reminder.dto.ts:19-22 | a title passes iff it is a string whose measured length is 1 to 255 |
| ReminderDto.MessageRule | src/medication-reminder/dto/create-medication-reminder.dto.ts:38-41 | a message passes iff it is a string whose measured length is 1 to 2000 |
| ReminderDto.SelectorOnlyTitleRejected | src/medication-reminder/dto/create-medication-reminder.dto.ts:21 | a title made of one presentation selector measures 0 and is rejected, although it is non-empty |
| ReminderDto.RecurrenceRule | src/medication-reminder/dto/create-medication-reminder.dto.ts:49-57 | a recurrence passes iff it is a string the request-body pattern matches; the pattern never matches the empty string |
| ReminderDto.BodyRecurrenceIsToolRecurrence | src/medication-reminder/dto/create-medication-reminder.dto.ts:52 | a recurrence a valid request body carries is one the agent tool's pattern admits as well |
| ReminderDto.ActiveRule | src/medication-reminder/dto/create-medication-reminder.dto.ts:65-67 | `active` may be absent, null or a boolean, and nothing else |
| Recurrence.MatchesRecurrence | src/medication-reminder/dto/create-medication-reminder.dto.ts:52 | (definition) the whole string matches the anchored five-field pattern of the grammar; characterised by RecogniseIsConcatenation |
| Recurrence.Recognise | src/modules/ai/tools/create-medication-reminder.tool.ts:77 | (definition) the field-by-field scanner; proved equal to the anchored concatenation by RecogniseSound and RecogniseComplete |
| Recurrence.BodyToken | src/medication-reminder/dto/create-medication-reminder.dto.ts:52 | (definition) one field of the request-body pattern: `*`, a value or `*/n`; its values characterised by BodyValueIsRange |
| Recurrence.ToolList | src/modules/ai/tools/create-medication-reminder.tool.ts:77 | (definition) one field of the tool pattern, a comma list; characterised by ToolListShape and ToolValueIsRange |
| Recurrence.RecogniseIsConcatenation | src/medication-reminder/dto/create-medication-reminder.dto.ts:52 | each recogniser accepts exactly the strings that are five fields of its pattern separated by whitespace runs, anchored at both ends |
| Recurrence.RecogniseSound | src/medication-reminder/dto/create-medication-reminder.dto.ts:52 | what the scanner accepts is such an anchored concatenation |
| Recurrence.RecogniseComplete | src/medication-reminder/dto/create-medication-reminder.dto.ts:52 | every such anchored concatenation is accepted by the scanner |
| Recurrence.BodyValueIsRange | src/medication-reminder/dto/create-medication-reminder.dto.ts:52 | a request-body field value is exactly the decimal rendering of a number in the field's range: minute 0-59, hour 0-23, day 1-31, month 1-12, weekday 0-6 |
| Recurrence.BodyValueIsDecimal | src/medication-reminder/dto/create-medication-reminder.dto.ts:52 | an admitted request-body value is in range and has no leading zero |
| Recurrence.ToolValueIsRange | src/modules/ai/tools/create-medication-reminder.tool.ts:77 | a tool field value is exactly the rendering of a number in the field's range; the day of month also admits 0, and minute and hour also admit one leading zero |
| Recurrence.ToolValueIsDecimal | src/modules/ai/tools/create-medication-reminder.tool.ts:77 | an admitted tool value denotes a number in that range |
| Recurrence.ToolListShape | src/modules/ai/tools/create-medication-reminder.tool.ts:77 | a tool field never ends in a comma or a blank, and its only blanks are the single spaces of `, *` elements |
| Recurrence.BodyWithinTool | src/modules/ai/tools/create-medication-reminder.tool.ts:77 | every recurrence the request-body pattern accepts, the tool pattern accepts |
| Recurrence.LeadingBlankRejected | src/medication-reminder/dto/create-medication-reminder.dto.ts:52 | both anchored patterns reject a string that starts with whitespace |
| Recurrence.TrailingBlankRejected | src/medication-reminder/dto/create-medication-reminder.dto.ts:52 | both anchored patterns reject a string that ends with whitespace |
| Recurrence.SingleSpaced | src/medication-reminder/dto/create-medication-reminder.dto.ts:52 | five fields written with single spaces are accepted iff each is a token of its field |
| Recurrence.BodyAcceptsDaily | src/medication-reminder/dto/create-medication-reminder.dto.ts:46 | the request body accepts `0 9 * * *` |
| Recurrence.BodyAcceptsStep | src/medication-reminder/dto/create-medication-reminder.dto.ts:52 | the request body accepts `*/15 * * * *` |
| Recurrence.BodyRejectsMinute99 | src/medication-reminder/dto/create-medication-reminder.dto.ts:52 | the request body rejects minute 99 |
| Recurrence.BodyRejectsMonth0 | src/medication-reminder/dto/create-medication-reminder.dto.ts:52 | the request body rejects month 0 |
| Recurrence.BodyRejectsMonth13 | src/medication-reminder/dto/create-medication-reminder.dto.ts:52 | the request body rejects month 13 |
| Recurrence.BodyRejectsRange | src/medication-reminder/dto/create-medication-reminder.dto.ts:52 | the request body rejects the weekday range `0 9 * * 1-5` |
| Recurrence.BodyRejectsList | src/medication-reminder/dto/create-medication-reminder.dto.ts:52 | the request body rejects the list `0 8,20 * * *` |
| Recurrence.BodyRejectsLeadingZero | src/medication-reminder/dto/create-medication-reminder.dto.ts:52 | the request body rejects the leading-zero value `09` |
| Recurrence.ValueRangeToken | src/modules/ai/tools/create-medication-reminder.tool.ts:77 | `a-b` is a tool field for any two values of that field |
| Recurrence.ValueListToken | src/modules/ai/tools/create-medication-reminder.tool.ts:77 | `a,b` is a tool field for any two values of that field |
| Recurrence.SpacedStarListToken | src/modules/ai/tools/create-medication-reminder.tool.ts:77 | `a, *` is a tool field: the space before a listed star does not end the field |
| Recurrence.ValueStepToken | src/modules/ai/tools/create-medication-reminder.tool.ts:77 | `a/n` is a tool field for any value of the field and any digit step |
| Recurrence.RangeStepToken | src/modules/ai/tools/create-medication-reminder.tool.ts:77 | `lo-hi/n` is a tool field for any two values of the field and any digit step |
| Recurrence.ToolAcceptsWeekdayRange | src/modules/ai/tools/create-medication-reminder.tool.ts:77 | the tool accepts `0 9 * * a-b` for any two weekdays, `0 9 * * 1-5` among them |
| Recurrence.ToolAcceptsHourList | src/modules/ai/tools/create-medication-reminder.tool.ts:77-81 | the tool accepts `0 a,b * * *` for any two hours, `0 8,20 * * *` among them |
| Recurrence.ToolAcceptsSpacedStar | src/modules/ai/tools/create-medication-reminder.tool.ts:77 | the tool accepts `a, * * * * *` for any minute value: a listed star may carry its one leading space |
| Recurrence.ToolAcceptsValueStep | src/modules/ai/tools/create-medication-reminder.tool.ts:77 | the tool accepts `a/n * * * *` for any minute value `a` and digit step `n` |
| Recurrence.ToolAcceptsRangeStep | src/modules/ai/tools/create-medication-reminder.tool.ts:77 | the tool accepts `0 lo-hi/n * * wlo-whi` for any hour values, digit step and weekday values |
| Recurrence.ToolAcceptsWorkdayEveryTwoHours | src/modules/ai/tools/create-medication-reminder.tool.ts:77 | the tool accepts `0 9-17/2 * * 1-5` |
| Recurrence.ToolAcceptsDayZero | src/modules/ai/tools/create-medication-reminder.tool.ts:77 | the tool accepts day of month 0 |
| Recurrence.BareStarIsNoToolToken | src/modules/ai/tools/create-medication-reminder.tool.ts:77 | `0,*` is not a tool field |
| Recurrence.ToolRejectsBareStar | src/modules/ai/tools/create-medication-reminder.tool.ts:77 | the tool rejects `0,* * * * *`: after a comma a star needs its leading space |
| Recurrence.ToolRejectsWeekday7 | src/modules/ai/tools/create-medication-reminder.tool.ts:77 | the tool rejects weekday 7 |
| Recurrence.ToolRejectsMonth13 | src/modules/ai/tools/create-medication-reminder.tool.ts:77 | the tool rejects month 13 |
| ReminderTool.ArgsAcceptable | src/modules/ai/tools/create-medication-reminder.tool.ts:59-90 | (definition) the zod schema's verdict, field by field; characterised by ParseArgsRoundTrip and ParsedArgsValid |
| ReminderTool.SuccessReply | src/modules/ai/tools/create-medication-reminder.tool.ts:49 | (definition) the success template; characterised by SuccessReplyShape |
| ReminderTool.Reply | src/modules/ai/tools/create-medication-reminder.tool.ts:40-53 | (definition) the callback's answer by outcome; characterised by ReplyShape |
| ReminderTool.Utf16Len | src/modules/ai/tools/create-medication-reminder.tool.ts:60-73 | a string's length in UTF-16 units lies between its character count and twice that |
| ReminderTool.ActiveArg | src/modules/ai/tools/create-medication-reminder.tool.ts:83-89 | `active` is accepted iff absent or boolean; absent reads as true |
| ReminderTool.ParseArgs | src/modules/ai/tools/create-medication-reminder.tool.ts:59-90 | the schema lets arguments through iff each field passes its rule |
| ReminderTool.ParseArgsRoundTrip | src/modules/ai/tools/create-medication-reminder.tool.ts:59-90 | arguments written as an object pass the schema iff they are valid, with `active` defaulted when absent, and come back unchanged |
| ReminderTool.ParsedArgsValid | src/modules/ai/tools/create-medication-reminder.tool.ts:59-90 | what passes the schema satisfies every rule, and its recurrence is the one sent |
| ReminderTool.UserIdArgumentIgnored | src/modules/ai/tools/create-medication-reminder.tool.ts:29-47 | a `userId` among the arguments changes nothing the callback receives |
| ReminderTool.ReminderRequest | src/modules/ai/tools/create-medication-reminder.tool.ts:41-47 | the reminder is requested for the tool's own user, with the given fields and `active` defaulting to true |
| ReminderTool.ActiveDefaultsToTrue | src/modules/ai/tools/create-medication-reminder.tool.ts:46 | leaving `active` out asks for an active reminder |
| ReminderTool.YesNo | src/modules/ai/tools/create-medication-reminder.tool.ts:49 | the active flag prints as `Yes` exactly when it is set |
| ReminderTool.SuccessReplyShape | src/modules/ai/tools/create-medication-reminder.tool.ts:49 | the success text opens with its header and the title, then holds exactly the message, recurrence and Yes/No lines, closes with the id, and never equals the failure text |
| ReminderTool.ReplyShape | src/modules/ai/tools/create-medication-reminder.tool.ts:40-53 | the reply is the fixed failure text exactly when `createReminder` failed |
| ReminderTool.Invoke | src/modules/ai/tools/create-medication-reminder.tool.ts:27-93 | a call runs iff the schema accepts the arguments; it asks `create` for ReminderRequest of the tool's own user and the parsed arguments, and answers with Reply of the outcome, which is the failure text exactly when creation failed |
| KnowledgeBase.NewDifyTool | src/modules/ai/tools/dify-knowledge-base.tool.ts:17-35 | construction fails iff the key or the dataset id is empty or missing, the key checked first, each with its message; the URL defaults only when not configured |
| KnowledgeBase.Kept | src/modules/ai/tools/dify-knowledge-base.tool.ts:134-151 | (definition) a record both type guards let through; characterised by FormatRecordSpec |
| KnowledgeBase.FormatRecord | src/modules/ai/tools/dify-knowledge-base.tool.ts:133-170 | (definition) the per-record callback of the map; characterised by FormatRecordSpec and EntryText |
| KnowledgeBase.FormatRecords | src/modules/ai/tools/dify-knowledge-base.tool.ts:128-175 | (definition) formatResults once the records array is found; characterised by FormatRecordsSpec and FilteredEntries |
| KnowledgeBase.FormatResults | src/modules/ai/tools/dify-knowledge-base.tool.ts:117-176 | (definition) formatResults; characterised by FormatResultsMalformed and FormatResultsSpec |
| KnowledgeBase.ScoreText | src/modules/ai/tools/dify-knowledge-base.tool.ts:160-161 | (definition) `score.toFixed(3)` for a number, `N/A` for anything else; `toFixed` is the parameter `fixed3` (see "## Left out") |
| KnowledgeBase.DocumentName | src/modules/ai/tools/dify-knowledge-base.tool.ts:162 | a missing document name prints as `Unknown Document`, a string name as itself |
| KnowledgeBase.ContentText | src/modules/ai/tools/dify-knowledge-base.tool.ts:159 | missing content prints as `''`, string content as itself |
| KnowledgeBase.AnswerLine | src/modules/ai/tools/dify-knowledge-base.tool.ts:163 | the answer line is present iff the answer is truthy |
| KnowledgeBase.HeadingShape | src/modules/ai/tools/dify-knowledge-base.tool.ts:166 | an entry's heading opens with `Result <n>` |
| KnowledgeBase.EntryText | src/modules/ai/tools/dify-knowledge-base.tool.ts:165-169 | the trim removes only the template's leading newline and trailing whitespace |
| KnowledgeBase.FormatRecordSpec | src/modules/ai/tools/dify-knowledge-base.tool.ts:133-170 | a record formats to `''` iff a type guard drops it; a kept one opens with `Result` and its 1-based position |
| KnowledgeBase.Formatted | src/modules/ai/tools/dify-knowledge-base.tool.ts:133 | the map formats each record with its own index |
| KnowledgeBase.NonEmpty | src/modules/ai/tools/dify-knowledge-base.tool.ts:172 | (definition) `.filter((r) => r !== '')`; NonEmptyAt proves that it keeps exactly the non-empty strings, in order |
| KnowledgeBase.NonEmptyAt | src/modules/ai/tools/dify-knowledge-base.tool.ts:172 | the filter keeps exactly the non-empty strings, in order |
| KnowledgeBase.KeptPositionsAreNonEmpty | src/modules/ai/tools/dify-knowledge-base.tool.ts:134-151 | the formatter empties exactly the records the guards drop |
| KnowledgeBase.FilteredEntries | src/modules/ai/tools/dify-knowledge-base.tool.ts:133-172 | the joined entries are one per kept record, in order, each numbered by the record's original position |
| KnowledgeBase.KeptPositionsIncrease | src/modules/ai/tools/dify-knowledge-base.tool.ts:166 | entry numbers strictly increase, so dropped records leave gaps and no number repeats |
| KnowledgeBase.JoinStartsWithFirst | src/modules/ai/tools/dify-knowledge-base.tool.ts:174 | a join opens with its first element |
| KnowledgeBase.FormatResultsMalformed | src/modules/ai/tools/dify-knowledge-base.tool.ts:118-126 | input that is not an object with a `records` array yields the fixed no-results text |
| KnowledgeBase.JoinedEntriesDiffer | src/modules/ai/tools/dify-knowledge-base.tool.ts:172-175 | joined entries never read as the no-results text |
| KnowledgeBase.FirstEntryOpensWithResult | src/modules/ai/tools/dify-knowledge-base.tool.ts:165-172 | when a record is kept, the first entry to reach the join opens with `Result` |
| KnowledgeBase.FormatRecordsSpec | src/modules/ai/tools/dify-knowledge-base.tool.ts:128-175 | an empty array, or one whose every record is dropped, yields the no-results text; otherwise the kept entries joined by the separator, never that text |
| KnowledgeBase.FormatResultsSpec | src/modules/ai/tools/dify-knowledge-base.tool.ts:117-128 | with a `records` array, the result is the formatting of that array |
| ResponseText.ConcatStringsAppend | src/modules/ai/ai.service.ts:255-257 | concatenating an array's string items distributes over joining arrays |
| ResponseText.ConcatStringsIgnoresOthers | src/modules/ai/ai.service.ts:256 | non-string items contribute nothing |
| ResponseText.ConcatStringsOfStrings | src/modules/ai/ai.service.ts:255-257 | an array of strings yields their join with `''` |
| ResponseText.ConcatStrings | src/modules/ai/ai.service.ts:255-257 | (definition) the string items of an array, concatenated; characterised by ConcatStringsAppend, ConcatStringsIgnoresOthers and ConcatStringsOfStrings |
| ResponseText.Inspect | src/modules/ai/ai.service.ts:229-260 | (definition) the body of the `try`; characterised by the lemmas below |
| ResponseText.LastMessageText | src/modules/ai/ai.service.ts:246-259 | inspecting the last message throws iff it is not object-typed |
| ResponseText.ExtractResponseText | src/modules/ai/ai.service.ts:228-265 | the result is found text exactly when the inspection finds some; otherwise, and when it throws, the response is serialised |
| ResponseText.StringUnchanged | src/modules/ai/ai.service.ts:230-232 | a string comes back unchanged |
| ResponseText.TextWins | src/modules/ai/ai.service.ts:234-236 | a string `text` property wins |
| ResponseText.ContentNext | src/modules/ai/ai.service.ts:237-239 | without a string `text`, a string `content` is used |
| ResponseText.LastMessageDecides | src/modules/ai/ai.service.ts:240-261 | next the last message's string content, or its array content's strings concatenated; in every other case, an empty array included, the serialisation |
| ResponseText.PrimitivesSerialized | src/modules/ai/ai.service.ts:262-264 | a non-string primitive makes `in` throw, and the catch serialises it |
| ResponseText.ArraySerialized | src/modules/ai/ai.service.ts:233-261 | an array response has none of the properties and is serialised |
| ResponseText.PrimitiveLastMessageSerialized | src/modules/ai/ai.service.ts:248-264 | a primitive last message makes `in` throw, and the caller still receives the serialisation |
| Js.Truthy | src/modules/ai/tools/dify-knowledge-base.tool.ts:119 | (definition) JavaScript truthiness, as `!v` tests it |
| Js.Has | src/modules/ai/tools/dify-knowledge-base.tool.ts:122 | (definition) `key in v` on an object-typed value |
| Js.Get | src/modules/ai/ai.service.ts:234 | (definition) a present property reads as its value, a missing one as undefined |
| Js.Coalesce | src/modules/ai/tools/dify-knowledge-base.tool.ts:159 | (definition) `a ?? b` is `b` exactly when `a` is null or undefined, otherwise `a` |
| Js.ToText | src/modules/ai/tools/dify-knowledge-base.tool.ts:165-169 | (definition) `String(v)` as a template literal applies it |
| Js.Join | src/modules/ai/tools/dify-knowledge-base.tool.ts:174 | (definition) `Array.prototype.join` on strings; JoinStartsWithFirst and ConcatStringsOfStrings state its properties |
| Js.Trim | src/modules/ai/tools/dify-knowledge-base.tool.ts:169 | (definition) `String.prototype.trim`, TrimStart then TrimEnd |
| Js.DecimalReadsBack | src/modules/ai/tools/dify-knowledge-base.tool.ts:166 | the printed result number is a non-empty digit string without a leading zero that denotes the number |
| Js.TrimStart | src/modules/ai/tools/dify-knowledge-base.tool.ts:169 | removes exactly the leading whitespace |
| Js.TrimEnd | src/modules/ai/tools/dify-knowledge-base.tool.ts:169 | removes exactly the trailing whitespace |
| Js.TrimEndAfter | src/modules/ai/tools/dify-knowledge-base.tool.ts:169 | trailing whitespace is taken only from after the last non-blank character |

## Left out

- Prisma persistence is modelled as maps. Failures are modelled as a `storeDown` flag, an unknown id, an unknown user, a taken new id, or a failed listing. Query order, transactions and generated ids are not modelled: the new id is a parameter.
- The cron library's next-fire computation, daylight saving and the time zone's meaning are not modelled. A job is its expression, its time zone name, the reminder it captured and a running flag. Whether `new CronJob` accepts an expression is the parameter `cronOk`.
- Timer concurrency and the async interleaving of ticks with activate and deactivate are not modelled. Each method runs to completion.
- The chat gateway (`WhatsappService.sendMessage`) is not modelled. Its success is the parameter `gatewayOk`.
- Logging, `Date.now()` durations and `nextDate()` reporting are not modelled.
- `onModuleInit` only times and logs `loadActiveReminders`, so it is not modelled separately.
- `AiService.callAgent`, chat history and prompts are not part of this model.
- `DifyKnowledgeBaseTool.queryKnowledgeBase` and its HTTP `fetch` are not part of this model.
- `score.toFixed(3)` is floating-point formatting. It is the parameter `fixed3`, applied to the number's `String()` text.
- `JSON.stringify` is not modelled. The extraction returns `Serialized(response)` where the source returns the serialisation.
- JavaScript numbers are carried as their `String()` text, and objects as their own properties only. Every property name inspected here is absent from the standard prototypes.
- ReminderDto.UserIdOk checks only the 8-4-4-4-12 hexadecimal layout of `@IsUUID()`. The version and variant digits that validator.js also checks are not modelled.
- ReminderDto.DisplayLength follows one reading of validator.js's isLength: a surrogate pair counts as one character and the presentation selectors U+FE0E and U+FE0F count as none. validator.js is not part of this model, so its version is not pinned; a version that counts the selectors would accept titles and messages made of selectors alone.
- Reminders.ReminderService.LoadActiveReminders states the job set in terms of the stored rows only for a faithful listing (ListsActive) and an empty starting registry; the order of the listing and the query itself are not modelled.
- ReminderTool.ParseArgs returns `None` for refused arguments. It does not model zod's issue list or the framework's error message.
- Reminders.ReminderService.CreateReminder takes `active` as an optional boolean. An explicit `null` from the HTTP body, which `@IsOptional()` lets through, is not modelled.
- The NestJS modules, controllers, model factory, user and chat-session services, and the queue-status stub are wiring or I/O. They are not part of this model.
