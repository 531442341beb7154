/**
 * The medication-reminder lifecycle service: reminders persisted with an
 * `active` flag, and for each active one a cron job registered under the
 * name `reminder-<id>`, mirrored in the service's own id -> job-name map.
 */
module Reminders {
  import opened Outcomes

  type Id = string

  /** Every job is evaluated in this time zone. */
  const TimeZone := "America/Sao_Paulo"

  const JobPrefix := "reminder-"

  datatype User = User(id: Id, chatId: string)

  datatype Reminder = Reminder(
    id: Id,
    title: string,
    message: string,
    recurrence: string,
    active: bool,
    userId: Id)

  /** A row read with its owner included. */
  datatype ReminderWithUser = ReminderWithUser(reminder: Reminder, user: User)

  /** What `createReminder` is handed; the service itself validates nothing. */
  datatype CreateReminderInput = CreateReminderInput(
    title: string,
    userId: Id,
    message: string,
    recurrence: string,
    active: Option<bool>)

  /** The exception every failed operation raises to its caller. */
  datatype ServiceError = InternalServerError(message: string)

  const CreateFailed := "Failed to create reminder"
  const ActivateFailed := "Failed to activate reminder"
  const DeactivateFailed := "Failed to deactivate reminder"

  /** A registered cron job: its expression, its time zone, the reminder
      its tick sends (captured when it was scheduled), and whether it runs. */
  datatype CronJob = CronJob(cronTime: string, timeZone: string, onTick: ReminderWithUser, running: bool)

  /** The scheduler's cron jobs by name, and the service's reminder id ->
      job name map. */
  datatype Jobs = Jobs(registry: map<string, CronJob>, scheduled: map<Id, string>)

  function JobName(id: Id): (name: string)
    ensures IsJobName(name) && IdOf(name) == id
  {
    var name := JobPrefix + id;
    assert name[..|JobPrefix|] == JobPrefix && name[|JobPrefix|..] == id;
    name
  }

  predicate IsJobName(name: string) {
    |name| >= |JobPrefix| && name[..|JobPrefix|] == JobPrefix
  }

  function IdOf(name: string): Id
    requires IsJobName(name)
  {
    name[|JobPrefix|..]
  }

  /** A job name is the name of the reminder it encodes. */
  lemma JobNameOfId(name: string)
    requires IsJobName(name)
    ensures JobName(IdOf(name)) == name
  {
    assert name == name[..|JobPrefix|] + name[|JobPrefix|..];
  }

  /** Two reminders never share a job name. */
  lemma JobNameInjective(a: Id, b: Id)
    ensures JobName(a) == JobName(b) ==> a == b
  {
  }

  /** The registry and the id map describe the same jobs: each scheduled id
      has exactly its `reminder-<id>` job, each job belongs to a scheduled
      id, runs, and sends that id's reminder. */
  ghost predicate JobsValid(js: Jobs) {
    && (forall id | id in js.scheduled :: js.scheduled[id] == JobName(id) && JobName(id) in js.registry)
    && (forall name | name in js.registry ::
          && IsJobName(name)
          && IdOf(name) in js.scheduled
          && js.registry[name].running
          && js.registry[name].onTick.reminder.id == IdOf(name))
  }

  datatype ScheduleOutcome = AlreadyScheduled | Started | CronRejected

  /** scheduleReminder on the job state: a guarded insert. A job that
      already exists is left alone; a recurrence the cron library rejects
      (`cronOk` false: its constructor throws) changes nothing; otherwise
      the started job is registered and recorded. */
  function Schedule(js: Jobs, r: ReminderWithUser, cronOk: string -> bool): (Jobs, ScheduleOutcome) {
    var name := JobName(r.reminder.id);
    if name in js.registry then (js, AlreadyScheduled)
    else if !cronOk(r.reminder.recurrence) then (js, CronRejected)
    else
      (Jobs(js.registry[name := CronJob(r.reminder.recurrence, TimeZone, r, true)],
            js.scheduled[r.reminder.id := name]),
       Started)
  }

  /** Scheduling an id whose job exists is a no-op, so scheduling twice is
      scheduling once. */
  lemma ScheduleIdempotent(js: Jobs, r: ReminderWithUser, cronOk: string -> bool)
    ensures JobName(r.reminder.id) in js.registry ==> Schedule(js, r, cronOk) == (js, AlreadyScheduled)
    ensures Schedule(Schedule(js, r, cronOk).0, r, cronOk).0 == Schedule(js, r, cronOk).0
    ensures Schedule(js, r, cronOk).1 != CronRejected ==> Schedule(Schedule(js, r, cronOk).0, r, cronOk).1 == AlreadyScheduled
  {
  }

  /** A successful schedule adds exactly the job `reminder-<id>`, running
      with the reminder's expression in the fixed time zone, and records it
      under the id; a rejected one changes nothing. */
  lemma ScheduleEffect(js: Jobs, r: ReminderWithUser, cronOk: string -> bool)
    ensures var (js', outcome) := Schedule(js, r, cronOk);
      && (outcome == Started <==> JobName(r.reminder.id) !in js.registry && cronOk(r.reminder.recurrence))
      && (outcome == CronRejected <==> JobName(r.reminder.id) !in js.registry && !cronOk(r.reminder.recurrence))
      && (outcome != Started ==> js' == js)
      && (outcome == Started ==>
            && js'.registry.Keys == js.registry.Keys + {JobName(r.reminder.id)}
            && |js'.registry| == |js.registry| + 1
            && js'.registry[JobName(r.reminder.id)] == CronJob(r.reminder.recurrence, TimeZone, r, true)
            && (forall n | n in js.registry :: js'.registry[n] == js.registry[n])
            && js'.scheduled == js.scheduled[r.reminder.id := JobName(r.reminder.id)])
  {
  }

  /** Scheduling records no id but the scheduled reminder's. */
  lemma ScheduleKeys(js: Jobs, r: ReminderWithUser, cronOk: string -> bool)
    ensures Schedule(js, r, cronOk).0.scheduled.Keys <= js.scheduled.Keys + {r.reminder.id}
  {
  }

  lemma SchedulePreservesValid(js: Jobs, r: ReminderWithUser, cronOk: string -> bool)
    requires JobsValid(js)
    ensures JobsValid(Schedule(js, r, cronOk).0)
    ensures JobName(r.reminder.id) in js.registry <==> r.reminder.id in js.scheduled
  {
    var id := r.reminder.id;
    if JobName(id) in js.registry {
      assert IdOf(JobName(id)) == id;
    }
    var (js', outcome) := Schedule(js, r, cronOk);
    if outcome == Started {
      forall n | n in js'.registry
        ensures IsJobName(n) && IdOf(n) in js'.scheduled && js'.registry[n].running
        ensures js'.registry[n].onTick.reminder.id == IdOf(n)
      {
      }
      forall i | i in js'.scheduled ensures js'.scheduled[i] == JobName(i) && JobName(i) in js'.registry {
      }
    }
  }

  /** The job half of deactivateReminder: when the id map names a job that
      the registry holds, the job is stopped and deleted and the id
      forgotten; otherwise nothing changes. */
  function Unschedule(js: Jobs, id: Id): Jobs {
    if id in js.scheduled && js.scheduled[id] != "" && js.scheduled[id] in js.registry then
      Jobs(js.registry - {js.scheduled[id]}, js.scheduled - {id})
    else js
  }

  /** In a valid job state, unscheduling removes exactly the id's own job
      and record, whether or not it had one, and keeps the state valid. */
  lemma UnscheduleEffect(js: Jobs, id: Id)
    requires JobsValid(js)
    ensures Unschedule(js, id) == Jobs(js.registry - {JobName(id)}, js.scheduled - {id})
    ensures JobsValid(Unschedule(js, id))
  {
    if id !in js.scheduled {
      FreshIdHasNoJob(js, id);
      assert js.registry - {JobName(id)} == js.registry;
      assert js.scheduled - {id} == js.scheduled;
    }
    var js' := Unschedule(js, id);
    forall n | n in js'.registry ensures IdOf(n) in js'.scheduled {
      JobNameOfId(n);
    }
  }

  /** Deactivation undoes a start: unscheduling a reminder that had no job
      and was then scheduled gives back the job state from before. */
  lemma UnscheduleUndoesSchedule(js: Jobs, r: ReminderWithUser, cronOk: string -> bool)
    requires JobsValid(js) && r.reminder.id !in js.scheduled
    ensures Unschedule(Schedule(js, r, cronOk).0, r.reminder.id) == js
  {
    var id := r.reminder.id;
    FreshIdHasNoJob(js, id);
    var js' := Schedule(js, r, cronOk).0;
    if js' != js {
      assert js'.registry - {JobName(id)} == js.registry;
      assert js'.scheduled - {id} == js.scheduled;
    }
  }

  /** Reconciliation state after a prefix of the loaded reminders. */
  datatype Reconciled = Reconciled(jobs: Jobs, scheduledCount: nat, skippedCount: nat)

  /** The startup loop on values: every loaded reminder is scheduled in
      turn; one the cron library rejects is counted as skipped, every other
      one (a no-op included) as scheduled. */
  function Reconcile(js: Jobs, rs: seq<ReminderWithUser>, cronOk: string -> bool): Reconciled
    decreases |rs|
  {
    if rs == [] then Reconciled(js, 0, 0)
    else
      var prev := Reconcile(js, rs[..|rs| - 1], cronOk);
      var (js', outcome) := Schedule(prev.jobs, rs[|rs| - 1], cronOk);
      if outcome == CronRejected then Reconciled(js', prev.scheduledCount, prev.skippedCount + 1)
      else Reconciled(js', prev.scheduledCount + 1, prev.skippedCount)
  }

  /** Every loaded reminder is accounted for exactly once. */
  lemma {:induction false} ReconcileCounts(js: Jobs, rs: seq<ReminderWithUser>, cronOk: string -> bool)
    ensures Reconcile(js, rs, cronOk).scheduledCount + Reconcile(js, rs, cronOk).skippedCount == |rs|
    decreases |rs|
  {
    if rs != [] {
      ReconcileCounts(js, rs[..|rs| - 1], cronOk);
    }
  }

  lemma {:induction false} ReconcilePreservesValid(js: Jobs, rs: seq<ReminderWithUser>, cronOk: string -> bool)
    requires JobsValid(js)
    ensures JobsValid(Reconcile(js, rs, cronOk).jobs)
    decreases |rs|
  {
    if rs != [] {
      var init := rs[..|rs| - 1];
      ReconcilePreservesValid(js, init, cronOk);
      SchedulePreservesValid(Reconcile(js, init, cronOk).jobs, rs[|rs| - 1], cronOk);
    }
  }

  /** Reconciliation records no id other than those it started with and
      those of the loaded reminders. */
  lemma {:induction false} ReconcileIdsFrom(js: Jobs, rs: seq<ReminderWithUser>, cronOk: string -> bool, id: Id)
    requires id in Reconcile(js, rs, cronOk).jobs.scheduled
    ensures id in js.scheduled || exists k :: 0 <= k < |rs| && rs[k].reminder.id == id
    decreases |rs|
  {
    if rs != [] {
      var init := rs[..|rs| - 1];
      var prev := Reconcile(js, init, cronOk);
      if id !in prev.jobs.scheduled {
        assert rs[|rs| - 1].reminder.id == id;
      } else {
        ReconcileIdsFrom(js, init, cronOk, id);
        if id !in js.scheduled {
          var k :| 0 <= k < |init| && init[k].reminder.id == id;
          assert rs[k] == init[k];
        }
      }
    }
  }

  /** The ids whose schedule the cron library accepts. */
  function AcceptedIds(rs: seq<ReminderWithUser>, cronOk: string -> bool): set<Id>
    decreases |rs|
  {
    if rs == [] then {}
    else AcceptedIds(rs[..|rs| - 1], cronOk)
         + (if cronOk(rs[|rs| - 1].reminder.recurrence) then {rs[|rs| - 1].reminder.id} else {})
  }

  /** How many loaded reminders the cron library rejects. */
  function RejectedCount(rs: seq<ReminderWithUser>, cronOk: string -> bool): nat
    decreases |rs|
  {
    if rs == [] then 0
    else RejectedCount(rs[..|rs| - 1], cronOk) + (if cronOk(rs[|rs| - 1].reminder.recurrence) then 0 else 1)
  }

  predicate DistinctIds(rs: seq<ReminderWithUser>) {
    forall i, j :: 0 <= i < j < |rs| ==> rs[i].reminder.id != rs[j].reminder.id
  }

  /** Startup from an empty registry over reminders with distinct ids:
      exactly the accepted ones get a job, one each, and every rejected one
      is counted as a skip. */
  lemma ReconcileFromEmpty(rs: seq<ReminderWithUser>, cronOk: string -> bool)
    requires DistinctIds(rs)
    ensures var r := Reconcile(Jobs(map[], map[]), rs, cronOk);
      && r.jobs.scheduled.Keys == AcceptedIds(rs, cronOk)
      && |r.jobs.registry| == |r.jobs.scheduled| == r.scheduledCount
      && r.skippedCount == RejectedCount(rs, cronOk)
      && JobsValid(r.jobs)
  {
    ReconcileFromEmptyJobs(rs, cronOk);
    ReconcilePreservesValid(Jobs(map[], map[]), rs, cronOk);
    RegistryMatchesScheduled(Reconcile(Jobs(map[], map[]), rs, cronOk).jobs);
  }

  /** The last of several distinct reminders has no job before its turn. */
  lemma LastIdFresh(rs: seq<ReminderWithUser>, cronOk: string -> bool)
    requires DistinctIds(rs) && rs != []
    ensures rs[|rs| - 1].reminder.id !in Reconcile(Jobs(map[], map[]), rs[..|rs| - 1], cronOk).jobs.scheduled
  {
    var id := rs[|rs| - 1].reminder.id;
    if id in Reconcile(Jobs(map[], map[]), rs[..|rs| - 1], cronOk).jobs.scheduled {
      ReconcileIdsFrom(Jobs(map[], map[]), rs[..|rs| - 1], cronOk, id);
    }
  }

  /** Scheduling a reminder that has no job yet adds its id iff the cron
      library accepts its expression. */
  lemma ScheduleFresh(js: Jobs, r: ReminderWithUser, cronOk: string -> bool)
    requires JobName(r.reminder.id) !in js.registry && r.reminder.id !in js.scheduled
    ensures var (js', outcome) := Schedule(js, r, cronOk);
      && (outcome == CronRejected <==> !cronOk(r.reminder.recurrence))
      && js'.scheduled.Keys == js.scheduled.Keys + (if cronOk(r.reminder.recurrence) then {r.reminder.id} else {})
      && |js'.scheduled| == |js.scheduled| + (if cronOk(r.reminder.recurrence) then 1 else 0)
  {
    var id := r.reminder.id;
    var (js', outcome) := Schedule(js, r, cronOk);
    if cronOk(r.reminder.recurrence) {
      assert outcome == Started && js'.scheduled == js.scheduled[id := JobName(id)];
      assert js'.scheduled.Keys == js.scheduled.Keys + {id};
    } else {
      assert outcome == CronRejected && js' == js;
    }
  }

  /** In a valid job state an id without a recorded job has no job. */
  lemma FreshIdHasNoJob(js: Jobs, id: Id)
    requires JobsValid(js) && id !in js.scheduled
    ensures JobName(id) !in js.registry
  {
  }

  lemma {:induction false} ReconcileFromEmptyJobs(rs: seq<ReminderWithUser>, cronOk: string -> bool)
    requires DistinctIds(rs)
    ensures var r := Reconcile(Jobs(map[], map[]), rs, cronOk);
      && r.jobs.scheduled.Keys == AcceptedIds(rs, cronOk)
      && |r.jobs.scheduled| == r.scheduledCount
      && r.skippedCount == RejectedCount(rs, cronOk)
    decreases |rs|
  {
    if rs != [] {
      assert DistinctIds(rs[..|rs| - 1]);
      ReconcileFromEmptyJobs(rs[..|rs| - 1], cronOk);
      LastIdFresh(rs, cronOk);
      ReconcilePreservesValid(Jobs(map[], map[]), rs[..|rs| - 1], cronOk);
      FreshIdHasNoJob(Reconcile(Jobs(map[], map[]), rs[..|rs| - 1], cronOk).jobs, rs[|rs| - 1].reminder.id);
      ScheduleFresh(Reconcile(Jobs(map[], map[]), rs[..|rs| - 1], cronOk).jobs, rs[|rs| - 1], cronOk);
    }
  }

  /** In a valid job state the registry holds one job per scheduled id. */
  lemma RegistryMatchesScheduled(js: Jobs)
    requires JobsValid(js)
    ensures |js.registry| == |js.scheduled|
  {
    var names := set id | id in js.scheduled :: JobName(id);
    assert js.registry.Keys == names by {
      forall n | n in js.registry ensures n in names {
        JobNameOfId(n);
      }
    }
    NamesCardinality(js.scheduled.Keys);
  }

  lemma {:induction false} NamesCardinality(ids: set<Id>)
    ensures |set id | id in ids :: JobName(id)| == |ids|
    decreases |ids|
  {
    if ids != {} {
      var x :| x in ids;
      var rest := ids - {x};
      NamesCardinality(rest);
      var names := set id | id in ids :: JobName(id);
      var restNames := set id | id in rest :: JobName(id);
      assert names == restNames + {JobName(x)};
      assert JobName(x) !in restNames by {
        forall id | id in rest ensures JobName(id) != JobName(x) {
          JobNameInjective(id, x);
        }
      }
    }
  }

  /** With distinct ids, a loaded reminder gets a job iff the cron library
      accepts its expression: one bad row never costs another its job. */
  lemma {:induction false} AcceptedIdsExactly(rs: seq<ReminderWithUser>, cronOk: string -> bool, k: nat)
    requires DistinctIds(rs) && k < |rs|
    ensures rs[k].reminder.id in AcceptedIds(rs, cronOk) <==> cronOk(rs[k].reminder.recurrence)
    decreases |rs|
  {
    var init := rs[..|rs| - 1];
    if k < |rs| - 1 {
      assert DistinctIds(init) && init[k] == rs[k];
      AcceptedIdsExactly(init, cronOk, k);
    } else if rs[k].reminder.id in AcceptedIds(init, cronOk) {
      AcceptedIdsFrom(init, cronOk, rs[k].reminder.id);
      assert false;
    }
  }

  lemma {:induction false} AcceptedIdsFrom(rs: seq<ReminderWithUser>, cronOk: string -> bool, id: Id)
    requires id in AcceptedIds(rs, cronOk)
    ensures exists k :: 0 <= k < |rs| && rs[k].reminder.id == id
    decreases |rs|
  {
    var init := rs[..|rs| - 1];
    if id in AcceptedIds(init, cronOk) {
      AcceptedIdsFrom(init, cronOk, id);
      var k :| 0 <= k < |init| && init[k].reminder.id == id;
      assert rs[k] == init[k];
    } else {
      assert rs[|rs| - 1].reminder.id == id;
    }
  }

  /** A faithful answer of `findMany({ where: { active: true }, include:
      { user: true } })`: each stored active reminder exactly once, as
      stored, with its stored owner, and nothing else. */
  ghost predicate ListsActive(rs: seq<ReminderWithUser>, reminders: map<Id, Reminder>, users: map<Id, User>) {
    && DistinctIds(rs)
    && (forall k | 0 <= k < |rs| ::
          && rs[k].reminder.id in reminders
          && rs[k].reminder == reminders[rs[k].reminder.id]
          && rs[k].reminder.active
          && rs[k].reminder.userId in users
          && rs[k].user == users[rs[k].reminder.userId])
    && (forall id | id in reminders && reminders[id].active ::
          exists k :: 0 <= k < |rs| && rs[k].reminder.id == id)
  }

  /** The stored active reminders whose expression the cron library accepts. */
  function ActiveAccepted(reminders: map<Id, Reminder>, cronOk: string -> bool): set<Id> {
    set id | id in reminders && reminders[id].active && cronOk(reminders[id].recurrence)
  }

  /** Startup over a faithful listing: exactly the stored active reminders
      the cron library accepts get a job, one each, and every other stored
      active reminder is counted as skipped. */
  lemma StartupSchedulesActive(rs: seq<ReminderWithUser>, reminders: map<Id, Reminder>, users: map<Id, User>,
                               cronOk: string -> bool)
    requires ListsActive(rs, reminders, users)
    ensures var r := Reconcile(Jobs(map[], map[]), rs, cronOk);
      && r.jobs.scheduled.Keys == ActiveAccepted(reminders, cronOk)
      && |r.jobs.registry| == |r.jobs.scheduled| == r.scheduledCount
      && r.skippedCount == RejectedCount(rs, cronOk)
  {
    ReconcileFromEmpty(rs, cronOk);
    var accepted := AcceptedIds(rs, cronOk);
    forall id | id in accepted ensures id in ActiveAccepted(reminders, cronOk) {
      AcceptedIdsFrom(rs, cronOk, id);
      var k :| 0 <= k < |rs| && rs[k].reminder.id == id;
      AcceptedIdsExactly(rs, cronOk, k);
    }
    forall id | id in ActiveAccepted(reminders, cronOk) ensures id in accepted {
      var k :| 0 <= k < |rs| && rs[k].reminder.id == id;
      AcceptedIdsExactly(rs, cronOk, k);
    }
  }

  /** The text a tick sends. */
  function ReminderText(title: string, message: string): (text: string)
    ensures |text| == |title| + |message| + 4
    ensures text[..2] == "\U{1F48A} " && text[2..2 + |title|] == title
    ensures text[2 + |title|..4 + |title|] == "\n\n" && text[4 + |title|..] == message
  {
    "\U{1F48A} " + title + "\n\n" + message
  }

  /** One tick's hand-over to the chat gateway and whether it got through. */
  datatype Dispatch = Dispatch(chatId: string, text: string, delivered: bool)

  /** sendReminderMessage: the formatted text goes to the owner's chat; a
      gateway failure is logged and swallowed, so a tick always completes. */
  function SendReminderMessage(r: ReminderWithUser, gatewayOk: bool): (d: Dispatch)
    ensures d.chatId == r.user.chatId && d.delivered == gatewayOk
    ensures d.text == ReminderText(r.reminder.title, r.reminder.message)
  {
    Dispatch(r.user.chatId, ReminderText(r.reminder.title, r.reminder.message), gatewayOk)
  }

  /** What the database's findMany reported for the active reminders. */
  datatype LoadSummary = LoadFailed | Loaded(found: nat, scheduledCount: nat, skippedCount: nat)

  /** Why a database write failed. */
  datatype StoreError = Unavailable | RecordNotFound | ForeignKeyViolation | UniqueViolation

  class ReminderService {
    /** The persisted reminder rows and users. */
    var reminders: map<Id, Reminder>
    var users: map<Id, User>
    /** The scheduler's cron jobs, by name. */
    var registry: map<string, CronJob>
    /** The service's own map from reminder id to job name. */
    var scheduledJobs: map<Id, string>
    /** Whether `new CronJob(expression, ...)` succeeds for an expression. */
    const cronOk: string -> bool

    function JobState(): Jobs
      reads this
    {
      Jobs(registry, scheduledJobs)
    }

    ghost predicate Valid()
      reads this
    {
      && JobsValid(JobState())
      && (forall id | id in reminders :: reminders[id].id == id && reminders[id].userId in users)
    }

    /** No job runs for a reminder that is not stored as active. */
    ghost predicate Mirrors()
      reads this
    {
      forall id | id in scheduledJobs :: id in reminders && reminders[id].active
    }

    /** The service at process start: the database as it is, no jobs. */
    constructor(reminders: map<Id, Reminder>, users: map<Id, User>, cronOk: string -> bool)
      requires forall id | id in reminders :: reminders[id].id == id && reminders[id].userId in users
      ensures Valid() && Mirrors()
      ensures this.reminders == reminders && this.users == users && this.cronOk == cronOk
      ensures registry == map[] && scheduledJobs == map[]
    {
      this.reminders := reminders;
      this.users := users;
      this.cronOk := cronOk;
      registry := map[];
      scheduledJobs := map[];
    }

    /** scheduleReminder. */
    method ScheduleReminder(r: ReminderWithUser) returns (outcome: ScheduleOutcome)
      modifies this`registry, this`scheduledJobs
      ensures (JobState(), outcome) == Schedule(old(JobState()), r, cronOk)
    {
      var jobName := JobName(r.reminder.id);
      if jobName in registry {
        return AlreadyScheduled;
      }
      if !cronOk(r.reminder.recurrence) {
        return CronRejected;
      }
      // addCronJob of a job constructed started; start() again is a no-op
      registry := registry[jobName := CronJob(r.reminder.recurrence, TimeZone, r, true)];
      scheduledJobs := scheduledJobs[r.reminder.id := jobName];
      return Started;
    }

    /** loadActiveReminders: schedule every reminder the database lists as
      active, counting skips; a failed query is caught and logged. */
    method LoadActiveReminders(listing: Result<seq<ReminderWithUser>, StoreError>) returns (summary: LoadSummary)
      requires Valid()
      modifies this`registry, this`scheduledJobs
      ensures Valid()
      ensures listing.Failure? ==> summary == LoadFailed && JobState() == old(JobState())
      ensures listing.Success? ==>
        var r := Reconcile(old(JobState()), listing.value, cronOk);
        && JobState() == r.jobs
        && summary == Loaded(|listing.value|, r.scheduledCount, r.skippedCount)
        && summary.scheduledCount + summary.skippedCount == summary.found
      ensures listing.Success? && ListsActive(listing.value, reminders, users)
              && old(registry) == map[] && old(scheduledJobs) == map[] ==>
                && scheduledJobs.Keys == ActiveAccepted(reminders, cronOk)
                && |registry| == |scheduledJobs|
      ensures old(Mirrors()) && listing.Success?
              && (forall k | 0 <= k < |listing.value| ::
                    listing.value[k].reminder.id in reminders && reminders[listing.value[k].reminder.id].active)
              ==> Mirrors()
    {
      if listing.Failure? {
        return LoadFailed;
      }
      var active := listing.value;
      var scheduledCount, skippedCount := 0, 0;
      for i := 0 to |active|
        invariant Reconcile(old(JobState()), active[..i], cronOk) == Reconciled(JobState(), scheduledCount, skippedCount)
      {
        assert active[..i + 1][..i] == active[..i];
        var outcome := ScheduleReminder(active[i]);
        if outcome == CronRejected {
          skippedCount := skippedCount + 1;
        } else {
          scheduledCount := scheduledCount + 1;
        }
      }
      assert active[..|active|] == active;
      ReconcileCounts(old(JobState()), active, cronOk);
      ReconcilePreservesValid(old(JobState()), active, cronOk);
      forall id | id in scheduledJobs && id !in old(scheduledJobs)
        ensures exists k :: 0 <= k < |active| && active[k].reminder.id == id
      {
        ReconcileIdsFrom(old(JobState()), active, cronOk, id);
      }
      if ListsActive(active, reminders, users) && old(JobState()) == Jobs(map[], map[]) {
        StartupSchedulesActive(active, reminders, users, cronOk);
      }
      summary := Loaded(|active|, scheduledCount, skippedCount);
    }

    /** createReminder: persist the row (`active` defaults to true), then
      schedule it when it is active. Either step failing raises the same
      error to the caller; a scheduling failure leaves the row written. */
    method CreateReminder(input: CreateReminderInput, newId: Id, storeDown: bool)
      returns (result: Result<ReminderWithUser, ServiceError>)
      requires Valid()
      modifies this`reminders, this`registry, this`scheduledJobs
      ensures Valid()
      ensures old(Mirrors()) ==> Mirrors()
      ensures var isActive := if input.active.Some? then input.active.value else true;
        var row := Reminder(newId, input.title, input.message, input.recurrence, isActive, input.userId);
        var written := !storeDown && input.userId in users && newId !in old(reminders);
        && reminders == (if written then old(reminders)[newId := row] else old(reminders))
        && (written ==>
              var loaded := ReminderWithUser(row, users[input.userId]);
              var (js', outcome) := Schedule(old(JobState()), loaded, cronOk);
              && JobState() == (if isActive then js' else old(JobState()))
              && result == (if isActive && outcome == CronRejected then Failure(InternalServerError(CreateFailed))
                            else Success(loaded)))
        && (!written ==> JobState() == old(JobState()) && result == Failure(InternalServerError(CreateFailed)))
    {
      var isActive := if input.active.Some? then input.active.value else true;
      if storeDown || input.userId !in users || newId in reminders {
        return Failure(InternalServerError(CreateFailed));
      }
      var row := Reminder(newId, input.title, input.message, input.recurrence, isActive, input.userId);
      reminders := reminders[newId := row];
      var loaded := ReminderWithUser(row, users[input.userId]);
      if row.active {
        SchedulePreservesValid(JobState(), loaded, cronOk);
        ScheduleKeys(JobState(), loaded, cronOk);
        var outcome := ScheduleReminder(loaded);
        if outcome == CronRejected {
          return Failure(InternalServerError(CreateFailed));
        }
      }
      return Success(loaded);
    }

    /** deactivateReminder: persist `active = false`, then stop and remove
      the reminder's job if there is one; no job is not an error. */
    method DeactivateReminder(id: Id, storeDown: bool) returns (result: Result<Reminder, ServiceError>)
      requires Valid()
      modifies this`reminders, this`registry, this`scheduledJobs
      ensures Valid()
      ensures old(Mirrors()) ==> Mirrors()
      ensures storeDown || id !in old(reminders) ==>
        && result == Failure(InternalServerError(DeactivateFailed))
        && reminders == old(reminders) && JobState() == old(JobState())
      ensures !storeDown && id in old(reminders) ==>
        && reminders == old(reminders)[id := old(reminders)[id].(active := false)]
        && result == Success(reminders[id])
        && JobState() == Unschedule(old(JobState()), id)
        && registry == old(registry) - {JobName(id)}
        && scheduledJobs == old(scheduledJobs) - {id}
    {
      if storeDown || id !in reminders {
        return Failure(InternalServerError(DeactivateFailed));
      }
      UnscheduleEffect(JobState(), id);
      var row := reminders[id].(active := false);
      reminders := reminders[id := row];
      if id in scheduledJobs && scheduledJobs[id] != "" && scheduledJobs[id] in registry {
        var jobName := scheduledJobs[id];
        // stop() then deleteCronJob(): the job is gone from the registry
        registry := registry - {jobName};
        scheduledJobs := scheduledJobs - {id};
      }
      return Success(row);
    }

    /** activateReminder: persist `active = true`, then schedule. A reminder
      that already has its job keeps that one job; a scheduling failure is
      raised although the row now reads active. */
    method ActivateReminder(id: Id, storeDown: bool) returns (result: Result<ReminderWithUser, ServiceError>)
      requires Valid()
      modifies this`reminders, this`registry, this`scheduledJobs
      ensures Valid()
      ensures old(Mirrors()) ==> Mirrors()
      ensures storeDown || id !in old(reminders) ==>
        && result == Failure(InternalServerError(ActivateFailed))
        && reminders == old(reminders) && JobState() == old(JobState())
      ensures !storeDown && id in old(reminders) ==>
        var row := old(reminders)[id].(active := true);
        var loaded := ReminderWithUser(row, users[row.userId]);
        var (js', outcome) := Schedule(old(JobState()), loaded, cronOk);
        && reminders == old(reminders)[id := row]
        && JobState() == js'
        && result == (if outcome == CronRejected then Failure(InternalServerError(ActivateFailed)) else Success(loaded))
      ensures !storeDown && id in old(reminders) && id in old(scheduledJobs) ==>
        registry == old(registry) && scheduledJobs == old(scheduledJobs) && result.Success?
    {
      if storeDown || id !in reminders {
        return Failure(InternalServerError(ActivateFailed));
      }
      var row := reminders[id].(active := true);
      reminders := reminders[id := row];
      var loaded := ReminderWithUser(row, users[row.userId]);
      SchedulePreservesValid(JobState(), loaded, cronOk);
      ScheduleKeys(JobState(), loaded, cronOk);
      var outcome := ScheduleReminder(loaded);
      if outcome == CronRejected {
        return Failure(InternalServerError(ActivateFailed));
      }
      return Success(loaded);
    }

    /** One tick of the job `name`: a running job sends its reminder; the
      gateway's answer changes nothing in the service. */
    method Tick(name: string, gatewayOk: bool) returns (sent: Option<Dispatch>)
      ensures sent.Some? <==> name in registry && registry[name].running
      ensures sent.Some? ==>
        var r := registry[name].onTick;
        && sent.value.chatId == r.user.chatId
        && sent.value.text == ReminderText(r.reminder.title, r.reminder.message)
        && sent.value.delivered == gatewayOk
    {
      if name in registry && registry[name].running {
        var d := SendReminderMessage(registry[name].onTick, gatewayOk);
        return Some(d);
      }
      return None;
    }
  }
}
