/** The validators (services/validation.py): the TAP service checks (table
    list, UWS job polling and job metadata) and the taplint threshold check.
    The TAP client and the UWS job are values handed in; the wall clock is
    replaced by whole-second ticks. */
module Validation {
  import opened Wrappers
  import opened Text
  import opened Config
  import opened Taplint

  /** `TAP_SCHEMA_QUERY`: the query the UWS check submits. */
  const TapSchemaQuery := "SELECT TOP 1 * FROM TAP_SCHEMA.tables"

  /** The poll loop gives up once more than this many seconds have passed. */
  const PollLimit := 30

  /** Why a validation fails: one case per assertion of the validators, and
      the `KeyError` of an application without taplint limits. */
  datatype ValidationFailure =
    | TimedOut
    | NotCompleted(phase: string)
    | MissingField(name: string)
    | WrongQuery(query: string)
    | NoResult
    | BadResultHref(href: string)
    | NoTables
    | NoTableEntries
    | TooManyErrors(count: int, limit: int)
    | TooManyWarnings(count: int, limit: int)
    | UnknownApp(app: string)

  // ---------------------------------------------------------------------
  // The TAP service

  /** A submitted and started UWS job. `phaseAt(t)` is the phase the service
      reports when the job is polled `t` seconds after it was started; the
      other fields are the job's metadata as the client reads them, `None`
      standing for a missing value. */
  datatype UwsJob = UwsJob(
    phaseAt: nat -> string,
    destruction: Option<string>,
    owner: Option<string>,
    quote: Option<string>,
    executionDuration: Option<int>,
    jobId: Option<string>,
    query: string,
    resultHref: Option<string>)

  /** The TAP client as the validator uses it: its table set (`None` when
      the client reports none) and the job it creates for the schema query. */
  datatype TapClient = TapClient(tables: Option<seq<string>>, job: UwsJob)

  /** The phases in which the job is still running. */
  predicate IsActive(phase: string)
  {
    phase in {"EXECUTING", "PENDING", "QUEUED"}
  }

  /** The first poll at or after `from`, and no later than the last poll
      before the time-out, at which the job is no longer running. */
  function FirstSettled(phaseAt: nat -> string, from: nat): (r: Option<nat>)
    requires from <= PollLimit + 1
    ensures r.None? <==> forall t :: from <= t <= PollLimit + 1 ==> IsActive(phaseAt(t))
    ensures r.Some? ==>
      && from <= r.value <= PollLimit + 1
      && !IsActive(phaseAt(r.value))
      && forall t :: from <= t < r.value ==> IsActive(phaseAt(t))
    decreases PollLimit + 1 - from
  {
    if !IsActive(phaseAt(from)) then Some(from)
    else if from == PollLimit + 1 then None
    else FirstSettled(phaseAt, from + 1)
  }

  /** The polling loop. It polls once per second and leaves when the job is
      no longer running, or, while it still runs, when more than `PollLimit`
      seconds have passed; only the second exit sets `timedout`. */
  method PollJob(job: UwsJob) returns (tick: nat, timedout: bool)
    ensures tick <= PollLimit + 1
    ensures forall t :: 0 <= t < tick ==> IsActive(job.phaseAt(t))
    ensures timedout <==> IsActive(job.phaseAt(tick))
    ensures timedout ==> tick == PollLimit + 1
    ensures timedout <==> FirstSettled(job.phaseAt, 0).None?
    ensures !timedout ==> FirstSettled(job.phaseAt, 0) == Some(tick)
  {
    tick, timedout := 0, false;
    while IsActive(job.phaseAt(tick))
      invariant tick <= PollLimit + 1
      invariant forall t :: 0 <= t < tick ==> IsActive(job.phaseAt(t))
      decreases PollLimit + 1 - tick
    {
      if tick > PollLimit {
        timedout := true;
        break;
      }
      tick := tick + 1;
    }
    FirstSettledIs(job.phaseAt, tick);
  }

  /** A settled poll preceded only by running ones is the first settled poll. */
  lemma FirstSettledIs(phaseAt: nat -> string, t: nat)
    requires t <= PollLimit + 1
    requires forall k :: 0 <= k < t ==> IsActive(phaseAt(k))
    ensures !IsActive(phaseAt(t)) ==> FirstSettled(phaseAt, 0) == Some(t)
    ensures IsActive(phaseAt(t)) && t == PollLimit + 1 ==> FirstSettled(phaseAt, 0).None?
  {
    FirstSettledFrom(phaseAt, 0, t);
  }

  lemma {:induction false} FirstSettledFrom(phaseAt: nat -> string, from: nat, t: nat)
    requires from <= t <= PollLimit + 1
    requires forall k :: from <= k < t ==> IsActive(phaseAt(k))
    ensures !IsActive(phaseAt(t)) ==> FirstSettled(phaseAt, from) == Some(t)
    ensures IsActive(phaseAt(t)) && t == PollLimit + 1 ==> FirstSettled(phaseAt, from).None?
    decreases t - from
  {
    if from < t {
      assert IsActive(phaseAt(from));
      FirstSettledFrom(phaseAt, from + 1, t);
    }
  }

  /** The address every result of application `app` lives under. */
  function ResultsPrefix(baseUrl: string, app: string): string
  {
    baseUrl + "/api/" + app + "/results"
  }

  /** The assertions after the loop, in their order, for a job that settled
      in `phase`. */
  function SettledVerdict(job: UwsJob, phase: string, baseUrl: string, app: string): (r: Outcome<ValidationFailure>)
    ensures r.Pass? <==>
      && phase == "COMPLETED"
      && MetadataPresent(job)
      && job.query == TapSchemaQuery
      && job.resultHref.Some?
      && StartsWith(job.resultHref.value, ResultsPrefix(baseUrl, app))
    ensures phase != "COMPLETED" ==> r == Fail(NotCompleted(phase))
  {
    if phase != "COMPLETED" then Fail(NotCompleted(phase))
    else if job.destruction.None? then Fail(MissingField("destruction"))
    else if job.owner.None? then Fail(MissingField("owner"))
    else if job.quote.None? then Fail(MissingField("quote"))
    else if job.executionDuration.None? then Fail(MissingField("execution_duration"))
    else if job.jobId.None? then Fail(MissingField("job_id"))
    else if job.query != TapSchemaQuery then Fail(WrongQuery(job.query))
    else if job.resultHref.None? then Fail(NoResult)
    else if !StartsWith(job.resultHref.value, ResultsPrefix(baseUrl, app)) then Fail(BadResultHref(job.resultHref.value))
    else Pass
  }

  predicate MetadataPresent(job: UwsJob)
  {
    && job.destruction.Some?
    && job.owner.Some?
    && job.quote.Some?
    && job.executionDuration.Some?
    && job.jobId.Some?
  }

  /** What `validate_uws_endpoint` concludes about `job`. */
  function UwsVerdict(job: UwsJob, baseUrl: string, app: string): Outcome<ValidationFailure>
  {
    match FirstSettled(job.phaseAt, 0)
    case None => Fail(TimedOut)
    case Some(t) => SettledVerdict(job, job.phaseAt(t), baseUrl, app)
  }

  /** `validate_uws_endpoint`: poll the job, then check phase and metadata. */
  method ValidateUwsEndpoint(job: UwsJob, baseUrl: string, app: string) returns (outcome: Outcome<ValidationFailure>)
    ensures outcome == UwsVerdict(job, baseUrl, app)
  {
    var tick, timedout := PollJob(job);
    if timedout {
      return Fail(TimedOut);
    }
    var phase := job.phaseAt(tick);
    if phase != "COMPLETED" {
      return Fail(NotCompleted(phase));
    }
    if job.destruction.None? {
      return Fail(MissingField("destruction"));
    }
    if job.owner.None? {
      return Fail(MissingField("owner"));
    }
    if job.quote.None? {
      return Fail(MissingField("quote"));
    }
    if job.executionDuration.None? {
      return Fail(MissingField("execution_duration"));
    }
    if job.jobId.None? {
      return Fail(MissingField("job_id"));
    }
    if job.query != TapSchemaQuery {
      return Fail(WrongQuery(job.query));
    }
    if job.resultHref.None? {
      return Fail(NoResult);
    }
    if !StartsWith(job.resultHref.value, ResultsPrefix(baseUrl, app)) {
      return Fail(BadResultHref(job.resultHref.value));
    }
    return Pass;
  }

  /** A job still running at every poll up to the time-out fails as timed out. */
  lemma TimedOutJobFails(job: UwsJob, baseUrl: string, app: string)
    requires forall t :: 0 <= t <= PollLimit + 1 ==> IsActive(job.phaseAt(t))
    ensures UwsVerdict(job, baseUrl, app) == Fail(TimedOut)
  {
  }

  /** A job that ends in a phase other than COMPLETED fails on that phase,
      whatever its metadata. */
  lemma UnfinishedJobFails(job: UwsJob, baseUrl: string, app: string, t: nat)
    requires t <= PollLimit + 1
    requires forall k :: 0 <= k < t ==> IsActive(job.phaseAt(k))
    requires !IsActive(job.phaseAt(t)) && job.phaseAt(t) != "COMPLETED"
    ensures UwsVerdict(job, baseUrl, app) == Fail(NotCompleted(job.phaseAt(t)))
  {
    FirstSettledIs(job.phaseAt, t);
  }

  /** The UWS check passes exactly when the job completes by the last poll,
      every metadata field is present, the job runs the schema query and its
      result lies under the application's results address. */
  lemma UwsPassIff(job: UwsJob, baseUrl: string, app: string)
    ensures UwsVerdict(job, baseUrl, app) == Pass <==>
      && (exists t :: 0 <= t <= PollLimit + 1 && job.phaseAt(t) == "COMPLETED"
            && forall k :: 0 <= k < t ==> IsActive(job.phaseAt(k)))
      && MetadataPresent(job)
      && job.query == TapSchemaQuery
      && job.resultHref.Some?
      && StartsWith(job.resultHref.value, ResultsPrefix(baseUrl, app))
  {
    var r := FirstSettled(job.phaseAt, 0);
    if r.Some? {
      assert 0 <= r.value <= PollLimit + 1;
    }
    forall t | 0 <= t <= PollLimit + 1 && job.phaseAt(t) == "COMPLETED"
        && (forall k :: 0 <= k < t ==> IsActive(job.phaseAt(k)))
      ensures r == Some(t)
    {
      assert !IsActive(job.phaseAt(t));
      FirstSettledIs(job.phaseAt, t);
    }
  }

  /** The phase is read before the clock: a COMPLETED phase at the first
      poll past the 30-second limit still passes, given good metadata. */
  lemma CompletionAtLastPoll(job: UwsJob, baseUrl: string, app: string)
    requires forall t :: 0 <= t <= PollLimit ==> IsActive(job.phaseAt(t))
    requires job.phaseAt(PollLimit + 1) == "COMPLETED"
    requires MetadataPresent(job) && job.query == TapSchemaQuery
    requires job.resultHref == Some(ResultsPrefix(baseUrl, app) + "/0")
    ensures UwsVerdict(job, baseUrl, app) == Pass
  {
    StartsWithConcat(ResultsPrefix(baseUrl, app), "/0");
    FirstSettledIs(job.phaseAt, PollLimit + 1);
  }

  /** `validate_tables`: the client must report a non-empty table set. */
  function ValidateTables(tables: Option<seq<string>>): (r: Outcome<ValidationFailure>)
    ensures r.Pass? <==> tables.Some? && |tables.value| > 0
    ensures tables.None? ==> r == Fail(NoTables)
    ensures tables.Some? && |tables.value| == 0 ==> r == Fail(NoTableEntries)
  {
    match tables
    case None => Fail(NoTables)
    case Some(ts) => if |ts| > 0 then Pass else Fail(NoTableEntries)
  }

  /** `TAPValidationService`: a client and the application it talks to. */
  datatype TapValidator = TapValidator(client: TapClient, app: string) {
    /** `validate`: the tables check, then the UWS check. */
    method Validate(baseUrl: string) returns (outcome: Outcome<ValidationFailure>)
      ensures ValidateTables(client.tables).Fail? ==> outcome == ValidateTables(client.tables)
      ensures ValidateTables(client.tables).Pass? ==> outcome == UwsVerdict(client.job, baseUrl, app)
      ensures outcome.Pass? <==>
        ValidateTables(client.tables).Pass? && UwsVerdict(client.job, baseUrl, app).Pass?
    {
      outcome := ValidateTables(client.tables);
      if outcome.Pass? {
        outcome := ValidateUwsEndpoint(client.job, baseUrl, app);
      }
    }
  }

  // ---------------------------------------------------------------------
  // The taplint threshold check

  /** `TaplintValidationService`: the limits of one application and the
      taplint output to judge. */
  datatype TaplintValidator = TaplintValidator(maxErrors: int, maxWarnings: int, output: string) {
    /** `validate_summary`: the error count is checked first, then the
        warning count. */
    method ValidateSummary() returns (outcome: Outcome<ValidationFailure>)
      ensures outcome.Pass? <==>
        Summary(output).errors <= maxErrors && Summary(output).warnings <= maxWarnings
      ensures Summary(output).errors > maxErrors ==>
        outcome == Fail(TooManyErrors(Summary(output).errors, maxErrors))
      ensures Summary(output).errors <= maxErrors && Summary(output).warnings > maxWarnings ==>
        outcome == Fail(TooManyWarnings(Summary(output).warnings, maxWarnings))
    {
      var errorCount, warningCount := ParseSummary(output);
      if errorCount > maxErrors {
        return Fail(TooManyErrors(errorCount, maxErrors));
      }
      if warningCount > maxWarnings {
        return Fail(TooManyWarnings(warningCount, maxWarnings));
      }
      return Pass;
    }
  }

  /** `TaplintValidationService(app, output)`: the limits are looked up in
      `taplint_maximums`; an application without an entry is refused. */
  function CreateTaplintValidator(app: string, output: string): (r: Result<TaplintValidator, ValidationFailure>)
    ensures r.Success? <==> app in TaplintMaximums
    ensures r.Failure? ==> r.error == UnknownApp(app)
    ensures r.Success? ==>
      && r.value.output == output
      && TaplintLimits(r.value.maxErrors, r.value.maxWarnings) == TaplintMaximums[app]
  {
    if app in TaplintMaximums then
      Success(TaplintValidator(TaplintMaximums[app].errors, TaplintMaximums[app].warnings, output))
    else Failure(UnknownApp(app))
  }

  /** The two configured applications get their limits; the lookup is exact,
      so an upper-case name is refused. */
  lemma TaplintValidatorLimits(output: string)
    ensures CreateTaplintValidator("tap", output) == Success(TaplintValidator(92, 690, output))
    ensures CreateTaplintValidator("ssotap", output) == Success(TaplintValidator(47, 2, output))
    ensures CreateTaplintValidator("TAP", output) == Failure(UnknownApp("TAP"))
  {
  }
}
