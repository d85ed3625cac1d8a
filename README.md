# rspvalidator in Dafny

rspvalidator is a test suite for the Rubin Science Platform. It drives a
browser, a TAP client and the taplint command-line validator against a
deployment, then judges what comes back. This project models the judging
logic that sits around those foreign calls, and proves what it promises:

- **Taplint summary parsing** (`Taplint`). The output is split at newlines.
  The last line that starts with `Totals:` is read, and the two numbers after
  `Errors:` and `Warnings:` are taken, each through the pattern
  `<key>\s+(\d+)`. `ParseSummary` is the loop of the source, walking the
  lines backwards. It is proved equal to the specification `Summary`. The
  properties proved about `Summary`:
  - the last summary line wins;
  - with no summary line both counts are 0;
  - a line printed as `Totals: Errors: e Warnings: w` reads back as `(e, w)`;
  - whitespace after the colon is required;
  - the `Totals:` prefix must start the line.
- **Validators** (`Validation`).
  - The UWS job check polls the job's phase once per second until the job
    leaves EXECUTING, PENDING and QUEUED. It times out when the job is still
    running after more than 30 seconds. It then asserts the phase is
    COMPLETED, the metadata is present, the query is the schema query and the
    result address is under `<base>/api/<app>/results`.
  - The table check requires a non-empty table list.
  - The taplint check compares the parsed counts with the limits of the
    application. Errors are checked before warnings.
- **Query result checks** (`QueryChecks`). Every result of every simulated
  user must:
  - have status `OK`;
  - take at most twice its expected time (inclusive);
  - return the expected row count.

  The loop stops at the first failure, in user-major order.
- **Data types and labels** (`TapModels`, `Scenarios`). These are the two
  TAP applications and the two query modes, with their values, and the query
  result record. A scenario's label is derived from its fields, with "user"
  pluralised only above one user. Distinct scenarios have distinct labels.
- **Configuration** (`Config`, `ConfigReader`, `TapOperations`). The
  environment is a map from names to values. The model covers:
  - the boolean flags;
  - the capability flags;
  - the URL table with its case-insensitive lookup;
  - the five TAP endpoint addresses with their case-sensitive lookup;
  - the eight scenarios and the taplint limits;
  - the import-time failures.
- **Files** (`FileManager`). The file system is a map from paths to regular
  files (their bytes) or directories. `file_exists_and_valid` has three
  outcomes: true, false or a size error. `download_file` skips the download
  of a valid file and writes the response otherwise. The model is a
  `FileSystem` class whose `entries` the download updates.

`Wrappers` holds `Option`, `Result` and `Outcome`. `Outcome` is pass, or fail
with a reason, and stands for a run of assertions. `Text` holds:

- ASCII case mapping;
- the prefix test;
- decimal numerals, with the round trip `int(str(n)) == n` (Python limits it to 4300 digits; see "## Left out").

Modelling choices:

- Exceptions and failed assertions are values: `Failure(...)` and `Fail(...)`.
- The wall clock is a whole-second tick count.
- The UWS job is a value. Its `phaseAt(t)` gives the phase the service
  reports at tick `t`.
- The HTTP response of a download is a parameter.
- The environment is a parameter.
- The verdict of the auth-file check is a parameter of `Config.Load`.

## Model

| member | source | states |
|---|---|---|
| `TapModels.ApplicationFromValue` | src/rspvalidator/models/tap.py:9-21 | a member exists exactly for "tap" and "ssotap", and it carries that value |
| `TapModels.ApplicationValueRoundTrip` | src/rspvalidator/models/tap.py:20-21 | each application is recovered from its value |
| `TapModels.ApplicationValueInjective` | src/rspvalidator/models/tap.py:20-21 | the two applications have distinct values |
| `TapModels.ModeFromValue` | src/rspvalidator/models/tap.py:24-36 | a mode exists exactly for "sync" and "async", and it carries that value |
| `TapModels.ModeValueRoundTrip` | src/rspvalidator/models/tap.py:35-36 | each mode is recovered from its value, so the values are distinct |
| `TapModels.QueryResult` | src/rspvalidator/models/tap.py:59-64 | the six fields of a query result, with durations as reals; `QueryChecks.FirstCheckFailing` and `QueryChecks.CheckQueryResults` state how they are judged |
| `Scenarios.TestScenario` | src/rspvalidator/models/test.py:22-33 | an application, a mode and a user count, with `description` computed once from them; `DescriptionPluralisation`, `DescriptionApplicationPart` and `DescriptionInjective` state what the label shows and that it tells scenarios apart |
| `Scenarios.DescriptionExamples` | src/rspvalidator/models/test.py:29-33 | (TAP, sync, 1) is labelled "TAP sync query [1 user]" and (TAP, sync, 10) "TAP sync query [10 users]" |
| `Scenarios.DescriptionPluralisation` | src/rspvalidator/models/test.py:32 | the label ends in " users]" when users > 1, and in " user]" for every count ≤ 1, zero and negatives included |
| `Scenarios.DescriptionApplicationPart` | src/rspvalidator/models/test.py:31 | the label starts with "TAP " or "SSOTAP ", according to the application |
| `Scenarios.DescriptionInjective` | src/rspvalidator/models/test.py:24-33 | equal labels come from equal scenarios, so a label identifies its scenario |
| `Text.Lower` | src/rspvalidator/services/configreader.py:56 | ASCII lowering keeps the length and maps each character on its own |
| `Text.Upper` | src/rspvalidator/models/test.py:31 | ASCII upper-casing keeps the length and maps each character on its own; non-letters are unchanged |
| `Text.StartsWith` | src/rspvalidator/services/taplint.py:99 | `str.startswith`: `StartsWithConcat` shows that `p + rest` starts with `p`, and `StartsWithTransitive` that a prefix of a prefix is a prefix |
| `Text.IntToString` | src/rspvalidator/models/test.py:31 | `str(i)` is all digits exactly when i ≥ 0, and a minus sign before digits otherwise |
| `Text.DecimalValue` | src/rspvalidator/services/taplint.py:102 | `int(ds)` on ASCII digits, read left to right; `DecimalRoundTrip` shows it inverts the printed numeral |
| `Text.DecimalRoundTrip` | src/rspvalidator/services/taplint.py:102 | reading back the numeral printed for n gives n |
| `Text.IntToStringInjective` | src/rspvalidator/models/test.py:31 | different integers print differently |
| `Config.GetEnv` | src/rspvalidator/config.py:16 | the variable's value when it is set, the default otherwise |
| `Config.Flag` | src/rspvalidator/config.py:18 | `os.getenv(name, default).lower() == "true"`; `FlagMeaning` characterises it letter by letter |
| `Config.FlagMeaning` | src/rspvalidator/config.py:18 | a flag is set exactly when its value, or its default, is "true" in any mix of letter cases |
| `Config.FlagExamples` | src/rspvalidator/config.py:18 | "TRUE" and "True" set a flag, while "1" and " true" do not; an unset flag follows its default |
| `Config.CapabilityIncludes` | src/rspvalidator/config.py:40-55 | the capability table has exactly the keys "tap" and "ssotap"; the six lemmas below state which variable sets which flag |
| `Config.CapabilityDefaults` | src/rspvalidator/config.py:40-55 | with no variable set, tap has the data model only, and ssotap has upload and geometry only |
| `Config.TapIncludeUpload` | src/rspvalidator/config.py:42 | for every environment, setting TAP_INCLUDE_UPLOAD to a value v sets the tap entry's upload flag to `Lower(v) == "true"` and changes neither its other flags nor the ssotap entry |
| `Config.TapIncludeDatamodel` | src/rspvalidator/config.py:43-44 | for every environment, setting TAP_INCLUDE_DATAMODEL to a value v sets the tap entry's data model flag to `Lower(v) == "true"` and changes neither its other flags nor the ssotap entry |
| `Config.TapIncludeGeometry` | src/rspvalidator/config.py:45-46 | for every environment, setting TAP_INCLUDE_GEOMETRY to a value v sets the tap entry's geometry flag to `Lower(v) == "true"` and changes neither its other flags nor the ssotap entry |
| `Config.SsoTapIncludeUpload` | src/rspvalidator/config.py:49 | for every environment, setting SSOTAP_INCLUDE_UPLOAD to a value v sets the ssotap entry's upload flag to `Lower(v) == "true"` and changes neither its other flags nor the tap entry |
| `Config.SsoTapIncludeDatamodel` | src/rspvalidator/config.py:50-51 | for every environment, setting SSOTAP_INCLUDE_DATAMODEL to a value v sets the ssotap entry's data model flag to `Lower(v) == "true"` and changes neither its other flags nor the tap entry |
| `Config.SsoTapIncludeGeometry` | src/rspvalidator/config.py:52-53 | for every environment, setting SSOTAP_INCLUDE_GEOMETRY to a value v sets the ssotap entry's geometry flag to `Lower(v) == "true"` and changes neither its other flags nor the tap entry |
| `Config.Urls` | src/rspvalidator/config.py:58-66 | seven keys, every address under the base URL, "api" and "tap" both `<base>/api/tap`, "nublado" `<base>/nb` |
| `Config.AllScenarios` | src/rspvalidator/config.py:75-84 | the eight scenarios in their order; `ScenariosShape` states their shape |
| `Config.ScenariosShape` | src/rspvalidator/config.py:75-84 | eight scenarios, four per application, each with at least one user, no two alike |
| `Config.TaplintMaximums` | src/rspvalidator/config.py:87-90 | (92, 690) for tap and (47, 2) for ssotap; `TaplintMaximumsKeys` and `Validation.TaplintValidatorLimits` state its keys and values |
| `Config.TaplintMaximumsKeys` | src/rspvalidator/config.py:87-90 | the limits table has exactly the keys "tap" and "ssotap", and its limits are not negative |
| `Config.Load` | src/rspvalidator/config.py:16-37 | fails exactly when the auth file is missing, then when the host name is empty, then when the token is empty; otherwise the base URL is "https://" + host name, the tables are built from the environment, and the scenarios and taplint limits are the fixed ones |
| `Config.LoadChecksAuthFile` | src/rspvalidator/config.py:24-28 | with the verdict of `check_auth_file` on a home directory, loading stops first exactly when `<home>/auth.json` is missing |
| `Config.LoadDefaults` | src/rspvalidator/config.py:16-19 | an empty environment lacks a token; with a token alone the host is data-dev.lsst.cloud and the browser is not headless |
| `ConfigReader.GetUrl` | src/rspvalidator/services/configreader.py:56-59 | succeeds exactly when the lowered name is a key, with that key's address; otherwise the error names the lowered name |
| `ConfigReader.GetUrlCaseInsensitive` | src/rspvalidator/services/configreader.py:56 | looking up a name and its lowered form give the same answer |
| `ConfigReader.GetUrlUnderBase` | src/rspvalidator/services/configreader.py:56-59 | on the configured table, a name is found exactly when it lowers to one of the seven keys, and every address found starts with the base URL |
| `ConfigReader.GetUrlExamples` | src/rspvalidator/services/configreader.py:56-59 | "Nublado" gives `<base>/nb`, "API" gives the same as "tap", and "notebook" is an invalid name |
| `TapOperations.EndpointSuffix` | src/rspvalidator/services/tap.py:91-97 | a suffix exists exactly for the five endpoint names: "/capabilities", "/availability", "/logging/control", "/tables" and the empty suffix for "tap" |
| `TapOperations.GetApiEndpoint` | src/rspvalidator/services/tap.py:91-103 | succeeds exactly for the five names, with the address `<base>/api/<app>` followed by the endpoint's suffix, for any app string; any other name fails with that name |
| `TapOperations.GetApiEndpointCaseSensitive` | src/rspvalidator/services/tap.py:99-101 | "TAP" and "Tables" are rejected: there is no case folding |
| `TapOperations.GetApiEndpointInjective` | src/rspvalidator/services/tap.py:91-97 | for one application, different endpoints have different addresses |
| `Taplint.Split` | src/rspvalidator/services/taplint.py:97 | at least one line, none holding a newline |
| `Taplint.JoinSplit` | src/rspvalidator/services/taplint.py:97 | joining the lines with newlines gives the output back |
| `Taplint.SplitConcat` | src/rspvalidator/services/taplint.py:97 | two texts joined at a newline split into the lines of each |
| `Taplint.SplitSingleLine` | src/rspvalidator/services/taplint.py:97 | a text without a newline is one line |
| `Taplint.SpaceRun` | src/rspvalidator/services/taplint.py:100 | the maximal run of `\s` characters from a position; `\s` is space, tab to carriage return and U+001C to U+001F |
| `Taplint.DigitRun` | src/rspvalidator/services/taplint.py:100 | the maximal run of digits from a position |
| `Taplint.MatchAt` | src/rspvalidator/services/taplint.py:100-105 | a match at a position needs the key there, and fails when no `\s` character follows the key |
| `Taplint.MatchAtIff` | src/rspvalidator/services/taplint.py:100-105 | where the key stands, a match exists exactly when at least one whitespace character and then at least one digit follow it |
| `Taplint.LeftmostMatch` | src/rspvalidator/services/taplint.py:100-105 | finds no position exactly when no position matches; otherwise the position matches and no earlier one does |
| `Taplint.SearchFindsLeftmost` | src/rspvalidator/services/taplint.py:100-105 | the value found is that of the leftmost matching position |
| `Taplint.Search` | src/rspvalidator/services/taplint.py:100-105 | `re.search` then `int(group(1))`: the value at the leftmost match; `SearchFindsLeftmost`, `SearchAfterPrefix`, `NonNumericOccurrenceSkipped` and `AbsentKeyNoMatch` state what it finds |
| `Taplint.AbsentKeyNoMatch` | src/rspvalidator/services/taplint.py:100-105 | a line without the key's first letter gives no match |
| `Taplint.NonNumericOccurrenceSkipped` | src/rspvalidator/services/taplint.py:100-102 | in "Errors: x Errors: 5" the first "Errors:" has no number and is skipped; 5 is read |
| `Taplint.MatchAtRuns` | src/rspvalidator/services/taplint.py:100-105 | the key, w ≥ 1 spaces and a maximal run of digits give the decimal value of those digits |
| `Taplint.SearchAfterPrefix` | src/rspvalidator/services/taplint.py:100-105 | in `pre + key + " " + digits + rest` the match is right after `pre` when `pre` holds no first letter of the key, and reads the digits |
| `Taplint.LastTotalsIndex` | src/rspvalidator/services/taplint.py:98-99 | no index exactly when no line starts with "Totals:"; otherwise the last such line |
| `Taplint.Summary` | src/rspvalidator/services/taplint.py:96-107 | the counts of the last summary line, each field 0 when it does not match; `ParseSummary` is proved equal to it and the lemmas below state its properties |
| `Taplint.ParseSummary` | src/rspvalidator/services/taplint.py:82-107 | the backward loop returns non-negative counts equal to the `Summary` specification |
| `Taplint.NoTotalsLineGivesZero` | src/rspvalidator/services/taplint.py:96-107 | without a summary line both counts are 0 |
| `Taplint.LastTotalsIndexAppend` | src/rspvalidator/services/taplint.py:98-99 | a summary line in the appended lines wins over every earlier one |
| `Taplint.LastTotalsLineWins` | src/rspvalidator/services/taplint.py:98-106 | text before a part with a summary line does not matter; a trailing part without one changes nothing |
| `Taplint.SingleLineSummary` | src/rspvalidator/services/taplint.py:97-107 | a one-line output is read as its own summary line exactly when it starts with "Totals:" |
| `Taplint.SummaryReadsPrintedTotals` | src/rspvalidator/services/taplint.py:96-107 | `Totals: Errors: e Warnings: w` reads back as (e, w) for all e and w |
| `Taplint.SummaryExample` | src/rspvalidator/services/taplint.py:100-105 | "Totals: Errors: 5 Warnings: 10" gives (5, 10) |
| `Taplint.MissingWhitespaceAfterErrors` | src/rspvalidator/services/taplint.py:100-105 | with digits glued to "Errors:" errors stays 0, while the warnings field is still read |
| `Taplint.MissingWarningsField` | src/rspvalidator/services/taplint.py:103-105 | a summary line without a warnings field gives its errors and 0 warnings |
| `Taplint.SeparatorIsWhitespace` | src/rspvalidator/services/taplint.py:100-102 | the unit separator U+001F between "Errors:" and the digits counts as whitespace: "Errors:\x1f7" reads 7 |
| `Taplint.IndentedTotalsIgnored` | src/rspvalidator/services/taplint.py:99 | a summary line indented by one space is not read |
| `Validation.FirstSettled` | src/rspvalidator/services/validation.py:57-61 | the first poll, up to the last one before the time-out, at which the job is not running; none exactly when it runs at every such poll |
| `Validation.PollJob` | src/rspvalidator/services/validation.py:54-61 | the loop ends at the first poll where the job is not running, or times out; it times out exactly when the job still runs after more than 30 seconds |
| `Validation.SettledVerdict` | src/rspvalidator/services/validation.py:64-71 | a settled job passes exactly when it is COMPLETED, has all metadata, ran the schema query and has its result under `<base>/api/<app>/results`; another phase fails on that phase |
| `Validation.UwsVerdict` | src/rspvalidator/services/validation.py:57-71 | a time-out when no poll sees a settled phase, else the verdict on the first settled phase; `ValidateUwsEndpoint` is proved equal to it and `UwsPassIff` characterises its passes |
| `Validation.ValidateUwsEndpoint` | src/rspvalidator/services/validation.py:49-72 | the polling loop and the assertions agree with `UwsVerdict` |
| `Validation.TimedOutJobFails` | src/rspvalidator/services/validation.py:57-63 | a job running at every poll fails as timed out |
| `Validation.UnfinishedJobFails` | src/rspvalidator/services/validation.py:57-64 | a job that first stops in a phase other than COMPLETED fails on that phase |
| `Validation.UwsPassIff` | src/rspvalidator/services/validation.py:57-71 | passes exactly when the job completes by the last poll and all later assertions hold |
| `Validation.CompletionAtLastPoll` | src/rspvalidator/services/validation.py:57-61 | a COMPLETED phase at the first poll past the 30-second limit still passes, because the phase is read before the clock |
| `Validation.ValidateTables` | src/rspvalidator/services/validation.py:132-136 | passes exactly when a table list exists and is not empty; a missing list and an empty one fail differently |
| `Validation.TapValidator.Validate` | src/rspvalidator/services/validation.py:44-47 | the tables check runs first, and its failure is reported; then the UWS check. It passes exactly when both pass |
| `Validation.TaplintValidator.ValidateSummary` | src/rspvalidator/services/validation.py:175-189 | passes exactly when the parsed errors and warnings are within the limits; too many errors is reported even when warnings also exceed |
| `Validation.CreateTaplintValidator` | src/rspvalidator/services/validation.py:166-169 | succeeds exactly for an application in the limits table, with that entry's limits and the output; otherwise fails naming the application |
| `Validation.TaplintValidatorLimits` | src/rspvalidator/services/validation.py:166-168 | tap gets (92, 690) and ssotap gets (47, 2); "TAP" is refused |
| `QueryChecks.FirstCheckFailing` | src/rspvalidator/tests/test_api.py:118-127 | none exactly when the result passes all three checks; otherwise the first failing check in the order status, duration, row count |
| `QueryChecks.CheckQueryResults` | src/rspvalidator/tests/test_api.py:116-127 | no failure exactly when every result passes; otherwise the first failing result in user-major order, with its first failing check |
| `QueryChecks.FirstFailureUnique` | src/rspvalidator/tests/test_api.py:116-127 | there is at most one first failure, so the verdict is fixed by the results |
| `QueryChecks.EmptyResultsPass` | src/rspvalidator/tests/test_api.py:116-117 | no users, or users without results, pass |
| `QueryChecks.DurationBoundInclusive` | src/rspvalidator/tests/test_api.py:119 | a duration of exactly twice the expected one passes, and a longer one fails as too slow |
| `FileManager.FileExistsAndValid` | src/rspvalidator/services/filemanager.py:38-61 | true exactly for a regular file of at least the minimum size; false exactly for a missing path or a directory; a size error exactly for a smaller regular file |
| `FileManager.CheckAuthFile` | src/rspvalidator/services/filemanager.py:19-36 | fails exactly when `<home>/auth.json` does not exist, naming that path |
| `FileManager.Download` | src/rspvalidator/services/filemanager.py:76-82 | the outcome and new file system of `download_file`; `DownloadSkipsValidFile`, `DownloadStopsOnUndersizedFile`, `DownloadWrites`, `DownloadIdempotent` and `UndersizedDownloadBlocksRetry` state its properties |
| `FileManager.FileSystem.DownloadFile` | src/rspvalidator/services/filemanager.py:63-82 | the outcome and the new file system are those of `Download` on the old one |
| `FileManager.DownloadSkipsValidFile` | src/rspvalidator/services/filemanager.py:76-77 | a valid file is kept and nothing changes, whatever the server would answer |
| `FileManager.DownloadStopsOnUndersizedFile` | src/rspvalidator/services/filemanager.py:54-60 | an undersized file stops the download with a size error before any fetch, and nothing changes |
| `FileManager.DownloadWrites` | src/rspvalidator/services/filemanager.py:79-82 | after a download that passes, the path is a regular file; a fetched file holds the response's bytes; no other path changes |
| `FileManager.DownloadIdempotent` | src/rspvalidator/services/filemanager.py:76-82 | a second download after one that wrote a large enough file changes nothing |
| `FileManager.UndersizedDownloadBlocksRetry` | src/rspvalidator/services/filemanager.py:55-82 | writing a file below the minimum passes, but every later download of that path fails with a size error |

## Left out

- services/testrunner.py is not part of this model. It runs the users
  concurrently, and the order of its outer result list is the order in which
  workers finish. `CheckQueryResults` accepts any list of per-user results.
- `TAPQueryRunnerService.run_query_test` and utils/timer.py are left out.
  They wrap the TAP client and a wall-clock timer.
- `validate_capabilities` is left out. It renders a Jinja2 template and
  compares XML through lxml.
- The browser checks are left out: `SquareOneValidationService`,
  conftest.py, test_nublado.py, test_portal.py and test_squareone.py.
- The snapshot image comparisons are left out.
- `TaplintService.run` is left out. It drives the taplint process through
  pexpect, with a timeout.
- `ConfigReaderService.get_queries` is left out. It reads a JSON file.
- factories/tap_factory.py is left out. It builds an authenticated client
  session.
- Logging is left out. It does not decide any outcome.
- `TaplintValidationService.validate` is left out. It only calls
  `validate_summary`.
- The import-time `sys.exit` is modelled as the `AuthFileMissing` error of
  `Config.Load`. The home directory lookup is not modelled.
- The `query_methods` table is left out. It maps modes to client methods.
- Durations are exact reals. Floating-point rounding of
  `execution_duration <= 2 * expected_duration` is not modelled.
- Case mapping and `\d` cover ASCII only. `\s` covers the ASCII characters
  that `str.isspace()` accepts, U+001C to U+001F included. Non-ASCII spaces
  (U+0085, U+00A0 and others), Unicode digits and Unicode letters are not
  modelled.
- Text.DecimalRoundTrip: numbers are unbounded. Python's `int()` and `str()`
  raise `ValueError` on numerals longer than 4300 digits
  (`sys.get_int_max_str_digits`). So the round trip `int(str(n)) == n`
  matches Python only below 10^4300. The same limit applies to the counts
  read at services/taplint.py:102 and 105 and to the labels built at
  models/test.py:31.
- src/rspvalidator/tests/test_api.py:10 imports `Scenario`, but
  src/rspvalidator/models/test.py defines only
  `TestScenario` (lines 6 and 10). As written, the test module fails at
  import. `CheckQueryResults` models the loop of `test_tap_queries` as it
  is meant to run.
- Polling time is whole seconds: the poll at tick t happens t seconds after
  the start. The real loop reads a wall clock and sleeps one second, so its
  poll count can differ. Each real pass also spends time on the network, so
  after 30 sleeps the clock is already past 30 seconds. The model can poll
  once more (tick 31) than the real loop.
- The phase read by the assertion after the loop is taken at the loop's last
  tick. The source fetches it once more.
- The job's metadata does not change while it is polled.
- A result object without an address (`job.result` missing) is the `NoResult`
  failure. In the source it raises an attribute error.
- The source submits and runs the job, and deletes it after a pass. The
  model receives the job as a value, and the delete is not modelled.
- Download requests that fail without an HTTP status are not modelled: a
  connection error or a timeout. The model only has the response status and
  content.
- Writing to a path whose parent directory is missing is not modelled.
  Neither are file permissions.
- tests/test_taplint.py calls `TaplintValidationService` with one argument
  and `validate_summary` with one. Those calls do not match the signatures
  at services/validation.py:166 and 175. The model follows validation.py.
- The "Failed to parse TAPLINT summary" assertion
  (services/validation.py:179) is not a separate failure. `ParseSummary`
  always returns non-negative counts, so it cannot fire.
