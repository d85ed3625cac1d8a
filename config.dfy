/** Suite configuration built from environment strings (config.py): the base
    URL, the boolean flags, the capability flags per TAP application, the URL
    table, the test scenarios and the taplint thresholds. The environment is a
    parameter instead of process state. */
module Config {
  import opened Wrappers
  import opened Text
  import opened TapModels
  import opened Scenarios
  import FileManager

  /** The process environment: variable name to value. */
  type Env = map<string, string>

  const DefaultHostname := "data-dev.lsst.cloud"

  /** `os.getenv(name, default)`. */
  function GetEnv(env: Env, name: string, default: string): (v: string)
    ensures name in env ==> v == env[name]
    ensures name !in env ==> v == default
  {
    if name in env then env[name] else default
  }

  /** `os.getenv(name, default).lower() == "true"`. */
  predicate Flag(env: Env, name: string, default: string)
  {
    Lower(GetEnv(env, name, default)) == "true"
  }

  /** A flag is set exactly by the four letters of "true" in any mix of
      cases: the value must match "true" letter by letter, ignoring case. */
  lemma FlagMeaning(env: Env, name: string, default: string)
    ensures Flag(env, name, default) <==>
      var v := GetEnv(env, name, default);
      |v| == 4 && v[0] in "tT" && v[1] in "rR" && v[2] in "uU" && v[3] in "eE"
  {
    var v := GetEnv(env, name, default);
    if |v| == 4 {
      assert Lower(v) == [LowerChar(v[0]), LowerChar(v[1]), LowerChar(v[2]), LowerChar(v[3])];
    }
  }

  lemma FlagExamples()
    ensures Flag(map["F" := "TRUE"], "F", "False")
    ensures Flag(map["F" := "True"], "F", "False")
    ensures !Flag(map["F" := "1"], "F", "True")
    ensures !Flag(map["F" := " true"], "F", "True")
    ensures Flag(map[], "F", "True") && !Flag(map[], "F", "False")
  {
    FlagMeaning(map["F" := "TRUE"], "F", "False");
    FlagMeaning(map["F" := "True"], "F", "False");
    FlagMeaning(map["F" := "1"], "F", "True");
    FlagMeaning(map["F" := " true"], "F", "True");
    FlagMeaning(map[], "F", "True");
    FlagMeaning(map[], "F", "False");
  }

  /** The `capability_includes` entry of one application. */
  datatype CapabilityFlags = CapabilityFlags(includeUpload: bool, includeDatamodel: bool, includeGeometry: bool)

  /** One entry of `taplint_maximums`. */
  datatype TaplintLimits = TaplintLimits(errors: int, warnings: int)

  function CapabilityIncludes(env: Env): (r: map<string, CapabilityFlags>)
    ensures r.Keys == {"tap", "ssotap"}
  {
    map[
      "tap" := CapabilityFlags(
        Flag(env, "TAP_INCLUDE_UPLOAD", "False"),
        Flag(env, "TAP_INCLUDE_DATAMODEL", "True"),
        Flag(env, "TAP_INCLUDE_GEOMETRY", "False")),
      "ssotap" := CapabilityFlags(
        Flag(env, "SSOTAP_INCLUDE_UPLOAD", "True"),
        Flag(env, "SSOTAP_INCLUDE_DATAMODEL", "False"),
        Flag(env, "SSOTAP_INCLUDE_GEOMETRY", "True"))]
  }

  /** Which variables steer the capability flags. */
  const CapabilityVariables: set<string> := {
    "TAP_INCLUDE_UPLOAD", "TAP_INCLUDE_DATAMODEL", "TAP_INCLUDE_GEOMETRY",
    "SSOTAP_INCLUDE_UPLOAD", "SSOTAP_INCLUDE_DATAMODEL", "SSOTAP_INCLUDE_GEOMETRY"}

  /** With none of the six variables set, tap has the data model on and upload
      and geometry off, and ssotap the other way round. */
  lemma CapabilityDefaults(env: Env)
    requires forall v :: v in CapabilityVariables ==> v !in env
    ensures CapabilityIncludes(env)["tap"] == CapabilityFlags(false, true, false)
    ensures CapabilityIncludes(env)["ssotap"] == CapabilityFlags(true, false, true)
  {
    assert Lower("False") == "false";
    assert Lower("True") == "true";
  }

  // Each of the six variables sets its own flag, to whether its value lowers
  // to "true", and leaves the other flags and the other application as they
  // were.

  lemma TapIncludeUpload(env: Env, v: string)
    ensures var flags := CapabilityIncludes(env)["tap"];
      CapabilityIncludes(env["TAP_INCLUDE_UPLOAD" := v])["tap"] == flags.(includeUpload := Lower(v) == "true")
    ensures CapabilityIncludes(env["TAP_INCLUDE_UPLOAD" := v])["ssotap"] == CapabilityIncludes(env)["ssotap"]
  {
  }

  lemma TapIncludeDatamodel(env: Env, v: string)
    ensures var flags := CapabilityIncludes(env)["tap"];
      CapabilityIncludes(env["TAP_INCLUDE_DATAMODEL" := v])["tap"] == flags.(includeDatamodel := Lower(v) == "true")
    ensures CapabilityIncludes(env["TAP_INCLUDE_DATAMODEL" := v])["ssotap"] == CapabilityIncludes(env)["ssotap"]
  {
  }

  lemma TapIncludeGeometry(env: Env, v: string)
    ensures var flags := CapabilityIncludes(env)["tap"];
      CapabilityIncludes(env["TAP_INCLUDE_GEOMETRY" := v])["tap"] == flags.(includeGeometry := Lower(v) == "true")
    ensures CapabilityIncludes(env["TAP_INCLUDE_GEOMETRY" := v])["ssotap"] == CapabilityIncludes(env)["ssotap"]
  {
  }

  lemma SsoTapIncludeUpload(env: Env, v: string)
    ensures var flags := CapabilityIncludes(env)["ssotap"];
      CapabilityIncludes(env["SSOTAP_INCLUDE_UPLOAD" := v])["ssotap"] == flags.(includeUpload := Lower(v) == "true")
    ensures CapabilityIncludes(env["SSOTAP_INCLUDE_UPLOAD" := v])["tap"] == CapabilityIncludes(env)["tap"]
  {
  }

  lemma SsoTapIncludeDatamodel(env: Env, v: string)
    ensures var flags := CapabilityIncludes(env)["ssotap"];
      CapabilityIncludes(env["SSOTAP_INCLUDE_DATAMODEL" := v])["ssotap"] == flags.(includeDatamodel := Lower(v) == "true")
    ensures CapabilityIncludes(env["SSOTAP_INCLUDE_DATAMODEL" := v])["tap"] == CapabilityIncludes(env)["tap"]
  {
  }

  lemma SsoTapIncludeGeometry(env: Env, v: string)
    ensures var flags := CapabilityIncludes(env)["ssotap"];
      CapabilityIncludes(env["SSOTAP_INCLUDE_GEOMETRY" := v])["ssotap"] == flags.(includeGeometry := Lower(v) == "true")
    ensures CapabilityIncludes(env["SSOTAP_INCLUDE_GEOMETRY" := v])["tap"] == CapabilityIncludes(env)["tap"]
  {
  }

  /** `urls`: application name to its address on the platform. */
  function Urls(baseUrl: string): (r: map<string, string>)
    ensures r.Keys == {"portal", "nublado", "api", "squareone", "tap", "ssotap", "datalink"}
    ensures forall k :: k in r ==> StartsWith(r[k], baseUrl)
    ensures r["api"] == r["tap"] == baseUrl + "/api/tap"
    ensures r["nublado"] == baseUrl + "/nb"
  {
    var r := map[
      "portal" := baseUrl + "/portal/app",
      "nublado" := baseUrl + "/nb",
      "api" := baseUrl + "/api/tap",
      "squareone" := baseUrl + "/",
      "tap" := baseUrl + "/api/tap",
      "ssotap" := baseUrl + "/api/ssotap",
      "datalink" := baseUrl + "/api/datalink"];
    forall k | k in r
      ensures StartsWith(r[k], baseUrl)
    {
      StartsWithConcat(baseUrl, r[k][|baseUrl|..]);
      assert r[k] == baseUrl + r[k][|baseUrl|..];
    }
    r
  }

  /** `SCENARIOS`: the parametrisation of the TAP query tests. */
  const AllScenarios: seq<TestScenario> := [
    TestScenario(SsoTap, Sync, 5),
    TestScenario(SsoTap, Sync, 10),
    TestScenario(SsoTap, Async, 1),
    TestScenario(SsoTap, Async, 10),
    TestScenario(Tap, Sync, 1),
    TestScenario(Tap, Sync, 10),
    TestScenario(Tap, Async, 1),
    TestScenario(Tap, Async, 10)]

  /** How many scenarios target application `app`. */
  function CountFor(scs: seq<TestScenario>, app: TapApplication): (n: nat)
    ensures n <= |scs|
  {
    if |scs| == 0 then 0
    else (if scs[0].app == app then 1 else 0) + CountFor(scs[1..], app)
  }

  /** Eight scenarios, four for each application, each with at least one
      user and no two alike. */
  lemma ScenariosShape()
    ensures |AllScenarios| == 8
    ensures CountFor(AllScenarios, Tap) == 4 && CountFor(AllScenarios, SsoTap) == 4
    ensures forall i :: 0 <= i < |AllScenarios| ==> AllScenarios[i].users >= 1
    ensures forall i, j :: 0 <= i < j < |AllScenarios| ==> AllScenarios[i] != AllScenarios[j]
  {
    var s := AllScenarios;
    assert CountFor(s[4..], SsoTap) == 0 && CountFor(s[4..], Tap) == 4 by {
      assert s[4..][1..] == s[5..];
      assert s[5..][1..] == s[6..];
      assert s[6..][1..] == s[7..];
      assert s[7..][1..] == [];
    }
    assert s[..][1..] == s[1..];
    assert s[1..][1..] == s[2..];
    assert s[2..][1..] == s[3..];
    assert s[3..][1..] == s[4..];
  }

  /** `taplint_maximums`. */
  const TaplintMaximums: map<string, TaplintLimits> := map[
    "tap" := TaplintLimits(92, 690),
    "ssotap" := TaplintLimits(47, 2)]

  lemma TaplintMaximumsKeys()
    ensures TaplintMaximums.Keys == {"tap", "ssotap"}
    ensures forall k :: k in TaplintMaximums ==> TaplintMaximums[k].errors >= 0 && TaplintMaximums[k].warnings >= 0
  {
  }

  /** The configuration the module computes at import time. */
  datatype Settings = Settings(
    hostname: string,
    baseUrl: string,
    headless: bool,
    token: string,
    capabilityIncludes: map<string, CapabilityFlags>,
    urls: map<string, string>,
    scenarios: seq<TestScenario>,
    taplintMaximums: map<string, TaplintLimits>)

  /** Why the configuration does not load: the auth file is missing (the
      process exits) or a `ValueError` is raised. */
  datatype ConfigError = AuthFileMissing | HostnameNotSet | TokenNotSet

  /** Reading the configuration from `env`; `authFileFound` is the verdict of
      the auth-file check made first. The host name is checked before the
      token. */
  function Load(env: Env, authFileFound: bool): (r: Result<Settings, ConfigError>)
    ensures r == Failure(AuthFileMissing) <==> !authFileFound
    ensures r == Failure(HostnameNotSet) <==> authFileFound && GetEnv(env, "HOSTNAME", DefaultHostname) == ""
    ensures r == Failure(TokenNotSet) <==>
      authFileFound && GetEnv(env, "HOSTNAME", DefaultHostname) != "" && GetEnv(env, "TOKEN", "") == ""
    ensures r.Success? ==>
      && r.value.hostname == GetEnv(env, "HOSTNAME", DefaultHostname) != ""
      && r.value.token == GetEnv(env, "TOKEN", "") != ""
      && r.value.baseUrl == "https://" + r.value.hostname
      && r.value.headless == Flag(env, "HEADLESS", "False")
      && r.value.capabilityIncludes == CapabilityIncludes(env)
      && r.value.urls == Urls(r.value.baseUrl)
      && r.value.scenarios == AllScenarios
      && r.value.taplintMaximums == TaplintMaximums
  {
    var hostname := GetEnv(env, "HOSTNAME", DefaultHostname);
    var baseUrl := "https://" + hostname;
    var token := GetEnv(env, "TOKEN", "");
    if !authFileFound then Failure(AuthFileMissing)
    else if hostname == "" then Failure(HostnameNotSet)
    else if token == "" then Failure(TokenNotSet)
    else Success(Settings(
      hostname, baseUrl, Flag(env, "HEADLESS", "False"), token,
      CapabilityIncludes(env), Urls(baseUrl), AllScenarios, TaplintMaximums))
  }

  /** Without a token nothing loads; with one and no host name, the default
      host is used. */
  lemma LoadDefaults(token: string)
    requires token != ""
    ensures Load(map[], true) == Failure(TokenNotSet)
    ensures Load(map["TOKEN" := token], true).Success?
    ensures Load(map["TOKEN" := token], true).value.baseUrl == "https://data-dev.lsst.cloud"
    ensures !Load(map["TOKEN" := token], true).value.headless
  {
    var env := map["TOKEN" := token];
    assert GetEnv(map[], "HOSTNAME", DefaultHostname) == DefaultHostname != "";
    assert GetEnv(map[], "TOKEN", "") == "";
    var r := Load(env, true);
    assert GetEnv(env, "HOSTNAME", DefaultHostname) == DefaultHostname;
    assert GetEnv(env, "TOKEN", "") == token;
    assert r.Success?;
    FlagMeaning(env, "HEADLESS", "False");
    assert r.value.baseUrl == "https://" + DefaultHostname;
    DefaultBaseUrl();
  }

  lemma DefaultBaseUrl()
    ensures "https://" + DefaultHostname == "https://data-dev.lsst.cloud"
  {
  }

  /** The auth-file verdict `Load` starts from is that of the file check on
      the home directory: loading stops first exactly when
      `<home>/auth.json` is missing. */
  lemma LoadChecksAuthFile(env: Env, entries: map<string, FileManager.Node>, home: string)
    ensures Load(env, FileManager.CheckAuthFile(entries, home).Pass?) == Failure(AuthFileMissing)
      <==> home + "/auth.json" !in entries
  {
  }
}
