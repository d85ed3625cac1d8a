/** The addresses of the TAP service endpoints (services/tap.py). */
module TapOperations {
  import opened Wrappers
  import opened Text

  /** The `ValueError` raised for an unknown endpoint name. */
  datatype EndpointError = InvalidEndpoint(endpoint: string)

  /** The five endpoint names the service knows. */
  const EndpointNames: set<string> := {"capabilities", "availability", "logcontrol", "tables", "tap"}

  /** What follows `<base>/api/<app>` for each known endpoint. */
  function EndpointSuffix(endpoint: string): (r: Option<string>)
    ensures r.Some? <==> endpoint in EndpointNames
    ensures endpoint == "capabilities" ==> r == Some("/capabilities")
    ensures endpoint == "availability" ==> r == Some("/availability")
    ensures endpoint == "logcontrol" ==> r == Some("/logging/control")
    ensures endpoint == "tables" ==> r == Some("/tables")
    ensures endpoint == "tap" ==> r == Some("")
  {
    match endpoint
    case "capabilities" => Some("/capabilities")
    case "availability" => Some("/availability")
    case "logcontrol" => Some("/logging/control")
    case "tables" => Some("/tables")
    case "tap" => Some("")
    case _ => None
  }

  /** `TAPOperationsService.get_api_endpoint(endpoint, app)`. The endpoint
      name is matched exactly (no case folding); the application name is not
      checked and is spliced into the address as given. */
  function GetApiEndpoint(baseUrl: string, endpoint: string, app: string): (r: Result<string, EndpointError>)
    ensures r.Success? <==> endpoint in EndpointNames
    ensures r.Failure? ==> r.error == InvalidEndpoint(endpoint)
    ensures r.Success? ==> StartsWith(r.value, baseUrl + "/api/" + app)
    ensures r.Success? ==> r.value == baseUrl + "/api/" + app + EndpointSuffix(endpoint).value
    ensures endpoint == "tap" ==> r == Success(baseUrl + "/api/" + app)
    ensures endpoint == "logcontrol" ==> r == Success(baseUrl + "/api/" + app + "/logging/control")
  {
    match EndpointSuffix(endpoint)
    case None => Failure(InvalidEndpoint(endpoint))
    case Some(suffix) =>
      var url := baseUrl + "/api/" + app + suffix;
      StartsWithConcat(baseUrl + "/api/" + app, suffix);
      assert suffix == "" ==> url == baseUrl + "/api/" + app;
      Success(url)
  }

  /** The lookup is case-sensitive: upper-case spellings are rejected. */
  lemma GetApiEndpointCaseSensitive(baseUrl: string, app: string)
    ensures GetApiEndpoint(baseUrl, "TAP", app) == Failure(InvalidEndpoint("TAP"))
    ensures GetApiEndpoint(baseUrl, "Tables", app) == Failure(InvalidEndpoint("Tables"))
  {
  }

  /** For one application, different endpoints have different addresses. */
  lemma GetApiEndpointInjective(baseUrl: string, app: string, e1: string, e2: string)
    requires GetApiEndpoint(baseUrl, e1, app).Success? && GetApiEndpoint(baseUrl, e2, app).Success?
    requires GetApiEndpoint(baseUrl, e1, app) == GetApiEndpoint(baseUrl, e2, app)
    ensures e1 == e2
  {
    var p := baseUrl + "/api/" + app;
    var s1, s2 := EndpointSuffix(e1).value, EndpointSuffix(e2).value;
    assert p + s1 == p + s2;
    assert s1 == (p + s1)[|p|..] == (p + s2)[|p|..] == s2;
  }
}
