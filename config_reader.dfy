/** Looking up an application's address (services/configreader.py). */
module ConfigReader {
  import opened Wrappers
  import opened Text
  import Config

  /** The `ValueError` raised for a name missing from the table; it carries
      the lowered name, as the message does. */
  datatype LookupError = InvalidAppName(name: string)

  /** `ConfigReaderService.get_url(app)` over the URL table `urls`: the name
      is lowered, then looked up. */
  function GetUrl(urls: map<string, string>, app: string): (r: Result<string, LookupError>)
    ensures r.Success? <==> Lower(app) in urls
    ensures r.Success? ==> r.value == urls[Lower(app)]
    ensures r.Failure? ==> r.error == InvalidAppName(Lower(app))
  {
    var name := Lower(app);
    if name !in urls then Failure(InvalidAppName(name)) else Success(urls[name])
  }

  /** The lookup ignores ASCII case. */
  lemma GetUrlCaseInsensitive(urls: map<string, string>, app: string)
    ensures GetUrl(urls, app) == GetUrl(urls, Lower(app))
  {
    LowerIdempotent(app);
  }

  /** On the configured table every address found lies under the base URL,
      and the names that are found are exactly the case variants of the
      table's seven keys. */
  lemma GetUrlUnderBase(baseUrl: string, app: string)
    ensures GetUrl(Config.Urls(baseUrl), app).Success? <==>
      Lower(app) in {"portal", "nublado", "api", "squareone", "tap", "ssotap", "datalink"}
    ensures GetUrl(Config.Urls(baseUrl), app).Success? ==>
      StartsWith(GetUrl(Config.Urls(baseUrl), app).value, baseUrl)
  {
  }

  lemma GetUrlExamples(baseUrl: string)
    ensures GetUrl(Config.Urls(baseUrl), "Nublado") == Success(baseUrl + "/nb")
    ensures GetUrl(Config.Urls(baseUrl), "API") == GetUrl(Config.Urls(baseUrl), "tap")
    ensures GetUrl(Config.Urls(baseUrl), "notebook") == Failure(InvalidAppName("notebook"))
  {
    assert Lower("Nublado") == "nublado";
    assert Lower("API") == "api";
    assert Lower("tap") == "tap";
    assert Lower("notebook") == "notebook";
  }
}
