/** The TAP data types: the two TAP applications, the two query modes and the
    record describing the outcome of one query (models/tap.py). */
module TapModels {
  import opened Wrappers

  /** `TAPApplication`: the (Qserv) TAP service and the SSO TAP service. */
  datatype TapApplication = Tap | SsoTap {
    /** The enum member's value. */
    function Value(): string
    {
      match this
      case Tap => "tap"
      case SsoTap => "ssotap"
    }
  }

  /** `TAPApplication(s)`: the member whose value is `s`, if there is one. */
  function ApplicationFromValue(s: string): (r: Option<TapApplication>)
    ensures r.Some? <==> s in {"tap", "ssotap"}
    ensures r.Some? ==> r.value.Value() == s
  {
    if s == "tap" then Some(Tap)
    else if s == "ssotap" then Some(SsoTap)
    else None
  }

  /** Every value leads back to its member, so the values are distinct. */
  lemma ApplicationValueRoundTrip(a: TapApplication)
    ensures ApplicationFromValue(a.Value()) == Some(a)
  {
  }

  lemma ApplicationValueInjective(a: TapApplication, b: TapApplication)
    requires a.Value() == b.Value()
    ensures a == b
  {
    ApplicationValueRoundTrip(a);
    ApplicationValueRoundTrip(b);
  }

  /** `QueryMode`: synchronous or asynchronous TAP queries. */
  datatype QueryMode = Sync | Async {
    function Value(): string
    {
      match this
      case Sync => "sync"
      case Async => "async"
    }
  }

  /** `QueryMode(s)`: the member whose value is `s`, if there is one. */
  function ModeFromValue(s: string): (r: Option<QueryMode>)
    ensures r.Some? <==> s in {"sync", "async"}
    ensures r.Some? ==> r.value.Value() == s
  {
    if s == "sync" then Some(Sync)
    else if s == "async" then Some(Async)
    else None
  }

  lemma ModeValueRoundTrip(m: QueryMode)
    ensures ModeFromValue(m.Value()) == Some(m)
  {
  }

  /** `QueryResult`: the metadata gathered for one executed query. Durations
      are seconds, taken as exact reals. */
  datatype QueryResult = QueryResult(
    status: string,
    rowCount: int,
    executionDuration: real,
    expectedDuration: real,
    expectedRowCount: int,
    query: string)
}
