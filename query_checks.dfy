/** The assertions `test_tap_queries` makes about the query results of all
    simulated users (tests/test_api.py): every result must have status OK,
    take at most twice its expected time and return the expected number of
    rows. The checks stop at the first failing result, users in order and the
    queries of one user in order. */
module QueryChecks {
  import opened Wrappers
  import opened TapModels

  /** The three assertions made about one result, in their order. */
  datatype Check = StatusNotOk | TooSlow | RowCountMismatch

  /** The assertion that failed, on the `index`-th result of user `user`. */
  datatype QueryFailure = QueryFailure(user: nat, index: nat, check: Check)

  predicate StatusOk(r: QueryResult) { r.status == "OK" }

  /** The duration bound is inclusive. */
  predicate FastEnough(r: QueryResult) { r.executionDuration <= 2.0 * r.expectedDuration }

  predicate RowCountMatches(r: QueryResult) { r.rowCount == r.expectedRowCount }

  predicate ResultPasses(r: QueryResult)
  {
    StatusOk(r) && FastEnough(r) && RowCountMatches(r)
  }

  /** The first of the three assertions that fails on `r`, if any. */
  function FirstCheckFailing(r: QueryResult): (c: Option<Check>)
    ensures c.None? <==> ResultPasses(r)
    ensures c == Some(StatusNotOk) <==> !StatusOk(r)
    ensures c == Some(TooSlow) <==> StatusOk(r) && !FastEnough(r)
    ensures c == Some(RowCountMismatch) <==> StatusOk(r) && FastEnough(r) && !RowCountMatches(r)
  {
    if r.status != "OK" then Some(StatusNotOk)
    else if r.executionDuration > 2.0 * r.expectedDuration then Some(TooSlow)
    else if r.rowCount != r.expectedRowCount then Some(RowCountMismatch)
    else None
  }

  /** Every result of every user passes. */
  predicate AllPass(results: seq<seq<QueryResult>>)
  {
    forall u, q :: 0 <= u < |results| && 0 <= q < |results[u]| ==> ResultPasses(results[u][q])
  }

  /** `f` names a failing result such that all results before it, in
      user-major order, pass, and the check that failed first on it. */
  predicate IsFirstFailure(results: seq<seq<QueryResult>>, f: QueryFailure)
  {
    && f.user < |results|
    && f.index < |results[f.user]|
    && FirstCheckFailing(results[f.user][f.index]) == Some(f.check)
    && (forall u, q :: 0 <= u < f.user && 0 <= q < |results[u]| ==> ResultPasses(results[u][q]))
    && (forall q :: 0 <= q < f.index ==> ResultPasses(results[f.user][q]))
  }

  /** The loops of `test_tap_queries`: the first failure, or none. */
  method CheckQueryResults(results: seq<seq<QueryResult>>) returns (failure: Option<QueryFailure>)
    ensures failure.None? <==> AllPass(results)
    ensures failure.Some? ==> IsFirstFailure(results, failure.value)
  {
    var u := 0;
    while u < |results|
      invariant 0 <= u <= |results|
      invariant forall v, q :: 0 <= v < u && 0 <= q < |results[v]| ==> ResultPasses(results[v][q])
    {
      var userResults := results[u];
      var q := 0;
      while q < |userResults|
        invariant 0 <= q <= |userResults|
        invariant forall p :: 0 <= p < q ==> ResultPasses(userResults[p])
      {
        var check := FirstCheckFailing(userResults[q]);
        if check.Some? {
          return Some(QueryFailure(u, q, check.value));
        }
        q := q + 1;
      }
      u := u + 1;
    }
    return None;
  }

  /** At most one failure is the first: the verdict is fixed by the results. */
  lemma FirstFailureUnique(results: seq<seq<QueryResult>>, f: QueryFailure, g: QueryFailure)
    requires IsFirstFailure(results, f) && IsFirstFailure(results, g)
    ensures f == g
  {
    assert !ResultPasses(results[f.user][f.index]);
    assert !ResultPasses(results[g.user][g.index]);
    assert f.user == g.user;
    assert f.index == g.index;
  }

  /** With no users, or users without results, nothing fails. */
  lemma EmptyResultsPass(users: nat)
    ensures AllPass([])
    ensures AllPass(seq(users, _ => []))
  {
  }

  /** A result that takes exactly twice its expected time passes. */
  lemma DurationBoundInclusive(r: QueryResult)
    requires StatusOk(r) && RowCountMatches(r)
    requires r.executionDuration == 2.0 * r.expectedDuration
    ensures FirstCheckFailing(r).None?
    ensures FirstCheckFailing(r.(executionDuration := r.executionDuration + 0.001)) == Some(TooSlow)
  {
  }
}
