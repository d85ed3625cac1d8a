/** A configured TAP query test case and its human-readable label
    (models/test.py). */
module Scenarios {
  import opened Text
  import opened TapModels

  /** `TestScenario`: the application, the query mode and the number of
      simulated users. The label is not a constructor argument: it is derived
      once from the three fields and never changes. */
  datatype TestScenario = TestScenario(app: TapApplication, mode: QueryMode, users: int) {
    const description: string :=
      Upper(app.Value()) + " " + mode.Value() + " query [" + IntToString(users)
      + " user" + (if users > 1 then "s" else "") + "]"
  }

  predicate EndsWith(s: string, suffix: string)
  {
    |suffix| <= |s| && s[|s| - |suffix|..] == suffix
  }

  /** The labels of the TAP synchronous scenarios with one and ten users. */
  lemma DescriptionExamples()
    ensures TestScenario(Tap, Sync, 1).description == "TAP sync query [1 user]"
    ensures TestScenario(Tap, Sync, 10).description == "TAP sync query [10 users]"
  {
    DescriptionSplit(TestScenario(Tap, Sync, 1));
    DescriptionSplit(TestScenario(Tap, Sync, 10));
    HeadCases(Tap, Sync);
    TailExamples();
  }

  lemma TailExamples()
    ensures Tail(1) == "1 user]"
    ensures Tail(10) == "10 users]"
  {
    assert IntToString(1) == "1";
    assert NatToDecimal(10) == NatToDecimal(1) + ['0'];
    assert IntToString(10) == "10";
  }

  /** The plural "users" appears exactly when there is more than one user;
      zero and negative counts read as singular. */
  lemma DescriptionPluralisation(sc: TestScenario)
    ensures sc.users > 1 ==> EndsWith(sc.description, " users]")
    ensures sc.users <= 1 ==> EndsWith(sc.description, " user]") && !EndsWith(sc.description, "s]")
  {
    var d := sc.description;
    var head := Upper(sc.app.Value()) + " " + sc.mode.Value() + " query [" + IntToString(sc.users);
    if sc.users > 1 {
      assert d == head + " users]";
    } else {
      assert d == head + " user]";
      assert d[|d| - 2] == 'r';
    }
  }

  /** The application part of the label is "TAP" or "SSOTAP". */
  lemma DescriptionApplicationPart(sc: TestScenario)
    ensures sc.app == Tap ==> StartsWith(sc.description, "TAP ")
    ensures sc.app == SsoTap ==> StartsWith(sc.description, "SSOTAP ")
  {
    HeadCases(sc.app, sc.mode);
    DescriptionSplit(sc);
    StartsWithConcat(Head(sc.app, sc.mode), Tail(sc.users));
    var p := if sc.app == Tap then "TAP " else "SSOTAP ";
    assert StartsWith(Head(sc.app, sc.mode), p);
    StartsWithTransitive(sc.description, Head(sc.app, sc.mode), p);
  }

  /** The part of the label before the user count. */
  function Head(app: TapApplication, mode: QueryMode): string
  {
    Upper(app.Value()) + " " + mode.Value() + " query ["
  }

  /** The part of the label from the user count on. */
  function Tail(users: int): string
  {
    IntToString(users) + " user" + (if users > 1 then "s" else "") + "]"
  }

  lemma DescriptionSplit(sc: TestScenario)
    ensures sc.description == Head(sc.app, sc.mode) + Tail(sc.users)
  {
  }

  lemma HeadCases(app: TapApplication, mode: QueryMode)
    ensures app == Tap && mode == Sync ==> Head(app, mode) == "TAP sync query ["
    ensures app == Tap && mode == Async ==> Head(app, mode) == "TAP async query ["
    ensures app == SsoTap && mode == Sync ==> Head(app, mode) == "SSOTAP sync query ["
    ensures app == SsoTap && mode == Async ==> Head(app, mode) == "SSOTAP async query ["
  {
    UpperApplications();
    HeadLiterals();
    match app
    case Tap =>
      assert Upper(app.Value()) == "TAP";
    case SsoTap =>
      assert Upper(app.Value()) == "SSOTAP";
  }

  lemma HeadLiterals()
    ensures "TAP" + " " + "sync" + " query [" == "TAP sync query ["
    ensures "TAP" + " " + "async" + " query [" == "TAP async query ["
    ensures "SSOTAP" + " " + "sync" + " query [" == "SSOTAP sync query ["
    ensures "SSOTAP" + " " + "async" + " query [" == "SSOTAP async query ["
  {
  }

  lemma UpperApplications()
    ensures Upper("tap") == "TAP"
    ensures Upper("ssotap") == "SSOTAP"
  {
    var t, s := Upper("tap"), Upper("ssotap");
    assert t[0] == 'T' && t[1] == 'A' && t[2] == 'P';
    assert s[0] == 'S' && s[1] == 'S' && s[2] == 'O' && s[3] == 'T' && s[4] == 'A' && s[5] == 'P';
  }

  /** A label starts with the head of exactly one application and mode. */
  lemma HeadDetermined(d: string, a1: TapApplication, m1: QueryMode, a2: TapApplication, m2: QueryMode)
    requires StartsWith(d, Head(a1, m1)) && StartsWith(d, Head(a2, m2))
    ensures a1 == a2 && m1 == m2
  {
    HeadCases(a1, m1);
    HeadCases(a2, m2);
    var h1, h2 := Head(a1, m1), Head(a2, m2);
    // The application is told apart by the first letter, the mode by the
    // letter after the first space.
    assert d[0] == h1[0] && d[0] == h2[0];
    assert a1 == a2;
    if a1 == Tap {
      assert d[4] == h1[4] && d[4] == h2[4];
    } else {
      assert d[7] == h1[7] && d[7] == h2[7];
    }
  }

  lemma NoSpaceInNumeral(i: int)
    ensures forall k :: 0 <= k < |IntToString(i)| ==> IntToString(i)[k] != ' '
  {
    var s := IntToString(i);
    forall k | 0 <= k < |s|
      ensures s[k] != ' '
    {
      if i < 0 && k > 0 {
        assert s[k] == s[1..][k - 1];
      }
    }
  }

  lemma TailInjective(u: int, v: int)
    requires Tail(u) == Tail(v)
    ensures u == v
  {
    var a, b := IntToString(u), IntToString(v);
    NoSpaceInNumeral(u);
    NoSpaceInNumeral(v);
    var t := Tail(u);
    assert t == a + (" user" + (if u > 1 then "s" else "") + "]");
    assert t == b + (" user" + (if v > 1 then "s" else "") + "]");
    // The numerals hold no space, so the first space of the tail ends them.
    assert t[|a|] == ' ' && t[|b|] == ' ';
    assert forall k :: 0 <= k < |a| ==> t[k] == a[k] != ' ';
    assert forall k :: 0 <= k < |b| ==> t[k] == b[k] != ' ';
    assert a == t[..|a|] == b;
    IntToStringInjective(u, v);
  }

  /** Distinct scenarios carry distinct labels, so a label identifies its
      scenario (the labels serve as test identifiers). */
  lemma DescriptionInjective(s1: TestScenario, s2: TestScenario)
    requires s1.description == s2.description
    ensures s1 == s2
  {
    var d := s1.description;
    DescriptionSplit(s1);
    DescriptionSplit(s2);
    StartsWithConcat(Head(s1.app, s1.mode), Tail(s1.users));
    StartsWithConcat(Head(s2.app, s2.mode), Tail(s2.users));
    HeadDetermined(d, s1.app, s1.mode, s2.app, s2.mode);
    var h := Head(s1.app, s1.mode);
    assert Tail(s1.users) == d[|h|..] == Tail(s2.users);
    TailInjective(s1.users, s2.users);
  }
}
