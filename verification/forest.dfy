/**
 * Read-only queries over the forest of test plans used by the tree component
 * (src/components/TestPlanTree.tsx): the pre-order walk that the cascade
 * helpers perform, and the depth-first suite search.
 */
module Forest {
  import opened Types
  import opened IdLists

  /**
   * Every suite of `suites` and of their descendants in pre-order: a suite
   * comes before its child suites, and earlier siblings with their whole
   * subtrees come before later ones. This is the order in which the cascade
   * helpers and the suite search visit the tree.
   */
  function Flatten(suites: seq<TestSuite>): (r: seq<TestSuite>)
    ensures forall s :: s in suites ==> s in r
    decreases suites
  {
    if suites == [] then []
    else
      var rest := Flatten(suites[1..]);
      assert forall s :: s in suites ==> s == suites[0] || s in suites[1..];
      [suites[0]] + Flatten(suites[0].childSuites) + rest
  }

  /** The ids of a list of suites, in order. */
  function SuiteIds(xs: seq<TestSuite>): seq<Id> {
    seq(|xs|, k requires 0 <= k < |xs| => xs[k].id)
  }

  /** The ids of a list of cases, in order. */
  function CaseIds(cs: seq<TestCase>): seq<Id> {
    seq(|cs|, k requires 0 <= k < |cs| => cs[k].id)
  }

  /** The ids of the cases owned by the suites of `xs`, suite by suite. */
  function CaseIdsOfSuites(xs: seq<TestSuite>): seq<Id> {
    if xs == [] then [] else CaseIds(xs[0].testCases) + CaseIdsOfSuites(xs[1..])
  }

  /** Every suite id at any depth below (and including) `suites`, in pre-order. */
  function SubtreeSuiteIds(suites: seq<TestSuite>): seq<Id> {
    SuiteIds(Flatten(suites))
  }

  /** Every case id owned by a suite at any depth of `suites`, in pre-order. */
  function SubtreeCaseIds(suites: seq<TestSuite>): seq<Id> {
    CaseIdsOfSuites(Flatten(suites))
  }

  /** Every suite of every plan, plan by plan, each plan's suites in pre-order. */
  function ForestSuites(plans: seq<TestPlan>): seq<TestSuite> {
    if plans == [] then [] else Flatten(plans[0].testSuites) + ForestSuites(plans[1..])
  }

  lemma {:induction false} FlattenConcat(a: seq<TestSuite>, b: seq<TestSuite>)
    ensures Flatten(a + b) == Flatten(a) + Flatten(b)
    decreases |a|
  {
    if a != [] {
      assert (a + b)[0] == a[0] && (a + b)[1..] == a[1..] + b;
      FlattenConcat(a[1..], b);
    } else {
      assert a + b == b;
    }
  }

  lemma {:induction false} CaseIdsOfSuitesConcat(a: seq<TestSuite>, b: seq<TestSuite>)
    ensures CaseIdsOfSuites(a + b) == CaseIdsOfSuites(a) + CaseIdsOfSuites(b)
    decreases |a|
  {
    if a != [] {
      assert (a + b)[0] == a[0] && (a + b)[1..] == a[1..] + b;
      CaseIdsOfSuitesConcat(a[1..], b);
    } else {
      assert a + b == b;
    }
  }

  /** The subtree of a single suite: the suite itself, then its descendants. */
  lemma SubtreeOfOne(s: TestSuite)
    ensures SubtreeSuiteIds([s]) == [s.id] + SubtreeSuiteIds(s.childSuites)
    ensures SubtreeCaseIds([s]) == CaseIds(s.testCases) + SubtreeCaseIds(s.childSuites)
  {
    assert Flatten([s]) == [s] + Flatten(s.childSuites) + Flatten([]);
    assert Flatten([s]) == [s] + Flatten(s.childSuites);
    CaseIdsOfSuitesConcat([s], Flatten(s.childSuites));
    assert CaseIdsOfSuites([s]) == CaseIds(s.testCases) + CaseIdsOfSuites([]);
  }

  /** Extending a list of suites by one suite extends both id walks by its subtree. */
  lemma SubtreeSnoc(prefix: seq<TestSuite>, s: TestSuite)
    ensures SubtreeSuiteIds(prefix + [s]) == SubtreeSuiteIds(prefix) + [s.id] + SubtreeSuiteIds(s.childSuites)
    ensures SubtreeCaseIds(prefix + [s])
         == SubtreeCaseIds(prefix) + CaseIds(s.testCases) + SubtreeCaseIds(s.childSuites)
  {
    FlattenConcat(prefix, [s]);
    SubtreeOfOne(s);
    assert SubtreeSuiteIds(prefix + [s]) == SubtreeSuiteIds(prefix) + SubtreeSuiteIds([s]) by {
      SuiteIdsConcat(Flatten(prefix), Flatten([s]));
    }
    assert SubtreeCaseIds(prefix + [s]) == SubtreeCaseIds(prefix) + SubtreeCaseIds([s]) by {
      CaseIdsOfSuitesConcat(Flatten(prefix), Flatten([s]));
    }
  }

  lemma SuiteIdsConcat(a: seq<TestSuite>, b: seq<TestSuite>)
    ensures SuiteIds(a + b) == SuiteIds(a) + SuiteIds(b)
  {
  }

  /**
   * Linear search for the first suite with the given id: the reference
   * definition against which the tree searches are proved.
   */
  function FirstWithId(xs: seq<TestSuite>, id: Id): (r: Option<TestSuite>)
    ensures r.None? <==> id !in SuiteIds(xs)
    ensures r.Some? ==> r.value.id == id && r.value in xs
  {
    if xs == [] then None
    else
      assert SuiteIds(xs) == [xs[0].id] + SuiteIds(xs[1..]);
      if xs[0].id == id then Some(xs[0]) else FirstWithId(xs[1..], id)
  }

  /** The suite found is the earliest one carrying the id. */
  lemma {:induction false} FirstWithIdIsEarliest(xs: seq<TestSuite>, id: Id)
    requires FirstWithId(xs, id).Some?
    ensures exists k :: 0 <= k < |xs| && xs[k] == FirstWithId(xs, id).value && id !in SuiteIds(xs[..k])
  {
    if xs[0].id == id {
      assert xs[0] == FirstWithId(xs, id).value && id !in SuiteIds(xs[..0]);
    } else {
      FirstWithIdIsEarliest(xs[1..], id);
      var k :| 0 <= k < |xs[1..]| && xs[1..][k] == FirstWithId(xs[1..], id).value
        && id !in SuiteIds(xs[1..][..k]);
      assert SuiteIds(xs[..k + 1]) == [xs[0].id] + SuiteIds(xs[1..][..k]);
      assert xs[k + 1] == FirstWithId(xs, id).value;
    }
  }

  /** Searching a concatenation searches the second part only on a miss in the first. */
  lemma {:induction false} FirstWithIdConcat(a: seq<TestSuite>, b: seq<TestSuite>, id: Id)
    ensures FirstWithId(a + b, id) == if FirstWithId(a, id).Some? then FirstWithId(a, id) else FirstWithId(b, id)
    decreases |a|
  {
    if a == [] {
      assert a + b == b;
    } else {
      assert (a + b)[0] == a[0] && (a + b)[1..] == a[1..] + b;
      if a[0].id != id {
        FirstWithIdConcat(a[1..], b, id);
      }
    }
  }

  /**
   * `findTestSuiteRecursive`: returns the first suite, in pre-order, whose id
   * is `id`, or None when no suite of the subtree carries that id.
   */
  function FindTestSuiteRecursive(suites: seq<TestSuite>, id: Id): (r: Option<TestSuite>)
    ensures r == FirstWithId(Flatten(suites), id)
    decreases suites
  {
    if suites == [] then None
    else
      var suite := suites[0];
      FirstWithIdConcat([suite] + Flatten(suite.childSuites), Flatten(suites[1..]), id);
      FirstWithIdConcat([suite], Flatten(suite.childSuites), id);
      if suite.id == id then Some(suite)
      else
        match FindTestSuiteRecursive(suite.childSuites, id)
        case Some(found) => Some(found)
        case None => FindTestSuiteRecursive(suites[1..], id)
  }

  /**
   * `findTestSuite`: tries the plans in order and returns the first suite
   * found, so it is the linear search over all plans' suites in pre-order.
   */
  function FindTestSuite(plans: seq<TestPlan>, id: Id): (r: Option<TestSuite>)
    ensures r == FirstWithId(ForestSuites(plans), id)
  {
    if plans == [] then None
    else
      FirstWithIdConcat(Flatten(plans[0].testSuites), ForestSuites(plans[1..]), id);
      match FindTestSuiteRecursive(plans[0].testSuites, id)
      case Some(found) => Some(found)
      case None => FindTestSuite(plans[1..], id)
  }

  /** `testPlans.find(tp => tp.id === id)`: the first plan carrying the id. */
  function FindPlan(plans: seq<TestPlan>, id: Id): (r: Option<TestPlan>)
    ensures r.None? <==> forall k :: 0 <= k < |plans| ==> plans[k].id != id
    ensures r.Some? ==> r.value.id == id
    ensures r.Some? ==> exists k :: 0 <= k < |plans| && plans[k] == r.value && forall j :: 0 <= j < k ==> plans[j].id != id
  {
    if plans == [] then None
    else if plans[0].id == id then Some(plans[0])
    else
      var r := FindPlan(plans[1..], id);
      assert r.Some? ==> (exists k :: 1 <= k < |plans| && plans[k] == r.value && forall j :: 0 <= j < k ==> plans[j].id != id)
      by {
        if r.Some? {
          var k :| 0 <= k < |plans[1..]| && plans[1..][k] == r.value
            && forall j :: 0 <= j < k ==> plans[1..][j].id != id;
          assert plans[k + 1] == r.value;
          assert forall j :: 0 <= j < k + 1 ==> plans[j].id != id by {
            forall j | 0 <= j < k + 1 ensures plans[j].id != id {
              if j > 0 { assert plans[j] == plans[1..][j - 1]; }
            }
          }
        }
      }
      r
  }
}

/** Facts about which nodes the pre-order walk reaches. */
module ForestFacts {
  import opened Types
  import opened IdLists
  import opened Forest

  /**
   * The walk is closed under taking children, so it reaches every descendant
   * at any nesting depth.
   */
  lemma {:induction false} FlattenClosedUnderChildren(suites: seq<TestSuite>, s: TestSuite, child: TestSuite)
    requires s in Flatten(suites) && child in s.childSuites
    ensures child in Flatten(suites)
    decreases suites
  {
    var head := suites[0];
    if s == head {
    } else if s in Flatten(head.childSuites) {
      FlattenClosedUnderChildren(head.childSuites, s, child);
    } else {
      FlattenClosedUnderChildren(suites[1..], s, child);
    }
  }

  /** Every suite the walk reaches contributes its id. */
  lemma SuiteIdListed(xs: seq<TestSuite>, s: TestSuite)
    requires s in xs
    ensures s.id in SuiteIds(xs)
  {
    var k :| 0 <= k < |xs| && xs[k] == s;
    assert SuiteIds(xs)[k] == s.id;
  }

  /** Every case of every suite of `xs` contributes its id. */
  lemma {:induction false} CaseIdListed(xs: seq<TestSuite>, s: TestSuite, c: TestCase)
    requires s in xs && c in s.testCases
    ensures c.id in CaseIdsOfSuites(xs)
    decreases |xs|
  {
    if s == xs[0] {
      var k :| 0 <= k < |s.testCases| && s.testCases[k] == c;
      assert CaseIds(s.testCases)[k] == c.id;
    } else {
      CaseIdListed(xs[1..], s, c);
    }
  }

  /** Every suite reached by the walk, and every case it owns, has its id listed. */
  lemma SubtreeIdsListed(suites: seq<TestSuite>)
    ensures forall s :: s in Flatten(suites) ==> s.id in SubtreeSuiteIds(suites)
    ensures forall s, c :: s in Flatten(suites) && c in s.testCases ==> c.id in SubtreeCaseIds(suites)
  {
    forall s | s in Flatten(suites) ensures s.id in SubtreeSuiteIds(suites) {
      SuiteIdListed(Flatten(suites), s);
    }
    forall s, c | s in Flatten(suites) && c in s.testCases ensures c.id in SubtreeCaseIds(suites) {
      CaseIdListed(Flatten(suites), s, c);
    }
  }
}
