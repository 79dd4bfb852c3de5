/**
 * The demonstration forest (src/data/mockData.ts) reduced to what the
 * selection logic reads: ids, names, lifecycle states, priorities, nesting
 * and order. All other optional attributes are left as None: the plans'
 * descriptions and dates, the suites' descriptions, and the cases'
 * descriptions, preconditions, steps, expected results, variables, tags,
 * automation status, last execution and outcome.
 */
module MockData {
  import opened Types
  import opened Forest
  import opened IdLists
  import opened PlanTree
  import opened PlanTreeProperties

  function Case(id: string, name: string, priority: int): TestCase {
    TestCase(id, name, Active, priority, None, None, None, None, None, None, None, None, None)
  }

  function Suite(id: string, name: string, testCases: seq<TestCase>, childSuites: seq<TestSuite>): TestSuite {
    TestSuite(id, name, StaticTestSuite, testCases, childSuites, None)
  }

  const MobileUi := Suite("ts-3", "Mobile UI Tests", [Case("tc-6", "Responsive design validation", 2)], [])

  const UiTests := Suite("ts-2", "UI Tests",
    [Case("tc-4", "Navigation menu functionality", 2), Case("tc-5", "Form validation", 1)], [MobileUi])

  const Authentication := Suite("ts-1", "Authentication Tests",
    [Case("tc-1", "Login with valid credentials", 1), Case("tc-2", "Login with invalid credentials", 2),
     Case("tc-3", "Password reset functionality", 2)], [])

  const MockTestPlans := [
    TestPlan("tp-1", "Web Application Test Plan", Active, [Authentication, UiTests], None, None, None),
    TestPlan("tp-2", "API Test Plan", Active,
      [Suite("ts-4", "REST API Tests",
        [Case("tc-7", "GET endpoint validation", 1), Case("tc-8", "POST endpoint validation", 1),
         Case("tc-9", "Authentication headers", 2)], [])], None, None, None),
    TestPlan("tp-3", "Performance Test Plan", Inactive,
      [Suite("ts-5", "Load Tests", [Case("tc-10", "Concurrent user load test", 1)], [])], None, None, None)
  ]

  /** The search reaches the suite nested two levels down inside the first plan. */
  lemma FindsNestedSuite()
    ensures FindTestSuite(MockTestPlans, "ts-3") == Some(MobileUi)
  {
    var id := "ts-3";
    assert "ts-1" != id && "ts-2" != id;
    assert FindTestSuiteRecursive([MobileUi], id) == Some(MobileUi);
    assert FindTestSuiteRecursive([UiTests], id) == Some(MobileUi);
    assert FindTestSuiteRecursive(Authentication.childSuites, id) == None;
    assert [Authentication, UiTests][1..] == [UiTests];
    assert FindTestSuiteRecursive([Authentication, UiTests], id) == Some(MobileUi);
  }

  /** The pre-order walk of the first plan's suites. */
  lemma FirstPlanWalk()
    ensures Flatten([Authentication, UiTests]) == [Authentication, UiTests, MobileUi]
    ensures SubtreeSuiteIds([Authentication, UiTests]) == ["ts-1", "ts-2", "ts-3"]
    ensures SubtreeCaseIds([Authentication, UiTests]) == ["tc-1", "tc-2", "tc-3", "tc-4", "tc-5", "tc-6"]
  {
    assert Flatten([MobileUi]) == [MobileUi] + Flatten([]) + Flatten([]);
    assert Flatten([UiTests]) == [UiTests] + Flatten([MobileUi]) + Flatten([]);
    assert [Authentication, UiTests][1..] == [UiTests];
    assert Flatten([Authentication, UiTests]) == [Authentication] + Flatten([]) + Flatten([UiTests]);
    var walk := [Authentication, UiTests, MobileUi];
    assert walk[1..] == [UiTests, MobileUi] && walk[1..][1..] == [MobileUi];
    assert CaseIdsOfSuites([MobileUi]) == ["tc-6"] + CaseIdsOfSuites([]);
    assert CaseIdsOfSuites([UiTests, MobileUi]) == ["tc-4", "tc-5"] + CaseIdsOfSuites([MobileUi]);
    assert CaseIdsOfSuites(walk) == ["tc-1", "tc-2", "tc-3"] + CaseIdsOfSuites([UiTests, MobileUi]);
  }

  /** No id of the first plan's subtree occurs twice. */
  lemma FirstPlanIdsDistinct()
    ensures Distinct(["ts-1", "ts-2", "ts-3"])
    ensures Distinct(["tc-1", "tc-2", "tc-3", "tc-4", "tc-5", "tc-6"])
  {
  }

  /**
   * Checking the first plan from an empty selection selects its suites and
   * the nested one, and all six cases, in pre-order.
   */
  lemma SelectFirstPlan()
    ensures Toggle(EmptySelection, MockTestPlans, "tp-1", TestPlanNode) == AfterFirstPlan
  {
    assert FindPlan(MockTestPlans, "tp-1") == Some(MockTestPlans[0]);
    FirstPlanWalk();
    var suites: seq<Id> := ["ts-1", "ts-2", "ts-3"];
    var cases: seq<Id> := ["tc-1", "tc-2", "tc-3", "tc-4", "tc-5", "tc-6"];
    FirstPlanIdsDistinct();
    AddAllFresh([], suites);
    AddAllFresh([], cases);
  }

  /** The second suite of the first plan, as the search finds it, and its subtree. */
  lemma SecondSuiteWalk()
    ensures FindTestSuite(MockTestPlans, "ts-2") == Some(UiTests)
    ensures SubtreeSuiteIds([UiTests]) == ["ts-2", "ts-3"]
    ensures SubtreeCaseIds([UiTests]) == ["tc-4", "tc-5", "tc-6"]
  {
    var id := "ts-2";
    assert "ts-1" != id;
    assert FindTestSuiteRecursive([UiTests], id) == Some(UiTests);
    assert FindTestSuiteRecursive(Authentication.childSuites, id) == None;
    assert [Authentication, UiTests][1..] == [UiTests];
    assert Flatten([MobileUi]) == [MobileUi] + Flatten([]) + Flatten([]);
    assert Flatten([UiTests]) == [UiTests, MobileUi];
    assert [UiTests, MobileUi][1..] == [MobileUi];
    assert CaseIdsOfSuites([MobileUi]) == ["tc-6"] + CaseIdsOfSuites([]);
  }

  const AfterFirstPlan := SelectionState(["tp-1"], ["ts-1", "ts-2", "ts-3"], ["tc-1", "tc-2", "tc-3", "tc-4", "tc-5", "tc-6"])

  /** What is left of the suite list: `ts-2` is filtered out, then its subtree. */
  lemma SecondSuiteSuitesLeft()
    ensures RemoveAll(RemoveAll(AfterFirstPlan.selectedTestSuites, ["ts-2"]), SubtreeSuiteIds([UiTests])) == ["ts-1"]
  {
    var suites := AfterFirstPlan.selectedTestSuites;
    SecondSuiteWalk();
    FirstPlanIdsDistinct();
    assert suites[1..] == ["ts-2", "ts-3"] && suites[..1] == ["ts-1"];
    RemoveAllConcat(suites, ["ts-2"], suites[1..]);
    RemoveAllSameMembers(suites, ["ts-2"] + suites[1..], suites[1..]);
    RemoveAllPrefixKept(suites, 1);
  }

  /** What is left of the case list once the cases below `ts-2` are filtered out. */
  lemma SecondSuiteCasesLeft()
    ensures RemoveAll(AfterFirstPlan.selectedTestCases, SubtreeCaseIds([UiTests])) == ["tc-1", "tc-2", "tc-3"]
  {
    var cases := AfterFirstPlan.selectedTestCases;
    SecondSuiteWalk();
    FirstPlanIdsDistinct();
    assert cases[3..] == ["tc-4", "tc-5", "tc-6"] && cases[..3] == ["tc-1", "tc-2", "tc-3"];
    RemoveAllPrefixKept(cases, 3);
  }

  /**
   * Unchecking `ts-2` after checking the first plan drops it, its cases and
   * its child suite, but the plan stays checked: there is no upward
   * propagation.
   */
  lemma DeselectSuiteUnderSelectedPlan()
    ensures Toggle(AfterFirstPlan, MockTestPlans, "ts-2", TestSuiteNode) == SelectionState(["tp-1"], ["ts-1"], ["tc-1", "tc-2", "tc-3"])
  {
    SecondSuiteWalk();
    assert "ts-2" in AfterFirstPlan.selectedTestSuites;
    SecondSuiteSuitesLeft();
    SecondSuiteCasesLeft();
  }

  /**
   * Clicking a plan twice does not restore the selection when one of its
   * suites was checked beforehand: the second click unchecks that suite too.
   */
  lemma PlanClickTwiceForgetsEarlierChoices()
    ensures Toggle(Toggle(SelectionState([], ["ts-1"], []), MockTestPlans, "tp-1", TestPlanNode), MockTestPlans, "tp-1", TestPlanNode)
         != SelectionState([], ["ts-1"], [])
  {
    var before := SelectionState([], ["ts-1"], []);
    var once := Toggle(before, MockTestPlans, "tp-1", TestPlanNode);
    var plan := MockTestPlans[0];
    assert FindPlan(MockTestPlans, "tp-1") == Some(plan);
    SelectPlanCascades(before, MockTestPlans, "tp-1", plan);
    DeselectPlanCascades(once, MockTestPlans, "tp-1", plan);
    FirstPlanWalk();
    assert Authentication in Flatten(plan.testSuites);
  }
}
