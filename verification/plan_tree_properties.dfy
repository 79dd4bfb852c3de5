/**
 * What one click on a checkbox of the tree does to the selection
 * (src/components/TestPlanTree.tsx, `handleSelect` and its helpers), stated
 * about `Toggle`, which `TestPlanTree.HandleSelect` is proved to perform.
 */
module PlanTreeProperties {
  import opened Types
  import opened IdLists
  import opened Forest
  import opened ForestFacts
  import opened PlanTree

  /**
   * Selecting an unselected plan appends its id and selects every suite at
   * any depth below the first plan with that id, and every case those suites
   * own. Nothing else is added and what was selected stays selected.
   */
  lemma SelectPlanCascades(sel: SelectionState, forest: seq<TestPlan>, id: Id, plan: TestPlan)
    requires id !in sel.selectedTestPlans
    requires FindPlan(forest, id) == Some(plan)
    ensures Toggle(sel, forest, id, TestPlanNode).selectedTestPlans == sel.selectedTestPlans + [id]
    ensures forall s :: s in Flatten(plan.testSuites) ==> s.id in Toggle(sel, forest, id, TestPlanNode).selectedTestSuites
    ensures forall s, c :: s in Flatten(plan.testSuites) && c in s.testCases ==>
      c.id in Toggle(sel, forest, id, TestPlanNode).selectedTestCases
    ensures forall x :: x in Toggle(sel, forest, id, TestPlanNode).selectedTestSuites <==>
      x in sel.selectedTestSuites || x in SubtreeSuiteIds(plan.testSuites)
    ensures forall x :: x in Toggle(sel, forest, id, TestPlanNode).selectedTestCases <==>
      x in sel.selectedTestCases || x in SubtreeCaseIds(plan.testSuites)
  {
    SubtreeIdsListed(plan.testSuites);
  }

  /**
   * Deselecting a selected plan removes its id and every suite and case id
   * of the first plan with that id, at any depth; every other id keeps its
   * membership.
   */
  lemma DeselectPlanCascades(sel: SelectionState, forest: seq<TestPlan>, id: Id, plan: TestPlan)
    requires id in sel.selectedTestPlans
    requires FindPlan(forest, id) == Some(plan)
    ensures id !in Toggle(sel, forest, id, TestPlanNode).selectedTestPlans
    ensures forall x :: x != id ==>
      (x in Toggle(sel, forest, id, TestPlanNode).selectedTestPlans <==> x in sel.selectedTestPlans)
    ensures forall s :: s in Flatten(plan.testSuites) ==> s.id !in Toggle(sel, forest, id, TestPlanNode).selectedTestSuites
    ensures forall s, c :: s in Flatten(plan.testSuites) && c in s.testCases ==>
      c.id !in Toggle(sel, forest, id, TestPlanNode).selectedTestCases
    ensures forall x :: x in Toggle(sel, forest, id, TestPlanNode).selectedTestSuites <==>
      x in sel.selectedTestSuites && x !in SubtreeSuiteIds(plan.testSuites)
    ensures forall x :: x in Toggle(sel, forest, id, TestPlanNode).selectedTestCases <==>
      x in sel.selectedTestCases && x !in SubtreeCaseIds(plan.testSuites)
  {
    SubtreeIdsListed(plan.testSuites);
  }

  /** A suite click never changes which plans are selected. */
  lemma ToggleSuiteKeepsPlans(sel: SelectionState, forest: seq<TestPlan>, id: Id)
    ensures Toggle(sel, forest, id, TestSuiteNode).selectedTestPlans == sel.selectedTestPlans
  {
  }

  /**
   * Selecting an unselected suite selects it, every suite nested below it at
   * any depth, its own cases and theirs. Plans are untouched and every other
   * suite or case keeps its membership.
   */
  lemma SelectSuiteCascades(sel: SelectionState, forest: seq<TestPlan>, id: Id, suite: TestSuite)
    requires id !in sel.selectedTestSuites
    requires FindTestSuite(forest, id) == Some(suite)
    ensures Toggle(sel, forest, id, TestSuiteNode).selectedTestPlans == sel.selectedTestPlans
    ensures forall s :: s in Flatten([suite]) ==> s.id in Toggle(sel, forest, id, TestSuiteNode).selectedTestSuites
    ensures forall s, c :: s in Flatten([suite]) && c in s.testCases ==>
      c.id in Toggle(sel, forest, id, TestSuiteNode).selectedTestCases
    ensures forall x :: x in Toggle(sel, forest, id, TestSuiteNode).selectedTestSuites <==>
      x in sel.selectedTestSuites || x in SubtreeSuiteIds([suite])
    ensures forall x :: x in Toggle(sel, forest, id, TestSuiteNode).selectedTestCases <==>
      x in sel.selectedTestCases || x in SubtreeCaseIds([suite])
  {
    SubtreeIdsListed([suite]);
  }

  /**
   * Deselecting a selected suite deselects it, every suite nested below it
   * and all their cases. Plans, ancestors and siblings keep their membership.
   */
  lemma DeselectSuiteCascades(sel: SelectionState, forest: seq<TestPlan>, id: Id, suite: TestSuite)
    requires id in sel.selectedTestSuites
    requires FindTestSuite(forest, id) == Some(suite)
    ensures Toggle(sel, forest, id, TestSuiteNode).selectedTestPlans == sel.selectedTestPlans
    ensures forall s :: s in Flatten([suite]) ==> s.id !in Toggle(sel, forest, id, TestSuiteNode).selectedTestSuites
    ensures forall s, c :: s in Flatten([suite]) && c in s.testCases ==>
      c.id !in Toggle(sel, forest, id, TestSuiteNode).selectedTestCases
    ensures forall x :: x in Toggle(sel, forest, id, TestSuiteNode).selectedTestSuites <==>
      x in sel.selectedTestSuites && x !in SubtreeSuiteIds([suite])
    ensures forall x :: x in Toggle(sel, forest, id, TestSuiteNode).selectedTestCases <==>
      x in sel.selectedTestCases && x !in SubtreeCaseIds([suite])
  {
    SubtreeIdsListed([suite]);
    SubtreeOfOne(suite);
  }

  /** A case click changes the case list only, and there only the case itself. */
  lemma ToggleCaseIsLocal(sel: SelectionState, forest: seq<TestPlan>, id: Id)
    ensures Toggle(sel, forest, id, TestCaseNode).selectedTestPlans == sel.selectedTestPlans
    ensures Toggle(sel, forest, id, TestCaseNode).selectedTestSuites == sel.selectedTestSuites
    ensures id in Toggle(sel, forest, id, TestCaseNode).selectedTestCases <==> id !in sel.selectedTestCases
    ensures forall x :: x != id ==>
      (x in Toggle(sel, forest, id, TestCaseNode).selectedTestCases <==> x in sel.selectedTestCases)
  {
  }

  /**
   * Clicking the same case twice restores the set of selected cases. It
   * restores the selection exactly, order included, when the case was not
   * selected, or when it was selected once and at the end of the case list
   * (the second click appends it again).
   */
  lemma ToggleCaseTwice(sel: SelectionState, forest: seq<TestPlan>, id: Id)
    ensures Toggle(Toggle(sel, forest, id, TestCaseNode), forest, id, TestCaseNode).selectedTestPlans == sel.selectedTestPlans
    ensures Toggle(Toggle(sel, forest, id, TestCaseNode), forest, id, TestCaseNode).selectedTestSuites == sel.selectedTestSuites
    ensures forall x ::
      (x in Toggle(Toggle(sel, forest, id, TestCaseNode), forest, id, TestCaseNode).selectedTestCases <==> x in sel.selectedTestCases)
    ensures id !in sel.selectedTestCases ==> Toggle(Toggle(sel, forest, id, TestCaseNode), forest, id, TestCaseNode) == sel
    ensures Toggle(Toggle(sel, forest, id, TestCaseNode), forest, id, TestCaseNode) == sel <==>
      id !in sel.selectedTestCases || sel.selectedTestCases == RemoveAll(sel.selectedTestCases, [id]) + [id]
  {
    if id !in sel.selectedTestCases {
      RemoveAllOfAppended(sel.selectedTestCases, id);
    } else {
      assert id !in RemoveAll(sel.selectedTestCases, [id]);
    }
  }

  /**
   * Checking an unchecked plan and then unchecking it restores the selection
   * exactly when none of the plan's suites and cases was checked before;
   * otherwise the second click also unchecks those.
   */
  lemma PlanClickTwice(sel: SelectionState, forest: seq<TestPlan>, id: Id, plan: TestPlan)
    requires id !in sel.selectedTestPlans
    requires FindPlan(forest, id) == Some(plan)
    ensures Toggle(Toggle(sel, forest, id, TestPlanNode), forest, id, TestPlanNode) == sel <==>
      && (forall x :: x in SubtreeSuiteIds(plan.testSuites) ==> x !in sel.selectedTestSuites)
      && (forall x :: x in SubtreeCaseIds(plan.testSuites) ==> x !in sel.selectedTestCases)
  {
    var suiteIds, caseIds := SubtreeSuiteIds(plan.testSuites), SubtreeCaseIds(plan.testSuites);
    var once := Toggle(sel, forest, id, TestPlanNode);
    assert once == SelectSubtree(sel.(selectedTestPlans := sel.selectedTestPlans + [id]), plan.testSuites);
    var twice := Toggle(once, forest, id, TestPlanNode);
    assert twice == DeselectSubtree(once.(selectedTestPlans := RemoveAll(once.selectedTestPlans, [id])), plan.testSuites);
    if (forall x :: x in suiteIds ==> x !in sel.selectedTestSuites) && (forall x :: x in caseIds ==> x !in sel.selectedTestCases) {
      RemoveAllOfAppended(sel.selectedTestPlans, id);
      RemoveAllOfAddAll(sel.selectedTestSuites, suiteIds, suiteIds);
      RemoveAllAbsent(sel.selectedTestSuites, suiteIds);
      RemoveAllOfAddAll(sel.selectedTestCases, caseIds, caseIds);
      RemoveAllAbsent(sel.selectedTestCases, caseIds);
    }
  }

  /**
   * Checking an unchecked suite and then unchecking it restores the
   * selection exactly when neither the suite nor anything below it was
   * checked before.
   */
  lemma SuiteClickTwice(sel: SelectionState, forest: seq<TestPlan>, id: Id, suite: TestSuite)
    requires id !in sel.selectedTestSuites
    requires FindTestSuite(forest, id) == Some(suite)
    ensures Toggle(Toggle(sel, forest, id, TestSuiteNode), forest, id, TestSuiteNode) == sel <==>
      && (forall x :: x in SubtreeSuiteIds([suite]) ==> x !in sel.selectedTestSuites)
      && (forall x :: x in SubtreeCaseIds([suite]) ==> x !in sel.selectedTestCases)
  {
    var suiteIds, caseIds := SubtreeSuiteIds([suite]), SubtreeCaseIds([suite]);
    var more := sel.selectedTestSuites + [id];
    var once := Toggle(sel, forest, id, TestSuiteNode);
    assert once == SelectSubtree(sel.(selectedTestSuites := more), [suite]);
    var twice := Toggle(once, forest, id, TestSuiteNode);
    assert twice == DeselectSubtree(once.(selectedTestSuites := RemoveAll(once.selectedTestSuites, [id])), [suite]);
    if (forall x :: x in suiteIds ==> x !in sel.selectedTestSuites) && (forall x :: x in caseIds ==> x !in sel.selectedTestCases) {
      RemoveAllConcat(once.selectedTestSuites, [id], suiteIds);
      RemoveAllOfAddAll(more, suiteIds, [id] + suiteIds);
      RemoveAllOfSnoc(sel.selectedTestSuites, id, [id] + suiteIds);
      RemoveAllAbsent(sel.selectedTestSuites, [id] + suiteIds);
      RemoveAllOfAddAll(sel.selectedTestCases, caseIds, caseIds);
      RemoveAllAbsent(sel.selectedTestCases, caseIds);
    }
  }

  /** Filtering out an id just appended to a list that lacked it gives the list back. */
  lemma {:induction false} RemoveAllOfAppended(xs: seq<Id>, id: Id)
    requires id !in xs
    ensures RemoveAll(xs + [id], [id]) == xs
    decreases |xs|
  {
    if xs == [] {
      assert RemoveAll([id], [id]) == RemoveAll([], [id]);
    } else {
      assert (xs + [id])[0] == xs[0] && (xs + [id])[1..] == xs[1..] + [id];
      RemoveAllOfAppended(xs[1..], id);
      assert [xs[0]] + xs[1..] == xs;
    }
  }

  /**
   * An id that no plan carries, clicked as a plan, flips only its own
   * membership; an id that no suite carries, clicked as a suite, likewise.
   */
  lemma ToggleUnknownCascadesNothing(sel: SelectionState, forest: seq<TestPlan>, id: Id, kind: NodeKind)
    requires kind == TestPlanNode ==> forall k :: 0 <= k < |forest| ==> forest[k].id != id
    requires kind == TestSuiteNode ==> id !in SuiteIds(ForestSuites(forest))
    ensures kind != TestPlanNode ==> Toggle(sel, forest, id, kind).selectedTestPlans == sel.selectedTestPlans
    ensures kind != TestSuiteNode ==> Toggle(sel, forest, id, kind).selectedTestSuites == sel.selectedTestSuites
    ensures kind != TestCaseNode ==> Toggle(sel, forest, id, kind).selectedTestCases == sel.selectedTestCases
    ensures IsSelected(Toggle(sel, forest, id, kind), id, kind) <==> !IsSelected(sel, id, kind)
    ensures forall x :: x != id ==> (IsSelected(Toggle(sel, forest, id, kind), x, kind) <==> IsSelected(sel, x, kind))
  {
  }

  /** Lists without duplicates stay without duplicates. */
  lemma ToggleKeepsDistinct(sel: SelectionState, forest: seq<TestPlan>, id: Id, kind: NodeKind)
    requires Distinct(sel.selectedTestPlans) && Distinct(sel.selectedTestSuites) && Distinct(sel.selectedTestCases)
    ensures Distinct(Toggle(sel, forest, id, kind).selectedTestPlans)
    ensures Distinct(Toggle(sel, forest, id, kind).selectedTestSuites)
    ensures Distinct(Toggle(sel, forest, id, kind).selectedTestCases)
  {
    if id !in sel.selectedTestPlans {
      AppendFreshKeepsDistinct(sel.selectedTestPlans, id);
    }
    if id !in sel.selectedTestSuites {
      AppendFreshKeepsDistinct(sel.selectedTestSuites, id);
    }
    if id !in sel.selectedTestCases {
      AppendFreshKeepsDistinct(sel.selectedTestCases, id);
    }
  }

  lemma AppendFreshKeepsDistinct(xs: seq<Id>, id: Id)
    requires Distinct(xs) && id !in xs
    ensures Distinct(xs + [id])
  {
    assert forall i :: 0 <= i < |xs| ==> (xs + [id])[i] == xs[i] && xs[i] != id;
  }

  /**
   * Ids that stay keep their relative order: a click that deselects leaves
   * every list a subsequence of what it was, a click that selects only
   * appends to each list.
   */
  lemma ToggleKeepsOrder(sel: SelectionState, forest: seq<TestPlan>, id: Id, kind: NodeKind)
    ensures IsSelected(sel, id, kind) ==>
      && IsSubsequence(Toggle(sel, forest, id, kind).selectedTestPlans, sel.selectedTestPlans)
      && IsSubsequence(Toggle(sel, forest, id, kind).selectedTestSuites, sel.selectedTestSuites)
      && IsSubsequence(Toggle(sel, forest, id, kind).selectedTestCases, sel.selectedTestCases)
    ensures !IsSelected(sel, id, kind) ==>
      && sel.selectedTestPlans <= Toggle(sel, forest, id, kind).selectedTestPlans
      && sel.selectedTestSuites <= Toggle(sel, forest, id, kind).selectedTestSuites
      && sel.selectedTestCases <= Toggle(sel, forest, id, kind).selectedTestCases
  {
    PrefixIsSubsequence(sel.selectedTestPlans, sel.selectedTestPlans);
    PrefixIsSubsequence(sel.selectedTestSuites, sel.selectedTestSuites);
    PrefixIsSubsequence(sel.selectedTestCases, sel.selectedTestCases);
    var r := Toggle(sel, forest, id, kind);
    if IsSelected(sel, id, kind) && kind == TestSuiteNode {
      var rest := RemoveAll(sel.selectedTestSuites, [id]);
      match FindTestSuite(forest, id)
      case None =>
      case Some(suite) =>
        SubsequenceTransitive(RemoveAll(rest, SubtreeSuiteIds([suite])), rest, sel.selectedTestSuites);
    }
  }

  /** Deleting from a subsequence gives a subsequence. */
  lemma {:induction false} SubsequenceTransitive(a: seq<Id>, b: seq<Id>, c: seq<Id>)
    requires IsSubsequence(a, b) && IsSubsequence(b, c)
    ensures IsSubsequence(a, c)
    decreases |c|, |b|
  {
    if c == [] {
    } else if b != [] && b[0] == c[0] && IsSubsequence(b[1..], c[1..]) {
      if a != [] && a[0] == b[0] && IsSubsequence(a[1..], b[1..]) {
        SubsequenceTransitive(a[1..], b[1..], c[1..]);
      } else {
        SubsequenceTransitive(a, b[1..], c[1..]);
      }
    } else {
      SubsequenceTransitive(a, b, c[1..]);
    }
  }
}
