/**
 * The selection and expansion state of the tree component
 * (src/components/TestPlanTree.tsx, lines 1-158; the JSX rendering is not
 * modelled). `Toggle` states declaratively what one click does to the
 * selection; the class `TestPlanTree` performs it step by step as the
 * component does and is proved to agree with it.
 */
module PlanTree {
  import opened Types
  import opened IdLists
  import opened Forest

  /** The three node types a checkbox can belong to. */
  datatype NodeKind = TestPlanNode | TestSuiteNode | TestCaseNode

  /**
   * Selects every suite and case of the subtrees of `suites`: ids are only
   * appended, and the lists end up holding exactly the old ids and the
   * subtree's. Plans are not touched.
   */
  function SelectSubtree(sel: SelectionState, suites: seq<TestSuite>): (r: SelectionState)
    ensures r.selectedTestPlans == sel.selectedTestPlans
    ensures sel.selectedTestSuites <= r.selectedTestSuites && sel.selectedTestCases <= r.selectedTestCases
    ensures forall x :: x in r.selectedTestSuites <==> x in sel.selectedTestSuites || x in SubtreeSuiteIds(suites)
    ensures forall x :: x in r.selectedTestCases <==> x in sel.selectedTestCases || x in SubtreeCaseIds(suites)
  {
    sel.(selectedTestSuites := AddAll(sel.selectedTestSuites, SubtreeSuiteIds(suites)),
         selectedTestCases := AddAll(sel.selectedTestCases, SubtreeCaseIds(suites)))
  }

  /**
   * Deselects every suite and case of the subtrees of `suites`: the lists
   * keep exactly the old ids outside the subtree, in their old order. Plans
   * are not touched.
   */
  function DeselectSubtree(sel: SelectionState, suites: seq<TestSuite>): (r: SelectionState)
    ensures r.selectedTestPlans == sel.selectedTestPlans
    ensures IsSubsequence(r.selectedTestSuites, sel.selectedTestSuites)
    ensures IsSubsequence(r.selectedTestCases, sel.selectedTestCases)
    ensures forall x :: x in r.selectedTestSuites <==> x in sel.selectedTestSuites && x !in SubtreeSuiteIds(suites)
    ensures forall x :: x in r.selectedTestCases <==> x in sel.selectedTestCases && x !in SubtreeCaseIds(suites)
  {
    sel.(selectedTestSuites := RemoveAll(sel.selectedTestSuites, SubtreeSuiteIds(suites)),
         selectedTestCases := RemoveAll(sel.selectedTestCases, SubtreeCaseIds(suites)))
  }

  /**
   * One round of the cascade loop: pushing a suite's id, then its case ids,
   * then its subtree, after the subtrees of `prefix` extends the cascade to
   * `prefix + [suite]`.
   */
  lemma SelectSubtreeStep(selection: SelectionState, suites: seq<TestSuite>, i: nat)
    requires i < |suites|
    ensures
      var suite := suites[i];
      var before := SelectSubtree(selection, suites[..i]);
      var pushed := before.(selectedTestSuites := Push(before.selectedTestSuites, suite.id));
      var withCases := pushed.(selectedTestCases := AddAll(pushed.selectedTestCases, CaseIds(suite.testCases)));
      SelectSubtree(withCases, suite.childSuites) == SelectSubtree(selection, suites[..i + 1])
  {
    var prefix, suite := suites[..i], suites[i];
    assert suites[..i + 1] == prefix + [suite];
    SubtreeSnoc(prefix, suite);
    AddAllConcat(selection.selectedTestSuites, SubtreeSuiteIds(prefix), [suite.id]);
    AddAllConcat(selection.selectedTestSuites, SubtreeSuiteIds(prefix) + [suite.id], SubtreeSuiteIds(suite.childSuites));
    AddAllConcat(selection.selectedTestCases, SubtreeCaseIds(prefix), CaseIds(suite.testCases));
    AddAllConcat(selection.selectedTestCases, SubtreeCaseIds(prefix) + CaseIds(suite.testCases), SubtreeCaseIds(suite.childSuites));
  }

  /** Before the loop over a suite's cases nothing has been filtered out. */
  lemma DeselectCasesStart(xs: seq<Id>, testCases: seq<TestCase>)
    ensures RemoveAll(xs, CaseIds(testCases[..0])) == xs
  {
    assert CaseIds(testCases[..0]) == [];
    RemoveAllAbsent(xs, []);
  }

  /** One round of the loop over a suite's cases filters out one more case id. */
  lemma DeselectCasesStep(xs: seq<Id>, testCases: seq<TestCase>, i: nat)
    requires i < |testCases|
    ensures RemoveAll(RemoveAll(xs, CaseIds(testCases[..i])), [testCases[i].id]) == RemoveAll(xs, CaseIds(testCases[..i + 1]))
  {
    assert CaseIds(testCases[..i + 1]) == CaseIds(testCases[..i]) + [testCases[i].id];
    RemoveAllConcat(xs, CaseIds(testCases[..i]), [testCases[i].id]);
  }

  /** Deselecting the subtrees of no suites changes nothing. */
  lemma DeselectNothing(selection: SelectionState)
    ensures DeselectSubtree(selection, []) == selection
  {
    assert SubtreeSuiteIds([]) == [] && SubtreeCaseIds([]) == [];
    RemoveAllAbsent(selection.selectedTestSuites, []);
    RemoveAllAbsent(selection.selectedTestCases, []);
  }

  /** The same round for the deselecting cascade. */
  lemma DeselectSubtreeStep(selection: SelectionState, suites: seq<TestSuite>, i: nat)
    requires i < |suites|
    ensures
      var suite := suites[i];
      var before := DeselectSubtree(selection, suites[..i]);
      var filtered := before.(selectedTestSuites := RemoveAll(before.selectedTestSuites, [suite.id]));
      var withCases := filtered.(selectedTestCases := RemoveAll(filtered.selectedTestCases, CaseIds(suite.testCases)));
      DeselectSubtree(withCases, suite.childSuites) == DeselectSubtree(selection, suites[..i + 1])
  {
    var prefix, suite := suites[..i], suites[i];
    assert suites[..i + 1] == prefix + [suite];
    SubtreeSnoc(prefix, suite);
    RemoveAllConcat(selection.selectedTestSuites, SubtreeSuiteIds(prefix), [suite.id]);
    RemoveAllConcat(selection.selectedTestSuites, SubtreeSuiteIds(prefix) + [suite.id], SubtreeSuiteIds(suite.childSuites));
    RemoveAllConcat(selection.selectedTestCases, SubtreeCaseIds(prefix), CaseIds(suite.testCases));
    RemoveAllConcat(selection.selectedTestCases, SubtreeCaseIds(prefix) + CaseIds(suite.testCases), SubtreeCaseIds(suite.childSuites));
  }

  /** Whether `id` is in the list that holds nodes of `kind`. */
  function IsSelected(sel: SelectionState, id: Id, kind: NodeKind): bool {
    match kind
    case TestPlanNode => id in sel.selectedTestPlans
    case TestSuiteNode => id in sel.selectedTestSuites
    case TestCaseNode => id in sel.selectedTestCases
  }

  /**
   * The selection after clicking the checkbox of node `id` of type `kind`.
   * The node's own id is filtered out when it is selected and appended
   * otherwise. A plan (the first one with that id) or a suite (the first one
   * found by the depth-first search) then takes its whole subtree along in the
   * same direction; a case, or an id that is not in the forest, takes nothing.
   */
  function Toggle(sel: SelectionState, forest: seq<TestPlan>, id: Id, kind: NodeKind): (r: SelectionState)
    ensures IsSelected(r, id, kind) <==> !IsSelected(sel, id, kind)
  {
    match kind
    case TestPlanNode =>
      if id in sel.selectedTestPlans then
        var rest := sel.(selectedTestPlans := RemoveAll(sel.selectedTestPlans, [id]));
        (match FindPlan(forest, id)
        case None => rest
        case Some(plan) => DeselectSubtree(rest, plan.testSuites))
      else
        var more := sel.(selectedTestPlans := sel.selectedTestPlans + [id]);
        (match FindPlan(forest, id)
        case None => more
        case Some(plan) => SelectSubtree(more, plan.testSuites))
    case TestSuiteNode =>
      if id in sel.selectedTestSuites then
        var rest := sel.(selectedTestSuites := RemoveAll(sel.selectedTestSuites, [id]));
        (match FindTestSuite(forest, id)
        case None => rest
        case Some(suite) => DeselectSubtree(rest, [suite]))
      else
        var more := sel.(selectedTestSuites := sel.selectedTestSuites + [id]);
        (match FindTestSuite(forest, id)
        case None => more
        case Some(suite) => SelectSubtree(more, [suite]))
    case TestCaseNode =>
      if id in sel.selectedTestCases then
        sel.(selectedTestCases := RemoveAll(sel.selectedTestCases, [id]))
      else
        sel.(selectedTestCases := sel.selectedTestCases + [id])
  }

  /** The set after `toggleExpanded(id)`. */
  function Flipped(expanded: set<Id>, id: Id): (r: set<Id>)
    ensures id in r <==> id !in expanded
    ensures forall x :: x != id ==> (x in r <==> x in expanded)
  {
    if id in expanded then expanded - {id} else expanded + {id}
  }

  /** Expanding and collapsing the same node gives the set back. */
  lemma FlippedTwice(expanded: set<Id>, id: Id)
    ensures Flipped(Flipped(expanded, id), id) == expanded
  {
  }

  class TestPlanTree {
    /** The forest the component was given; it never changes. */
    const testPlans: seq<TestPlan>
    /** Ids of the nodes shown expanded. */
    var expandedNodes: set<Id>
    /** The current selection. */
    var selectedNodes: SelectionState

    constructor (testPlans: seq<TestPlan>)
      ensures this.testPlans == testPlans
      ensures expandedNodes == {} && selectedNodes == EmptySelection
    {
      this.testPlans := testPlans;
      expandedNodes := {};
      selectedNodes := EmptySelection;
    }

    /** `toggleExpanded`: flips whether `id` is expanded and nothing else. */
    method ToggleExpanded(id: Id)
      modifies this`expandedNodes
      ensures id in expandedNodes <==> id !in old(expandedNodes)
      ensures forall x :: x != id ==> (x in expandedNodes <==> x in old(expandedNodes))
      ensures expandedNodes == Flipped(old(expandedNodes), id)
    {
      var newExpanded := expandedNodes;
      if id in newExpanded {
        newExpanded := newExpanded - {id};
      } else {
        newExpanded := newExpanded + {id};
      }
      expandedNodes := newExpanded;
    }

    /** `handleSelect`: one checkbox click, with its cascade. */
    method HandleSelect(id: Id, kind: NodeKind)
      modifies this`selectedNodes
      ensures selectedNodes == Toggle(old(selectedNodes), testPlans, id, kind)
    {
      var newSelection := selectedNodes;
      match kind {
      case TestPlanNode =>
        if id in newSelection.selectedTestPlans {
          newSelection := newSelection.(selectedTestPlans := RemoveAll(newSelection.selectedTestPlans, [id]));
          var testPlan := FindPlan(testPlans, id);
          if testPlan.Some? {
            newSelection := DeselectChildSuites(testPlan.value.testSuites, newSelection);
          }
        } else {
          newSelection := newSelection.(selectedTestPlans := newSelection.selectedTestPlans + [id]);
          var testPlan := FindPlan(testPlans, id);
          if testPlan.Some? {
            newSelection := SelectChildSuites(testPlan.value.testSuites, newSelection);
          }
        }
      case TestSuiteNode =>
        if id in newSelection.selectedTestSuites {
          newSelection := newSelection.(selectedTestSuites := RemoveAll(newSelection.selectedTestSuites, [id]));
          ghost var rest := newSelection;
          ghost var original := selectedNodes;
          var suite := FindTestSuite(testPlans, id);
          if suite.Some? {
            var s := suite.value;
            assert s.id == id;
            newSelection := DeselectTestCases(s.testCases, newSelection);
            newSelection := DeselectChildSuites(s.childSuites, newSelection);
            SubtreeOfOne(s);
            RemoveAllConcat(rest.selectedTestCases, CaseIds(s.testCases), SubtreeCaseIds(s.childSuites));
            ghost var children := SubtreeSuiteIds(s.childSuites);
            RemoveAllConcat(original.selectedTestSuites, [id], children);
            RemoveAllConcat(original.selectedTestSuites, [id], [id] + children);
            RemoveAllSameMembers(original.selectedTestSuites, [id] + children, [id] + ([id] + children));
          }
        } else {
          newSelection := newSelection.(selectedTestSuites := newSelection.selectedTestSuites + [id]);
          ghost var more := newSelection;
          var suite := FindTestSuite(testPlans, id);
          if suite.Some? {
            var s := suite.value;
            newSelection := SelectTestCases(s.testCases, newSelection);
            newSelection := SelectChildSuites(s.childSuites, newSelection);
            SubtreeOfOne(s);
            AddAllConcat(more.selectedTestCases, CaseIds(s.testCases), SubtreeCaseIds(s.childSuites));
            AddAllConcat(more.selectedTestSuites, [id], SubtreeSuiteIds(s.childSuites));
            AddAllPresent(more.selectedTestSuites, [id]);
          }
        }
      case TestCaseNode =>
        if id in newSelection.selectedTestCases {
          newSelection := newSelection.(selectedTestCases := RemoveAll(newSelection.selectedTestCases, [id]));
        } else {
          newSelection := newSelection.(selectedTestCases := newSelection.selectedTestCases + [id]);
        }
      }
      selectedNodes := newSelection;
    }

    /**
     * The `forEach` over a suite's cases that pushes each case id not yet
     * selected: afterwards exactly the old cases and these are selected, old
     * ones first and in their old order.
     */
    static method SelectTestCases(testCases: seq<TestCase>, selection: SelectionState)
      returns (result: SelectionState)
      ensures result == selection.(selectedTestCases := AddAll(selection.selectedTestCases, CaseIds(testCases)))
    {
      result := selection;
      for i := 0 to |testCases|
        invariant result == selection.(selectedTestCases := AddAll(selection.selectedTestCases, CaseIds(testCases[..i])))
      {
        assert CaseIds(testCases[..i + 1]) == CaseIds(testCases[..i]) + [testCases[i].id];
        if testCases[i].id !in result.selectedTestCases {
          result := result.(selectedTestCases := result.selectedTestCases + [testCases[i].id]);
        }
      }
      assert testCases[..|testCases|] == testCases;
    }

    /** The `forEach` over a suite's cases that filters each case id out. */
    static method DeselectTestCases(testCases: seq<TestCase>, selection: SelectionState)
      returns (result: SelectionState)
      ensures result == selection.(selectedTestCases := RemoveAll(selection.selectedTestCases, CaseIds(testCases)))
    {
      result := selection;
      DeselectCasesStart(selection.selectedTestCases, testCases);
      for i := 0 to |testCases|
        invariant result == selection.(selectedTestCases := RemoveAll(selection.selectedTestCases, CaseIds(testCases[..i])))
      {
        result := result.(selectedTestCases := RemoveAll(result.selectedTestCases, [testCases[i].id]));
        DeselectCasesStep(selection.selectedTestCases, testCases, i);
      }
      assert testCases[..|testCases|] == testCases;
    }

    /**
     * `selectChildSuites`: pushes, suite by suite in pre-order, each suite id
     * and each case id of the subtrees not yet selected. Plan ids are not
     * touched.
     */
    static method SelectChildSuites(suites: seq<TestSuite>, selection: SelectionState)
      returns (result: SelectionState)
      ensures result == SelectSubtree(selection, suites)
      decreases suites
    {
      result := selection;
      for i := 0 to |suites|
        invariant result == SelectSubtree(selection, suites[..i])
      {
        var suite := suites[i];
        if suite.id !in result.selectedTestSuites {
          result := result.(selectedTestSuites := result.selectedTestSuites + [suite.id]);
        }
        result := SelectTestCases(suite.testCases, result);
        result := SelectChildSuites(suite.childSuites, result);
        SelectSubtreeStep(selection, suites, i);
      }
      assert suites[..|suites|] == suites;
    }

    /**
     * `deselectChildSuites`: filters out, suite by suite in pre-order, each
     * suite id and each case id of the subtrees. Plan ids are not touched.
     */
    static method DeselectChildSuites(suites: seq<TestSuite>, selection: SelectionState)
      returns (result: SelectionState)
      ensures result == DeselectSubtree(selection, suites)
      decreases suites
    {
      result := selection;
      DeselectNothing(selection);
      assert suites[..0] == [];
      for i := 0 to |suites|
        invariant result == DeselectSubtree(selection, suites[..i])
      {
        var suite := suites[i];
        result := result.(selectedTestSuites := RemoveAll(result.selectedTestSuites, [suite.id]));
        result := DeselectTestCases(suite.testCases, result);
        result := DeselectChildSuites(suite.childSuites, result);
        DeselectSubtreeStep(selection, suites, i);
      }
      assert suites[..|suites|] == suites;
    }
  }
}
