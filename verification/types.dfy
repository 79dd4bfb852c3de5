/**
 * The entities of the test-management tree and the selection over it
 * (src/types/index.ts). The unused `selected` / `expanded` flags on nodes are
 * not part of this model; an absent `childSuites` is the empty sequence.
 */
module Types {

  datatype Option<+T> = None | Some(value: T)

  datatype LifecycleState = Active | Inactive

  datatype AutomationStatus = Automated | NotAutomated | Planned

  datatype Outcome = Passed | Failed | Blocked | NotExecuted

  datatype TestCase = TestCase(
    id: string,
    name: string,
    state: LifecycleState,
    priority: int,
    description: Option<string>,
    preconditions: Option<string>,
    steps: Option<string>,
    expectedResult: Option<string>,
    variables: Option<seq<string>>,
    tags: Option<seq<string>>,
    automationStatus: Option<AutomationStatus>,
    lastExecuted: Option<string>,
    outcome: Option<Outcome>)

  datatype SuiteType = StaticTestSuite | DynamicTestSuite | RequirementTestSuite

  /** A suite owns its cases and, recursively, its child suites (in order). */
  datatype TestSuite = TestSuite(
    id: string,
    name: string,
    suiteType: SuiteType,
    testCases: seq<TestCase>,
    childSuites: seq<TestSuite>,
    description: Option<string>)

  datatype TestPlan = TestPlan(
    id: string,
    name: string,
    state: LifecycleState,
    testSuites: seq<TestSuite>,
    description: Option<string>,
    startDate: Option<string>,
    endDate: Option<string>)

  /** The three ordered id lists the tree component keeps. */
  datatype SelectionState = SelectionState(
    selectedTestPlans: seq<string>,
    selectedTestSuites: seq<string>,
    selectedTestCases: seq<string>)

  const EmptySelection := SelectionState([], [], [])
}

/** The export configuration record (src/types/index.ts, `ExportSettings`). */
module SettingsTypes {

  datatype PrintDesign = Detailed | Summary | Compact | Custom

  datatype TestOrder = OriginalOrder | AlphabeticalOrder | PriorityOrder | StatusOrder

  datatype GroupBy = NoGrouping | GroupBySuite | GroupByPriority | GroupByStatus

  /** The keys of `fieldsToInclude`. */
  datatype FieldName =
    | DescriptionField | PreconditionsField | StepsField | ExpectedResultField | VariablesField
    | TagsField | PriorityField | AutomationStatusField | LastExecutedField | OutcomeField

  /** The ten inclusion flags, one per optional attribute of a test case. */
  datatype FieldsToInclude = FieldsToInclude(
    description: bool,
    preconditions: bool,
    steps: bool,
    expectedResult: bool,
    variables: bool,
    tags: bool,
    priority: bool,
    automationStatus: bool,
    lastExecuted: bool,
    outcome: bool)
  {
    /** The flag stored under key `f`. */
    function Get(f: FieldName): bool {
      match f
      case DescriptionField => description
      case PreconditionsField => preconditions
      case StepsField => steps
      case ExpectedResultField => expectedResult
      case VariablesField => variables
      case TagsField => tags
      case PriorityField => priority
      case AutomationStatusField => automationStatus
      case LastExecutedField => lastExecuted
      case OutcomeField => outcome
    }
  }

  datatype ExportSettings = ExportSettings(
    printDesign: PrintDesign,
    includeUnexecutedCases: bool,
    fieldsToInclude: FieldsToInclude,
    testOrder: TestOrder,
    groupBy: GroupBy)
}
