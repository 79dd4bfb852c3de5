/**
 * The record updates the export-settings panel issues
 * (src/components/ExportSettings.tsx). The panel never keeps settings of its
 * own: every control builds a new record from the one it was given and hands
 * it to `onSettingsChange`. The markup itself is not modelled.
 */
module SettingsPanel {
  import opened Types
  import opened SettingsTypes

  /** `Partial<ExportSettings>`: the keys an update supplies. */
  datatype SettingsUpdate = SettingsUpdate(
    printDesign: Option<PrintDesign>,
    includeUnexecutedCases: Option<bool>,
    fieldsToInclude: Option<FieldsToInclude>,
    testOrder: Option<TestOrder>,
    groupBy: Option<GroupBy>)

  const NoUpdate := SettingsUpdate(None, None, None, None, None)

  function ValueOr<T>(supplied: Option<T>, current: T): T {
    match supplied
    case Some(v) => v
    case None => current
  }

  /**
   * `updateSettings`: `{ ...settings, ...updates }`. Each supplied key takes
   * the supplied value; each other key keeps the current one.
   */
  function UpdateSettings(settings: ExportSettings, updates: SettingsUpdate): (r: ExportSettings)
    ensures updates.printDesign.Some? ==> r.printDesign == updates.printDesign.value
    ensures updates.printDesign.None? ==> r.printDesign == settings.printDesign
    ensures updates.includeUnexecutedCases.Some? ==> r.includeUnexecutedCases == updates.includeUnexecutedCases.value
    ensures updates.includeUnexecutedCases.None? ==> r.includeUnexecutedCases == settings.includeUnexecutedCases
    ensures updates.fieldsToInclude.Some? ==> r.fieldsToInclude == updates.fieldsToInclude.value
    ensures updates.fieldsToInclude.None? ==> r.fieldsToInclude == settings.fieldsToInclude
    ensures updates.testOrder.Some? ==> r.testOrder == updates.testOrder.value
    ensures updates.testOrder.None? ==> r.testOrder == settings.testOrder
    ensures updates.groupBy.Some? ==> r.groupBy == updates.groupBy.value
    ensures updates.groupBy.None? ==> r.groupBy == settings.groupBy
  {
    ExportSettings(
      ValueOr(updates.printDesign, settings.printDesign),
      ValueOr(updates.includeUnexecutedCases, settings.includeUnexecutedCases),
      ValueOr(updates.fieldsToInclude, settings.fieldsToInclude),
      ValueOr(updates.testOrder, settings.testOrder),
      ValueOr(updates.groupBy, settings.groupBy))
  }

  /** An update that supplies no key gives the settings back. */
  lemma UpdateNothing(settings: ExportSettings)
    ensures UpdateSettings(settings, NoUpdate) == settings
  {
  }

  /** Applying the same update twice is applying it once. */
  lemma UpdateSettingsIdempotent(settings: ExportSettings, updates: SettingsUpdate)
    ensures UpdateSettings(UpdateSettings(settings, updates), updates) == UpdateSettings(settings, updates)
  {
  }

  /** `{ ...fields, [field]: value }` */
  function WithField(fields: FieldsToInclude, field: FieldName, value: bool): (r: FieldsToInclude)
    ensures r.Get(field) == value
  {
    FieldsToInclude(
      description := if field == DescriptionField then value else fields.description,
      preconditions := if field == PreconditionsField then value else fields.preconditions,
      steps := if field == StepsField then value else fields.steps,
      expectedResult := if field == ExpectedResultField then value else fields.expectedResult,
      variables := if field == VariablesField then value else fields.variables,
      tags := if field == TagsField then value else fields.tags,
      priority := if field == PriorityField then value else fields.priority,
      automationStatus := if field == AutomationStatusField then value else fields.automationStatus,
      lastExecuted := if field == LastExecutedField then value else fields.lastExecuted,
      outcome := if field == OutcomeField then value else fields.outcome)
  }

  /** Setting one flag leaves every other flag as it was. */
  lemma WithFieldKeepsOthers(fields: FieldsToInclude, field: FieldName, value: bool)
    ensures forall g :: g != field ==> WithField(fields, field, value).Get(g) == fields.Get(g)
  {
    forall g | g != field ensures WithField(fields, field, value).Get(g) == fields.Get(g) {
      match g {
        case DescriptionField =>
        case PreconditionsField =>
        case StepsField =>
        case ExpectedResultField =>
        case VariablesField =>
        case TagsField =>
        case PriorityField =>
        case AutomationStatusField =>
        case LastExecutedField =>
        case OutcomeField =>
      }
    }
  }

  /**
   * `updateFieldsToInclude`: sets the one flag and leaves the other nine
   * flags and the four other settings as they were.
   */
  function UpdateFieldsToInclude(settings: ExportSettings, field: FieldName, value: bool): (r: ExportSettings)
    ensures r.fieldsToInclude.Get(field) == value
    ensures forall g :: g != field ==> r.fieldsToInclude.Get(g) == settings.fieldsToInclude.Get(g)
    ensures r.printDesign == settings.printDesign
    ensures r.includeUnexecutedCases == settings.includeUnexecutedCases
    ensures r.testOrder == settings.testOrder && r.groupBy == settings.groupBy
  {
    WithFieldKeepsOthers(settings.fieldsToInclude, field, value);
    settings.(fieldsToInclude := WithField(settings.fieldsToInclude, field, value))
  }

  /** The field checkboxes are disabled while the design is `detailed`. */
  predicate FieldCheckboxesEnabled(settings: ExportSettings): (r: bool)
    ensures r <==> settings.printDesign in {Summary, Compact, Custom}
  {
    settings.printDesign != Detailed
  }

  /** One interaction with a control of the panel. */
  datatype PanelEdit =
    | ChooseDesign(design: PrintDesign)
    | SetIncludeUnexecuted(included: bool)
    | SetField(field: FieldName, value: bool)
    | ChooseOrder(order: TestOrder)
    | ChooseGrouping(grouping: GroupBy)

  /**
   * The record the panel hands to `onSettingsChange` for an interaction, or
   * None when the control is disabled and so issues nothing.
   */
  function Emitted(settings: ExportSettings, edit: PanelEdit): (r: Option<ExportSettings>)
    ensures r.None? <==> edit.SetField? && !FieldCheckboxesEnabled(settings)
    ensures r.Some? && edit.SetField? ==> r.value.fieldsToInclude.Get(edit.field) == edit.value
    ensures r.Some? && !edit.SetField? ==> r.value.fieldsToInclude == settings.fieldsToInclude
  {
    match edit
    case ChooseDesign(d) => Some(UpdateSettings(settings, NoUpdate.(printDesign := Some(d))))
    case SetIncludeUnexecuted(b) => Some(UpdateSettings(settings, NoUpdate.(includeUnexecutedCases := Some(b))))
    case SetField(f, v) =>
      if FieldCheckboxesEnabled(settings) then Some(UpdateFieldsToInclude(settings, f, v)) else None
    case ChooseOrder(o) => Some(UpdateSettings(settings, NoUpdate.(testOrder := Some(o))))
    case ChooseGrouping(g) => Some(UpdateSettings(settings, NoUpdate.(groupBy := Some(g))))
  }
}
