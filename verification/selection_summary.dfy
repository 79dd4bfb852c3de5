/**
 * The export settings held by the selection summary and their normalisation
 * by print design (src/components/SelectionSummary.tsx, lines 1-94 and the
 * `disabled` rule of the export button; the count tiles are not modelled).
 */
module Summary {
  import opened Types
  import opened SettingsTypes
  import opened SettingsPanel

  const AllFields := FieldsToInclude(true, true, true, true, true, true, true, true, true, true)

  /** The flags each design forces; `custom` forces none. */
  function PresetFields(design: PrintDesign): (r: Option<FieldsToInclude>)
    ensures r.None? <==> design == Custom
    ensures design == Detailed ==> forall f :: r.value.Get(f)
    ensures design == Summary ==> forall f :: r.value.Get(f) <==>
      f in {DescriptionField, StepsField, ExpectedResultField, PriorityField, OutcomeField}
    ensures design == Compact ==> forall f :: r.value.Get(f) <==> f in {StepsField, PriorityField, OutcomeField}
  {
    match design
    case Detailed => Some(AllFields)
    case Summary =>
      Some(FieldsToInclude(description := true, preconditions := false, steps := true, expectedResult := true,
        variables := false, tags := false, priority := true, automationStatus := false, lastExecuted := false,
        outcome := true))
    case Compact =>
      Some(FieldsToInclude(description := false, preconditions := false, steps := true, expectedResult := false,
        variables := false, tags := false, priority := true, automationStatus := false, lastExecuted := false,
        outcome := true))
    case Custom => None
  }

  /** The settings the summary starts with. */
  function InitialExportSettings(): (r: ExportSettings)
    ensures r.printDesign == Detailed && r.includeUnexecutedCases
    ensures forall f :: r.fieldsToInclude.Get(f)
    ensures r.testOrder == OriginalOrder && r.groupBy == GroupBySuite
  {
    ExportSettings(Detailed, true, AllFields, OriginalOrder, GroupBySuite)
  }

  /** `hasSelection`: the export button is enabled exactly when something is selected. */
  function HasSelection(selection: SelectionState): (r: bool)
    ensures r <==> selection != EmptySelection
  {
    |selection.selectedTestPlans| > 0 || |selection.selectedTestSuites| > 0 || |selection.selectedTestCases| > 0
  }

  /**
   * The settings `handleSettingsChange` leaves in place: the incoming record
   * with its flags replaced by the design's preset, or unchanged under
   * `custom`.
   */
  function ApplyDesignPreset(newSettings: ExportSettings): (r: ExportSettings)
    ensures r.printDesign == newSettings.printDesign
    ensures r.includeUnexecutedCases == newSettings.includeUnexecutedCases
    ensures r.testOrder == newSettings.testOrder && r.groupBy == newSettings.groupBy
    ensures newSettings.printDesign == Custom ==> r == newSettings
    ensures newSettings.printDesign == Detailed ==> forall f :: r.fieldsToInclude.Get(f)
    ensures newSettings.printDesign == Summary ==> forall f :: r.fieldsToInclude.Get(f) <==>
      f in {DescriptionField, StepsField, ExpectedResultField, PriorityField, OutcomeField}
    ensures newSettings.printDesign == Compact ==> forall f :: r.fieldsToInclude.Get(f) <==>
      f in {StepsField, PriorityField, OutcomeField}
  {
    match PresetFields(newSettings.printDesign)
    case Some(fields) => newSettings.(fieldsToInclude := fields)
    case None => newSettings
  }

  /** A record the preset step leaves as it is. */
  predicate Normalised(settings: ExportSettings) {
    ApplyDesignPreset(settings) == settings
  }

  /** Normalising twice is normalising once. */
  lemma ApplyDesignPresetIdempotent(settings: ExportSettings)
    ensures Normalised(ApplyDesignPreset(settings))
  {
  }

  /** The initial settings already agree with the `detailed` preset. */
  lemma InitialSettingsNormalised()
    ensures Normalised(InitialExportSettings())
  {
  }

  /**
   * Under `summary` or `compact` (and `detailed`) a flag edit is overwritten
   * by the preset; only under `custom` does it persist.
   */
  lemma FlagEditPersistsOnlyUnderCustom(settings: ExportSettings, field: FieldName)
    ensures (forall v :: ApplyDesignPreset(UpdateFieldsToInclude(settings, field, v)).fieldsToInclude.Get(field) == v)
      <==> settings.printDesign == Custom
  {
    if settings.printDesign != Custom {
      var preset := PresetFields(settings.printDesign).value;
      var v := !preset.Get(field);
      assert ApplyDesignPreset(UpdateFieldsToInclude(settings, field, v)).fieldsToInclude == preset;
    }
  }

  /** Outside `custom`, normalising after a flag edit is normalising without it. */
  lemma FlagEditOverwritten(settings: ExportSettings, field: FieldName, value: bool)
    requires settings.printDesign != Custom
    ensures ApplyDesignPreset(UpdateFieldsToInclude(settings, field, value)) == ApplyDesignPreset(settings)
  {
  }

  /** Choosing `detailed` discards whatever flags were set before. */
  lemma ChoosingDetailedSetsAllFlags(settings: ExportSettings)
    ensures ApplyDesignPreset(UpdateSettings(settings, NoUpdate.(printDesign := Some(Detailed)))).fieldsToInclude == AllFields
  {
  }

  /**
   * One panel interaction followed by `handleSettingsChange`. Only choosing
   * a design changes the design, and a normalised record stays normalised.
   */
  function Step(settings: ExportSettings, edit: PanelEdit): (r: ExportSettings)
    ensures r.printDesign == if edit.ChooseDesign? then edit.design else settings.printDesign
    ensures Normalised(settings) ==> Normalised(r)
  {
    match Emitted(settings, edit)
    case Some(newSettings) => ApplyDesignPreset(newSettings)
    case None => settings
  }

  /**
   * A sequence of panel interactions, in order. The design ends as the last
   * one chosen, or as it was when none is chosen.
   */
  function Run(settings: ExportSettings, edits: seq<PanelEdit>): (r: ExportSettings)
    ensures (forall k :: 0 <= k < |edits| ==> !edits[k].ChooseDesign?) ==> r.printDesign == settings.printDesign
    ensures forall k ::
      (0 <= k < |edits| && edits[k].ChooseDesign? && forall j :: k < j < |edits| ==> !edits[j].ChooseDesign?)
      ==> r.printDesign == edits[k].design
    decreases |edits|
  {
    if edits == [] then settings
    else
      var rest := edits[1..];
      assert forall j :: 0 <= j < |rest| ==> rest[j] == edits[j + 1];
      Run(Step(settings, edits[0]), rest)
  }

  /**
   * Every state the summary can reach from its initial settings is
   * normalised: under `detailed` all ten flags are on, under `summary` and
   * `compact` the flags are exactly the preset.
   */
  lemma {:induction false} RunKeepsNormalised(settings: ExportSettings, edits: seq<PanelEdit>)
    requires Normalised(settings)
    ensures Normalised(Run(settings, edits))
    ensures Run(settings, edits).printDesign == Detailed ==> forall f :: Run(settings, edits).fieldsToInclude.Get(f)
    decreases |edits|
  {
    if edits != [] {
      ApplyDesignPresetIdempotent(settings);
      var next := Step(settings, edits[0]);
      match Emitted(settings, edits[0]) {
        case Some(n) => ApplyDesignPresetIdempotent(n);
        case None =>
      }
      RunKeepsNormalised(next, edits[1..]);
    } else {
      assert settings == ApplyDesignPreset(settings);
    }
  }

  class SelectionSummary {
    /** The settings handed to the export. */
    var exportSettings: ExportSettings

    constructor ()
      ensures exportSettings == InitialExportSettings()
    {
      exportSettings := InitialExportSettings();
    }

    /**
     * `handleSettingsChange`: stores the incoming record, then, unless the
     * design is `custom`, replaces it by one carrying the design's preset.
     */
    method HandleSettingsChange(newSettings: ExportSettings)
      modifies this
      ensures exportSettings == ApplyDesignPreset(newSettings)
    {
      exportSettings := newSettings;
      if newSettings.printDesign == Detailed {
        exportSettings := newSettings.(fieldsToInclude := PresetFields(Detailed).value);
      } else if newSettings.printDesign == Summary {
        exportSettings := newSettings.(fieldsToInclude := PresetFields(Summary).value);
      } else if newSettings.printDesign == Compact {
        exportSettings := newSettings.(fieldsToInclude := PresetFields(Compact).value);
      }
    }

    /** A panel interaction, routed through `onSettingsChange`. */
    method OnPanelEdit(edit: PanelEdit)
      modifies this
      ensures exportSettings == Step(old(exportSettings), edit)
    {
      var emitted := Emitted(exportSettings, edit);
      if emitted.Some? {
        HandleSettingsChange(emitted.value);
      }
    }
  }
}

/** How the tree's selection drives the summary's export button. */
module SummaryFacts {
  import opened Types
  import opened IdLists
  import opened PlanTree
  import opened PlanTreeProperties
  import opened Summary

  /** Checking any unchecked node, whatever its type, enables the export button. */
  lemma CheckingEnablesExport(sel: SelectionState, forest: seq<TestPlan>, id: Id, kind: NodeKind)
    requires !IsSelected(sel, id, kind)
    ensures HasSelection(Toggle(sel, forest, id, kind))
  {
  }
}
