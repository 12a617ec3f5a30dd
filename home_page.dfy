/**
 * The home page: a four-step wizard (landing, equipment, settings, results) holding the
 * selection, the configuration and the outcome of the last generation.
 */
module HomePage {
  import opened Wrappers
  import opened RoutineResults
  import RoutineGenerator
  import StepIndicator

  datatype AppStep = Landing | EquipmentStep | SettingsStep | ResultsStep

  /** The configuration the page keeps: frequency, split and goal. */
  datatype HomeConfig = HomeConfig(frequency: string, split: string, goal: string)

  const DefaultConfig := HomeConfig("3", "3", "hypertrophy")

  const StepLabels := ["기구 선택", "운동 설정", "결과"]

  const GenerationFailed := "AI 루틴 생성에 실패했습니다."

  /** How a generation ended: with a routine, or by throwing (an `Error` carries its message). */
  datatype GenerateOutcome = Generated(routine: RoutineData) | Thrown(message: Option<string>)

  /** `getStepNumber`: the step shown in the progress indicator, 0 on the landing page. */
  function StepNumber(step: AppStep): (n: nat)
    ensures n <= 3
    ensures n == 0 <==> step == Landing
  {
    match step
    case EquipmentStep => 1
    case SettingsStep => 2
    case ResultsStep => 3
    case Landing => 0
  }

  /** Different steps show different numbers. */
  lemma StepNumberInjective(a: AppStep, b: AppStep)
    ensures StepNumber(a) == StepNumber(b) ==> a == b
  {
  }

  /** On every wizard step the indicator shows the earlier steps completed and this step current. */
  lemma IndicatorFollowsStep(step: AppStep)
    requires step != Landing
    ensures var segments := StepIndicator.Segments(StepNumber(step), 3, StepLabels);
      && |segments| == 3
      && StepIndicator.CountCompleted(segments) == StepNumber(step) - 1
      && StepIndicator.CountFilled(segments) == StepNumber(step)
      && segments[StepNumber(step) - 1].current
  {
    StepIndicator.CompletedAndFilledCounts(StepNumber(step), 3, StepLabels);
  }

  /** The page's state, updated by its handlers. */
  class Home {
    var step: AppStep
    var selectedEquipment: seq<string>
    var workoutConfig: HomeConfig
    var routine: Option<RoutineData>
    var isLoading: bool
    var error: Option<string>

    /** While a generation runs, no routine and no error is shown. */
    predicate Valid()
      reads this
    {
      isLoading ==> routine == None && error == None
    }

    /** Landing, nothing selected, the default configuration, no routine, not loading, no error. */
    constructor()
      ensures Valid()
      ensures step == Landing && selectedEquipment == [] && workoutConfig == DefaultConfig
      ensures routine == None && !isLoading && error == None
    {
      step := Landing;
      selectedEquipment := [];
      workoutConfig := DefaultConfig;
      routine := None;
      isLoading := false;
      error := None;
    }

    /** The hero section's start button. */
    method Start()
      requires Valid()
      modifies this
      ensures Valid()
      ensures step == EquipmentStep
      ensures selectedEquipment == old(selectedEquipment) && workoutConfig == old(workoutConfig)
      ensures routine == old(routine) && isLoading == old(isLoading) && error == old(error)
    {
      step := EquipmentStep;
    }

    /** The equipment selector's `onSelectionChange`. */
    method ChangeSelection(selected: seq<string>)
      requires Valid()
      modifies this
      ensures Valid()
      ensures selectedEquipment == selected
      ensures step == old(step) && workoutConfig == old(workoutConfig)
      ensures routine == old(routine) && isLoading == old(isLoading) && error == old(error)
    {
      selectedEquipment := selected;
    }

    /** The equipment selector's next button. */
    method Next()
      requires Valid()
      modifies this
      ensures Valid()
      ensures step == SettingsStep
      ensures selectedEquipment == old(selectedEquipment) && workoutConfig == old(workoutConfig)
      ensures routine == old(routine) && isLoading == old(isLoading) && error == old(error)
    {
      step := SettingsStep;
    }

    /** The settings screen's back button. */
    method Back()
      requires Valid()
      modifies this
      ensures Valid()
      ensures step == EquipmentStep
      ensures selectedEquipment == old(selectedEquipment) && workoutConfig == old(workoutConfig)
      ensures routine == old(routine) && isLoading == old(isLoading) && error == old(error)
    {
      step := EquipmentStep;
    }

    /** The settings screen's `onConfigChange`. */
    method ChangeConfig(config: HomeConfig)
      requires Valid()
      modifies this
      ensures Valid()
      ensures workoutConfig == config
      ensures step == old(step) && selectedEquipment == old(selectedEquipment)
      ensures routine == old(routine) && isLoading == old(isLoading) && error == old(error)
    {
      workoutConfig := config;
    }

    /**
     * The first half of `handleGenerate`: show the results step loading, with no routine and
     * no error, and hand back the request built from the selection and the configuration.
     */
    method BeginGenerate() returns (request: RoutineGenerator.GenerateInput)
      requires Valid()
      modifies this
      ensures Valid()
      ensures step == ResultsStep && isLoading && routine == None && error == None
      ensures selectedEquipment == old(selectedEquipment) && workoutConfig == old(workoutConfig)
      ensures request == RoutineGenerator.GenerateInput(selectedEquipment, workoutConfig.frequency, workoutConfig.split, workoutConfig.goal)
    {
      step := ResultsStep;
      isLoading := true;
      routine := None;
      error := None;
      request := RoutineGenerator.GenerateInput(selectedEquipment, workoutConfig.frequency, workoutConfig.split, workoutConfig.goal);
    }

    /**
     * The second half of `handleGenerate`, once the request has settled: keep the routine,
     * or the error's message (a fixed one for a thrown non-`Error`); loading stops either way.
     */
    method FinishGenerate(outcome: GenerateOutcome)
      requires Valid()
      modifies this
      ensures Valid()
      ensures !isLoading
      ensures outcome.Generated? ==> routine == Some(outcome.routine) && error == old(error)
      ensures outcome.Thrown? ==> routine == old(routine) && error == Some(outcome.message.GetOr(GenerationFailed))
      ensures step == old(step) && selectedEquipment == old(selectedEquipment) && workoutConfig == old(workoutConfig)
    {
      match outcome {
        case Generated(result) =>
          routine := Some(result);
        case Thrown(message) =>
          error := Some(message.GetOr(GenerationFailed));
      }
      isLoading := false;
    }

    /** `handleReset`: back to the landing page with the defaults; the error and the loading flag stay. */
    method Reset()
      requires Valid()
      modifies this
      ensures Valid()
      ensures step == Landing && selectedEquipment == [] && workoutConfig == DefaultConfig && routine == None
      ensures error == old(error) && isLoading == old(isLoading)
    {
      step := Landing;
      selectedEquipment := [];
      workoutConfig := DefaultConfig;
      routine := None;
    }

    /** The step number the header and the indicator show. */
    function CurrentStepNumber(): (n: nat)
      reads this
      ensures n == StepNumber(step)
    {
      StepNumber(step)
    }
  }

  /** A generation that succeeds shows the results step with the routine and no error, and nothing loading. */
  method GenerateSucceeds(home: Home, result: RoutineData)
    requires home.Valid()
    modifies home
    ensures home.Valid()
    ensures home.step == ResultsStep && home.routine == Some(result) && home.error == None && !home.isLoading
  {
    var request := home.BeginGenerate();
    home.FinishGenerate(Generated(result));
  }

  /** A generation that fails shows the results step with the message and no routine. */
  method GenerateFails(home: Home, message: Option<string>)
    requires home.Valid()
    modifies home
    ensures home.Valid()
    ensures home.step == ResultsStep && home.routine == None && !home.isLoading
    ensures home.error == Some(message.GetOr(GenerationFailed))
  {
    var request := home.BeginGenerate();
    home.FinishGenerate(Thrown(message));
  }

  /** Walking from a fresh page to the settings step keeps the default configuration and the chosen equipment. */
  method WalkToSettings(selected: seq<string>) returns (home: Home)
    ensures home.Valid()
    ensures home.step == SettingsStep && home.selectedEquipment == selected && home.workoutConfig == DefaultConfig
    ensures home.routine == None && !home.isLoading && home.error == None
  {
    home := new Home();
    home.Start();
    home.ChangeSelection(selected);
    home.Next();
  }
}
