/** The configuration wizard: seven steps walked in order, a per-step
    validation record the steps report into, and the configuration the
    steps update by shallow merge. */
module Wizard {
  import opened Wrappers
  import opened JsonTree

  datatype StepInfo = StepInfo(id: string, title: string)

  /** A step as the step indicator shows it. */
  datatype WizardStep = WizardStep(id: string, title: string, isValid: bool, isCompleted: bool)

  const WizardSteps: seq<StepInfo> := [
    StepInfo("machine", "Machine"),
    StepInfo("mechanics", "Mechanics"),
    StepInfo("motors", "Motors"),
    StepInfo("homing", "Homing"),
    StepInfo("spindle", "Spindle"),
    StepInfo("io", "IO"),
    StepInfo("review", "Review")
  ]

  /** `stepValidation[id] === true`: an unset entry is not true. */
  predicate Validated(validation: map<string, bool>, id: string)
  {
    id in validation && validation[id]
  }

  /** `canAdvance()`: the current step exists and its entry is exactly true. */
  predicate CanAdvanceAt(index: int, validation: map<string, bool>)
  {
    0 <= index < |WizardSteps| && Validated(validation, WizardSteps[index].id)
  }

  /** The index after `handleNext()`. */
  function NextIndex(index: int, validation: map<string, bool>): (n: int)
    ensures n == index || n == index + 1
    ensures n == index + 1 <==> CanAdvanceAt(index, validation) && index < |WizardSteps| - 1
  {
    if CanAdvanceAt(index, validation) && index < |WizardSteps| - 1 then index + 1 else index
  }

  /** The index after `handleBack()`. */
  function BackIndex(index: int): (n: int)
    ensures index > 0 ==> n == index - 1
    ensures index <= 0 ==> n == index
  {
    if index > 0 then index - 1 else index
  }

  /** The `steps` projection: every step with its validity and whether it
      counts as completed. */
  function StepsView(index: int, validation: map<string, bool>): (r: seq<WizardStep>)
    ensures |r| == |WizardSteps|
    ensures forall i :: 0 <= i < |r| ==>
              r[i].id == WizardSteps[i].id && r[i].title == WizardSteps[i].title
              && (r[i].isValid <==> Validated(validation, WizardSteps[i].id))
              && (r[i].isCompleted <==> i < index || Validated(validation, WizardSteps[i].id))
  {
    seq(|WizardSteps|, i requires 0 <= i < |WizardSteps| =>
      var s := WizardSteps[i];
      WizardStep(s.id, s.title, Validated(validation, s.id), i < index || Validated(validation, s.id)))
  }

  /** `handleComplete()`: the configuration handed to the callback, if any. */
  function Completed(validation: map<string, bool>, config: seq<Field>): (r: Option<seq<Field>>)
    ensures r.Some? <==> Validated(validation, "review")
    ensures r.Some? ==> r.value == config
  {
    if Validated(validation, "review") then Some(config) else None
  }

  // ---------------------------------------------------------------------
  // Properties of the navigation

  /** The step index stays within the seven steps. */
  lemma IndexInRange(index: int, validation: map<string, bool>)
    requires 0 <= index < |WizardSteps|
    ensures 0 <= NextIndex(index, validation) < |WizardSteps|
    ensures 0 <= BackIndex(index) < |WizardSteps|
  {
  }

  /** Going back after a step forward returns to the step left. */
  lemma BackUndoesNext(index: int, validation: map<string, bool>)
    requires NextIndex(index, validation) != index
    ensures BackIndex(NextIndex(index, validation)) == index
  {
  }

  /** The last step never advances, and a step whose entry is unset or false
      blocks the way forward. */
  lemma NextBlocked(index: int, validation: map<string, bool>)
    requires 0 <= index < |WizardSteps|
    requires index == |WizardSteps| - 1 || !Validated(validation, WizardSteps[index].id)
    ensures NextIndex(index, validation) == index
  {
  }

  /** Recording the validity of another step does not change whether the
      current step can advance. */
  lemma OtherEntryKeepsAdvance(index: int, validation: map<string, bool>, id: string, ok: bool)
    requires 0 <= index < |WizardSteps| && id != WizardSteps[index].id
    ensures CanAdvanceAt(index, validation[id := ok]) <==> CanAdvanceAt(index, validation)
  {
  }

  /** Every step before the current one shows as completed, and the current
      and later ones only when validated. */
  lemma CompletedBefore(index: int, validation: map<string, bool>, i: nat)
    requires i < |WizardSteps|
    ensures i < index ==> StepsView(index, validation)[i].isCompleted
    ensures i >= index ==> (StepsView(index, validation)[i].isCompleted <==> StepsView(index, validation)[i].isValid)
  {
  }

  /** `updateConfig`: a key the update does not carry keeps its value, so an
      update cannot delete a key by leaving it out. */
  lemma {:induction false} UpdateKeepsOthers(config: seq<Field>, updates: seq<Field>, k: string)
    requires !HasKey(updates, k)
    ensures Lookup(Merge(config, updates), k) == Lookup(config, k)
    decreases |updates|
  {
    if updates != [] {
      assert Keys(updates)[0] == updates[0].key;
      assert !HasKey(updates[1..], k) by {
        forall j | 0 <= j < |updates| - 1 ensures Keys(updates[1..])[j] != k {
          assert Keys(updates[1..])[j] == updates[j + 1].key;
          assert Keys(updates)[j + 1] == updates[j + 1].key;
        }
      }
      LookupPut(config, updates[0].key, updates[0].val, k);
      UpdateKeepsOthers(Put(config, updates[0].key, updates[0].val), updates[1..], k);
    }
  }

  /** `updateConfig`: a key the update carries takes the update's value. */
  lemma UpdateReplaces(config: seq<Field>, updates: seq<Field>, k: string)
    requires DistinctKeys(updates) && HasKey(updates, k)
    ensures Lookup(Merge(config, updates), k) == Lookup(updates, k)
  {
    LookupMerge(config, updates, k);
  }

  // ---------------------------------------------------------------------
  // The component state

  class WizardState {
    var currentStepIndex: int
    var config: seq<Field>
    var stepValidation: map<string, bool>

    predicate Valid()
      reads this
    {
      0 <= currentStepIndex < |WizardSteps|
    }

    constructor()
      ensures Valid()
      ensures currentStepIndex == 0 && stepValidation == map[]
      ensures config == [Field("name", JStr("FluidNC Configuration")), Field("board", JStr(""))]
    {
      currentStepIndex := 0;
      config := [Field("name", JStr("FluidNC Configuration")), Field("board", JStr(""))];
      stepValidation := map[];
    }

    /** `updateStepValidation(stepId, isValid)`: only that entry changes. */
    method UpdateStepValidation(stepId: string, isValid: bool)
      requires Valid()
      modifies this
      ensures Valid()
      ensures stepValidation == old(stepValidation)[stepId := isValid]
      ensures currentStepIndex == old(currentStepIndex) && config == old(config)
    {
      stepValidation := stepValidation[stepId := isValid];
    }

    /** `updateConfig(updates)`: the update spread over the configuration. */
    method UpdateConfig(updates: seq<Field>)
      requires Valid()
      modifies this
      ensures Valid()
      ensures config == Merge(old(config), updates)
      ensures currentStepIndex == old(currentStepIndex) && stepValidation == old(stepValidation)
    {
      config := Merge(config, updates);
    }

    method HandleNext()
      requires Valid()
      modifies this
      ensures Valid()
      ensures currentStepIndex == NextIndex(old(currentStepIndex), old(stepValidation))
      ensures config == old(config) && stepValidation == old(stepValidation)
    {
      if CanAdvanceAt(currentStepIndex, stepValidation) && currentStepIndex < |WizardSteps| - 1 {
        currentStepIndex := currentStepIndex + 1;
      }
    }

    method HandleBack()
      requires Valid()
      modifies this
      ensures Valid()
      ensures currentStepIndex == BackIndex(old(currentStepIndex))
      ensures config == old(config) && stepValidation == old(stepValidation)
    {
      if currentStepIndex > 0 {
        currentStepIndex := currentStepIndex - 1;
      }
    }

    /** `handleComplete()`: the configuration passed to the callback when
      the review step is validated. */
    method HandleComplete() returns (completed: Option<seq<Field>>)
      ensures completed == Completed(stepValidation, config)
    {
      completed := None;
      if "review" in stepValidation && stepValidation["review"] {
        completed := Some(config);
      }
    }

    method Steps() returns (steps: seq<WizardStep>)
      ensures steps == StepsView(currentStepIndex, stepValidation)
    {
      steps := StepsView(currentStepIndex, stepValidation);
    }
  }
}
