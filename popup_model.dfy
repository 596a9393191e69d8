/** The records of the dynamic popup service: configurations, steps, actions,
    the instances kept in the registry, and the buttons of a step popup. */
module PopupModel {
  import opened Common
  import opened Placement

  datatype ActionKind = Close | Navigate | Filter | Highlight | Custom | Next | Previous

  datatype ActionStyle = Primary | Secondary | Danger

  /** A button: its label (`text`), what it does, and its style. */
  datatype PopupAction = PopupAction(text: string, action: ActionKind, style: ActionStyle)

  /** One step of a guided tour. `targetId` is `targetInfo?.ID`, the only
      part of `targetInfo` the service reads. */
  datatype PopupStep = PopupStep(target: string, title: string, message: string, targetId: Option<int>)

  datatype ContentKind = Text | Html | Component | ProductInfo | GuideStep

  /** The step indicator of a guide step: `step` of `total`. */
  datatype StepData = StepData(step: int, total: int)

  datatype PopupContent = PopupContent(kind: ContentKind, title: string, message: string, data: Option<StepData>)

  datatype PopupConfig = PopupConfig(
    id: string,
    target: string,
    content: PopupContent,
    position: Side,
    duration: Option<int>,
    actions: seq<PopupAction>,
    steps: Option<seq<PopupStep>>,
    currentStep: Option<int>)

  /** What the popup element shows: its content, its buttons, the offsets
      written into its style (None until it is first placed), and whether it
      has been revealed. */
  datatype PopupElement = PopupElement(
    content: PopupContent,
    actions: seq<PopupAction>,
    placement: Option<Point>,
    visible: bool)

  datatype PopupInstance = PopupInstance(
    id: string,
    config: PopupConfig,
    element: PopupElement,
    currentStep: Option<int>,
    totalSteps: Option<int>)

  const PreviousButton: PopupAction := PopupAction("Anterior", Previous, Secondary)
  const NextButton: PopupAction := PopupAction("Siguiente", Next, Primary)
  const FinishButton: PopupAction := PopupAction("Finalizar", Close, Primary)
  const CloseButton: PopupAction := PopupAction("Cerrar", Close, Secondary)

  /** The buttons of step `i` of `n`. */
  function StepActions(i: int, n: int): seq<PopupAction> {
    (if i > 0 then [PreviousButton] else [])
    + [if i < n - 1 then NextButton else FinishButton]
    + [CloseButton]
  }

  /** A step has a back button exactly when it is not the first, a forward
      button exactly when it is not the last (the last one finishes the tour
      by closing), and always ends with a close button. */
  lemma StepActionsShape(i: int, n: int)
    ensures var r := StepActions(i, n);
            && |r| == (if i > 0 then 3 else 2)
            && (r[0].action == Previous <==> i > 0)
            && r[|r| - 2] == (if i < n - 1 then NextButton else FinishButton)
            && r[|r| - 1] == CloseButton
            && (exists k :: 0 <= k < |r| && r[k].action == Next) == (i < n - 1)
            && forall k :: 0 <= k < |r| && r[k].action == Previous ==> k == 0
  {
    var r := StepActions(i, n);
    if i > 0 {
      assert r == [PreviousButton, if i < n - 1 then NextButton else FinishButton, CloseButton];
    } else {
      assert r == [if i < n - 1 then NextButton else FinishButton, CloseButton];
    }
  }

  /** `generateStepActions`, pushing the buttons one by one. */
  method GenerateStepActions(currentStep: int, totalSteps: int) returns (actions: seq<PopupAction>)
    ensures actions == StepActions(currentStep, totalSteps)
  {
    actions := [];
    if currentStep > 0 {
      actions := actions + [PreviousButton];
    }
    if currentStep < totalSteps - 1 {
      actions := actions + [NextButton];
    } else {
      actions := actions + [FinishButton];
    }
    actions := actions + [CloseButton];
  }
}
