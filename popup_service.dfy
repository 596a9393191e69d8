/** The dynamic popup service: a registry of open popups keyed by id, the
    step sequencer that walks a guided tour, and the dispatch that turns an
    assistant response into a popup. The page is the abstract `Page` of the
    selector resolver; every measurement the browser would make arrives as a
    `Layout`; every `setTimeout` callback is an explicit method that the
    environment calls when its delay has elapsed. */
module PopupService {
  import opened Common
  import opened Placement
  import opened PopupModel
  import opened SelectorResolver

  /** What the browser reports when the service measures: the target's
      bounding rectangle, the popup's size, and the viewport. */
  datatype Layout = Layout(target: Rect, popupWidth: real, popupHeight: real, viewport: Viewport)

  /** A callback handed to `setTimeout`, with the popup it concerns. */
  datatype Timer =
    | AutoClose(id: string, delay: int)   // closes the popup after `duration`
    | RevealAfterScroll(id: string)       // 300ms after scrolling: place and reveal
    | PlacementCheck(id: string)          // 100ms after that: place again if too close
    | StepRescroll(id: string, side: Side) // 100ms after a step change: scroll and place

  predicate TargetInView(l: Layout) {
    IsElementInViewport(l.target, l.viewport)
  }

  /** The element with the offsets `positionPopup` writes for this layout. */
  function PlaceAt(e: PopupElement, side: Side, l: Layout): PopupElement {
    e.(placement := Some(Placed(side, l.target, l.popupWidth, l.popupHeight, l.viewport)))
  }

  /** The element `createPopupElement` builds: hidden and not yet placed, with
      an actions container exactly when the configuration lists actions. */
  function NewElement(config: PopupConfig): PopupElement {
    PopupElement(config.content, config.actions, None, false)
  }

  /** The element right after `scrollToTargetAndPositionPopup` returns: placed
      and revealed at once when the target is in view, untouched otherwise. */
  function AfterScrollCall(e: PopupElement, side: Side, l: Layout): PopupElement {
    if TargetInView(l) then PlaceAt(e, side, l).(visible := true) else e
  }

  /** The `window.scrollTo` requests of one `scrollToTargetAndPositionPopup`
      call: none when the target is in view or the aim is within 10px. */
  function ScrollRequests(side: Side, l: Layout): seq<real> {
    var t := ScrollTarget(side, l.target, l.viewport);
    if TargetInView(l) || !ScrollIsSignificant(t, l.viewport) then [] else [t]
  }

  /** The timer one `scrollToTargetAndPositionPopup` call leaves pending. */
  function RevealTimers(id: string, l: Layout): seq<Timer> {
    if TargetInView(l) then [] else [RevealAfterScroll(id)]
  }

  /** The auto-close timer: only for a truthy `duration`. */
  function AutoCloseTimers(config: PopupConfig): seq<Timer> {
    if NumTruthy(config.duration) then [AutoClose(config.id, config.duration.value)] else []
  }

  /** The instance `createPopup` registers. */
  function NewInstance(config: PopupConfig, l: Layout): PopupInstance {
    PopupInstance(config.id, config, AfterScrollCall(NewElement(config), config.position, l), None, None)
  }

  /** A step index and step count that agree with the configuration. */
  predicate StepsInRange(inst: PopupInstance) {
    && (inst.currentStep.Some? ==>
          && inst.config.steps.Some?
          && 0 <= inst.currentStep.value < |inst.config.steps.value|
          && inst.config.currentStep == inst.currentStep)
    && (inst.totalSteps.Some? ==>
          inst.config.steps.Some? && inst.totalSteps.value == |inst.config.steps.value|)
  }

  /** Every entry is filed under its own id, and every step popup's index is
      a valid position in its step list. */
  predicate Consistent(m: map<string, PopupInstance>) {
    forall id :: id in m ==> m[id].id == id && m[id].config.id == id && StepsInRange(m[id])
  }

  /** The selector a step resolves to. */
  function StepSelector(step: PopupStep, page: Page): string {
    SpecificSelector(step.target, step.targetId, page)
  }

  /** `goToStep` gets past its three early returns. */
  predicate CanGoTo(m: map<string, PopupInstance>, id: string, idx: int, page: Page) {
    && id in m
    && m[id].config.steps.Some?
    && 0 <= idx < |m[id].config.steps.value|
    && Matches(page, StepSelector(m[id].config.steps.value[idx], page))
  }

  /** The instance after `goToStep(idx)`: the content shows the step's title
      and message with `idx + 1` of `n`; an existing actions container gets the
      buttons of step `idx`; the popup is placed for the new target; both step
      fields record `idx`. */
  function StepShown(inst: PopupInstance, idx: int, l: Layout): (r: PopupInstance)
    requires inst.config.steps.Some? && 0 <= idx < |inst.config.steps.value|
  {
    var steps := inst.config.steps.value;
    var step := steps[idx];
    var e := inst.element.(
      content := PopupContent(GuideStep, step.title, step.message, Some(StepData(idx + 1, |steps|))),
      actions := if |inst.element.actions| > 0 then StepActions(idx, |steps|) else inst.element.actions);
    inst.(element := PlaceAt(e, inst.config.position, l),
          currentStep := Some(idx),
          config := inst.config.(currentStep := Some(idx)))
  }

  /** Showing a step records it in both step fields and changes nothing else
      of the instance but its element: the id, the step list, the count and
      the visibility stay; the element shows that step's text and, when it
      has buttons, that step's buttons. */
  lemma StepShownShows(inst: PopupInstance, idx: int, l: Layout)
    requires inst.config.steps.Some? && 0 <= idx < |inst.config.steps.value|
    ensures var r := StepShown(inst, idx, l);
            var n := |inst.config.steps.value|;
            && r.currentStep == Some(idx) && r.config.currentStep == Some(idx)
            && r.id == inst.id && r.config.id == inst.config.id
            && r.config.steps == inst.config.steps && r.totalSteps == inst.totalSteps
            && r.config.position == inst.config.position
            && r.element.visible == inst.element.visible
            && r.element.content.title == inst.config.steps.value[idx].title
            && r.element.content.data == Some(StepData(idx + 1, n))
            && (|inst.element.actions| > 0 ==>
                  && r.element.actions[|r.element.actions| - 1] == CloseButton
                  && (r.element.actions[0] == PreviousButton <==> idx > 0)
                  && (NextButton in r.element.actions <==> idx < n - 1))
            && (|inst.element.actions| == 0 ==> r.element.actions == [])
  {
    var n := |inst.config.steps.value|;
    var acts := StepShown(inst, idx, l).element.actions;
    if |inst.element.actions| > 0 {
      StepActionsShape(idx, n);
      assert acts == StepActions(idx, n);
      if NextButton in acts {
        var k :| 0 <= k < |acts| && acts[k] == NextButton;
        assert acts[k].action == Next;
      }
      if idx < n - 1 {
        assert acts[|acts| - 2] == NextButton;
      }
    }
  }

  /** A step is shown the same way whatever step was shown before: moving to
      step `j` and then to step `i` is moving straight to step `i`. */
  lemma StepShownForgetsEarlierSteps(inst: PopupInstance, j: int, i: int, l1: Layout, l2: Layout)
    requires inst.config.steps.Some?
    requires 0 <= j < |inst.config.steps.value| && 0 <= i < |inst.config.steps.value|
    ensures StepShown(StepShown(inst, j, l1), i, l2) == StepShown(inst, i, l2)
  {
    var n := |inst.config.steps.value|;
    var mid := StepShown(inst, j, l1);
    assert |mid.element.actions| > 0 <==> |inst.element.actions| > 0 by {
      if |inst.element.actions| > 0 {
        StepActionsShape(j, n);
      }
    }
  }

  /** The registry after `goToStep(id, idx)`. */
  function AfterGoTo(m: map<string, PopupInstance>, id: string, idx: int, page: Page, l: Layout): map<string, PopupInstance> {
    if CanGoTo(m, id, idx, page) then m[id := StepShown(m[id], idx, l)] else m
  }

  /** `nextStep` and `previousStep` get past their guard. */
  predicate IsStepPopup(m: map<string, PopupInstance>, id: string) {
    id in m && m[id].config.steps.Some? && m[id].currentStep.Some?
  }

  /** The registry after `nextStep(id)`: the last step closes the popup, any
      other moves one step forward. */
  function AfterNext(m: map<string, PopupInstance>, id: string, page: Page, l: Layout): map<string, PopupInstance> {
    if !IsStepPopup(m, id) then m
    else if m[id].currentStep.value + 1 >= |m[id].config.steps.value| then m - {id}
    else AfterGoTo(m, id, m[id].currentStep.value + 1, page, l)
  }

  /** The registry after `previousStep(id)`: the first step stays put, any
      other moves one step back. */
  function AfterPrevious(m: map<string, PopupInstance>, id: string, page: Page, l: Layout): map<string, PopupInstance> {
    if !IsStepPopup(m, id) then m
    else if m[id].currentStep.value - 1 < 0 then m
    else AfterGoTo(m, id, m[id].currentStep.value - 1, page, l)
  }

  /** The timers `nextStep(id)` schedules: a rescroll when it moves to a
      step whose target is on the page, nothing when it closes or stays. */
  function NextTimers(m: map<string, PopupInstance>, id: string, page: Page): seq<Timer> {
    if IsStepPopup(m, id) && m[id].currentStep.value + 1 < |m[id].config.steps.value|
       && CanGoTo(m, id, m[id].currentStep.value + 1, page)
    then [StepRescroll(id, m[id].config.position)] else []
  }

  /** The timers `previousStep(id)` schedules: a rescroll when it moves back
      to a step whose target is on the page. */
  function PreviousTimers(m: map<string, PopupInstance>, id: string, page: Page): seq<Timer> {
    if IsStepPopup(m, id) && m[id].currentStep.value - 1 >= 0
       && CanGoTo(m, id, m[id].currentStep.value - 1, page)
    then [StepRescroll(id, m[id].config.position)] else []
  }

  /** Moving to a step keeps the registry consistent. */
  lemma {:induction false} AfterGoToConsistent(m: map<string, PopupInstance>, id: string, idx: int, page: Page, l: Layout)
    requires Consistent(m)
    ensures Consistent(AfterGoTo(m, id, idx, page, l))
  {
    if CanGoTo(m, id, idx, page) {
      var r := AfterGoTo(m, id, idx, page, l);
      StepShownShows(m[id], idx, l);
      forall k | k in r
        ensures r[k].id == k && r[k].config.id == k && StepsInRange(r[k])
      {
        if k != id {
          assert r[k] == m[k];
        }
      }
    }
  }

  /** A step popup's index lies between the first and the last step, so
      `nextStep` closes it exactly at the last step, and `previousStep`
      stays put exactly at the first. */
  lemma StepBoundaries(m: map<string, PopupInstance>, id: string, page: Page, l: Layout)
    requires Consistent(m) && IsStepPopup(m, id)
    ensures var i := m[id].currentStep.value;
            var n := |m[id].config.steps.value|;
            && (AfterNext(m, id, page, l) == m - {id} <==> i == n - 1)
            && (i == 0 ==> AfterPrevious(m, id, page, l) == m)
            && (i > 0 && CanGoTo(m, id, i - 1, page) ==>
                  AfterPrevious(m, id, page, l)[id].currentStep == Some(i - 1))
            && (i < n - 1 && CanGoTo(m, id, i + 1, page) ==>
                  AfterNext(m, id, page, l)[id].currentStep == Some(i + 1))
  {
    var i := m[id].currentStep.value;
    var n := |m[id].config.steps.value|;
    assert id in m && id !in m - {id};
    if i < n - 1 {
      assert id in AfterNext(m, id, page, l);
    }
  }

  /** Going forward one step and back again returns to the step the popup
      was on, with the same text and buttons. */
  lemma NextThenPreviousReturns(m: map<string, PopupInstance>, id: string, page: Page, l1: Layout, l2: Layout)
    requires Consistent(m) && IsStepPopup(m, id)
    requires m[id].currentStep.value + 1 < |m[id].config.steps.value|
    requires CanGoTo(m, id, m[id].currentStep.value + 1, page)
    requires CanGoTo(m, id, m[id].currentStep.value, page)
    ensures var i := m[id].currentStep.value;
            AfterPrevious(AfterNext(m, id, page, l1), id, page, l2) == m[id := StepShown(m[id], i, l2)]
  {
    var i := m[id].currentStep.value;
    var m1 := AfterNext(m, id, page, l1);
    assert m1 == m[id := StepShown(m[id], i + 1, l1)];
    StepShownShows(m[id], i + 1, l1);
    assert IsStepPopup(m1, id) && m1[id].currentStep.value - 1 == i;
    assert CanGoTo(m1, id, i, page);
    StepShownForgetsEarlierSteps(m[id], i + 1, i, l1, l2);
  }

  /** What the assistant sends for a single popup: its kind (`type`), the
      target key, the text, and `targetInfo?.ID`. */
  datatype ApiPopup = ApiPopup(kind: string, target: string, title: string, message: string, targetId: Option<int>)

  /** An assistant response: a single popup, a step list, both or neither. */
  datatype ApiResponse = ApiResponse(popup: Option<ApiPopup>, steps: Option<seq<PopupStep>>)

  /** The two buttons of a single guide-step popup. */
  const GuideActions: seq<PopupAction> := [PopupAction("Siguiente", Custom, Primary), CloseButton]

  /** The configuration chosen for a single popup whose target resolved to
      `selector`, with `now` the clock reading; None for an unknown kind. */
  function ApiPopupConfig(p: ApiPopup, selector: string, now: nat): Option<PopupConfig> {
    if p.kind == "guide-step" then
      Some(PopupConfig("guide-" + NatToString(now), selector,
        PopupContent(GuideStep, p.title, p.message, None), Bottom, None, GuideActions, None, None))
    else if p.kind == "info" then
      var side := if p.target == "product" && NumTruthy(p.targetId) then Bottom else Right;
      Some(PopupConfig("info-" + NatToString(now), selector,
        PopupContent(Text, p.title, p.message, None), side, Some(5000), [CloseButton], None, None))
    else None
  }

  /** The kinds the dispatch knows and what each gets: a guide step sits
      below its target until closed; information sits below a product named
      by a truthy ID and to the right of anything else, and closes itself
      after five seconds. Every popup can be closed by a button, and none is
      a step popup. */
  lemma ApiPopupConfigChoices(p: ApiPopup, selector: string, now: nat)
    ensures var r := ApiPopupConfig(p, selector, now);
            && (r.Some? <==> p.kind == "guide-step" || p.kind == "info")
            && (r.Some? ==>
                  && r.value.target == selector
                  && r.value.content.title == p.title && r.value.content.message == p.message
                  && CloseButton in r.value.actions
                  && r.value.steps.None? && r.value.currentStep.None?
                  && (NumTruthy(r.value.duration) <==> p.kind == "info"))
            && (p.kind == "guide-step" ==>
                  r.value.position == Bottom && r.value.duration.None? && r.value.content.kind == GuideStep)
            && (p.kind == "info" ==>
                  && r.value.duration == Some(5000) && r.value.content.kind == Text
                  && (r.value.position == Bottom <==> p.target == "product" && NumTruthy(p.targetId))
                  && (r.value.position != Bottom ==> r.value.position == Right))
  {
    var r := ApiPopupConfig(p, selector, now);
    if r.Some? {
      assert CloseButton == r.value.actions[|r.value.actions| - 1];
    }
  }

  /** The two kinds draw their ids from different prefixes, so a guide popup
      and an information popup never share an id. */
  lemma ApiPopupIdsByKind(p: ApiPopup, q: ApiPopup, s1: string, s2: string, t1: nat, t2: nat)
    requires p.kind == "guide-step" && q.kind == "info"
    ensures ApiPopupConfig(p, s1, t1).value.id != ApiPopupConfig(q, s2, t2).value.id
  {
    var a := ApiPopupConfig(p, s1, t1).value.id;
    var b := ApiPopupConfig(q, s2, t2).value.id;
    assert a[0] == 'g' && b[0] == 'i';
  }

  /** The configuration `createStepPopup` builds around a non-empty step list
      whose first target resolved to `selector`. */
  function StepTourConfig(steps: seq<PopupStep>, selector: string, now: nat): PopupConfig
    requires |steps| > 0
  {
    PopupConfig("step-guide-" + NatToString(now), selector,
      PopupContent(GuideStep, steps[0].title, steps[0].message, Some(StepData(1, |steps|))),
      Bottom, None, StepActions(0, |steps|), Some(steps), Some(0))
  }

  /** A tour opens on its first step, below the target, with no auto-close,
      no back button, a forward button exactly when there is a second step,
      and a close button. */
  lemma StepTourConfigOpensOnFirstStep(steps: seq<PopupStep>, selector: string, now: nat)
    requires |steps| > 0
    ensures var c := StepTourConfig(steps, selector, now);
            && c.currentStep == Some(0) && c.steps == Some(steps)
            && c.content.data == Some(StepData(1, |steps|))
            && c.content.title == steps[0].title && c.content.message == steps[0].message
            && c.position == Bottom && !NumTruthy(c.duration)
            && PreviousButton !in c.actions
            && (NextButton in c.actions <==> |steps| > 1)
            && c.actions[|c.actions| - 1] == CloseButton
  {
    var c := StepTourConfig(steps, selector, now);
    assert c.actions == [if |steps| > 1 then NextButton else FinishButton, CloseButton];
  }

  /** The response `createTestStepPopup` feeds to the dispatch: a three-step
      tour from the first product to its add-to-cart button to the cart. */
  const TestTourSteps: seq<PopupStep> := [
    PopupStep("product", "Seleccionar producto", "Haz clic en el producto para ver sus detalles.", Some(1)),
    PopupStep("product_button", "Agregar al carrito", "Haz clic aquí para agregar el producto seleccionado al carrito.", Some(1)),
    PopupStep("cart", "Ir al carrito", "Haz clic en el ícono del carrito para revisar tu compra.", Some(1))]

  /** The response `createTestProductInfoPopup` feeds to the dispatch: an
      information popup about product 5. */
  const TestProductInfo: ApiPopup :=
    ApiPopup("info", "product", "Laptop Dell Inspiron 15", "Este es el producto que coincide con tu búsqueda.", Some(5))

  /** On a page showing a card for product 1, the test tour opens on that
      card, found by its id attribute. */
  lemma TestTourStartsOnProductOne(page: Page, i: int)
    requires 0 <= i < |page.cards| && page.cards[i] == "1"
    ensures StepSelector(TestTourSteps[0], page) == AttrSelector("1")
    ensures Matches(page, StepSelector(TestTourSteps[0], page))
  {
    assert IntToString(1) == "1";
    ProductFoundById(1, page, i);
    assert CardSelectorAt(page, i, AttrSelector("1"));
  }

  /** On a page showing a card for product 5, the test information popup
      targets that card, found by its id attribute. */
  lemma TestProductInfoFindsCardFive(page: Page, i: int)
    requires 0 <= i < |page.cards| && page.cards[i] == "5"
    ensures SpecificSelector("product", Some(5), page) == AttrSelector("5")
    ensures Matches(page, AttrSelector("5"))
  {
    assert IntToString(5) == "5";
    ProductFoundById(5, page, i);
    assert CardSelectorAt(page, i, AttrSelector("5"));
  }

  /** The test information popup sits below its product and closes itself
      after five seconds. */
  lemma TestProductInfoSitsBelow(selector: string, now: nat)
    ensures var c := ApiPopupConfig(TestProductInfo, selector, now);
            c.Some? && c.value.position == Bottom && c.value.duration == Some(5000)
  {
    ApiPopupConfigChoices(TestProductInfo, selector, now);
  }

  /** The service: the registry of open popups, the timer callbacks handed
      to `setTimeout` in order, and the offsets passed to `window.scrollTo`. */
  class DynamicPopupService {
    var activePopups: map<string, PopupInstance>
    var scheduled: seq<Timer>
    var scrolls: seq<real>

    predicate Valid()
      reads this
    {
      Consistent(activePopups)
    }

    constructor()
      ensures Valid()
      ensures activePopups == map[] && scheduled == [] && scrolls == []
    {
      activePopups := map[];
      scheduled := [];
      scrolls := [];
    }

    /** `smoothScrollTo`: scrolls only for a change of more than 10px. */
    method SmoothScrollTo(targetScrollTop: real, vp: Viewport)
      modifies this`scrolls
      ensures scrolls == old(scrolls) + (if ScrollIsSignificant(targetScrollTop, vp) then [targetScrollTop] else [])
    {
      var diff := targetScrollTop - vp.scrollTop;
      var distance := if diff < 0.0 then -diff else diff;
      if distance > 10.0 {
        scrolls := scrolls + [targetScrollTop];
      }
    }

    /** `scrollToTargetAndPositionPopup` on the element `e` of popup `id`:
        returns the element as the call leaves it. */
    method ScrollToTargetAndPositionPopup(id: string, e: PopupElement, side: Side, l: Layout) returns (e': PopupElement)
      modifies this`scheduled, this`scrolls
      ensures e' == AfterScrollCall(e, side, l)
      ensures scheduled == old(scheduled) + RevealTimers(id, l)
      ensures scrolls == old(scrolls) + ScrollRequests(side, l)
    {
      var targetTop := l.target.top + l.viewport.scrollTop;
      if IsElementInViewport(l.target, l.viewport) {
        var p := PositionPopup(side, l.target, l.popupWidth, l.popupHeight, l.viewport);
        e' := e.(placement := Some(p), visible := true);
        return;
      }
      var targetScrollTop: real;
      if side == Bottom {
        targetScrollTop := targetTop - 150.0;
      } else if side == Top {
        targetScrollTop := targetTop + l.target.height - l.viewport.height + 150.0;
      } else {
        targetScrollTop := targetTop - l.viewport.height / 2.0 + l.target.height / 2.0;
      }
      targetScrollTop := Max0(targetScrollTop);
      SmoothScrollTo(targetScrollTop, l.viewport);
      scheduled := scheduled + [RevealAfterScroll(id)];
      e' := e;
    }

    /** `createPopup`: with no element matching the target nothing happens;
        otherwise the popup is registered under its id, hidden until placed,
        and set to close itself when it has a truthy duration. */
    method CreatePopup(config: PopupConfig, page: Page, l: Layout) returns (r: Option<PopupInstance>)
      requires Valid()
      modifies this
      ensures Valid()
      ensures !Matches(page, config.target) ==>
                r.None? && activePopups == old(activePopups)
                && scheduled == old(scheduled) && scrolls == old(scrolls)
      ensures Matches(page, config.target) ==>
                && r == Some(NewInstance(config, l))
                && activePopups == old(activePopups)[config.id := r.value]
                && scheduled == old(scheduled) + RevealTimers(config.id, l) + AutoCloseTimers(config)
                && scrolls == old(scrolls) + ScrollRequests(config.position, l)
    {
      if !Matches(page, config.target) {
        return None;
      }
      var element := NewElement(config);
      element := ScrollToTargetAndPositionPopup(config.id, element, config.position, l);
      var instance := PopupInstance(config.id, config, element, None, None);
      activePopups := activePopups[config.id := instance];
      if NumTruthy(config.duration) {
        scheduled := scheduled + [AutoClose(config.id, config.duration.value)];
      }
      r := Some(instance);
    }

    /** `closePopup`: removes exactly `id`; nothing happens for an unknown id. */
    method ClosePopup(id: string)
      requires Valid()
      modifies this`activePopups
      ensures Valid()
      ensures activePopups == old(activePopups) - {id}
      ensures id !in old(activePopups) ==> activePopups == old(activePopups)
    {
      if id in activePopups {
        activePopups := activePopups - {id};
      }
    }

    /** `closeAllPopups`: empties the registry. */
    method CloseAllPopups()
      modifies this`activePopups
      ensures Valid()
      ensures activePopups == map[]
    {
      activePopups := map[];
    }

    /** The auto-close callback. */
    method AutoCloseElapsed(id: string)
      requires Valid()
      modifies this`activePopups
      ensures Valid()
      ensures activePopups == old(activePopups) - {id}
    {
      ClosePopup(id);
    }

    /** The 300ms callback after scrolling: place and reveal the popup, then
        schedule the check 100ms later. A popup closed in the meantime is no
        longer in the registry, and nothing there changes. */
    method RevealAfterScrollElapsed(id: string, l: Layout)
      requires Valid()
      modifies this`activePopups, this`scheduled
      ensures Valid()
      ensures scheduled == old(scheduled) + [PlacementCheck(id)]
      ensures id in old(activePopups) ==>
                var inst := old(activePopups)[id];
                activePopups == old(activePopups)[id := inst.(element := PlaceAt(inst.element, inst.config.position, l).(visible := true))]
      ensures id !in old(activePopups) ==> activePopups == old(activePopups)
    {
      if id in activePopups {
        var inst := activePopups[id];
        var p := PositionPopup(inst.config.position, l.target, l.popupWidth, l.popupHeight, l.viewport);
        activePopups := activePopups[id := inst.(element := inst.element.(placement := Some(p), visible := true))];
      }
      scheduled := scheduled + [PlacementCheck(id)];
    }

    /** The check 100ms after the reveal: a popup below its target whose top
        is less than 50px below the target's bottom is placed again. */
    method PlacementCheckElapsed(id: string, l: Layout)
      requires Valid()
      modifies this`activePopups
      ensures Valid()
      ensures var m := old(activePopups);
              if id in m && m[id].element.placement.Some?
                 && NeedsRecheck(m[id].config.position, m[id].element.placement.value.top, l.target)
              then activePopups == m[id := m[id].(element := PlaceAt(m[id].element, m[id].config.position, l))]
              else activePopups == m
    {
      if id in activePopups {
        var inst := activePopups[id];
        if inst.element.placement.Some? && inst.config.position == Bottom
           && inst.element.placement.value.top < l.target.Bottom() + 50.0 {
          var p := PositionPopup(inst.config.position, l.target, l.popupWidth, l.popupHeight, l.viewport);
          activePopups := activePopups[id := inst.(element := inst.element.(placement := Some(p)))];
        }
      }
    }

    /** The callback 100ms after a step change: scroll to the new target and
        place the popup there, on the side captured when it was scheduled. It
        scrolls the window and arms the reveal timer whether or not the popup
        is still registered. */
    method StepRescrollElapsed(id: string, side: Side, l: Layout)
      requires Valid()
      modifies this
      ensures Valid()
      ensures scheduled == old(scheduled) + RevealTimers(id, l)
      ensures scrolls == old(scrolls) + ScrollRequests(side, l)
      ensures var m := old(activePopups);
              && (id in m ==> activePopups == m[id := m[id].(element := AfterScrollCall(m[id].element, side, l))])
              && (id !in m ==> activePopups == m)
    {
      if id in activePopups {
        var inst := activePopups[id];
        var e := ScrollToTargetAndPositionPopup(id, inst.element, side, l);
        activePopups := activePopups[id := inst.(element := e)];
      } else {
        // The popup was closed: its element is no longer registered, but the
        // callback still scrolls the window and arms the reveal timer.
        var detached := PopupElement(PopupContent(Text, "", "", None), [], None, false);
        detached := ScrollToTargetAndPositionPopup(id, detached, side, l);
      }
    }

    /** `goToStep`: nothing happens for an unknown popup, one without steps,
        an index with no step, or a step whose target is missing; otherwise
        the popup shows step `idx` and a rescroll is scheduled. */
    method GoToStep(id: string, idx: int, page: Page, l: Layout)
      requires Valid()
      modifies this`activePopups, this`scheduled
      ensures Valid()
      ensures activePopups == AfterGoTo(old(activePopups), id, idx, page, l)
      ensures scheduled == old(scheduled) + (if CanGoTo(old(activePopups), id, idx, page) then [StepRescroll(id, old(activePopups)[id].config.position)] else [])
      ensures !CanGoTo(old(activePopups), id, idx, page) ==> activePopups == old(activePopups)
      ensures CanGoTo(old(activePopups), id, idx, page) ==>
                activePopups[id].currentStep == Some(idx) && activePopups[id].config.currentStep == Some(idx)
    {
      AfterGoToConsistent(activePopups, id, idx, page, l);
      if id !in activePopups || activePopups[id].config.steps.None? {
        return;
      }
      var popup := activePopups[id];
      var steps := popup.config.steps.value;
      if !(0 <= idx < |steps|) {
        return;
      }
      var step := steps[idx];
      var targetSelector := GenerateSpecificSelector(step.target, step.targetId, page);
      if !Matches(page, targetSelector) {
        return;
      }
      StepShownShows(popup, idx, l);
      var actions := popup.element.actions;
      if |actions| > 0 {
        actions := GenerateStepActions(idx, |steps|);
      }
      var element := popup.element.(
        content := PopupContent(GuideStep, step.title, step.message, Some(StepData(idx + 1, |steps|))),
        actions := actions);
      var p := PositionPopup(popup.config.position, l.target, l.popupWidth, l.popupHeight, l.viewport);
      element := element.(placement := Some(p));
      scheduled := scheduled + [StepRescroll(id, popup.config.position)];
      popup := popup.(element := element, currentStep := Some(idx), config := popup.config.(currentStep := Some(idx)));
      activePopups := activePopups[id := popup];
    }

    /** `nextStep`: at the last step the popup closes; otherwise it moves one
        step forward. */
    method NextStep(id: string, page: Page, l: Layout)
      requires Valid()
      modifies this`activePopups, this`scheduled
      ensures Valid()
      ensures activePopups == AfterNext(old(activePopups), id, page, l)
      ensures scheduled == old(scheduled) + NextTimers(old(activePopups), id, page)
      ensures scrolls == old(scrolls)
      ensures !IsStepPopup(old(activePopups), id) ==> activePopups == old(activePopups) && scheduled == old(scheduled)
    {
      if id !in activePopups || activePopups[id].config.steps.None? || activePopups[id].currentStep.None? {
        return;
      }
      var popup := activePopups[id];
      var nextStepIndex := popup.currentStep.value + 1;
      if nextStepIndex >= |popup.config.steps.value| {
        ClosePopup(id);
        return;
      }
      GoToStep(id, nextStepIndex, page, l);
    }

    /** `previousStep`: at the first step nothing happens; otherwise the popup
        moves one step back. */
    method PreviousStep(id: string, page: Page, l: Layout)
      requires Valid()
      modifies this`activePopups, this`scheduled
      ensures Valid()
      ensures activePopups == AfterPrevious(old(activePopups), id, page, l)
      ensures scheduled == old(scheduled) + PreviousTimers(old(activePopups), id, page)
      ensures scrolls == old(scrolls)
      ensures !IsStepPopup(old(activePopups), id) ==> activePopups == old(activePopups) && scheduled == old(scheduled)
      ensures IsStepPopup(old(activePopups), id) && old(activePopups)[id].currentStep == Some(0) ==>
                activePopups == old(activePopups) && scheduled == old(scheduled)
    {
      if id !in activePopups || activePopups[id].config.steps.None? || activePopups[id].currentStep.None? {
        return;
      }
      var popup := activePopups[id];
      var previousStepIndex := popup.currentStep.value - 1;
      if previousStepIndex < 0 {
        return;
      }
      GoToStep(id, previousStepIndex, page, l);
    }

    /** `executeAction` (and `executeStepAction`, which dispatches the same
        three kinds the same way): close, next and previous act on the popup;
        the other kinds change nothing. */
    method ExecuteAction(action: PopupAction, id: string, page: Page, l: Layout)
      requires Valid()
      modifies this`activePopups, this`scheduled
      ensures Valid()
      ensures action.action == Close ==> activePopups == old(activePopups) - {id} && scheduled == old(scheduled)
      ensures action.action == Next ==>
                activePopups == AfterNext(old(activePopups), id, page, l)
                && scheduled == old(scheduled) + NextTimers(old(activePopups), id, page)
      ensures action.action == Previous ==>
                activePopups == AfterPrevious(old(activePopups), id, page, l)
                && scheduled == old(scheduled) + PreviousTimers(old(activePopups), id, page)
      ensures scrolls == old(scrolls)
      ensures action.action !in {Close, Next, Previous} ==>
                activePopups == old(activePopups) && scheduled == old(scheduled)
    {
      match action.action {
        case Close => ClosePopup(id);
        case Next => NextStep(id, page, l);
        case Previous => PreviousStep(id, page, l);
        case _ =>
      }
    }

    /** `createStepPopup`: no popup without a first step or when its target
        is missing; otherwise a tour opened on its first step. */
    method CreateStepPopup(steps: seq<PopupStep>, page: Page, l: Layout, now: nat) returns (r: Option<PopupInstance>)
      requires Valid()
      modifies this
      ensures Valid()
      ensures (|steps| == 0 || !Matches(page, StepSelector(steps[0], page))) ==>
                r.None? && activePopups == old(activePopups)
                && scheduled == old(scheduled) && scrolls == old(scrolls)
      ensures |steps| > 0 && Matches(page, StepSelector(steps[0], page)) ==>
                var config := StepTourConfig(steps, StepSelector(steps[0], page), now);
                && r == Some(NewInstance(config, l).(currentStep := Some(0), totalSteps := Some(|steps|)))
                && activePopups == old(activePopups)[config.id := r.value]
                && scheduled == old(scheduled) + RevealTimers(config.id, l)
                && scrolls == old(scrolls) + ScrollRequests(Bottom, l)
    {
      if |steps| == 0 {
        return None;
      }
      var firstStep := steps[0];
      var targetSelector := GenerateSpecificSelector(firstStep.target, firstStep.targetId, page);
      if !Matches(page, targetSelector) {
        return None;
      }
      var actions := GenerateStepActions(0, |steps|);
      var config := PopupConfig("step-guide-" + NatToString(now), targetSelector,
        PopupContent(GuideStep, firstStep.title, firstStep.message, Some(StepData(1, |steps|))),
        Bottom, None, actions, Some(steps), Some(0));
      r := CreatePopup(config, page, l);
      if r.Some? {
        var instance := r.value.(currentStep := Some(0), totalSteps := Some(|steps|));
        activePopups := activePopups[instance.id := instance];
        r := Some(instance);
      }
    }

    /** `createPopupFromApiResponse`: a non-empty step list opens a tour;
        otherwise a single popup of a known kind is created when its target
        resolves to an element on the page; anything else yields nothing. */
    method CreatePopupFromApiResponse(resp: ApiResponse, page: Page, l: Layout, now: nat) returns (r: Option<PopupInstance>)
      requires Valid()
      modifies this
      ensures Valid()
      ensures resp.steps.Some? && |resp.steps.value| > 0 ==>
                var steps := resp.steps.value;
                && (r.Some? <==> Matches(page, StepSelector(steps[0], page)))
                && (r.None? ==> activePopups == old(activePopups)
                                && scheduled == old(scheduled) && scrolls == old(scrolls))
                && (r.Some? ==>
                      var config := StepTourConfig(steps, StepSelector(steps[0], page), now);
                      && r == Some(NewInstance(config, l).(currentStep := Some(0), totalSteps := Some(|steps|)))
                      && activePopups == old(activePopups)[config.id := r.value]
                      && scheduled == old(scheduled) + RevealTimers(config.id, l)
                      && scrolls == old(scrolls) + ScrollRequests(Bottom, l))
      ensures !(resp.steps.Some? && |resp.steps.value| > 0) && resp.popup.None? ==>
                r.None? && activePopups == old(activePopups)
                && scheduled == old(scheduled) && scrolls == old(scrolls)
      ensures !(resp.steps.Some? && |resp.steps.value| > 0) && resp.popup.Some? ==>
                var p := resp.popup.value;
                var selector := SpecificSelector(p.target, p.targetId, page);
                var config := ApiPopupConfig(p, selector, now);
                if Matches(page, selector) && config.Some? then
                  && r == Some(NewInstance(config.value, l))
                  && activePopups == old(activePopups)[config.value.id := r.value]
                  && scheduled == old(scheduled) + RevealTimers(config.value.id, l) + AutoCloseTimers(config.value)
                  && scrolls == old(scrolls) + ScrollRequests(config.value.position, l)
                else r.None? && activePopups == old(activePopups)
                     && scheduled == old(scheduled) && scrolls == old(scrolls)
    {
      if resp.steps.Some? && |resp.steps.value| > 0 {
        r := CreateStepPopup(resp.steps.value, page, l, now);
        return;
      }
      if resp.popup.None? {
        return None;
      }
      var popup := resp.popup.value;
      var targetSelector := GenerateSpecificSelector(popup.target, popup.targetId, page);
      if !Matches(page, targetSelector) {
        return None;
      }
      var config := ApiPopupConfig(popup, targetSelector, now);
      if config.None? {
        return None;
      }
      r := CreatePopup(config.value, page, l);
    }

    /** `createTestStepPopup`: the test tour, through the dispatch. */
    method CreateTestStepPopup(page: Page, l: Layout, now: nat) returns (r: Option<PopupInstance>)
      requires Valid()
      modifies this
      ensures Valid()
      ensures r.Some? <==> Matches(page, StepSelector(TestTourSteps[0], page))
      ensures r.Some? ==> r.value.currentStep == Some(0) && r.value.config.steps == Some(TestTourSteps)
                          && r.value.config.content.data == Some(StepData(1, 3))
                          && activePopups == old(activePopups)[r.value.id := r.value]
                          && scheduled == old(scheduled) + RevealTimers(r.value.id, l)
                          && scrolls == old(scrolls) + ScrollRequests(Bottom, l)
      ensures r.None? ==> activePopups == old(activePopups)
                          && scheduled == old(scheduled) && scrolls == old(scrolls)
    {
      r := CreatePopupFromApiResponse(ApiResponse(None, Some(TestTourSteps)), page, l, now);
    }

    /** `createTestProductInfoPopup`: the test information popup, through the
        dispatch. */
    method CreateTestProductInfoPopup(page: Page, l: Layout, now: nat) returns (r: Option<PopupInstance>)
      requires Valid()
      modifies this
      ensures Valid()
      ensures r.Some? <==> Matches(page, SpecificSelector("product", Some(5), page))
      ensures r.Some? ==>
                && r.value.config.target == SpecificSelector("product", Some(5), page)
                && r.value.config.position == Bottom && r.value.config.duration == Some(5000)
                && activePopups == old(activePopups)[r.value.id := r.value]
                && scheduled == old(scheduled) + RevealTimers(r.value.id, l) + [AutoClose(r.value.id, 5000)]
                && scrolls == old(scrolls) + ScrollRequests(Bottom, l)
      ensures r.None? ==> activePopups == old(activePopups)
                          && scheduled == old(scheduled) && scrolls == old(scrolls)
    {
      TestProductInfoSitsBelow(SpecificSelector("product", Some(5), page), now);
      r := CreatePopupFromApiResponse(ApiResponse(Some(TestProductInfo), None), page, l, now);
    }
  }
}
