/** The frame loop as a state machine over the engine state drawFrame reads
    and writes: the frame slot in use, the pending-resize flag, and whether
    each slot's in-flight fence is signalled. GPU work is not modelled: a
    submission counts as signalling its fence, because drawFrame waits for
    the queue to be idle before it returns. Results of the acquire, submit
    and present calls, and whether a swapchain rebuild succeeds, are inputs. */
module FrameLoop {
  import opened Vulkan

  /** MAX_FRAMES_IN_FLIGHT */
  const MAX_FRAMES_IN_FLIGHT: nat := 2

  datatype FrameState = FrameState(currentFrame: nat, framebufferResize: bool, fenceSignalled: seq<bool>)
  {
    /** The frame slot is 0 or 1, and there is one fence per slot. */
    predicate Valid() {
      currentFrame < MAX_FRAMES_IN_FLIGHT && |fenceSignalled| == MAX_FRAMES_IN_FLIGHT
    }

    predicate AllSignalled() {
      forall k :: 0 <= k < |fenceSignalled| ==> fenceSignalled[k]
    }
  }

  /** The state once the engine is initialised: slot 0, no resize pending,
      and the fences created signalled. */
  const INITIAL: FrameState := FrameState(0, false, [true, true])

  /** What the driver answers during one frame. */
  datatype FrameInputs = FrameInputs(
    acquireResult: VkResult,
    submitResult: VkResult,
    presentResult: VkResult,
    rebuildSucceeds: bool)

  /** How a call of drawFrame ends when it does not throw. */
  datatype Outcome =
    | WaitsForever               // the slot's fence is unsignalled and no pending work will signal it
    | SwapchainOutOfDate         // the acquire reported OUT_OF_DATE: the swapchain was rebuilt, nothing drawn
    | Presented(rebuilt: bool)   // the frame was submitted and presented; `rebuilt` if the swapchain was rebuilt after

  datatype FrameStep = FrameStep(result: Result<Outcome>, state: FrameState)

  const ACQUIRE_ERROR: Exception := RuntimeError("failed to acquire swap chain image!")
  const PRESENT_ERROR: Exception := RuntimeError("failed to present swap chain image!")

  function NextFrame(currentFrame: nat): nat {
    (currentFrame + 1) % MAX_FRAMES_IN_FLIGHT
  }

  /** The present of a submitted frame: an OUT_OF_DATE or SUBOPTIMAL result,
      or a pending resize, clears the flag and rebuilds the swapchain; any
      other failure throws; then the frame slot advances. */
  function PresentStep(s: FrameState, inputs: FrameInputs): (step: FrameStep)
    requires s.Valid()
    ensures step.state.Valid()
    ensures step.state.fenceSignalled == s.fenceSignalled
    ensures inputs.presentResult == VK_ERROR_OUT_OF_DATE_KHR || inputs.presentResult == VK_SUBOPTIMAL_KHR || s.framebufferResize ==>
      step == (if inputs.rebuildSucceeds
               then FrameStep(Ok(Presented(true)), s.(framebufferResize := false, currentFrame := NextFrame(s.currentFrame)))
               else FrameStep(Throw(VK_CALL_ERROR), s.(framebufferResize := false)))
    ensures && inputs.presentResult != VK_SUCCESS && inputs.presentResult != VK_ERROR_OUT_OF_DATE_KHR
            && inputs.presentResult != VK_SUBOPTIMAL_KHR && !s.framebufferResize ==>
      step == FrameStep(Throw(PRESENT_ERROR), s)
    ensures inputs.presentResult == VK_SUCCESS && !s.framebufferResize ==>
      step == FrameStep(Ok(Presented(false)), s.(currentFrame := NextFrame(s.currentFrame)))
  {
    if inputs.presentResult == VK_ERROR_OUT_OF_DATE_KHR || inputs.presentResult == VK_SUBOPTIMAL_KHR || s.framebufferResize then
      var cleared := s.(framebufferResize := false);
      if inputs.rebuildSucceeds then FrameStep(Ok(Presented(true)), cleared.(currentFrame := NextFrame(s.currentFrame)))
      else FrameStep(Throw(VK_CALL_ERROR), cleared)
    else if inputs.presentResult != VK_SUCCESS then
      FrameStep(Throw(PRESENT_ERROR), s)
    else
      FrameStep(Ok(Presented(false)), s.(currentFrame := NextFrame(s.currentFrame)))
  }

  /** drawFrame as written: wait for the slot's fence, reset it, then acquire
      an image. On OUT_OF_DATE the swapchain is rebuilt and the function
      returns with the fence reset and nothing submitted; on any other
      result but SUCCESS and SUBOPTIMAL it throws. Otherwise the frame is
      submitted with the fence and presented. */
  function DrawFrameStep(s: FrameState, inputs: FrameInputs): (step: FrameStep)
    requires s.Valid()
    ensures step.state.Valid()
    ensures step.result == Ok(WaitsForever) <==> !s.fenceSignalled[s.currentFrame]
    ensures step.result == Ok(WaitsForever) ==> step.state == s
    ensures step.result.Ok? && step.result.value.Presented? ==>
      && step.state.currentFrame == NextFrame(s.currentFrame)
      && !step.state.framebufferResize
      && step.state.fenceSignalled == s.fenceSignalled
      && (step.result.value.rebuilt <==>
            inputs.presentResult == VK_ERROR_OUT_OF_DATE_KHR || inputs.presentResult == VK_SUBOPTIMAL_KHR || s.framebufferResize)
    ensures !(step.result.Ok? && step.result.value.Presented?) ==> step.state.currentFrame == s.currentFrame
    ensures s.fenceSignalled[s.currentFrame] && inputs.acquireResult == VK_ERROR_OUT_OF_DATE_KHR ==>
      && step.result == (if inputs.rebuildSucceeds then Ok(SwapchainOutOfDate) else Throw(VK_CALL_ERROR))
      && step.state == s.(fenceSignalled := s.fenceSignalled[s.currentFrame := false])
    ensures (s.fenceSignalled[s.currentFrame] && inputs.acquireResult != VK_ERROR_OUT_OF_DATE_KHR
             && inputs.acquireResult != VK_SUCCESS && inputs.acquireResult != VK_SUBOPTIMAL_KHR) ==>
      step.result == Throw(ACQUIRE_ERROR)
    ensures (s.fenceSignalled[s.currentFrame] && (inputs.acquireResult == VK_SUCCESS || inputs.acquireResult == VK_SUBOPTIMAL_KHR)
             && inputs.submitResult != VK_SUCCESS) ==>
      step == FrameStep(Throw(VK_CALL_ERROR), s.(fenceSignalled := s.fenceSignalled[s.currentFrame := false]))
    ensures (s.fenceSignalled[s.currentFrame] && (inputs.acquireResult == VK_SUCCESS || inputs.acquireResult == VK_SUBOPTIMAL_KHR)
             && inputs.submitResult == VK_SUCCESS) ==>
      step == PresentStep(s, inputs)
    ensures (s.fenceSignalled[s.currentFrame] && (inputs.acquireResult == VK_SUCCESS || inputs.acquireResult == VK_SUBOPTIMAL_KHR)
             && inputs.submitResult == VK_SUCCESS
             && inputs.presentResult != VK_SUCCESS && inputs.presentResult != VK_ERROR_OUT_OF_DATE_KHR
             && inputs.presentResult != VK_SUBOPTIMAL_KHR && !s.framebufferResize) ==>
      step == FrameStep(Throw(PRESENT_ERROR), s)
    ensures step.result.Ok? && step.result.value.Presented? ==>
      && s.fenceSignalled[s.currentFrame]
      && (inputs.acquireResult == VK_SUCCESS || inputs.acquireResult == VK_SUBOPTIMAL_KHR)
      && inputs.submitResult == VK_SUCCESS
  {
    var slot := s.currentFrame;
    if !s.fenceSignalled[slot] then FrameStep(Ok(WaitsForever), s)
    else
      var reset := s.(fenceSignalled := s.fenceSignalled[slot := false]);
      if inputs.acquireResult == VK_ERROR_OUT_OF_DATE_KHR then
        FrameStep(if inputs.rebuildSucceeds then Ok(SwapchainOutOfDate) else Throw(VK_CALL_ERROR), reset)
      else if inputs.acquireResult != VK_SUCCESS && inputs.acquireResult != VK_SUBOPTIMAL_KHR then
        FrameStep(Throw(ACQUIRE_ERROR), reset)
      else if inputs.submitResult != VK_SUCCESS then
        FrameStep(Throw(VK_CALL_ERROR), reset)
      else
        PresentStep(s, inputs)
  }

  /** The frame rebuilds the swapchain: after the fence wait, either the
      acquire reports OUT_OF_DATE, or the frame is submitted and its present
      reports OUT_OF_DATE or SUBOPTIMAL or a resize is pending. */
  predicate Rebuilds(s: FrameState, inputs: FrameInputs)
    requires s.Valid()
  {
    && s.fenceSignalled[s.currentFrame]
    && (|| inputs.acquireResult == VK_ERROR_OUT_OF_DATE_KHR
        || ((inputs.acquireResult == VK_SUCCESS || inputs.acquireResult == VK_SUBOPTIMAL_KHR)
            && inputs.submitResult == VK_SUCCESS
            && (inputs.presentResult == VK_ERROR_OUT_OF_DATE_KHR || inputs.presentResult == VK_SUBOPTIMAL_KHR || s.framebufferResize)))
  }

  /** drawFrame with the fence reset moved after a successful acquire, just
      before the submission that will signal it again. */
  function DrawFrameStepCorrected(s: FrameState, inputs: FrameInputs): (step: FrameStep)
    requires s.Valid()
    ensures step.state.Valid()
    ensures step.result == Ok(WaitsForever) <==> !s.fenceSignalled[s.currentFrame]
    ensures step.result.Ok? && step.result.value.Presented? ==>
      step.state.currentFrame == NextFrame(s.currentFrame) && !step.state.framebufferResize
    ensures !(step.result.Ok? && step.result.value.Presented?) ==> step.state.currentFrame == s.currentFrame
  {
    var slot := s.currentFrame;
    if !s.fenceSignalled[slot] then FrameStep(Ok(WaitsForever), s)
    else if inputs.acquireResult == VK_ERROR_OUT_OF_DATE_KHR then
      FrameStep(if inputs.rebuildSucceeds then Ok(SwapchainOutOfDate) else Throw(VK_CALL_ERROR), s)
    else if inputs.acquireResult != VK_SUCCESS && inputs.acquireResult != VK_SUBOPTIMAL_KHR then
      FrameStep(Throw(ACQUIRE_ERROR), s)
    else if inputs.submitResult != VK_SUCCESS then
      FrameStep(Throw(VK_CALL_ERROR), s.(fenceSignalled := s.fenceSignalled[slot := false]))
    else
      PresentStep(s, inputs)
  }

  /** The outcomes of successive drawFrame calls, up to and including the
      first that throws or waits forever. */
  function Run(s: FrameState, inputs: seq<FrameInputs>, corrected: bool): (outcomes: seq<Result<Outcome>>)
    requires s.Valid()
    ensures |outcomes| <= |inputs|
    ensures |inputs| > 0 ==> |outcomes| > 0
    ensures forall k :: 0 <= k < |outcomes| - 1 ==> outcomes[k].Ok? && outcomes[k] != Ok(WaitsForever)
    ensures |outcomes| < |inputs| ==> outcomes[|outcomes| - 1].Throw? || outcomes[|outcomes| - 1] == Ok(WaitsForever)
    decreases |inputs|
  {
    if |inputs| == 0 then []
    else
      var step := if corrected then DrawFrameStepCorrected(s, inputs[0]) else DrawFrameStep(s, inputs[0]);
      if step.result.Throw? || step.result == Ok(WaitsForever) then [step.result]
      else [step.result] + Run(step.state, inputs[1..], corrected)
  }

  /** With every fence signalled, a corrected frame that does not throw
      leaves every fence signalled. */
  lemma CorrectedStepKeepsFencesSignalled(s: FrameState, inputs: FrameInputs)
    requires s.Valid() && s.AllSignalled()
    ensures DrawFrameStepCorrected(s, inputs).result != Ok(WaitsForever)
    ensures DrawFrameStepCorrected(s, inputs).result.Ok? ==> DrawFrameStepCorrected(s, inputs).state.AllSignalled()
  {
  }

  /** The corrected frame loop never waits forever, whatever the driver
      answers, when it starts with every fence signalled. */
  lemma {:induction false} CorrectedRunNeverWaitsForever(s: FrameState, inputs: seq<FrameInputs>)
    requires s.Valid() && s.AllSignalled()
    ensures Ok(WaitsForever) !in Run(s, inputs, true)
    decreases |inputs|
  {
    if |inputs| > 0 {
      var step := DrawFrameStepCorrected(s, inputs[0]);
      CorrectedStepKeepsFencesSignalled(s, inputs[0]);
      if !(step.result.Throw? || step.result == Ok(WaitsForever)) {
        CorrectedRunNeverWaitsForever(step.state, inputs[1..]);
      }
    }
  }

  /** As written, an acquire that reports OUT_OF_DATE leaves the slot's fence
      reset with no work submitted and the slot unchanged, so the next
      drawFrame waits forever on that fence, whatever the driver answers. */
  lemma OutOfDateAcquireBlocksNextFrame(s: FrameState, inputs: FrameInputs)
    requires s.Valid() && s.fenceSignalled[s.currentFrame]
    requires inputs.acquireResult == VK_ERROR_OUT_OF_DATE_KHR && inputs.rebuildSucceeds
    ensures DrawFrameStep(s, inputs).result == Ok(SwapchainOutOfDate)
    ensures forall next: FrameInputs :: DrawFrameStep(DrawFrameStep(s, inputs).state, next).result == Ok(WaitsForever)
  {
    var after := DrawFrameStep(s, inputs).state;
    assert after.currentFrame == s.currentFrame && !after.fenceSignalled[after.currentFrame];
  }

  /** The same two frames from the initial state: as written the second
      waits forever; corrected it is presented. */
  lemma OutOfDateThenNormalFrame()
    ensures var frames := [FrameInputs(VK_ERROR_OUT_OF_DATE_KHR, VK_SUCCESS, VK_SUCCESS, true),
                           FrameInputs(VK_SUCCESS, VK_SUCCESS, VK_SUCCESS, true)];
      && Run(INITIAL, frames, false) == [Ok(SwapchainOutOfDate), Ok(WaitsForever)]
      && Run(INITIAL, frames, true) == [Ok(SwapchainOutOfDate), Ok(Presented(false))]
  {
    var frames := [FrameInputs(VK_ERROR_OUT_OF_DATE_KHR, VK_SUCCESS, VK_SUCCESS, true),
                   FrameInputs(VK_SUCCESS, VK_SUCCESS, VK_SUCCESS, true)];
    var afterWritten := DrawFrameStep(INITIAL, frames[0]).state;
    assert afterWritten == FrameState(0, false, [false, true]);
    assert frames[1..] == [frames[1]];
    assert Run(afterWritten, frames[1..], false) == [Ok(WaitsForever)];
    var afterCorrected := DrawFrameStepCorrected(INITIAL, frames[0]).state;
    assert afterCorrected == INITIAL;
    assert Run(INITIAL, frames[1..], true) == [Ok(Presented(false))];
  }

  /** As written, the loop only ever waits forever after an acquire that
      reported OUT_OF_DATE: without one, every fence stays signalled. */
  lemma {:induction false} NoOutOfDateNoWait(s: FrameState, inputs: seq<FrameInputs>)
    requires s.Valid() && s.AllSignalled()
    requires forall k :: 0 <= k < |inputs| ==> inputs[k].acquireResult != VK_ERROR_OUT_OF_DATE_KHR
    ensures Ok(WaitsForever) !in Run(s, inputs, false)
    decreases |inputs|
  {
    if |inputs| > 0 {
      var step := DrawFrameStep(s, inputs[0]);
      if !(step.result.Throw? || step.result == Ok(WaitsForever)) {
        assert step.state.AllSignalled();
        NoOutOfDateNoWait(step.state, inputs[1..]);
      }
    }
  }

  /** Two frames presented without errors use the other slot and then come
      back to the same state. */
  lemma TwoPresentedFramesReturnToSlot(s: FrameState, first: FrameInputs, second: FrameInputs)
    requires s.Valid() && s.AllSignalled() && !s.framebufferResize
    requires first.acquireResult == VK_SUCCESS && first.submitResult == VK_SUCCESS && first.presentResult == VK_SUCCESS
    requires second.acquireResult == VK_SUCCESS && second.submitResult == VK_SUCCESS && second.presentResult == VK_SUCCESS
    ensures DrawFrameStep(s, first).result == Ok(Presented(false))
    ensures DrawFrameStep(s, first).state.currentFrame != s.currentFrame
    ensures DrawFrameStep(DrawFrameStep(s, first).state, second) == FrameStep(Ok(Presented(false)), s)
  {
  }
}
