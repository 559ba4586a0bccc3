/**
 * The older context header: conversion of checks to result codes, the two
 * error-propagation modes of the engine (result codes or exceptions), and
 * window parameters that also carry the vsync flag.
 */
module VulkanContextLegacy {
  import opened Wrappers
  import opened VkTypes

  /** `to_vk_result(bool)`. */
  function BoolToVkResult(b: bool): (r: VkResult)
    ensures r == Success <==> b
    ensures !b ==> r == ErrorFeatureNotPresent
  {
    if b then Success else ErrorFeatureNotPresent
  }

  /** `to_vk_result(vk::Result)`: a result code is passed through unchanged. */
  function ResultToVkResult(res: VkResult): (r: VkResult)
    ensures r == res
  {
    res
  }

  /**
   * With exceptions disabled a checked call either lets the caller go on or
   * makes it return a result code, recording the message of a failed
   * `VKD_CHECK` in `vulkan_display_error_message`.
   */
  datatype Step = Continue | ReturnEarly(result: VkResult, recordedMessage: Option<string>)

  /** `VKD_CHECK(expr, msg)` without exceptions. */
  function CheckNoExceptions(res: VkResult, msg: string): (s: Step)
    ensures s.Continue? <==> res == Success
    ensures s.ReturnEarly? ==> s.result == res && s.recordedMessage == Some(msg)
  {
    if res != Success then ReturnEarly(res, Some(msg)) else Continue
  }

  /** `VKD_CHECK(expr, msg)` with exceptions: a failing check throws with the message. */
  function CheckWithExceptions(res: VkResult, msg: string): (r: Result<()>)
    ensures r.Ok? <==> res == Success
    ensures r.Err? ==> r.message == msg
  {
    if res != Success then Err(msg) else Ok(())
  }

  /** The two modes fail on the same results and report the same message. */
  lemma CheckModesAgree(res: VkResult, msg: string)
    ensures CheckNoExceptions(res, msg).Continue? <==> CheckWithExceptions(res, msg).Ok?
    ensures CheckNoExceptions(res, msg).ReturnEarly? ==>
      CheckNoExceptions(res, msg).recordedMessage == Some(CheckWithExceptions(res, msg).message)
  {
  }

  /**
   * A body written as a chain of `VKD_PASS_RESULT` calls, without exceptions:
   * the first non-success result is returned and the remaining calls are skipped.
   */
  function PassResults(results: seq<VkResult>): (r: VkResult)
    ensures r == Success <==> forall i :: 0 <= i < |results| ==> results[i] == Success
    ensures r != Success ==> exists i :: 0 <= i < |results| && results[i] == r
                                       && forall j :: 0 <= j < i ==> results[j] == Success
  {
    if results == [] then Success
    else if results[0] != Success then results[0]
    else
      var r := PassResults(results[1..]);
      assert forall i :: 1 <= i < |results| ==> results[i] == results[1..][i - 1];
      r
  }

  /** Appending steps after a failure does not change the outcome. */
  lemma {:induction false} PassResultsStopsAtFailure(prefix: seq<VkResult>, failure: VkResult, rest: seq<VkResult>)
    requires failure != Success
    requires forall i :: 0 <= i < |prefix| ==> prefix[i] == Success
    ensures PassResults(prefix + [failure] + rest) == failure
  {
    if prefix != [] {
      assert (prefix + [failure] + rest)[1..] == prefix[1..] + [failure] + rest;
      PassResultsStopsAtFailure(prefix[1..], failure, rest);
    }
  }

  /** `window_parameters` of the older header: size and vsync. */
  datatype WindowParameters = WindowParameters(width: U32, height: U32, vsync: bool)

  const NO_GPU_SELECTED: U32 := UINT32_MAX
  const NO_QUEUE_FAMILY_INDEX_FOUND: U32 := UINT32_MAX
  const SWAPCHAIN_IMAGE_OUT_OF_DATE: U32 := UINT32_MAX
  const SWAPCHAIN_IMAGE_TIMEOUT: U32 := UINT32_MAX - 1

  /** `get_window_parameters`: the swapchain size together with the vsync setting. */
  function GetWindowParameters(windowSize: Extent2D, vsync: bool): (p: WindowParameters)
    requires IsU32(windowSize.width) && IsU32(windowSize.height)
    ensures p.width == windowSize.width && p.height == windowSize.height && p.vsync == vsync
  {
    WindowParameters(windowSize.width, windowSize.height, vsync)
  }
}
