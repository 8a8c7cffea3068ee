/**
 * The process-wide freeze flag and `frozen_check` (main.cpp:19-26).
 *
 * A mutator calls `frozen_check()` (check = false): it must run before the
 * catalogue is loaded. `make_input_type` and `make_cpu_iface` call
 * `frozen_check(true)`: they must run after. The source attaches each message
 * to the wrong situation. `FrozenCheckAsWritten` keeps the source's text, and
 * the operations of the model use it. `FrozenCheck` has the intended text.
 */
module Lifecycle {
  import opened Abi

  /** The global `frozen` flag (main.cpp:19); it starts out false. */
  class FreezeFlag {
    var frozen: bool

    constructor ()
      ensures !frozen
    {
      frozen := false;
    }
  }

  const ModifyAfterLoadMsg: string := "can not modify after catalogue load"
  const CallBeforeLoadMsg: string := "can not call function before load"

  /**
   * frozen_check as the source writes it: a refusal while frozen says a
   * function was called before the load, one while open says something was
   * modified after it.
   */
  function FrozenCheckAsWritten(frozen: bool, check: bool): (r: Outcome)
    ensures r.Pass? <==> frozen == check
    ensures r.Fail? && frozen ==> r.error == RuntimeError(CallBeforeLoadMsg)
    ensures r.Fail? && !frozen ==> r.error == RuntimeError(ModifyAfterLoadMsg)
  {
    if frozen != check then
      Fail(RuntimeError(if check then ModifyAfterLoadMsg else CallBeforeLoadMsg))
    else Pass
  }

  /** frozen_check with each message attached to the situation it describes. */
  function FrozenCheck(frozen: bool, check: bool): (r: Outcome)
    ensures r.Pass? <==> frozen == check
    ensures r.Fail? && frozen ==> r.error == RuntimeError(ModifyAfterLoadMsg)
    ensures r.Fail? && !frozen ==> r.error == RuntimeError(CallBeforeLoadMsg)
  {
    if frozen != check then
      Fail(RuntimeError(if check then CallBeforeLoadMsg else ModifyAfterLoadMsg))
    else Pass
  }

  /** The two definitions accept and refuse exactly the same calls. */
  lemma SameVerdict(frozen: bool, check: bool)
    ensures FrozenCheck(frozen, check).Pass? == FrozenCheckAsWritten(frozen, check).Pass?
  {
  }

  /**
   * As written, a mutator refused after the load reports that a function was
   * called before the load, and an execution-phase call refused before the
   * load reports a modification after it.
   */
  lemma SwappedMessages()
    ensures FrozenCheckAsWritten(true, false) == Fail(RuntimeError(CallBeforeLoadMsg))
    ensures FrozenCheckAsWritten(false, true) == Fail(RuntimeError(ModifyAfterLoadMsg))
    ensures FrozenCheck(true, false) != FrozenCheckAsWritten(true, false)
  {
  }
}
