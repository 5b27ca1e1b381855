/** The simulator's request (simdistserve/base/request.py) as a value. */
module SimRequests {
  import opened Common

  /** counter < 0: prefilling; counter >= 0: tokens decoded so far. */
  datatype SReq = SReq(id: int, prefillLens: nat, outputLens: nat, counter: int,
                       remain: int, current: int, chunk: Option<int>)

  function NewRequest(id: int, prefillLens: nat, outputLens: nat, counter: int): SReq {
    SReq(id, prefillLens, outputLens, counter, prefillLens, 0, None)
  }

  function ContextLen(r: SReq): int {
    r.prefillLens + (if r.counter > 0 then r.counter else 0)
  }

  predicate ShouldFinish(r: SReq) { r.counter >= r.outputLens }

  /** finish_prefill: the request afterwards; it exits when ShouldFinish holds after the last
      chunk of the last stage. */
  function FinishPrefill(r: SReq, lastStage: bool): SReq {
    if !lastStage then r
    else
      var r1 := r.(chunk := None, current := 0);
      if r1.remain > 0 then r1 else r1.(counter := 0)
  }

  predicate ExitsAfterPrefill(r: SReq, lastStage: bool) {
    lastStage && r.remain <= 0 && ShouldFinish(FinishPrefill(r, lastStage))
  }

  function FinishDecode(r: SReq, lastStage: bool): SReq {
    if lastStage then r.(counter := r.counter + 1) else r
  }
}
