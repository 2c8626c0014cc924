/** One pass of the trading loop (autotrade.py:215-217): gather the data,
    ask the model, act on its reply. The model is a function of the gathered
    data; `None` stands for the exception caught at lines 163-165. */
module Cycle {
  import opened Wrappers
  import opened Json
  import opened Exchange
  import opened Context
  import opened Execution

  /** `generate`: no reply unless the data was gathered. */
  function Generate(snapshot: Option<Snapshot>, oracle: Snapshot -> Option<string>): (r: Option<string>)
    ensures snapshot.None? ==> r.None?
    ensures snapshot.Some? ==> r == oracle(snapshot.value)
  {
    if snapshot.None? then None else oracle(snapshot.value)
  }

  /** `generate` followed by `transaction`, with the corrected reading of the reply. */
  function Step(snapshot: Option<Snapshot>, oracle: Snapshot -> Option<string>,
                decode: string -> Option<Value>, krw: real, btc: real, price: Option<real>): (r: Run)
    ensures snapshot.None? ==> r == Run([], Skipped(MissingReply))
    ensures !r.outcome.Raised?
    ensures |Orders(r.calls)| <= 1
    ensures r.outcome.Placed? <==> |Orders(r.calls)| == 1
  {
    SafeTransaction(Generate(snapshot, oracle), decode, krw, btc, price)
  }

  /** Whenever the loop as written would survive a pass, the corrected pass
      makes the same calls and ends the same way. */
  lemma StepAsWritten(snapshot: Option<Snapshot>, oracle: Snapshot -> Option<string>,
                      decode: string -> Option<Value>, krw: real, btc: real, price: Option<real>)
    requires !Transaction(Generate(snapshot, oracle), decode, krw, btc, price).outcome.Raised?
    ensures Step(snapshot, oracle, decode, krw, btc, price)
            == Transaction(Generate(snapshot, oracle), decode, krw, btc, price)
  {
  }
}
