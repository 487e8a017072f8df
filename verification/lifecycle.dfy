/** The shutdown gate (progrev_bot.py:186-197, 214-220, 245-263): a termination
    signal sets a single-shot flag; from then on the health check reports the
    service unavailable and the webhook refuses updates. */
module Lifecycle {
  import opened Optional
  import opened History
  import opened Relay

  /** An HTTP status code with its body. */
  datatype HttpResponse = HttpResponse(status: int, body: string)

  /** The module-level `is_shutting_down` flag with the handlers that use it. */
  class ShutdownGate {
    var isShuttingDown: bool

    /** The process starts accepting traffic: health reports 200 "OK". */
    constructor ()
      ensures !isShuttingDown
      ensures Health() == HttpResponse(200, "OK")
    {
      isShuttingDown := false;
    }

    /** `handle_sigterm`: the first signal starts the shutdown (`began`, the
        branch that logs); any later signal finds the flag set and does nothing.
        No code path clears the flag, so from here on health reports 503. */
    method HandleSigterm() returns (began: bool)
      modifies this
      ensures isShuttingDown
      ensures began == !old(isShuttingDown)
      ensures Health() == HttpResponse(503, "Shutting down")
    {
      if isShuttingDown {
        return false;
      }
      isShuttingDown := true;
      began := true;
    }

    /** `health`: 503 "Shutting down" exactly when the flag is set, otherwise
        200 "OK". */
    function Health(): HttpResponse
      reads this
    {
      if isShuttingDown then HttpResponse(503, "Shutting down") else HttpResponse(200, "OK")
    }
  }

  /** `webhook`: refuses with 503 and dispatches nothing once shutdown has
      begun; a payload that does not parse as an update is answered with 500
      and changes nothing; any other update is dispatched and answered with
      200. It answers 503 exactly when the health check does. */
  method Webhook(gate: ShutdownGate, store: HistoryStore, payload: Option<Update>, texts: Texts, outcome: Completion)
    returns (status: int, sent: seq<string>)
    modifies store
    ensures gate.isShuttingDown ==> status == 503 && sent == [] && store.histories == old(store.histories)
    ensures !gate.isShuttingDown && payload.None? ==>
      status == 500 && sent == [] && store.histories == old(store.histories)
    ensures !gate.isShuttingDown && payload.Some? ==>
      && status == 200
      && store.histories == Handled(old(store.histories), payload.value, outcome)
      && sent == Replies(texts, payload.value, outcome)
    ensures status == 503 <==> gate.Health().status == 503
    ensures old(store.Valid()) ==> store.Valid()
  {
    if gate.isShuttingDown {
      return 503, [];
    }
    match payload {
      case None =>
        status, sent := 500, [];
      case Some(update) =>
        sent := Dispatch(store, update, texts, outcome);
        status := 200;
    }
  }

  /** After a termination signal, however many arrive, the health check says
      503 and the webhook refuses an update without touching any history. */
  method SignalThenTraffic(signals: nat, update: Update, texts: Texts, outcome: Completion)
    returns (health: HttpResponse, status: int, sent: seq<string>)
    requires signals >= 1
    ensures health.status == 503
    ensures status == 503 && sent == []
  {
    var gate := new ShutdownGate();
    var store := new HistoryStore();
    var n := 0;
    while n < signals
      invariant n <= signals
      invariant n > 0 ==> gate.isShuttingDown
    {
      var _ := gate.HandleSigterm();
      n := n + 1;
    }
    health := gate.Health();
    status, sent := Webhook(gate, store, Some(update), texts, outcome);
  }
}
