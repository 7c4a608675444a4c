/** Executing an approved opportunity: on paper always, live through the two connectors. */
module Execution {
  import opened Clock
  import opened Estimator
  import opened Market

  datatype OrderSide = Buy | Sell

  datatype ExecutionResult = Failed(reason: string) | Executed(status: string, startedAt: Time, finishedAt: Time)

  // What an execution reports, given the sides whose orders were placed.
  function ExecutionOf(
      live: bool, connectors: set<Name>, o: Opportunity, placed: set<OrderSide>,
      startedAt: Time, finishedAt: Time): ExecutionResult
  {
    if !live then Executed("paper_open", startedAt, finishedAt)
    else if o.longExchange !in connectors then Failed("missing long connector: " + o.longExchange)
    else if o.shortExchange !in connectors then Failed("missing short connector: " + o.shortExchange)
    else Executed(if Buy in placed && Sell in placed then "live_open" else "needs_reconcile", startedAt, finishedAt)
  }

  // The side has answered, and its order was not placed.
  predicate Unplaced(side: OrderSide, awaited: set<OrderSide>, placed: set<OrderSide>) {
    side !in awaited && side !in placed
  }

  // The two orders answer in either order; a failed one only changes the reported status.
  method Execute(
      live: bool, connectors: set<Name>, o: Opportunity, placed: set<OrderSide>,
      startedAt: Time, finishedAt: Time) returns (r: ExecutionResult)
    ensures r == ExecutionOf(live, connectors, o, placed, startedAt, finishedAt)
    ensures !live ==> r == Executed("paper_open", startedAt, finishedAt)
    ensures live && o.longExchange !in connectors ==> r == Failed("missing long connector: " + o.longExchange)
    ensures live && o.longExchange in connectors && o.shortExchange !in connectors ==>
              r == Failed("missing short connector: " + o.shortExchange)
    ensures live && o.longExchange in connectors && o.shortExchange in connectors ==>
              r == Executed(if Buy in placed && Sell in placed then "live_open" else "needs_reconcile",
                            startedAt, finishedAt)
  {
    if !live {
      return Executed("paper_open", startedAt, finishedAt);
    }
    if o.longExchange !in connectors {
      return Failed("missing long connector: " + o.longExchange);
    }
    if o.shortExchange !in connectors {
      return Failed("missing short connector: " + o.shortExchange);
    }
    var status := "submitted";
    var awaited := {Buy, Sell};
    while awaited != {}
      invariant status == if Unplaced(Buy, awaited, placed) || Unplaced(Sell, awaited, placed)
                          then "needs_reconcile" else "submitted"
      decreases |awaited|
    {
      var side :| side in awaited;
      awaited := awaited - {side};
      assert side == Buy || side == Sell;
      if side !in placed {
        status := "needs_reconcile";
      }
    }
    assert "submitted"[0] != "needs_reconcile"[0];
    if status == "submitted" {
      status := "live_open";
    }
    return Executed(status, startedAt, finishedAt);
  }
}
