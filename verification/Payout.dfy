/**
 * End-to-end payouts: a monitor that reads only the logged events, for one flow address, accepts
 * every run. It is written from what users are promised, without looking at the program's state.
 * A logged event holds what the program emits and also the floor, fee and slot then in force.
 */
module Payout {
  import opened Prelude
  import opened Arithmetic
  import opened Fees
  import opened Chain
  import opened Instructions
  import opened Solvency

  /** Idle between instances; Open holds the instance as received; Done adds the fee charged and the net output. */
  datatype Monitor = Idle | Open(flow: Flow) | Done(flow: Flow, bps: nat, net: nat) | Violation

  /**
   * What a recipient is promised after a swap of `f` with output `out` at `bps`: a withdraw pays its
   * fee from the input and gets the whole output, a deposit pays it from the output.
   */
  predicate NetPromise(d: Direction, f: Flow, out: nat, bps: nat, fee: nat, net: nat) {
    && out >= f.minSwapOut && bps <= MAX_FEE_BPS
    && (d.Withdraw? ==> net == out && fee == f.amount * bps / BPS_DENOMINATOR)
    && (d.Deposit? ==> fee == out * bps / BPS_DENOMINATOR && net + fee == out)
  }

  /**
   * Enough of the signed floor: all of it on a withdraw; on a deposit all of it less the fee on it,
   * and nine tenths rounded up in any case.
   */
  predicate FloorHonoured(d: Direction, floor: nat, bps: nat, amount: nat) {
    if d.Withdraw? then amount >= floor
    else amount >= floor - floor * bps / BPS_DENOMINATOR && 10 * amount >= 9 * floor
  }

  function Observe(m: Monitor, id: FlowId, e: Event): Monitor {
    if e.id != id then m
    else match (m, e)
      case (Idle, FlowReceived(_, f, slot)) =>
        if f.status.Received? && f.amount > 0 && f.minSwapOut > 0 && f.receivedSlot == slot then Open(f) else Violation
      case (Open(f), FlowSwapped(_, out, bps, fee, net)) =>
        if NetPromise(id.direction, f, out, bps, fee, net) then Done(f, bps, net) else Violation
      case (Open(f), FlowRefunded(_, recipient, mint, amount, slot)) =>
        if recipient == f.recipient && mint == OwedMint(id, f) && amount == f.amount
           && slot >= f.receivedSlot + REFUND_TIMEOUT_SLOTS
        then Idle else Violation
      case (Done(f, bps, net), FlowSent(_, recipient, mint, amount)) =>
        if recipient == f.recipient && mint == OwedMint(id, f.(status := Swapped)) && amount == net
           && FloorHonoured(id.direction, f.minSwapOut, bps, amount)
        then Idle else Violation
      case _ => Violation
  }

  function Watch(log: seq<Event>, id: FlowId): Monitor {
    if log == [] then Idle else Observe(Watch(log[..|log| - 1], id), id, log[|log| - 1])
  }

  /** The monitor's state agrees with the flow account at that address. */
  predicate Agrees(m: Monitor, w: World, id: FlowId) {
    match m
    case Idle => id !in w.flows
    case Open(f) => id in w.flows && w.flows[id] == f && f.status.Received?
    case Done(f, bps, net) =>
      && id in w.flows && w.flows[id] == f.(status := Swapped, amount := w.flows[id].amount)
      && w.flows[id].amount == net && FloorHonoured(id.direction, f.minSwapOut, bps, net)
    case Violation => false
  }

  lemma {:induction false} WatchOne(log: seq<Event>, e: Event, id: FlowId)
    ensures Watch(log + [e], id) == Observe(Watch(log, id), id, e)
  {
    assert (log + [e])[..|log|] == log;
  }

  /** The fee cap turns the gross floor into the promised part of it. */
  lemma {:induction false} FloorAfterFee(d: Direction, f: Flow, out: nat, bps: nat, fee: nat, net: nat)
    requires NetPromise(d, f, out, bps, fee, net)
    ensures FloorHonoured(d, f.minSwapOut, bps, net)
  {
    var floor := f.minSwapOut;
    if d.Deposit? {
      NetIsMonotone(floor, out, bps);
      MulLe(bps, MAX_FEE_BPS, floor);
      var q1, r1 := Quotient(floor * bps, BPS_DENOMINATOR);
    }
  }

  lemma {:induction false} ReceiveEvent(w: World, a: ReceiveArgs, w': World)
    requires Receive(w, a) == Ok(w')
    ensures var f := w'.flows[a.Flow()];
            && a.Flow() !in w.flows && w'.flows == w.flows[a.Flow() := f]
            && f.status.Received? && f.amount > 0 && f.minSwapOut > 0 && f.receivedSlot == w.slot
            && w'.log == w.log + [FlowReceived(a.Flow(), f, w.slot)]
  {
    assert ReceiveGuards(w, a).Ok?;
  }

  /** The fee rate live on the pair for the flow's direction. */
  function LiveFee(w: World, id: FlowId): nat
    requires id.pair in w.pairs
  {
    if id.direction.Deposit? then w.pairs[id.pair].fees.deposit else w.pairs[id.pair].fees.withdraw
  }

  /** What `swap` logged keeps the promise, for whatever fee `configure` had made live by then. */
  lemma {:induction false} SwapEvent(w: World, a: SwapArgs, w': World) returns (out: nat, bps: nat, fee: nat)
    requires Swap(w, a) == Ok(w') && SwapEntry(w, a).Ok? && ConfigOk(a.id.pair, w.pairs[a.id.pair])
    ensures var f := w.flows[a.id];
            && f.status.Received? && a.id in w'.flows
            && w'.flows == w.flows[a.id := f.(status := Swapped, amount := w'.flows[a.id].amount)]
            && w'.log == w.log + [FlowSwapped(a.id, out, bps, fee, w'.flows[a.id].amount)]
            && NetPromise(a.id.direction, f, out, bps, fee, w'.flows[a.id].amount)
    ensures bps == LiveFee(w, a.id)
  {
    var c, p := w.pairs[a.id.pair], SwapPrepared(w, a).value;
    var after := p.tokens + a.router.writes;
    out := SwapChecked(p.tokens, after, a, p.swapIn, w.flows[a.id].minSwapOut).value;
    bps := LiveFee(w, a.id);
    fee := if a.id.direction.Deposit? then SwapOutput(c, a.id.direction, out).value.fee else p.fee;
  }

  lemma {:induction false} ReceiveAgrees(w: World, a: ReceiveArgs, w': World, id: FlowId)
    requires Receive(w, a) == Ok(w') && Agrees(Watch(w.log, id), w, id)
    ensures Agrees(Watch(w'.log, id), w', id)
  {
    ReceiveEvent(w, a, w');
    WatchOne(w.log, FlowReceived(a.Flow(), w'.flows[a.Flow()], w.slot), id);
  }

  lemma {:induction false} SwapAgrees(w: World, a: SwapArgs, w': World, id: FlowId)
    requires Inv(w) && Swap(w, a) == Ok(w') && Agrees(Watch(w.log, id), w, id)
    ensures Agrees(Watch(w'.log, id), w', id)
  {
    SwapFlows(w, a, w');
    var out, bps, fee := SwapEvent(w, a, w');
    SwappedAgrees(w, w', a.id, out, bps, fee, id);
  }

  lemma {:induction false} SwappedAgrees(w: World, w': World, swapped: FlowId, out: nat, bps: nat, fee: nat, id: FlowId)
    requires swapped in w.flows && swapped in w'.flows && w.flows[swapped].status.Received?
    requires w'.flows == w.flows[swapped := w.flows[swapped].(status := Swapped, amount := w'.flows[swapped].amount)]
    requires w'.log == w.log + [FlowSwapped(swapped, out, bps, fee, w'.flows[swapped].amount)]
    requires NetPromise(swapped.direction, w.flows[swapped], out, bps, fee, w'.flows[swapped].amount)
    requires Agrees(Watch(w.log, id), w, id)
    ensures Agrees(Watch(w'.log, id), w', id)
  {
    FloorAfterFee(swapped.direction, w.flows[swapped], out, bps, fee, w'.flows[swapped].amount);
    WatchOne(w.log, FlowSwapped(swapped, out, bps, fee, w'.flows[swapped].amount), id);
  }

  lemma {:induction false} StepAgrees(w: World, s: Step, id: FlowId)
    requires Inv(w) && Agrees(Watch(w.log, id), w, id)
    ensures Agrees(Watch(Exec(w, s).log, id), Exec(w, s), id)
  {
    var r := Apply(w, s);
    if r.Ok? {
      if IsFlowStep(s) {
        FlowStepAgrees(w, s, r.value, id);
      } else {
        QuietStep(w, s, r.value);
      }
    }
  }

  lemma {:induction false} FlowStepAgrees(w: World, s: Step, w': World, id: FlowId)
    requires Inv(w) && Agrees(Watch(w.log, id), w, id) && IsFlowStep(s) && Apply(w, s) == Ok(w')
    ensures Agrees(Watch(w'.log, id), w', id)
  {
    match s
    case DoSwap(a) => SwapAgrees(w, a, w', id);
    case _ => MoveAgrees(w, s, w', id);
  }

  lemma {:induction false} MoveAgrees(w: World, s: Step, w': World, id: FlowId)
    requires Agrees(Watch(w.log, id), w, id) && Apply(w, s) == Ok(w') && (s.DoReceive? || s.DoSend? || s.DoRefund?)
    ensures Agrees(Watch(w'.log, id), w', id)
  {
    if s.DoReceive? {
      ReceiveAgrees(w, s.receive, w', id);
    } else {
      CloseAgrees(w, s, w', id);
    }
  }

  lemma {:induction false} CloseAgrees(w: World, s: Step, w': World, id: FlowId)
    requires Agrees(Watch(w.log, id), w, id) && Apply(w, s) == Ok(w') && (s.DoSend? || s.DoRefund?)
    ensures Agrees(Watch(w'.log, id), w', id)
  {
    if s.DoSend? {
      SendAgrees(w, s.close, w', id);
    } else {
      RefundAgrees(w, s.close, w', id);
    }
  }

  /** The other steps neither touch a flow nor log anything. */
  lemma {:induction false} QuietStep(w: World, s: Step, w': World)
    requires Apply(w, s) == Ok(w') && !IsFlowStep(s)
    ensures w'.flows == w.flows && w'.log == w.log
  {
    match s
    case DoInitialize(a) => InitializeFresh(w, a, w'); InitializeLog(w, a, w');
    case DoConfigure(a) => ConfigureFacts(w, a, w');
    case DoAcceptAuthority(k, p) => AcceptFacts(w, k, p, w');
    case Deliver(k, item, ata, ntt) =>
    case _ =>
  }

  lemma {:induction false} InitializeLog(w: World, a: InitializeArgs, w': World)
    requires Initialize(w, a) == Ok(w')
    ensures w'.log == w.log
  {
  }

  lemma {:induction false} SendAgrees(w: World, a: CloseArgs, w': World, id: FlowId)
    requires Send(w, a) == Ok(w') && Agrees(Watch(w.log, id), w, id)
    ensures Agrees(Watch(w'.log, id), w', id)
  {
    SendCloses(w, a, w');
    var f := w.flows[a.id];
    WatchOne(w.log, FlowSent(a.id, f.recipient, OwedMint(a.id, f), f.amount), id);
  }

  lemma {:induction false} RefundAgrees(w: World, a: CloseArgs, w': World, id: FlowId)
    requires Refund(w, a) == Ok(w') && Agrees(Watch(w.log, id), w, id)
    ensures Agrees(Watch(w'.log, id), w', id)
  {
    RefundCloses(w, a, w');
    var f := w.flows[a.id];
    WatchOne(w.log, FlowRefunded(a.id, f.recipient, OwedMint(a.id, f), f.amount, w.slot), id);
  }

  /**
   * In every run the monitor never reports a violation: each instance of each flow is paid out
   * exactly once, to its recorded recipient, as the promised refund or the promised send.
   */
  lemma {:induction false} EveryInstancePaidOnce(w: World, steps: seq<Step>, id: FlowId)
    requires Genesis(w) && LegalRun(w, steps)
    ensures Agrees(Watch(Run(w, steps).log, id), Run(w, steps), id)
  {
    if steps != [] {
      EveryInstancePaidOnce(w, steps[..|steps| - 1], id);
      AlwaysSolvent(w, steps[..|steps| - 1]);
      StepAgrees(Run(w, steps[..|steps| - 1]), steps[|steps| - 1], id);
    }
  }

  // ------------------------------------------------------------ the fee that was charged

  /** A swap credits the flow at least the signed floor less the fee on it, at the fee live right then. */
  lemma {:induction false} SwapCreditsFloor(w: World, a: SwapArgs, w': World)
    requires Inv(w) && Swap(w, a) == Ok(w')
    ensures a.id in w.flows && a.id.pair in w.pairs && a.id in w'.flows
    ensures FloorHonoured(a.id.direction, w.flows[a.id].minSwapOut, LiveFee(w, a.id), w'.flows[a.id].amount)
  {
    SwapFlows(w, a, w');
    var out, bps, fee := SwapEvent(w, a, w');
    FloorAfterFee(a.id.direction, w.flows[a.id], out, bps, fee, w'.flows[a.id].amount);
  }

  /** One step logs at most one event, and only a swap logs a swap. */
  lemma {:induction false} StepLogs(w: World, s: Step, w': World)
    requires Apply(w, s) == Ok(w')
    ensures w.log <= w'.log && |w'.log| <= |w.log| + 1
    ensures |w'.log| > |w.log| && w'.log[|w.log|].FlowSwapped? ==> s.DoSwap?
  {
    if !IsFlowStep(s) {
      QuietStep(w, s, w');
    } else if s.DoReceive? {
      ReceiveEvent(w, s.receive, w');
    }
  }

  /** In `w` the step swaps the event's flow, and the event names the fee then live on that pair. */
  predicate LogsLiveFee(w: World, s: Step, event: Event) {
    && event.FlowSwapped? && s.DoSwap? && s.swap.id == event.id && event.id.pair in w.pairs
    && event.bps == LiveFee(w, event.id)
  }

  lemma {:induction false} ExecLogs(w: World, s: Step)
    ensures w.log <= Exec(w, s).log && |Exec(w, s).log| <= |w.log| + 1
  {
    if Apply(w, s).Ok? {
      StepLogs(w, s, Apply(w, s).value);
    }
  }

  lemma {:induction false} ExecLogsLiveFee(w: World, s: Step)
    requires Inv(w) && |Exec(w, s).log| > |w.log| && Exec(w, s).log[|w.log|].FlowSwapped?
    ensures LogsLiveFee(w, s, Exec(w, s).log[|w.log|])
  {
    StepLogs(w, s, Apply(w, s).value);
    LoggedNow(w, s.swap, Apply(w, s).value);
  }

  /**
   * In every run each logged swap names the fee that was live when it ran, so the monitor's promise
   * on a deposit is the floor less that live fee on it.
   */
  lemma {:induction false} EveryLoggedFeeWasLive(w0: World, steps: seq<Step>, e: nat) returns (i: nat)
    requires Genesis(w0) && LegalRun(w0, steps)
    requires e < |Run(w0, steps).log| && Run(w0, steps).log[e].FlowSwapped?
    ensures i < |steps| && |Run(w0, steps[..i]).log| == e
    ensures LogsLiveFee(Run(w0, steps[..i]), steps[i], Run(w0, steps).log[e])
  {
    var n := |steps| - 1;
    LastStepLogs(w0, steps);
    if e < |Run(w0, steps[..n]).log| {
      i := EveryLoggedFeeWasLive(w0, steps[..n], e);
      assert steps[..n][..i] == steps[..i];
    } else {
      i := n;
    }
  }

  lemma {:induction false} LastStepLogs(w0: World, steps: seq<Step>)
    requires Genesis(w0) && LegalRun(w0, steps) && Run(w0, steps).log != []
    ensures steps != [] && LegalRun(w0, steps[..|steps| - 1])
    ensures var before, after := Run(w0, steps[..|steps| - 1]), Run(w0, steps);
            && before.log <= after.log && |after.log| <= |before.log| + 1
            && (|after.log| > |before.log| && after.log[|before.log|].FlowSwapped? ==>
                  LogsLiveFee(before, steps[|steps| - 1], after.log[|before.log|]))
  {
    if steps == [] {
      assert false;
    } else {
      var before, s := Run(w0, steps[..|steps| - 1]), steps[|steps| - 1];
      ExecLogs(before, s);
      AlwaysSolvent(w0, steps[..|steps| - 1]);
      if |Exec(before, s).log| > |before.log| && Exec(before, s).log[|before.log|].FlowSwapped? {
        ExecLogsLiveFee(before, s);
      }
    }
  }

  lemma {:induction false} LoggedNow(w: World, a: SwapArgs, w': World)
    requires Inv(w) && Swap(w, a) == Ok(w')
    ensures a.id.pair in w.pairs && |w'.log| == |w.log| + 1 && w'.log[|w.log|].FlowSwapped?
    ensures w'.log[|w.log|].id == a.id
    ensures w'.log[|w.log|].bps == LiveFee(w, a.id)
  {
    SwapFlows(w, a, w');
    var out, bps, fee := SwapEvent(w, a, w');
  }

  // ------------------------------------------------------------ opens and payouts

  function Opens(log: seq<Event>, id: FlowId): nat {
    if log == [] then 0
    else Opens(log[..|log| - 1], id) +
         (if log[|log| - 1].FlowReceived? && log[|log| - 1].id == id then 1 else 0)
  }

  function Payouts(log: seq<Event>, id: FlowId): nat {
    if log == [] then 0
    else Payouts(log[..|log| - 1], id) +
         (if (log[|log| - 1].FlowSent? || log[|log| - 1].FlowRefunded?) && log[|log| - 1].id == id then 1 else 0)
  }

  /** A log without a violation pays every instance once, except one that is still open. */
  lemma {:induction false} AcceptedLogPaysOnce(log: seq<Event>, id: FlowId)
    requires !Watch(log, id).Violation?
    ensures Opens(log, id) == Payouts(log, id) + (if Watch(log, id).Idle? then 0 else 1)
  {
    if log != [] {
      AcceptedLogPaysOnce(log[..|log| - 1], id);
    }
  }

  lemma {:induction false} OpensEqualPayouts(w: World, steps: seq<Step>, id: FlowId)
    requires Genesis(w) && LegalRun(w, steps)
    ensures var r := Run(w, steps);
            Opens(r.log, id) == Payouts(r.log, id) + (if id in r.flows then 1 else 0)
  {
    EveryInstancePaidOnce(w, steps, id);
    AcceptedLogPaysOnce(Run(w, steps).log, id);
  }
}
