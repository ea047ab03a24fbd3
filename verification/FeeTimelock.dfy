/** History properties of the fee timelock over every run of `configure` calls. */
module FeeTimelock {
  import opened Prelude
  import opened Fees

  datatype Call = Call(now: u64, deposit: Option<u16>, withdraw: Option<u16>) {
    function Proposal(leg: Leg): Option<u16> {
      if leg.DepositLeg? then deposit else withdraw
    }
  }

  /** An accepted proposal on one leg, with the slot it was made in. */
  datatype Notice = Notice(bps: u16, slot: u64)

  /** A refused call is rolled back. */
  function Step(s: FeeState, c: Call): FeeState {
    var r := ConfigureFees(s, c.deposit, c.withdraw, c.now);
    if r.Ok? then r.value else s
  }

  function Run(s: FeeState, calls: seq<Call>): FeeState {
    if calls == [] then s else Step(Run(s, calls[..|calls| - 1]), calls[|calls| - 1])
  }

  predicate Chronological(calls: seq<Call>) {
    forall i, j :: 0 <= i < j < |calls| ==> calls[i].now <= calls[j].now
  }

  predicate AtInit(s: FeeState) { s.pending.None? && Validate(s).None? }

  /** The most recent accepted proposal on a leg. */
  function LastNotice(s: FeeState, calls: seq<Call>, leg: Leg): Option<Notice> {
    if calls == [] then None
    else
      var before, c := calls[..|calls| - 1], calls[|calls| - 1];
      if c.Proposal(leg).Some? && ConfigureFees(Run(s, before), c.deposit, c.withdraw, c.now).Ok?
      then Some(Notice(c.Proposal(leg).value, c.now))
      else LastNotice(s, before, leg)
  }

  predicate LegGood(s: FeeState, leg: Leg, notice: Option<Notice>) {
    Staged(s, leg).Some? ==>
      && Staged(s, leg).value > Live(s, leg)
      && notice.Some?
      && notice.value.bps == Staged(s, leg).value
      && notice.value.slot + FEE_TIMELOCK_SLOTS <= s.pending.value.readySlot
  }

  predicate WindowGood(s: FeeState, latest: nat) {
    s.pending.Some? ==> s.pending.value.readySlot <= latest + FEE_TIMELOCK_SLOTS
  }

  function Other(leg: Leg): Leg { if leg.DepositLeg? then WithdrawLeg else DepositLeg }

  lemma {:induction false} ProposeKeeps(s: FeeState, leg: Leg, proposed: u16, now: u64,
                     mine: Option<Notice>, others: Option<Notice>)
    requires Propose(s, leg, proposed, now).Ok?
    requires LegGood(s, leg, mine) && LegGood(s, Other(leg), others) && WindowGood(s, now)
    ensures var s' := Propose(s, leg, proposed, now).value;
            && LegGood(s', leg, Some(Notice(proposed, now)))
            && LegGood(s', Other(leg), others)
            && WindowGood(s', now)
            && (s.pending.Some? && s'.pending.Some? ==> s'.pending.value.readySlot >= s.pending.value.readySlot)
            && (s.pending.None? && s'.pending.Some? ==> s'.pending.value.readySlot == now + FEE_TIMELOCK_SLOTS)
  {
  }

  function Updated(notice: Option<Notice>, proposal: Option<u16>, now: u64): Option<Notice> {
    if proposal.Some? then Some(Notice(proposal.value, now)) else notice
  }

  /** A window that is still open after a call at `now` ends no earlier than this. */
  function EarliestReady(s: FeeState, now: u64): nat {
    if s.pending.Some? then s.pending.value.readySlot else now + FEE_TIMELOCK_SLOTS
  }

  lemma {:induction false} ConfigureKeeps(s: FeeState, c: Call, d: Option<Notice>, w: Option<Notice>)
    requires ConfigureFees(s, c.deposit, c.withdraw, c.now).Ok?
    requires LegGood(s, DepositLeg, d) && LegGood(s, WithdrawLeg, w) && WindowGood(s, c.now)
    ensures var s' := Step(s, c);
            && LegGood(s', DepositLeg, Updated(d, c.deposit, c.now))
            && LegGood(s', WithdrawLeg, Updated(w, c.withdraw, c.now))
            && WindowGood(s', c.now)
            && (s'.pending.Some? ==> s'.pending.value.readySlot >= EarliestReady(s, c.now))
  {
    var s0 := Promote(s, c.now);
    if c.deposit.Some? {
      ProposeKeeps(s0, DepositLeg, c.deposit.value, c.now, d, w);
    }
    var s1 := ProposeIfAny(s0, DepositLeg, c.deposit, c.now).value;
    if c.withdraw.Some? {
      ProposeKeeps(s1, WithdrawLeg, c.withdraw.value, c.now, w, Updated(d, c.deposit, c.now));
    }
  }

  /** What every reachable fee state keeps. */
  lemma {:induction false} RunInvariant(s: FeeState, calls: seq<Call>, latest: nat)
    requires AtInit(s) && Chronological(calls)
    requires forall i :: 0 <= i < |calls| ==> calls[i].now <= latest
    ensures var r := Run(s, calls);
            && Validate(r).None?
            && LegGood(r, DepositLeg, LastNotice(s, calls, DepositLeg))
            && LegGood(r, WithdrawLeg, LastNotice(s, calls, WithdrawLeg))
            && WindowGood(r, latest)
  {
    if calls != [] {
      var before, c := calls[..|calls| - 1], calls[|calls| - 1];
      RunInvariant(s, before, c.now);
      if ConfigureFees(Run(s, before), c.deposit, c.withdraw, c.now).Ok? {
        ConfigureKeeps(Run(s, before), c, LastNotice(s, before, DepositLeg), LastNotice(s, before, WithdrawLeg));
      }
    }
  }

  /**
   * Whenever promotion at slot `t` changes a live leg, it raises it, and the most recent accepted
   * proposal on that leg was exactly the new value, made at least the full timelock earlier.
   */
  lemma {:induction false} PromotionWasNoticed(s: FeeState, calls: seq<Call>, t: u64, leg: Leg)
    requires AtInit(s) && Chronological(calls)
    requires forall i :: 0 <= i < |calls| ==> calls[i].now <= t
    requires Live(Promote(Run(s, calls), t), leg) != Live(Run(s, calls), leg)
    ensures Live(Promote(Run(s, calls), t), leg) > Live(Run(s, calls), leg)
    ensures LastNotice(s, calls, leg).Some?
    ensures LastNotice(s, calls, leg).value.bps == Live(Promote(Run(s, calls), t), leg)
    ensures LastNotice(s, calls, leg).value.slot + FEE_TIMELOCK_SLOTS <= t
  {
    RunInvariant(s, calls, t);
  }

  /** Live and staged fees stay under the cap, and a staged leg is strictly above its live leg. */
  lemma {:induction false} FeesStayCapped(s: FeeState, calls: seq<Call>, leg: Leg)
    requires AtInit(s) && Chronological(calls)
    ensures Live(Run(s, calls), leg) <= MAX_FEE_BPS
    ensures Staged(Run(s, calls), leg).Some? ==>
              Live(Run(s, calls), leg) < Staged(Run(s, calls), leg).value <= MAX_FEE_BPS
  {
    var latest := if calls == [] then 0 else calls[|calls| - 1].now;
    RunInvariant(s, calls, latest);
  }

  /** No later call, not even one that drops and restages the bundle, shortens a pending window. */
  lemma {:induction false} WindowNeverShortens(s: FeeState, early: seq<Call>, late: seq<Call>)
    requires AtInit(s) && Chronological(early + late)
    requires Run(s, early).pending.Some? && Run(s, early + late).pending.Some?
    ensures Run(s, early + late).pending.value.readySlot >= Run(s, early).pending.value.readySlot
  {
    if late == [] {
      assert early + late == early;
    } else {
      var all, c := early + late, late[|late| - 1];
      var before := early + late[..|late| - 1];
      assert all[..|all| - 1] == before && all[|all| - 1] == c;
      assert Chronological(before) by {
        assert forall i :: 0 <= i < |before| ==> before[i] == all[i];
      }
      assert forall i :: 0 <= i < |before| ==> before[i].now <= c.now by {
        assert forall i :: 0 <= i < |before| ==> before[i] == all[i];
      }
      RunInvariant(s, before, c.now);
      assert Run(s, early).pending.value.readySlot <= c.now + FEE_TIMELOCK_SLOTS by {
        assert forall i :: 0 <= i < |early| ==> early[i] == all[i];
        assert all[|all| - 1] == c;
        RunInvariant(s, early, c.now);
      }
      if ConfigureFees(Run(s, before), c.deposit, c.withdraw, c.now).Ok? {
        ConfigureKeeps(Run(s, before), c, LastNotice(s, before, DepositLeg), LastNotice(s, before, WithdrawLeg));
      }
      if Run(s, before).pending.Some? {
        WindowNeverShortens(s, early, late[..|late| - 1]);
      }
    }
  }

  // ------------------------------------------------------ what an accepted call does

  /** A staged change whose window has passed. */
  predicate Ripe(s: FeeState, now: u64) { s.pending.Some? && now >= s.pending.value.readySlot }

  /** The rate in force at a slot: a ripe staged rate, otherwise the recorded live one. */
  function InForce(s: FeeState, leg: Leg, now: u64): u16 {
    if Ripe(s, now) && Staged(s, leg).Some? then Staged(s, leg).value else Live(s, leg)
  }

  /** What becomes of one leg, from the rate in force and the proposal alone. */
  predicate LegSettled(s: FeeState, leg: Leg, proposal: Option<u16>, now: u64, s': FeeState) {
    match proposal
    case None => Live(s', leg) == InForce(s, leg, now) && Staged(s', leg) == if Ripe(s, now) then None else Staged(s, leg)
    case Some(q) =>
      if q <= InForce(s, leg, now) then Live(s', leg) == q && Staged(s', leg).None?
      else Live(s', leg) == InForce(s, leg, now) && Staged(s', leg) == Some(q)
  }

  /** Some proposal of the call is above the rate in force. */
  predicate Raises(s: FeeState, c: Call) {
    || (c.deposit.Some? && c.deposit.value > InForce(s, DepositLeg, c.now))
    || (c.withdraw.Some? && c.withdraw.value > InForce(s, WithdrawLeg, c.now))
  }

  predicate WithinCap(proposal: Option<u16>) { proposal.Some? ==> proposal.value <= 1000 }

  lemma {:induction false} ProposeSettles(s: FeeState, leg: Leg, proposal: Option<u16>, now: u64)
    requires ProposeIfAny(s, leg, proposal, now).Ok? && !Ripe(s, now)
    ensures var s' := ProposeIfAny(s, leg, proposal, now).value;
            && LegSettled(s, leg, proposal, now, s')
            && Live(s', Other(leg)) == Live(s, Other(leg)) && Staged(s', Other(leg)) == Staged(s, Other(leg))
            && !Ripe(s', now)
  {
  }

  /**
   * An accepted call settles both legs: a proposal at or below the rate in force is live at once and
   * clears what was staged, a raise is staged and leaves the rate, and a leg without a proposal takes
   * its ripe rate.
   */
  lemma {:induction false} ConfigureSettles(s: FeeState, c: Call)
    requires ConfigureFees(s, c.deposit, c.withdraw, c.now).Ok?
    ensures var s' := ConfigureFees(s, c.deposit, c.withdraw, c.now).value;
            && LegSettled(s, DepositLeg, c.deposit, c.now, s')
            && LegSettled(s, WithdrawLeg, c.withdraw, c.now, s')
  {
    var s0 := Promote(s, c.now);
    ProposeSettles(s0, DepositLeg, c.deposit, c.now);
    ProposeSettles(ProposeIfAny(s0, DepositLeg, c.deposit, c.now).value, WithdrawLeg, c.withdraw, c.now);
  }

  /** In every history a raise sets the window to exactly one timelock from now; otherwise an unripe window stays. */
  lemma {:induction false} ConfigureWindow(init: FeeState, calls: seq<Call>, c: Call)
    requires AtInit(init) && Chronological(calls) && forall i :: 0 <= i < |calls| ==> calls[i].now <= c.now
    requires ConfigureFees(Run(init, calls), c.deposit, c.withdraw, c.now).Ok?
    ensures var s, s' := Run(init, calls), Step(Run(init, calls), c);
            s'.pending.Some? ==>
              if Raises(s, c) then s'.pending.value.readySlot == c.now + FEE_TIMELOCK_SLOTS
              else s.pending.Some? && !Ripe(s, c.now) && s'.pending.value.readySlot == s.pending.value.readySlot
  {
    RunInvariant(init, calls, c.now);
  }

  /** A call on valid fees is refused only for a proposal above ten percent, or a raise too late for the clock. */
  lemma {:induction false} ConfigureSucceedsIff(s: FeeState, c: Call)
    requires Validate(s).None?
    ensures ConfigureFees(s, c.deposit, c.withdraw, c.now).Ok? <==>
              && WithinCap(c.deposit) && WithinCap(c.withdraw)
              && (Raises(s, c) ==> c.now + FEE_TIMELOCK_SLOTS <= U64_MAX)
  {
  }

  predicate Latest(s: FeeState, leg: Leg, init: FeeState, notice: Option<Notice>) {
    var value := if notice.Some? then notice.value.bps else Live(init, leg);
    if Staged(s, leg).Some? then Staged(s, leg).value == value else Live(s, leg) == value
  }

  /** In every history the last accepted proposal on a leg is staged or live; nothing else ever is. */
  lemma {:induction false} LatestProposalRules(s: FeeState, calls: seq<Call>, leg: Leg)
    requires AtInit(s)
    ensures Latest(Run(s, calls), leg, s, LastNotice(s, calls, leg))
  {
    if calls != [] {
      var before, c := calls[..|calls| - 1], calls[|calls| - 1];
      LatestProposalRules(s, before, leg);
      if ConfigureFees(Run(s, before), c.deposit, c.withdraw, c.now).Ok? {
        ConfigureSettles(Run(s, before), c);
      }
    }
  }

  /** A raise left alone for the timelock is live after the next accepted call without a proposal on that leg. */
  lemma {:induction false} RaiseLands(s: FeeState, calls: seq<Call>, c: Call, leg: Leg)
    requires AtInit(s) && Chronological(calls) && Staged(Run(s, calls), leg).Some?
    requires forall i :: 0 <= i < |calls| ==> calls[i].now + FEE_TIMELOCK_SLOTS <= c.now
    requires ConfigureFees(Run(s, calls), c.deposit, c.withdraw, c.now).Ok? && c.Proposal(leg).None?
    ensures LastNotice(s, calls, leg).Some?
    ensures var s' := Step(Run(s, calls), c);
            Live(s', leg) == LastNotice(s, calls, leg).value.bps && Staged(s', leg).None?
  {
    RunInvariant(s, calls, c.now - FEE_TIMELOCK_SLOTS);
    ConfigureSettles(Run(s, calls), c);
  }

  // ------------------------------------------------- what an observer can rely on

  function Ceiling(s: FeeState, leg: Leg): nat {
    if Staged(s, leg).Some? then Max(Live(s, leg), Staged(s, leg).value) else Live(s, leg)
  }

  predicate Bounded(s: FeeState, leg: Leg, ceiling: nat, horizon: nat) {
    && Live(s, leg) <= ceiling
    && (Staged(s, leg).Some? ==> Staged(s, leg).value <= ceiling || s.pending.value.readySlot >= horizon)
  }

  lemma {:induction false} ProposeBounded(s: FeeState, leg: Leg, on: Leg, proposed: u16, now: u64, ceiling: nat, horizon: nat)
    requires Propose(s, on, proposed, now).Ok?
    requires Bounded(s, leg, ceiling, horizon) && now + FEE_TIMELOCK_SLOTS >= horizon
    ensures Bounded(Propose(s, on, proposed, now).value, leg, ceiling, horizon)
  {
  }

  lemma {:induction false} StepBounded(s: FeeState, c: Call, leg: Leg, ceiling: nat, horizon: nat)
    requires Bounded(s, leg, ceiling, horizon)
    requires c.now < horizon <= c.now + FEE_TIMELOCK_SLOTS
    ensures Bounded(Step(s, c), leg, ceiling, horizon)
  {
    if ConfigureFees(s, c.deposit, c.withdraw, c.now).Ok? {
      var s0 := Promote(s, c.now);
      if c.deposit.Some? {
        ProposeBounded(s0, leg, DepositLeg, c.deposit.value, c.now, ceiling, horizon);
      }
      var s1 := ProposeIfAny(s0, DepositLeg, c.deposit, c.now).value;
      if c.withdraw.Some? {
        ProposeBounded(s1, leg, WithdrawLeg, c.withdraw.value, c.now, ceiling, horizon);
      }
    }
  }

  /**
   * From any fee state seen at slot `t`, whatever the authority does in the next
   * FEE_TIMELOCK_SLOTS slots, no leg exceeds what was then live or already staged.
   */
  lemma {:induction false} TwoDaysNotice(s: FeeState, calls: seq<Call>, t: nat, leg: Leg)
    requires forall i :: 0 <= i < |calls| ==> t <= calls[i].now < t + FEE_TIMELOCK_SLOTS
    ensures Live(Run(s, calls), leg) <= Ceiling(s, leg)
    ensures Bounded(Run(s, calls), leg, Ceiling(s, leg), t + FEE_TIMELOCK_SLOTS)
  {
    if calls != [] {
      TwoDaysNotice(s, calls[..|calls| - 1], t, leg);
      StepBounded(Run(s, calls[..|calls| - 1]), calls[|calls| - 1], leg, Ceiling(s, leg), t + FEE_TIMELOCK_SLOTS);
    }
  }
}
