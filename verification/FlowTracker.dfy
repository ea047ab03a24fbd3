/** The cranker's per-flow processing states: dispatch, back-off, quarantine. Times are milliseconds. */
module FlowTracker {
  import opened Prelude
  import opened Arithmetic
  import opened Bounded

  datatype ProcState =
    | InFlight(startedAt: int, attempts: nat)
    | Cooldown(until: int, attempts: nat)
    | Poisoned(firstSeenAt: int, attempts: nat, lastErrorClass: string)

  datatype Options = Options(cooldownBase: nat, cooldownMax: nat, poisonThreshold: int, inFlightTimeout: int,
                             maxEntries: nat)

  const DEFAULTS := Options(30_000, 60 * 60_000, 8, 5 * 60_000, 10_000)

  // ------------------------------------------------------ one flow, as a state machine

  type Slot = Option<ProcState>

  /** Idle is absence. A stale dispatch and an expired cooldown keep their attempt count. */
  function Begin(o: Options, s: Slot, now: int): (Slot, bool) {
    match s
    case None => (Some(InFlight(now, 0)), true)
    case Some(InFlight(started, n)) =>
      if now - started < o.inFlightTimeout then (s, false) else (Some(InFlight(now, n)), true)
    case Some(Cooldown(until, n)) => if now < until then (s, false) else (Some(InFlight(now, n)), true)
    case Some(Poisoned(_, _, _)) => (s, false)
  }

  function KindName(s: ProcState): string {
    if s.InFlight? then "inFlight" else if s.Cooldown? then "cooldown" else "poisoned"
  }

  function Attempts(s: Slot): nat { if s.None? then 0 else s.value.attempts }

  /** The wait after the n-th consecutive error. */
  function Backoff(o: Options, n: nat): nat
    requires n > 0
  {
    if o.cooldownBase * Pow(2, n - 1) <= o.cooldownMax then o.cooldownBase * Pow(2, n - 1) else o.cooldownMax
  }

  function Failed(o: Options, s: Slot, errorClass: string, now: int): ProcState {
    var n := Attempts(s) + 1;
    if n >= o.poisonThreshold then
      Poisoned(if s.Some? && s.value.Poisoned? then s.value.firstSeenAt else now, n, errorClass)
    else Cooldown(now + Backoff(o, n), n)
  }

  function Cleared(s: Slot): Slot { if s.Some? && s.value.InFlight? then s else None }

  // ------------------------------------------------------------------- the tracker

  type States = Ordered<string, ProcState>

  function Lookup(m: map<string, ProcState>, flow: string): Slot { if flow in m then Some(m[flow]) else None }

  function BackingOff(m: map<string, ProcState>): set<string> { set k | k in m && !m[k].InFlight? }

  function DeleteMany(o: States, gone: set<string>): States {
    Ordered(Without(o.order, gone), o.entries - gone)
  }

  lemma {:induction false} DeleteOneMore(o: States, gone: set<string>, k: string)
    ensures Delete(DeleteMany(o, gone), k) == DeleteMany(o, gone + {k})
  {
    WithoutTwice(o.order, gone, {k});
  }

  function ClearedStates(o: States): States { DeleteMany(o, BackingOff(o.entries)) }

  function Members(keys: seq<string>): set<string> { set k | k in keys }

  class FlowStateTracker {
    const opts: Options
    const states: BoundedMap<string, ProcState>

    ghost predicate Valid()
      reads this, states
    {
      states.Valid() && states.max == opts.maxEntries
    }

    constructor (opts: Options)
      requires opts.maxEntries > 0
      ensures Valid() && this.opts == opts && fresh(states) && states.View() == Ordered([], map[])
    {
      this.opts := opts;
      states := new BoundedMap<string, ProcState>(opts.maxEntries);
    }

    /** Takes the dispatch slot, or says what the flow is busy with. */
    method BeginIfReady(flow: string, now: int) returns (allowed: bool, reason: Option<string>)
      requires Valid()
      modifies states
      ensures Valid()
      ensures var (next, ok) := Begin(opts, Lookup(old(states.entries), flow), now);
              && allowed == ok
              && reason == (if ok then None else Some(KindName(old(states.entries)[flow])))
              && states.View() == if ok then PutBounded(old(states.View()), opts.maxEntries, flow, next.value)
                                  else old(states.View())
      ensures states.View() == TrackerNext(opts, old(states.View()), ForFlow(flow, DoBegin(now)))
    {
      var cur := states.Get(flow);
      var prior := 0;
      if cur.Some? {
        if cur.value.InFlight? {
          if now - cur.value.startedAt < opts.inFlightTimeout {
            return false, Some("inFlight");
          }
          prior := cur.value.attempts;
        } else if cur.value.Cooldown? {
          if now < cur.value.until {
            return false, Some("cooldown");
          }
          prior := cur.value.attempts;
        } else {
          return false, Some("poisoned");
        }
      }
      states.Set(flow, InFlight(now, prior));
      allowed, reason := true, None;
    }

    method RecordSuccess(flow: string)
      requires Valid()
      modifies states
      ensures Valid() && states.View() == Delete(old(states.View()), flow)
      ensures states.View() == TrackerNext(opts, old(states.View()), ForFlow(flow, DoSuccess))
    {
      states.Remove(flow);
    }

    method RecordError(flow: string, errorClass: string, now: int) returns (next: ProcState)
      requires Valid()
      modifies states
      ensures Valid() && next == Failed(opts, Lookup(old(states.entries), flow), errorClass, now)
      ensures states.View() == PutBounded(old(states.View()), opts.maxEntries, flow, next)
      ensures states.View() == TrackerNext(opts, old(states.View()), ForFlow(flow, DoError(errorClass, now)))
    {
      var prev := states.Get(flow);
      var attempts := (if prev.Some? then prev.value.attempts else 0) + 1;
      if attempts >= opts.poisonThreshold {
        var firstSeenAt := if prev.Some? && prev.value.Poisoned? then prev.value.firstSeenAt else now;
        next := Poisoned(firstSeenAt, attempts, errorClass);
      } else {
        next := Cooldown(now + Min(opts.cooldownBase * Pow(2, attempts - 1), opts.cooldownMax), attempts);
      }
      states.Set(flow, next);
    }

    /** Drops every backing-off flow; dispatches that are running stay. */
    method ClearBackoff() returns (poisoned: seq<string>, cooldown: seq<string>)
      requires Valid()
      modifies states
      ensures Valid() && states.View() == TrackerNext(opts, old(states.View()), ClearAll)
      ensures forall k :: k in poisoned <==> k in old(states.entries) && old(states.entries)[k].Poisoned?
      ensures forall k :: k in cooldown <==> k in old(states.entries) && old(states.entries)[k].Cooldown?
    {
      poisoned, cooldown := [], [];
      var order := states.order;
      for i := 0 to |order|
        invariant forall k :: k in poisoned <==> k in order[..i] && states.entries[k].Poisoned?
        invariant forall k :: k in cooldown <==> k in order[..i] && states.entries[k].Cooldown?
      {
        assert order[..i + 1] == order[..i] + [order[i]];
        var s := states.entries[order[i]];
        if s.Poisoned? {
          poisoned := poisoned + [order[i]];
        } else if s.Cooldown? {
          cooldown := cooldown + [order[i]];
        }
      }
      assert order[..|order|] == order;
      DropAll(poisoned + cooldown);
      assert Members(poisoned + cooldown) == BackingOff(old(states.entries));
    }

    method DropAll(keys: seq<string>)
      requires Valid()
      modifies states
      ensures Valid() && states.View() == DeleteMany(old(states.View()), Members(keys))
    {
      WithoutNothing(states.order, {});
      assert Members(keys[..0]) == {} && states.entries - {} == states.entries;
      for i := 0 to |keys|
        invariant Valid()
        invariant states.View() == DeleteMany(old(states.View()), Members(keys[..i]))
      {
        DeleteOneMore(old(states.View()), Members(keys[..i]), keys[i]);
        assert Members(keys[..i + 1]) == Members(keys[..i]) + {keys[i]};
        states.Remove(keys[i]);
      }
      assert keys[..|keys|] == keys;
    }
  }

  // ----------------------------------------------------------- one flow over whole runs

  datatype Act = DoBegin(now: int) | DoSuccess | DoError(errorClass: string, now: int) | DoClear

  function Next(o: Options, s: Slot, a: Act): Slot {
    match a
    case DoBegin(now) => Begin(o, s, now).0
    case DoSuccess => None
    case DoError(c, now) => Some(Failed(o, s, c, now))
    case DoClear => Cleared(s)
  }

  function Run(o: Options, acts: seq<Act>): Slot {
    if acts == [] then None else Next(o, Run(o, acts[..|acts| - 1]), acts[|acts| - 1])
  }

  predicate Allowed(o: Options, acts: seq<Act>, i: nat)
    requires i < |acts|
  {
    acts[i].DoBegin? && Begin(o, Run(o, acts[..i]), acts[i].now).1
  }

  predicate IsRecord(a: Act) { a.DoSuccess? || a.DoError? }

  /** An allowed begin with no record since. */
  function Outstanding(o: Options, acts: seq<Act>): bool {
    if acts == [] then false
    else
      var n := |acts| - 1;
      if IsRecord(acts[n]) then false
      else Allowed(o, acts, n) || Outstanding(o, acts[..n])
  }

  /** Errors since the last success, or the last clear that found nothing outstanding. */
  function ErrorsSinceReset(o: Options, acts: seq<Act>): nat {
    if acts == [] then 0
    else
      var n := |acts| - 1;
      match acts[n]
      case DoSuccess => 0
      case DoError(_, _) => ErrorsSinceReset(o, acts[..n]) + 1
      case DoClear => if Outstanding(o, acts[..n]) then ErrorsSinceReset(o, acts[..n]) else 0
      case DoBegin(_) => ErrorsSinceReset(o, acts[..n])
  }

  /** `attempts` counts consecutive errors, and a flow is in flight exactly while a begin is outstanding. */
  lemma {:induction false} AttemptsCountErrors(o: Options, acts: seq<Act>)
    ensures Attempts(Run(o, acts)) == ErrorsSinceReset(o, acts)
    ensures (Run(o, acts).Some? && Run(o, acts).value.InFlight?) <==> Outstanding(o, acts)
  {
    if acts != [] {
      var n := |acts| - 1;
      AttemptsCountErrors(o, acts[..n]);
    }
  }

  predicate Timed(a: Act) { a.DoBegin? || a.DoError? }

  predicate Chronological(acts: seq<Act>) {
    forall i, j :: 0 <= i < j < |acts| && Timed(acts[i]) && Timed(acts[j]) ==> acts[i].now <= acts[j].now
  }

  /** After an allowed begin and no record, the flow is in flight since no earlier than that begin. */
  lemma {:induction false} StaysInFlight(o: Options, acts: seq<Act>, i: nat)
    requires Chronological(acts) && i < |acts| && Allowed(o, acts, i)
    requires forall k :: i < k < |acts| ==> !IsRecord(acts[k])
    ensures Run(o, acts).Some? && Run(o, acts).value.InFlight? && Run(o, acts).value.startedAt >= acts[i].now
    decreases |acts|
  {
    var n := |acts| - 1;
    if i < n {
      assert acts[..n][..i] == acts[..i];
      StaysInFlight(o, acts[..n], i);
    }
  }

  /** Two allowed begins with no record between them are at least the in-flight timeout apart. */
  lemma {:induction false} BeginsAreSpaced(o: Options, acts: seq<Act>, i: nat, j: nat)
    requires Chronological(acts) && i < j < |acts| && Allowed(o, acts, i) && Allowed(o, acts, j)
    requires forall k :: i < k < j ==> !IsRecord(acts[k])
    ensures acts[j].now - acts[i].now >= o.inFlightTimeout
  {
    assert acts[..j][..i] == acts[..i];
    StaysInFlight(o, acts[..j], i);
  }

  /** Only the threshold poisons a flow. */
  lemma {:induction false} PoisonedPastThreshold(o: Options, acts: seq<Act>)
    ensures Run(o, acts).Some? && Run(o, acts).value.Poisoned? ==> Attempts(Run(o, acts)) >= o.poisonThreshold
  {
    if acts != [] {
      PoisonedPastThreshold(o, acts[..|acts| - 1]);
    }
  }

  /** A poisoned flow is never dispatched again before a clear or a recorded success. */
  lemma {:induction false} PoisonedStaysPoisoned(o: Options, acts: seq<Act>, more: seq<Act>)
    requires Run(o, acts).Some? && Run(o, acts).value.Poisoned?
    requires forall a :: a in more ==> !a.DoClear? && !a.DoSuccess?
    ensures Run(o, acts + more).Some? && Run(o, acts + more).value.Poisoned?
    ensures Run(o, acts + more).value.firstSeenAt == Run(o, acts).value.firstSeenAt
    ensures forall now :: !Begin(o, Run(o, acts + more), now).1
  {
    if more == [] {
      assert acts + more == acts;
    } else {
      PoisonedStaysPoisoned(o, acts, more[..|more| - 1]);
      assert (acts + more)[..|acts + more| - 1] == acts + more[..|more| - 1];
      PoisonedPastThreshold(o, acts + more[..|more| - 1]);
    }
  }

  /** In every history a flow is poisoned exactly when its streak of errors has reached the threshold. */
  lemma {:induction false} PoisonedIff(o: Options, acts: seq<Act>)
    ensures (Run(o, acts).Some? && Run(o, acts).value.Poisoned?) <==>
              ErrorsSinceReset(o, acts) > 0 && ErrorsSinceReset(o, acts) >= o.poisonThreshold
  {
    if acts != [] {
      PoisonedIff(o, acts[..|acts| - 1]);
      AttemptsCountErrors(o, acts[..|acts| - 1]);
    }
  }

  /** Quarantine records the latest error, and since when the flow has been in it. */
  lemma {:induction false} PoisonRecords(o: Options, acts: seq<Act>, errorClass: string, at: int)
    requires ErrorsSinceReset(o, acts) + 1 >= o.poisonThreshold
    ensures var before, after := Run(o, acts), Run(o, acts + [DoError(errorClass, at)]);
            && after.Some? && after.value.Poisoned? && after.value.lastErrorClass == errorClass
            && after.value.firstSeenAt == (if before.Some? && before.value.Poisoned? then before.value.firstSeenAt else at)
  {
    RunLast(o, acts, DoError(errorClass, at));
    AttemptsCountErrors(o, acts);
  }

  lemma {:induction false} RunLast(o: Options, acts: seq<Act>, a: Act)
    ensures Run(o, acts + [a]) == Next(o, Run(o, acts), a)
  {
    assert (acts + [a])[..|acts|] == acts;
  }

  /** The wait after the n-th error of a streak: doubled each time, up to the maximum. */
  function WaitAfter(o: Options, n: nat): nat {
    if n <= 1 then Min(o.cooldownBase, o.cooldownMax) else Min(2 * WaitAfter(o, n - 1), o.cooldownMax)
  }

  lemma {:induction false} CapTwice(x: nat, max: nat)
    ensures Min(2 * Min(x, max), max) == Min(2 * x, max)
  {
  }

  lemma {:induction false} BackoffIsWait(o: Options, n: nat)
    requires n > 0
    ensures Backoff(o, n) == WaitAfter(o, n)
  {
    if n > 1 {
      BackoffIsWait(o, n - 1);
      var p := Pow(2, n - 2);
      assert Pow(2, n - 1) == 2 * p;
      Reassociate(o.cooldownBase, 2, p);
      CapTwice(o.cooldownBase * p, o.cooldownMax);
    } else {
      assert Pow(2, 0) == 1;
    }
  }

  /** After an error below the threshold the flow is dispatched again exactly once its wait is over. */
  lemma {:induction false} RetriedAfterWait(o: Options, acts: seq<Act>, errorClass: string, at: int, now: int)
    requires ErrorsSinceReset(o, acts) + 1 < o.poisonThreshold
    ensures Begin(o, Run(o, acts + [DoError(errorClass, at)]), now).1 <==>
              now >= at + WaitAfter(o, ErrorsSinceReset(o, acts) + 1)
  {
    RunLast(o, acts, DoError(errorClass, at));
    AttemptsCountErrors(o, acts);
    BackoffIsWait(o, ErrorsSinceReset(o, acts) + 1);
  }

  /** A dispatch that is never answered is given up exactly after the in-flight timeout. */
  lemma {:induction false} StaleDispatchRetried(o: Options, acts: seq<Act>, at: int, now: int)
    requires Begin(o, Run(o, acts), at).1
    ensures Begin(o, Run(o, acts + [DoBegin(at)]), now).1 <==> now - at >= o.inFlightTimeout
  {
    RunLast(o, acts, DoBegin(at));
  }

  /** A flow without history, after a success, or cleared while not in flight, is dispatched at once. */
  lemma {:induction false} IdleIsDispatched(o: Options, acts: seq<Act>, now: int)
    ensures Begin(o, Run(o, []), now).1 && Begin(o, Run(o, acts + [DoSuccess]), now).1
    ensures !Outstanding(o, acts) ==> Begin(o, Run(o, acts + [DoClear]), now).1
  {
    RunLast(o, acts, DoSuccess);
    RunLast(o, acts, DoClear);
    AttemptsCountErrors(o, acts);
  }

  // ------------------------------------------------------------- time to quarantine

  /** The sum of the first n back-offs. */
  function BackoffSum(o: Options, n: nat): nat {
    if n == 0 then 0 else BackoffSum(o, n - 1) + Backoff(o, n)
  }

  /** Begin-then-record: an error is recorded only for a dispatch that is in flight. */
  predicate Contract(o: Options, acts: seq<Act>) {
    forall i :: 0 <= i < |acts| && acts[i].DoError? ==> Outstanding(o, acts[..i])
  }

  /** The time of the first error of the current streak. */
  function StreakStart(o: Options, acts: seq<Act>): int {
    if acts == [] then 0
    else
      var n := |acts| - 1;
      if acts[n].DoError? && ErrorsSinceReset(o, acts[..n]) == 0 then acts[n].now
      else StreakStart(o, acts[..n])
  }

  /** How far the current streak must have lasted, given the state it reached. */
  predicate Paced(o: Options, s: Slot, start: int, latest: int) {
    Attempts(s) > 0 ==>
      match s.value
      case InFlight(t, n) => start + BackoffSum(o, n) <= t <= latest
      case Cooldown(until, n) => start + BackoffSum(o, n) <= until
      case Poisoned(t, n, _) => start + BackoffSum(o, n - 1) <= t && n >= o.poisonThreshold
  }

  predicate StartsBy(s: Slot, latest: int) { s.Some? && s.value.InFlight? ==> s.value.startedAt <= latest }

  lemma {:induction false} StepPaced(o: Options, s: Slot, a: Act, start: int, latest: int, latest': int)
    requires Paced(o, s, start, latest) && StartsBy(s, latest) && latest <= latest'
    requires Timed(a) ==> a.now == latest'
    requires a.DoError? ==> s.Some? && s.value.InFlight?
    ensures Paced(o, Next(o, s, a), if a.DoError? && Attempts(s) == 0 then a.now else start, latest')
    ensures StartsBy(Next(o, s, a), latest')
  {
    if a.DoError? {
      var n := Attempts(s) + 1;
      assert BackoffSum(o, n) == BackoffSum(o, n - 1) + Backoff(o, n);
    }
  }

  lemma {:induction false} RunPaced(o: Options, acts: seq<Act>, latest: int)
    requires Chronological(acts) && Contract(o, acts)
    requires forall i :: 0 <= i < |acts| && Timed(acts[i]) ==> acts[i].now <= latest
    ensures Paced(o, Run(o, acts), StreakStart(o, acts), latest) && StartsBy(Run(o, acts), latest)
  {
    if acts != [] {
      var n := |acts| - 1;
      var before, a := acts[..n], acts[n];
      assert forall i :: 0 <= i < n ==> before[..i] == acts[..i];
      AttemptsCountErrors(o, before);
      if Timed(a) {
        RunPaced(o, before, a.now);
        StepPaced(o, Run(o, before), a, StreakStart(o, before), a.now, a.now);
      } else {
        RunPaced(o, before, latest);
        StepPaced(o, Run(o, before), a, StreakStart(o, before), latest, latest);
      }
      WidenPaced(o, Run(o, acts), StreakStart(o, acts), if Timed(a) then a.now else latest, latest);
    }
  }

  lemma {:induction false} WidenPaced(o: Options, s: Slot, start: int, latest: int, latest': int)
    requires Paced(o, s, start, latest) && StartsBy(s, latest) && latest <= latest'
    ensures Paced(o, s, start, latest') && StartsBy(s, latest')
  {
  }

  lemma {:induction false} SumMonotone(o: Options, m: nat, n: nat)
    requires m <= n
    ensures BackoffSum(o, m) <= BackoffSum(o, n)
  {
    if m < n {
      SumMonotone(o, m, n - 1);
    }
  }

  /** Quarantine comes no sooner after the first error than the sum of the back-offs below the threshold. */
  lemma {:induction false} QuarantineTakesTime(o: Options, acts: seq<Act>)
    requires Chronological(acts) && Contract(o, acts) && o.poisonThreshold >= 1
    requires Run(o, acts).Some? && Run(o, acts).value.Poisoned?
    ensures Run(o, acts).value.firstSeenAt - StreakStart(o, acts) >= BackoffSum(o, o.poisonThreshold - 1)
  {
    var latest := LatestTime(acts);
    RunPaced(o, acts, latest);
    PoisonedHasAttempts(o, acts);
    SumMonotone(o, o.poisonThreshold - 1, Attempts(Run(o, acts)) - 1);
  }

  lemma {:induction false} PoisonedHasAttempts(o: Options, acts: seq<Act>)
    ensures Run(o, acts).Some? && Run(o, acts).value.Poisoned? ==> Attempts(Run(o, acts)) > 0
  {
    if acts != [] {
      PoisonedHasAttempts(o, acts[..|acts| - 1]);
    }
  }

  lemma {:induction false} LatestTime(acts: seq<Act>) returns (latest: int)
    ensures forall i :: 0 <= i < |acts| && Timed(acts[i]) ==> acts[i].now <= latest
  {
    if acts == [] {
      latest := 0;
    } else {
      var n := |acts| - 1;
      latest := LatestTime(acts[..n]);
      if Timed(acts[n]) && acts[n].now > latest {
        latest := acts[n].now;
      }
      assert forall i :: 0 <= i < n ==> acts[..n][i] == acts[i];
    }
  }

  /** With the default settings that is 63.5 minutes. */
  lemma {:induction false} DefaultQuarantine()
    ensures BackoffSum(DEFAULTS, DEFAULTS.poisonThreshold - 1) == 3_810_000
  {
    assert Pow(2, 3) == 8 && Pow(2, 6) == 8 * Pow(2, 3);
    assert Pow(2, 4) == 16 && Pow(2, 5) == 32;
    assert BackoffSum(DEFAULTS, 3) == 210_000;
    assert BackoffSum(DEFAULTS, 5) == 930_000;
  }

  // ------------------------------------------------- many flows share one bounded map

  datatype TrackerAct = ForFlow(flow: string, act: Act) | ClearAll

  predicate TrackerActOk(a: TrackerAct) { a.ForFlow? ==> !a.act.DoClear? }

  /** What the tracker's operations do, as a function. */
  function TrackerNext(o: Options, s: States, a: TrackerAct): States {
    match a
    case ClearAll => ClearedStates(s)
    case ForFlow(f, act) =>
      var next := Next(o, Lookup(s.entries, f), act);
      if act.DoSuccess? then Delete(s, f)
      else if act.DoBegin? && !Begin(o, Lookup(s.entries, f), act.now).1 then s
      else if next.Some? then PutBounded(s, o.maxEntries, f, next.value)
      else s
  }

  function TrackerRun(o: Options, acts: seq<TrackerAct>): States {
    if acts == [] then Ordered([], map[])
    else TrackerNext(o, TrackerRun(o, acts[..|acts| - 1]), acts[|acts| - 1])
  }

  /** One flow's own history: its operations, and every clear. */
  function Project(acts: seq<TrackerAct>, flow: string): seq<Act> {
    if acts == [] then []
    else
      var before, a := Project(acts[..|acts| - 1], flow), acts[|acts| - 1];
      if a.ClearAll? then before + [DoClear]
      else if a.flow == flow then before + [a.act]
      else before
  }

  /** The operation at the end of `acts` adds no key beyond the limit. */
  predicate RoomFor(o: Options, s: States, a: TrackerAct) {
    a.ForFlow? ==> a.flow in s.entries || |s.order| < o.maxEntries
  }

  predicate NoEviction(o: Options, acts: seq<TrackerAct>) {
    forall i :: 0 <= i < |acts| ==> RoomFor(o, TrackerRun(o, acts[..i]), acts[i])
  }

  lemma {:induction false} TrackerOk(o: Options, acts: seq<TrackerAct>)
    requires o.maxEntries > 0
    ensures OrderedOk(TrackerRun(o, acts)) && |TrackerRun(o, acts).order| <= o.maxEntries
  {
    if acts != [] {
      var s, a := TrackerRun(o, acts[..|acts| - 1]), acts[|acts| - 1];
      TrackerOk(o, acts[..|acts| - 1]);
      if a.ClearAll? {
        WithoutMembers(s.order, BackingOff(s.entries));
      } else {
        DeleteOk(s, a.flow);
        WithoutMembers(s.order, {a.flow});
        var next := Next(o, Lookup(s.entries, a.flow), a.act);
        if next.Some? {
          PutBoundedOk(s, o.maxEntries, a.flow, next.value);
        }
      }
    }
  }

  /** One step, seen from one flow. */
  lemma {:induction false} StepFromFlow(o: Options, s: States, a: TrackerAct, flow: string)
    requires OrderedOk(s) && TrackerActOk(a) && RoomFor(o, s, a)
    ensures Lookup(TrackerNext(o, s, a).entries, flow) ==
            match a
            case ClearAll => Next(o, Lookup(s.entries, flow), DoClear)
            case ForFlow(f, act) => if f == flow then Next(o, Lookup(s.entries, flow), act) else Lookup(s.entries, flow)
  {
  }

  lemma {:induction false} ProjectStep(acts: seq<TrackerAct>, flow: string)
    requires acts != []
    ensures var before, a := Project(acts[..|acts| - 1], flow), acts[|acts| - 1];
            && (a.ClearAll? ==> Project(acts, flow) == before + [DoClear])
            && (a.ForFlow? ==> Project(acts, flow) == if a.flow == flow then before + [a.act] else before)
  {
  }

  /** While no key is evicted, each flow goes through exactly its own state machine. */
  lemma {:induction false} FlowsAreIndependent(o: Options, acts: seq<TrackerAct>, flow: string)
    requires o.maxEntries > 0 && NoEviction(o, acts) && forall a :: a in acts ==> TrackerActOk(a)
    ensures Lookup(TrackerRun(o, acts).entries, flow) == Run(o, Project(acts, flow))
  {
    if acts != [] {
      var n := |acts| - 1;
      var before, a := acts[..n], acts[n];
      assert NoEviction(o, before) by {
        assert forall i :: 0 <= i < n ==> before[..i] == acts[..i];
      }
      FlowsAreIndependent(o, before, flow);
      TrackerOk(o, before);
      StepFromFlow(o, TrackerRun(o, before), a, flow);
      ProjectStep(acts, flow);
      RunLast(o, Project(before, flow), if a.ClearAll? then DoClear else a.act);
    }
  }
}
