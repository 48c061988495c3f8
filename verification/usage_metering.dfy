/** Usage metering and quotas, services/usage_metering.py, as the call path of
    gateway/mcp_server.py uses them: a call is admitted on a snapshot of the counters and
    recorded only when it has run, so concurrent calls can overshoot a limit, by a bounded
    amount. Counters are kept per tenant and period; this is one such pair. */
module UsageMetering {
  import opened Wrappers

  /** Python integers from outside: negative ones count as zero. */
  function NonNegative(value: int): nat {
    if value < 0 then 0 else value
  }

  datatype Usage = Usage(calls: nat, sandboxMs: nat)

  /** A limit of zero is no limit. */
  datatype Quota = Quota(callsLimit: nat, sandboxSecondsLimit: nat)

  datatype Refusal = CallsLimitExceeded | SandboxSecondsLimitExceeded | SandboxQuotaPreflight

  function CheckQuota(usage: Usage, quota: Quota): Option<Refusal> {
    if quota.callsLimit > 0 && usage.calls >= quota.callsLimit then Some(CallsLimitExceeded)
    else if quota.sandboxSecondsLimit > 0 && usage.sandboxMs >= quota.sandboxSecondsLimit * 1000 then Some(SandboxSecondsLimitExceeded)
    else None
  }

  function CheckSandboxPreflight(usage: Usage, quota: Quota, projectedMs: int): Option<Refusal> {
    if quota.sandboxSecondsLimit <= 0 then None
    else if NonNegative(projectedMs) > quota.sandboxSecondsLimit * 1000 - usage.sandboxMs then Some(SandboxQuotaPreflight)
    else None
  }

  /** The counters of one tenant and period. */
  class UsageCounter {
    var calls: nat
    var sandboxMs: nat

    ghost function State(): Usage
      reads this
    {
      Usage(calls, sandboxMs)
    }

    constructor ()
      ensures State() == Usage(0, 0)
    {
      calls, sandboxMs := 0, 0;
    }

    method RecordUsage(callDelta: int, msDelta: int) returns (usage: Usage)
      modifies this
      ensures calls == old(calls) + if callDelta > 0 then callDelta else 0
      ensures sandboxMs == old(sandboxMs) + if msDelta > 0 then msDelta else 0
      ensures usage == State()
    {
      var newCalls, newMs := NonNegative(callDelta), NonNegative(msDelta);
      if newCalls > 0 {
        calls := calls + newCalls;
      }
      if newMs > 0 {
        sandboxMs := sandboxMs + newMs;
      }
      usage := Usage(calls, sandboxMs);
    }

    /** The admission gate on the counters as they are now. */
    method Admit(quota: Quota, projectedMs: Option<int>) returns (refusal: Option<Refusal>)
      ensures refusal == Refuses(State(), quota, projectedMs)
      ensures refusal.None? <==>
                && (quota.callsLimit == 0 || calls < quota.callsLimit)
                && (quota.sandboxSecondsLimit == 0 || sandboxMs < quota.sandboxSecondsLimit * 1000)
                && (quota.sandboxSecondsLimit == 0 || projectedMs.None? || sandboxMs + projectedMs.value <= quota.sandboxSecondsLimit * 1000)
    {
      var usage := Usage(calls, sandboxMs);
      refusal := CheckQuota(usage, quota);
      if refusal.None? && projectedMs.Some? {
        refusal := CheckSandboxPreflight(usage, quota, projectedMs.value);
      }
    }
  }

  /** `projected` is set for code tools when the preflight is enabled. */
  function Refuses(usage: Usage, quota: Quota, projected: Option<int>): Option<Refusal> {
    if CheckQuota(usage, quota).Some? then CheckQuota(usage, quota)
    else if projected.Some? then CheckSandboxPreflight(usage, quota, projected.value)
    else None
  }

  /** A limit of zero never refuses; any other does exactly when it is reached, or when the
      projection would take the sandbox time beyond it, and the first that applies is named. */
  lemma RefusesExactly(usage: Usage, quota: Quota, projected: Option<int>)
    ensures var calls := quota.callsLimit > 0 && quota.callsLimit <= usage.calls;
            var time := quota.sandboxSecondsLimit > 0 && quota.sandboxSecondsLimit * 1000 <= usage.sandboxMs;
            var over := quota.sandboxSecondsLimit > 0 && projected.Some?
                        && usage.sandboxMs + projected.value > quota.sandboxSecondsLimit * 1000;
            match Refuses(usage, quota, projected)
            case None => !calls && !time && !over
            case Some(CallsLimitExceeded) => calls
            case Some(SandboxSecondsLimitExceeded) => !calls && time
            case Some(SandboxQuotaPreflight) => !calls && !time && over
  {
  }

  // ---- Concurrent calls -----------------------------------------------------------------

  /** A call from its snapshot to its last record: what it saw, what it may still spend. */
  datatype Ticket = Ticket(snapshot: Usage, projected: Option<int>, left: nat, decided: bool)

  /** `cap` bounds what a call records, `slack` how far that may exceed its projection. */
  datatype Config = Config(quota: Quota, concurrency: nat, cap: nat, slack: nat)

  datatype Meter = Meter(usage: Usage, tickets: seq<Ticket>)

  datatype Action =
    | Snapshot(projected: Option<int>, budget: nat)
    | Decide(i: nat)
    | RecordMs(i: nat, ms: nat)
    | Finish(i: nat, billed: bool)

  /** What is sure to fit under the sandbox limit when a call is admitted. */
  function Headroom(projected: Option<int>): nat {
    if projected.Some? && projected.value > 0 then projected.value else 1
  }

  predicate Admitted(c: Config, t: Ticket) {
    Refuses(t.snapshot, c.quota, t.projected).None?
  }

  predicate Enabled(c: Config, s: Meter, a: Action) {
    match a
    case Snapshot(projected, budget) =>
      |s.tickets| < c.concurrency && budget <= c.cap && budget <= Headroom(projected) + c.slack
    case Decide(i) => i < |s.tickets| && !s.tickets[i].decided
    case RecordMs(i, ms) => i < |s.tickets| && s.tickets[i].decided && ms <= s.tickets[i].left
    case Finish(i, _) => i < |s.tickets| && s.tickets[i].decided
  }

  function Without(tickets: seq<Ticket>, i: nat): seq<Ticket>
    requires i < |tickets|
  {
    tickets[..i] + tickets[i + 1..]
  }

  function Apply(c: Config, s: Meter, a: Action): Meter
    requires Enabled(c, s, a)
  {
    match a
    case Snapshot(projected, budget) => s.(tickets := s.tickets + [Ticket(s.usage, projected, budget, false)])
    case Decide(i) =>
      if Admitted(c, s.tickets[i]) then s.(tickets := s.tickets[i := s.tickets[i].(decided := true)])
      else s.(tickets := Without(s.tickets, i))
    case RecordMs(i, ms) =>
      Meter(s.usage.(sandboxMs := s.usage.sandboxMs + ms), s.tickets[i := s.tickets[i].(left := s.tickets[i].left - ms)])
    case Finish(i, billed) =>
      Meter(if billed then s.usage.(calls := s.usage.calls + 1) else s.usage, Without(s.tickets, i))
  }

  /** The outcome of a schedule of steps, if every step is enabled when it comes. */
  function Exec(c: Config, s: Meter, actions: seq<Action>): Option<Meter>
    decreases |actions|
  {
    if actions == [] then Some(s)
    else if Enabled(c, s, actions[0]) then Exec(c, Apply(c, s, actions[0]), actions[1..])
    else None
  }

  function RecordedMs(actions: seq<Action>): nat {
    if actions == [] then 0 else (if actions[0].RecordMs? then actions[0].ms else 0) + RecordedMs(actions[1..])
  }

  function BilledCalls(actions: seq<Action>): nat {
    if actions == [] then 0 else (if actions[0].Finish? && actions[0].billed then 1 else 0) + BilledCalls(actions[1..])
  }

  /** However the calls interleave, no record is lost and none counts twice. */
  lemma {:induction false} EverythingCounts(c: Config, s: Meter, actions: seq<Action>)
    requires Exec(c, s, actions).Some?
    ensures var after := Exec(c, s, actions).value.usage;
            after.sandboxMs == s.usage.sandboxMs + RecordedMs(actions) && after.calls == s.usage.calls + BilledCalls(actions)
    decreases |actions|
  {
    if actions != [] {
      EverythingCounts(c, Apply(c, s, actions[0]), actions[1..]);
    }
  }

  // ---- The overshoot bound -----------------------------------------------------------------

  function ReservedMs(c: Config, t: Ticket): nat {
    if Admitted(c, t) then t.left else 0
  }

  function ReservedCalls(c: Config, t: Ticket): nat {
    if Admitted(c, t) then 1 else 0
  }

  function Reserved(c: Config, tickets: seq<Ticket>): Usage {
    if tickets == [] then Usage(0, 0)
    else
      var rest, t := Reserved(c, tickets[1..]), tickets[0];
      Usage(rest.calls + ReservedCalls(c, t), rest.sandboxMs + ReservedMs(c, t))
  }

  lemma {:induction false} ReservedSplit(c: Config, tickets: seq<Ticket>, i: nat)
    requires i < |tickets|
    ensures Reserved(c, tickets).calls == Reserved(c, Without(tickets, i)).calls + ReservedCalls(c, tickets[i])
    ensures Reserved(c, tickets).sandboxMs == Reserved(c, Without(tickets, i)).sandboxMs + ReservedMs(c, tickets[i])
  {
    hide ReservedMs, ReservedCalls;
    if i == 0 {
      assert Without(tickets, 0) == tickets[1..];
    } else {
      ReservedSplit(c, tickets[1..], i - 1);
      assert Without(tickets, i)[1..] == Without(tickets[1..], i - 1);
    }
  }

  lemma TicketReplaced(c: Config, tickets: seq<Ticket>, i: nat, t: Ticket)
    requires i < |tickets|
    ensures Reserved(c, tickets[i := t]).calls - ReservedCalls(c, t) == Reserved(c, tickets).calls - ReservedCalls(c, tickets[i])
    ensures Reserved(c, tickets[i := t]).sandboxMs - ReservedMs(c, t) == Reserved(c, tickets).sandboxMs - ReservedMs(c, tickets[i])
  {
    hide ReservedMs, ReservedCalls, Reserved;
    ReservedSplit(c, tickets, i);
    ReservedSplit(c, tickets[i := t], i);
    assert Without(tickets[i := t], i) == Without(tickets, i);
  }

  lemma TimesMonotone(n: nat, m: nat, cap: nat)
    requires n <= m
    ensures n * cap <= m * cap
  {
  }

  lemma OneMoreTime(n: nat, cap: nat)
    ensures (n + 1) * cap == n * cap + cap
  {
  }

  lemma {:induction false} ReservedAtMost(c: Config, tickets: seq<Ticket>)
    requires LeftCapped(c, tickets)
    ensures Reserved(c, tickets).calls <= |tickets|
    ensures Reserved(c, tickets).sandboxMs <= |tickets| * c.cap
  {
    if tickets != [] {
      ReservedAtMost(c, tickets[1..]);
      OneMoreTime(|tickets[1..]|, c.cap);
      hide Admitted;
      assert tickets[0].left <= c.cap;
    }
  }

  /** What one call may record beyond its projection: no call records more than its cap, and
      every admission leaves room for at least one millisecond. */
  function Excess(c: Config): nat {
    if c.cap == 0 then 0 else if c.slack < c.cap then c.slack else c.cap - 1
  }

  function SandboxCeiling(c: Config): int {
    c.quota.sandboxSecondsLimit * 1000 + (c.concurrency - 1) * c.cap + Excess(c)
  }

  function CallsCeiling(c: Config): int {
    c.quota.callsLimit + c.concurrency - 1
  }

  ghost predicate LeftCapped(c: Config, tickets: seq<Ticket>) {
    forall i :: 0 <= i < |tickets| ==> tickets[i].left <= c.cap
  }

  ghost predicate DecidedAdmitted(c: Config, tickets: seq<Ticket>) {
    forall i :: 0 <= i < |tickets| && tickets[i].decided ==> Admitted(c, tickets[i])
  }

  ghost predicate Fits(c: Config, usage: Usage, reserved: Usage) {
    && (c.quota.sandboxSecondsLimit > 0 ==> usage.sandboxMs + reserved.sandboxMs <= SandboxCeiling(c))
    && (c.quota.callsLimit > 0 ==> usage.calls + reserved.calls <= CallsCeiling(c))
  }

  ghost predicate Bounded(c: Config, s: Meter) {
    && |s.tickets| <= c.concurrency
    && LeftCapped(c, s.tickets)
    && DecidedAdmitted(c, s.tickets)
    && Fits(c, s.usage, Reserved(c, s.tickets))
  }

  /** An admitted snapshot leaves room for its own budget, up to the slack. */
  lemma AdmittedFits(c: Config, s: Meter, t: Ticket)
    requires |s.tickets| < c.concurrency && LeftCapped(c, s.tickets)
    requires t.snapshot == s.usage && t.left <= c.cap && t.left <= Headroom(t.projected) + c.slack
    requires Fits(c, s.usage, Reserved(c, s.tickets))
    ensures var reserved := Reserved(c, s.tickets);
            Fits(c, s.usage, Usage(reserved.calls + ReservedCalls(c, t), reserved.sandboxMs + ReservedMs(c, t)))
  {
    ReservedAtMost(c, s.tickets);
    TimesMonotone(|s.tickets|, c.concurrency - 1, c.cap);
  }

  lemma SnapshotBounded(c: Config, s: Meter, projected: Option<int>, budget: nat)
    requires Bounded(c, s) && Enabled(c, s, Snapshot(projected, budget))
    ensures Bounded(c, Apply(c, s, Snapshot(projected, budget)))
  {
    var t := Ticket(s.usage, projected, budget, false);
    var all := s.tickets + [t];
    AdmittedFits(c, s, t);
    hide Fits, Reserved, ReservedMs, ReservedCalls, Admitted, Headroom;
    ReservedSplit(c, all, |s.tickets|);
    assert Without(all, |s.tickets|) == s.tickets;
    assert all[|s.tickets|] == t;
  }

  lemma RemovalBounded(c: Config, s: Meter, i: nat, calls: nat)
    requires Bounded(c, s) && i < |s.tickets| && calls <= ReservedCalls(c, s.tickets[i])
    ensures Bounded(c, Meter(s.usage.(calls := s.usage.calls + calls), Without(s.tickets, i)))
  {
    hide Reserved, ReservedMs, ReservedCalls, Admitted, SandboxCeiling, CallsCeiling;
    ReservedSplit(c, s.tickets, i);
  }

  lemma DecideBounded(c: Config, s: Meter, i: nat)
    requires Bounded(c, s) && Enabled(c, s, Decide(i))
    ensures Bounded(c, Apply(c, s, Decide(i)))
  {
    hide Reserved, Refuses, SandboxCeiling, CallsCeiling;
    if Admitted(c, s.tickets[i]) {
      TicketReplaced(c, s.tickets, i, s.tickets[i].(decided := true));
    } else {
      RemovalBounded(c, s, i, 0);
    }
  }

  lemma RecordBounded(c: Config, s: Meter, i: nat, ms: nat)
    requires Bounded(c, s) && Enabled(c, s, RecordMs(i, ms))
    ensures Bounded(c, Apply(c, s, RecordMs(i, ms)))
  {
    hide Reserved, Refuses, SandboxCeiling, CallsCeiling;
    TicketReplaced(c, s.tickets, i, s.tickets[i].(left := s.tickets[i].left - ms));
  }

  lemma StepBounded(c: Config, s: Meter, a: Action)
    requires Bounded(c, s) && Enabled(c, s, a)
    ensures Bounded(c, Apply(c, s, a))
  {
    match a {
      case Snapshot(projected, budget) => SnapshotBounded(c, s, projected, budget);
      case Decide(i) => DecideBounded(c, s, i);
      case RecordMs(i, ms) => RecordBounded(c, s, i, ms);
      case Finish(i, billed) => RemovalBounded(c, s, i, if billed then 1 else 0);
    }
  }

  lemma {:induction false} ExecBounded(c: Config, s: Meter, actions: seq<Action>)
    requires Bounded(c, s) && Exec(c, s, actions).Some?
    ensures Bounded(c, Exec(c, s, actions).value)
    decreases |actions|
  {
    hide Bounded, Enabled, Apply;
    if actions != [] {
      StepBounded(c, s, actions[0]);
      ExecBounded(c, Apply(c, s, actions[0]), actions[1..]);
    }
  }

  /** Overshoot: with at most `concurrency` calls between snapshot and record, none recording
      more than `cap` or more than `slack` beyond its projection, recorded sandbox time stays
      within the limit plus (concurrency - 1) caps plus that excess, and recorded calls within
      the limit plus concurrency - 1; alone and true to projection, the limits are exact. */
  lemma OvershootBound(c: Config, start: Usage, actions: seq<Action>)
    requires c.concurrency > 0 && Exec(c, Meter(start, []), actions).Some?
    requires c.quota.callsLimit > 0 ==> start.calls <= c.quota.callsLimit
    requires c.quota.sandboxSecondsLimit > 0 ==> start.sandboxMs <= c.quota.sandboxSecondsLimit * 1000
    ensures var usage := Exec(c, Meter(start, []), actions).value.usage;
            && (c.quota.sandboxSecondsLimit > 0 ==>
                  usage.sandboxMs <= c.quota.sandboxSecondsLimit * 1000 + (c.concurrency - 1) * c.cap + Excess(c))
            && (c.quota.callsLimit > 0 ==> usage.calls <= c.quota.callsLimit + c.concurrency - 1)
  {
    TimesMonotone(0, c.concurrency - 1, c.cap);
    ExecBounded(c, Meter(start, []), actions);
  }

  // ---- The bound is met -------------------------------------------------------------------

  lemma {:induction false} ExecThen(c: Config, s: Meter, actions: seq<Action>, a: Action)
    requires Exec(c, s, actions).Some? && Enabled(c, Exec(c, s, actions).value, a)
    ensures Exec(c, s, actions + [a]) == Some(Apply(c, Exec(c, s, actions).value, a))
    decreases |actions|
  {
    hide Enabled, Apply;
    if actions == [] {
      assert ([] + [a])[1..] == [];
    } else {
      ExecThen(c, Apply(c, s, actions[0]), actions[1..], a);
      assert (actions + [a])[1..] == actions[1..] + [a];
    }
  }

  function Copies(t: Ticket, n: nat): seq<Ticket> {
    seq(n, _ => t)
  }

  /** `concurrency` snapshots of the same usage, each budgeting `cap` on a smaller projection. */
  lemma ManySnapshots(c: Config, start: Usage) returns (actions: seq<Action>)
    requires c.cap > 0
    ensures Exec(c, Meter(start, []), actions)
         == Some(Meter(start, Copies(Ticket(start, Some(c.cap - Excess(c)), c.cap, false), c.concurrency)))
  {
    var projected := Some(c.cap - Excess(c));
    var t := Ticket(start, projected, c.cap, false);
    actions := [];
    assert Copies(t, 0) == [];
    for n := 0 to c.concurrency
      invariant Exec(c, Meter(start, []), actions) == Some(Meter(start, Copies(t, n)))
    {
      ExecThen(c, Meter(start, []), actions, Snapshot(projected, c.cap));
      assert Copies(t, n) + [t] == Copies(t, n + 1);
      actions := actions + [Snapshot(projected, c.cap)];
    }
  }

  /** All of them decide on the old snapshot, though the first to record uses up the limit. */
  lemma ManyRecords(c: Config, start: Usage, t: Ticket, before: seq<Action>) returns (actions: seq<Action>)
    requires !t.decided && Admitted(c, t)
    requires Exec(c, Meter(start, []), before) == Some(Meter(start, Copies(t, c.concurrency)))
    ensures Exec(c, Meter(start, []), actions)
         == Some(Meter(Usage(start.calls + c.concurrency, start.sandboxMs + c.concurrency * t.left), []))
  {
    hide Exec, Admitted, Copies;
    actions := before;
    var spent := 0;
    for n := 0 to c.concurrency
      invariant spent == n * t.left
      invariant Exec(c, Meter(start, []), actions)
             == Some(Meter(Usage(start.calls + n, start.sandboxMs + spent), Copies(t, c.concurrency - n)))
    {
      actions := OneRecord(c, start, actions, Usage(start.calls + n, start.sandboxMs + spent), t, c.concurrency - n);
      OneMoreTime(n, t.left);
      spent := spent + t.left;
    }
    NoCopies(t);
  }

  lemma NoCopies(t: Ticket)
    ensures Copies(t, 0) == []
  {
  }

  lemma OneRecord(c: Config, start: Usage, before: seq<Action>, usage: Usage, t: Ticket, n: nat) returns (actions: seq<Action>)
    requires n > 0 && !t.decided && Admitted(c, t)
    requires Exec(c, Meter(start, []), before) == Some(Meter(usage, Copies(t, n)))
    ensures Exec(c, Meter(start, []), actions)
         == Some(Meter(Usage(usage.calls + 1, usage.sandboxMs + t.left), Copies(t, n - 1)))
  {
    hide Exec, Admitted;
    var s := Meter(start, []);
    ExecThen(c, s, before, Decide(0));
    ExecThen(c, s, before + [Decide(0)], RecordMs(0, t.left));
    ExecThen(c, s, before + [Decide(0)] + [RecordMs(0, t.left)], Finish(0, true));
    actions := before + [Decide(0)] + [RecordMs(0, t.left)] + [Finish(0, true)];
    assert Without(Copies(t, n)[0 := t.(decided := true)][0 := t.(decided := true, left := 0)], 0) == Copies(t, n - 1);
  }

  /** The overshoot bound cannot be lowered: for every sandbox limit, concurrency, cap and
      slack, some schedule ends exactly at the bound, all its calls admitted on counters that
      were below both limits. */
  lemma OvershootReached(c: Config, start: Usage) returns (actions: seq<Action>)
    requires c.concurrency > 0 && c.cap > 0
    requires c.quota.sandboxSecondsLimit > 0 && c.quota.callsLimit > 0
    requires start.calls == c.quota.callsLimit - 1
    requires start.sandboxMs + c.cap - Excess(c) == c.quota.sandboxSecondsLimit * 1000
    ensures Exec(c, Meter(start, []), actions)
         == Some(Meter(Usage(c.quota.callsLimit + c.concurrency - 1,
                             c.quota.sandboxSecondsLimit * 1000 + (c.concurrency - 1) * c.cap + Excess(c)), []))
  {
    actions := ManySnapshots(c, start);
    actions := ManyRecords(c, start, Ticket(start, Some(c.cap - Excess(c)), c.cap, false), actions);
    OneMoreTime(c.concurrency - 1, c.cap);
  }
}
