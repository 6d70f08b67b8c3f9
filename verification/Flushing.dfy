// internal/reconciliation/collector.go with its debouncer: what wakes the loop that flushes
// the events waiting in the map. Events themselves are the subject of Collector; here they
// are counted.
module Flushing {
  import Collector

  // An add holds the lock until its sends are done.
  datatype Adder = NoAdder | ToDebounce | ToTrigger

  datatype Loop = Idle | Woken | Holding(size: nat)

  datatype State = State(
    waiting: nat,                        // events in the map
    adder: Adder,
    timeChan: nat, window: bool, calling: bool,   // the debouncer
    triggers: nat,                       // tokens in batchTriggerCh
    loop: Loop, others: map<nat, nat>,   // batches of the loop and of other flushers
    channel: nat)                        // batches in batchReadyCh

  datatype Step =
    | AddWrite(fresher: bool) | AddDebounce | AddTrigger
    | ReceiveDebounce | TickerFires | Callback
    | TakeTrigger | LoopCollects | LoopSends | LoopReturns(waiting: nat)
    | OtherCollects(id: nat) | OtherSends(id: nat) | OtherReturns(id: nat, waiting: nat)
    | Receive

  ghost predicate Init(s: State) {
    s == State(0, NoAdder, 0, false, false, 0, Idle, map[], 0)
  }

  // Events that go back into the map may meet newer ones there.
  ghost predicate Merged(before: nat, size: nat, after: nat) {
    before <= after && size <= after <= before + size
  }

  ghost predicate AddNext(max: nat, s: State, step: Step, s': State) {
    || (step.AddWrite? && s.adder == NoAdder
        && s' == s.(adder := ToDebounce,
                    waiting := if step.fresher || s.waiting == 0 then s.waiting + 1 else s.waiting))
    || (step.AddDebounce? && s.adder == ToDebounce && s.timeChan < Collector.DEBOUNCE_CAPACITY
        && s' == s.(timeChan := s.timeChan + 1, adder := if s.waiting >= max then ToTrigger else NoAdder))
    || (step.AddTrigger? && s.adder == ToTrigger && s.triggers < Collector.TRIGGER_CAPACITY
        && s' == s.(triggers := s.triggers + 1, adder := NoAdder))
  }

  ghost predicate DebounceNext(s: State, step: Step, s': State) {
    || (step.ReceiveDebounce? && !s.calling && s.timeChan > 0 && s' == s.(timeChan := s.timeChan - 1, window := true))
    || (step.TickerFires? && !s.calling && s.window && s' == s.(window := false, calling := true))
    || (step.Callback? && s.calling && s.triggers < Collector.TRIGGER_CAPACITY
        && s' == s.(calling := false, triggers := s.triggers + 1))
  }

  ghost predicate LoopNext(s: State, step: Step, s': State) {
    || (step.TakeTrigger? && s.loop == Idle && s.triggers > 0 && s' == s.(triggers := s.triggers - 1, loop := Woken))
    || (step.LoopCollects? && s.loop == Woken && s.adder == NoAdder
        && s' == s.(loop := if s.waiting == 0 then Idle else Holding(s.waiting), waiting := 0))
    || (step.LoopSends? && s.loop.Holding? && s.channel < Collector.CHANNEL_CAPACITY
        && s' == s.(loop := Idle, channel := s.channel + 1))
    || (step.LoopReturns? && s.loop.Holding? && s.channel >= Collector.CHANNEL_CAPACITY && s.adder == NoAdder
        && Merged(s.waiting, s.loop.size, step.waiting) && s' == s.(loop := Idle, waiting := step.waiting))
  }

  // The orchestrator flushes too, and takes batches from the channel.
  ghost predicate OtherNext(s: State, step: Step, s': State) {
    || (step.OtherCollects? && step.id !in s.others && s.adder == NoAdder && s.waiting > 0
        && s' == s.(others := s.others[step.id := s.waiting], waiting := 0))
    || (step.OtherSends? && step.id in s.others && s.channel < Collector.CHANNEL_CAPACITY
        && s' == s.(others := s.others - {step.id}, channel := s.channel + 1))
    || (step.OtherReturns? && step.id in s.others && s.channel >= Collector.CHANNEL_CAPACITY && s.adder == NoAdder
        && Merged(s.waiting, s.others[step.id], step.waiting)
        && s' == s.(others := s.others - {step.id}, waiting := step.waiting))
    || (step.Receive? && s.channel > 0 && s' == s.(channel := s.channel - 1))
  }

  ghost predicate Next(max: nat, s: State, step: Step, s': State) {
    AddNext(max, s, step, s') || DebounceNext(s, step, s') || LoopNext(s, step, s') || OtherNext(s, step, s')
  }

  ghost predicate IsRun(max: nat, run: seq<State>, steps: seq<Step>) {
    |run| == |steps| + 1 && forall i :: 0 <= i < |steps| ==> Next(max, run[i], steps[i], run[i + 1])
  }

  // Something is on its way that will make the loop collect.
  ghost predicate Token(s: State) {
    s.adder != NoAdder || s.timeChan > 0 || s.window || s.calling || s.triggers > 0 || s.loop == Woken
  }

  // Events are waiting and nothing will make the loop collect them.
  ghost predicate Stranded(s: State) { s.waiting > 0 && !Token(s) }

  ghost predicate Returns(step: Step) { step.LoopReturns? || step.OtherReturns? }

  // Batches are never empty.
  ghost predicate Inv(s: State) {
    (s.loop.Holding? ==> s.loop.size > 0) && forall id :: id in s.others ==> s.others[id] > 0
  }

  lemma InvKept(max: nat, s: State, step: Step, s': State)
    requires Inv(s) && Next(max, s, step, s')
    ensures Inv(s')
  {}

  lemma {:induction false} RunKeepsInv(max: nat, run: seq<State>, steps: seq<Step>, i: nat)
    requires IsRun(max, run, steps) && Init(run[0]) && i < |run|
    ensures Inv(run[i])
  {
    hide Next;
    if i > 0 {
      RunKeepsInv(max, run, steps, i - 1);
      assert Next(max, run[i - 1], steps[i - 1], run[i - 1 + 1]);
      InvKept(max, run[i - 1], steps[i - 1], run[i]);
    }
  }

  // Events become stranded only where a batch goes back with no token left.
  lemma BecomesStranded(max: nat, s: State, step: Step, s': State)
    requires Inv(s) && Next(max, s, step, s') && !Stranded(s)
    ensures Stranded(s') <==> Returns(step) && !Token(s')
  {}

  // They stay so until an event is added or somebody else flushes.
  lemma StaysStranded(max: nat, s: State, step: Step, s': State)
    requires Inv(s) && Next(max, s, step, s') && Stranded(s)
    ensures Stranded(s') <==> !step.AddWrite? && !step.OtherCollects?
  {}

  // Step r returned a batch with no token left, and none of the steps up to i added an
  // event or was another flush.
  ghost predicate LeftBehind(run: seq<State>, steps: seq<Step>, r: nat, i: nat)
    requires |run| == |steps| + 1 && i < |run|
  {
    && r < i && Returns(steps[r]) && !Token(run[r + 1])
    && forall m :: r < m < i ==> !steps[m].AddWrite? && !steps[m].OtherCollects?
  }

  lemma {:induction false} StrandedHasReason(max: nat, run: seq<State>, steps: seq<Step>, i: nat) returns (r: nat)
    requires IsRun(max, run, steps) && Init(run[0]) && i < |run| && Stranded(run[i])
    ensures LeftBehind(run, steps, r, i)
  {
    hide Next, Token, Inv;
    RunKeepsInv(max, run, steps, i - 1);
    assert Next(max, run[i - 1], steps[i - 1], run[i - 1 + 1]);
    if Stranded(run[i - 1]) {
      r := StrandedHasReason(max, run, steps, i - 1);
      StaysStranded(max, run[i - 1], steps[i - 1], run[i]);
    } else {
      r := i - 1;
      BecomesStranded(max, run[i - 1], steps[i - 1], run[i]);
    }
  }

  lemma {:induction false} LeftBehindIsStranded(max: nat, run: seq<State>, steps: seq<Step>, r: nat, i: nat)
    requires IsRun(max, run, steps) && Init(run[0]) && i < |run| && LeftBehind(run, steps, r, i)
    ensures Stranded(run[i])
    decreases i
  {
    hide Next, Token;
    RunKeepsInv(max, run, steps, i - 1);
    assert Next(max, run[i - 1], steps[i - 1], run[i - 1 + 1]);
    if r == i - 1 {
      ReturnedIsWaiting(max, run[r], steps[r], run[i]);
    } else {
      LeftBehindIsStranded(max, run, steps, r, i - 1);
      StaysStranded(max, run[i - 1], steps[i - 1], run[i]);
    }
  }

  lemma ReturnedIsWaiting(max: nat, s: State, step: Step, s': State)
    requires Inv(s) && Next(max, s, step, s') && Returns(step)
    ensures s'.waiting > 0
  {}

  // Over every run, events wait without a wake-up on its way iff a batch has gone back when
  // none was left, and since then no event was added and nobody else flushed. In particular
  // never, if the channel is never full.
  lemma StrandedIffLeftBehind(max: nat, run: seq<State>, steps: seq<Step>, i: nat)
    requires IsRun(max, run, steps) && Init(run[0]) && i < |run|
    ensures Stranded(run[i]) <==> exists r :: LeftBehind(run, steps, r, i)
  {
    hide Next, LeftBehind, Stranded;
    if Stranded(run[i]) {
      var r := StrandedHasReason(max, run, steps, i);
    }
    if r :| LeftBehind(run, steps, r, i) {
      LeftBehindIsStranded(max, run, steps, r, i);
    }
  }

  // ---- It happens

  function Quiet(waiting: nat, channel: nat): State {
    State(waiting, NoAdder, 0, false, false, 0, Idle, map[], channel)
  }

  // One event is added and taken up by the loop.
  lemma Round(max: nat, channel: nat) returns (run: seq<State>, steps: seq<Step>)
    requires max > 1
    ensures IsRun(max, run, steps) && run[0] == Quiet(0, channel) && |steps| == 7
    ensures run[7] == Quiet(0, channel).(loop := Holding(1))
    ensures forall m :: 0 <= m < 7 ==> !Returns(steps[m])
  {
    var s := Quiet(0, channel);
    var t := Quiet(1, channel);
    run := [s, t.(adder := ToDebounce), t.(timeChan := 1), t.(window := true), t.(calling := true), t.(triggers := 1),
            t.(loop := Woken), s.(loop := Holding(1))];
    steps := [AddWrite(true), AddDebounce, ReceiveDebounce, TickerFires, Callback, TakeTrigger, LoopCollects];
    assert AddNext(max, run[0], steps[0], run[1]) && AddNext(max, run[1], steps[1], run[2]);
    assert DebounceNext(run[2], steps[2], run[3]) && DebounceNext(run[3], steps[3], run[4]);
    assert DebounceNext(run[4], steps[4], run[5]);
    assert LoopNext(run[5], steps[5], run[6]) && LoopNext(run[6], steps[6], run[7]);
    hide AddNext, DebounceNext, LoopNext, OtherNext;
    forall i | 0 <= i < 7 ensures Next(max, run[i], steps[i], run[i + 1]) {}
  }

  lemma RunGrows(max: nat, run: seq<State>, steps: seq<Step>, step: Step, s': State)
    requires IsRun(max, run, steps) && Next(max, run[|steps|], step, s')
    ensures IsRun(max, run + [s'], steps + [step])
  {
    hide Next;
  }

  lemma RunsJoin(max: nat, a: seq<State>, b: seq<Step>, c: seq<State>, d: seq<Step>)
    requires IsRun(max, a, b) && IsRun(max, c, d) && a[|b|] == c[0]
    ensures IsRun(max, a + c[1..], b + d) && (a + c[1..])[|b + d|] == c[|d|]
  {
    hide Next;
    var run, steps := a + c[1..], b + d;
    forall i | 0 <= i < |steps| ensures Next(max, run[i], steps[i], run[i + 1]) {
      if i >= |b| {
        assert Next(max, c[i - |b|], d[i - |b|], c[i - |b| + 1]);
        assert run[i] == c[i - |b|] && run[i + 1] == c[i - |b| + 1];
      } else {
        assert Next(max, a[i], b[i], a[i + 1]);
      }
    }
  }

  lemma {:induction false} Filled(max: nat, channel: nat) returns (run: seq<State>, steps: seq<Step>)
    requires max > 1 && channel <= Collector.CHANNEL_CAPACITY
    ensures IsRun(max, run, steps) && Init(run[0]) && run[|steps|] == Quiet(0, channel)
  {
    hide Next;
    if channel == 0 {
      run, steps := [Quiet(0, 0)], [];
    } else {
      var a, b := Filled(max, channel - 1);
      var c, d := Round(max, channel - 1);
      RunsJoin(max, a, b, c, d);
      SentNext(max, channel - 1);
      RunGrows(max, a + c[1..], b + d, LoopSends, Quiet(0, channel));
      run, steps := a + c[1..] + [Quiet(0, channel)], b + d + [LoopSends];
    }
  }

  lemma SentNext(max: nat, channel: nat)
    requires channel < Collector.CHANNEL_CAPACITY
    ensures Next(max, Quiet(0, channel).(loop := Holding(1)), LoopSends, Quiet(0, channel + 1))
  {}

  lemma ReturnedNext(max: nat)
    ensures Next(max, Quiet(0, Collector.CHANNEL_CAPACITY).(loop := Holding(1)), LoopReturns(1),
                 Quiet(1, Collector.CHANNEL_CAPACITY))
  {}

  // Nobody takes the batches of ten events; the eleventh event goes back and is stranded,
  // and it stays so when the channel has room again.
  lemma EventIsStranded(max: nat) returns (run: seq<State>, steps: seq<Step>)
    requires max > 1
    ensures IsRun(max, run, steps) && Init(run[0]) && Stranded(run[|steps|])
    ensures run[|steps|].channel < Collector.CHANNEL_CAPACITY
  {
    hide Next;
    var full := Collector.CHANNEL_CAPACITY;
    var a, b := Filled(max, full);
    var c, d := Round(max, full);
    RunsJoin(max, a, b, c, d);
    ReturnedNext(max);
    run, steps := a + c[1..], b + d;
    RunGrows(max, run, steps, LoopReturns(1), Quiet(1, full));
    run, steps := run + [Quiet(1, full)], steps + [LoopReturns(1)];
    ReceivedNext(max);
    RunGrows(max, run, steps, Receive, Quiet(1, full - 1));
    run, steps := run + [Quiet(1, full - 1)], steps + [Receive];
  }

  lemma ReceivedNext(max: nat)
    ensures Next(max, Quiet(1, Collector.CHANNEL_CAPACITY), Receive, Quiet(1, Collector.CHANNEL_CAPACITY - 1))
  {}
}
