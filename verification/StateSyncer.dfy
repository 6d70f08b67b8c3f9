// internal/reconciliation/state_syncer.go with its debouncer: how a follower's table keeps
// up with the resources although sends on two channels of capacity one may be dropped.
module StateSyncer {
  import opened Scopes
  import opened Lookups
  import opened Cluster
  import opened Engine

  // ---- The fields and methods of the source

  class StateSyncer {
    const engine: InMemoryEngine
    var triggerCh: bool     // both channels hold at most one token
    var rebuildCh: bool
    var synced: bool

    constructor (engine: InMemoryEngine)
      ensures this.engine == engine && !triggerCh && !rebuildCh && !synced
    {
      this.engine, triggerCh, rebuildCh, synced := engine, false, false, false;
    }

    // Never blocks: a second token is dropped.
    method Trigger()
      modifies `triggerCh
      ensures triggerCh
    {
      if !triggerCh {
        triggerCh := true;
      }
    }

    // What the debouncer calls when its window closes.
    method Callback()
      modifies `rebuildCh
      ensures rebuildCh
    {
      if !rebuildCh {
        rebuildCh := true;
      }
    }

    // Readiness is kept once gained. The account-to-resources map is not touched.
    method Rebuild(hash: string -> string, c: Cluster) returns (ok: bool)
      requires engine.Valid() && ValidWorkloads(c.workloads)
      modifies `synced, engine, c`errors
      ensures ok <==> c.errors == old(c.errors)
      ensures engine.Valid() && engine.saToWsaMap == old(engine.saToWsaMap)
      ensures ok ==> synced && engine.scopeComputation == Compile(hash, Live(c.workloads))
      ensures !ok ==> synced == old(synced) && unchanged(engine)
    {
      hide Compile, WellFormed, Live;
      ok := engine.RefreshScopeMappings(hash, c);
      if ok {
        synced := true;
      }
    }
  }

  // ---- The interleavings

  const TIME_CHANNEL := 100

  // Stands for the resources of one kind: any two sets have different numbers.
  type Contents = nat

  // The live resources of the two kinds, which are listed one after the other.
  datatype Resources = Resources(namespaced: Contents, clusterWide: Contents)

  // What the event loop is doing; the first rebuild happens before the loop.
  datatype Loop =
    | Idle
    | Debouncing                                   // took a trigger, sending to the debouncer
    | Listing                                      // a rebuild has started
    | HalfListed(namespaced: Contents)
    | Listed(resources: Resources)
    | Stopped

  datatype State = State(
    live: Resources,
    changes: nat,                // changes whose watch event has not been handled yet
    triggerCh: bool, rebuildCh: bool, timeChan: nat,
    window: bool, calling: bool, // the debouncer: window open, callback running
    loop: Loop, starting: bool,
    built: Resources, ok: bool,  // what the table was built from; the last rebuild succeeded
    unserved: bool)              // a Trigger came after the last start of a rebuild

  datatype Step =
    | Change(live: Resources) | Trigger
    | TakeTrigger | SendDebounce | ReceiveDebounce | TickerFires | Callback
    | TakeRebuild | ListNamespaced | ListClusterWide | Swap | Fail | Stop

  // Watch handlers may have called Trigger, or be about to, before the first rebuild starts.
  ghost predicate Init(s: State) {
    && !s.rebuildCh && s.timeChan == 0 && !s.window && !s.calling
    && s.loop == Listing && s.starting && (s.unserved ==> s.triggerCh)
  }

  ghost predicate Environment(step: Step) { step.Change? || step.Trigger? || step.Stop? }

  // Steps on the way from a trigger to the token for a rebuild.
  ghost predicate Debounces(step: Step) {
    step.TakeTrigger? || step.SendDebounce? || step.ReceiveDebounce? || step.TickerFires? || step.Callback?
  }

  // The environment: resources change, and each change calls Trigger some time later.
  ghost predicate EnvironmentNext(s: State, step: Step, s': State) {
    match step
    case Change(live) =>
      s' == s.(live := live, changes := s.changes + 1)
    case Trigger =>
      s.changes > 0 && s' == s.(changes := s.changes - 1, triggerCh := true, unserved := true)
    case Stop =>
      s.loop == Idle && s' == s.(loop := Stopped)
    case _ => false
  }

  // The event loop's first half and the debouncer's goroutine.
  ghost predicate DebounceNext(s: State, step: Step, s': State) {
    || (step.TakeTrigger? && s.loop == Idle && s.triggerCh && s' == s.(triggerCh := false, loop := Debouncing))
    || (step.SendDebounce? && s.loop == Debouncing && s.timeChan < TIME_CHANNEL
        && s' == s.(timeChan := s.timeChan + 1, loop := Idle))
    || (step.ReceiveDebounce? && !s.calling && s.timeChan > 0 && s' == s.(timeChan := s.timeChan - 1, window := true))
    || (step.TickerFires? && !s.calling && s.window && s' == s.(window := false, calling := true))
    || (step.Callback? && s.calling && s' == s.(calling := false, rebuildCh := true))
  }

  // The event loop's second half.
  ghost predicate RebuildNext(s: State, step: Step, s': State) {
    || (step.TakeRebuild? && s.loop == Idle && s.rebuildCh
        && s' == s.(rebuildCh := false, loop := Listing, unserved := false))
    || (step.ListNamespaced? && s.loop == Listing && s' == s.(loop := HalfListed(s.live.namespaced)))
    || (step.ListClusterWide? && s.loop.HalfListed?
        && s' == s.(loop := Listed(Resources(s.loop.namespaced, s.live.clusterWide))))
    || (step.Swap? && s.loop.Listed?
        && s' == s.(loop := Idle, starting := false, built := s.loop.resources, ok := true))
    || (step.Fail? && (s.loop == Listing || s.loop.HalfListed?)
        && s' == s.(loop := if s.starting then Stopped else Idle, ok := false))
  }

  ghost predicate Next(s: State, step: Step, s': State) {
    if Environment(step) then EnvironmentNext(s, step, s')
    else if Debounces(step) then DebounceNext(s, step, s')
    else RebuildNext(s, step, s')
  }

  // Somewhere between Trigger and the start of a rebuild.
  ghost predicate Token(s: State) {
    s.triggerCh || s.loop == Debouncing || s.timeChan > 0 || s.window || s.calling || s.rebuildCh
  }

  ghost predicate Pending(s: State) { s.changes > 0 || Token(s) }

  ghost predicate Inv(s: State) {
    && s.timeChan <= TIME_CHANNEL
    && (s.loop != Stopped && s.unserved ==> Token(s))
    && match s.loop
       case Idle => s.ok && s.built != s.live ==> Pending(s)
       case Debouncing => true
       case Listing => true
       case HalfListed(n) => n != s.live.namespaced ==> Pending(s)
       case Listed(rs) => rs != s.live ==> Pending(s)
       case Stopped => true
  }

  lemma EnvironmentKeepsInv(s: State, step: Step, s': State)
    requires Inv(s) && EnvironmentNext(s, step, s')
    ensures Inv(s')
  {}

  lemma DebouncingKeepsToken(s: State, step: Step, s': State)
    requires DebounceNext(s, step, s')
    ensures Token(s')
  {}

  lemma DebouncingKeepsInv(s: State, step: Step, s': State)
    requires Inv(s) && DebounceNext(s, step, s')
    ensures Inv(s')
  {
    DebouncingKeepsToken(s, step, s');
    hide Token;
  }

  lemma RebuildingKeepsInv(s: State, step: Step, s': State)
    requires Inv(s) && RebuildNext(s, step, s')
    ensures Inv(s')
  {}

  lemma InvKept(s: State, step: Step, s': State)
    requires Inv(s) && Next(s, step, s')
    ensures Inv(s')
  {
    hide Inv, EnvironmentNext, DebounceNext, RebuildNext;
    if Environment(step) {
      EnvironmentKeepsInv(s, step, s');
    } else if Debounces(step) {
      DebouncingKeepsInv(s, step, s');
    } else {
      RebuildingKeepsInv(s, step, s');
    }
  }

  ghost predicate IsRun(run: seq<State>, steps: seq<Step>) {
    |run| == |steps| + 1 && forall i :: 0 <= i < |steps| ==> Next(run[i], steps[i], run[i + 1])
  }

  lemma {:induction false} RunKeepsInv(run: seq<State>, steps: seq<Step>, i: nat)
    requires IsRun(run, steps) && Init(run[0]) && i < |run|
    ensures Inv(run[i])
  {
    if i > 0 {
      RunKeepsInv(run, steps, i - 1);
      assert Next(run[i - 1], steps[i - 1], run[i - 1 + 1]);
      InvKept(run[i - 1], steps[i - 1], run[i]);
    }
  }

  // No wake-up is lost: after a Trigger not yet followed by the start of a rebuild there is
  // a token on its way, until the loop stops.
  lemma NoLostWakeUp(run: seq<State>, steps: seq<Step>, i: nat)
    requires IsRun(run, steps) && Init(run[0]) && i < |run|
    ensures run[i].unserved && run[i].loop != Stopped ==> Token(run[i])
  {
    RunKeepsInv(run, steps, i);
  }

  ghost predicate Quiet(s: State) { s.loop == Idle && !Pending(s) }

  // When all is quiet and the last rebuild succeeded, the table is that of the live resources.
  lemma QuietIsCurrent(run: seq<State>, steps: seq<Step>, i: nat)
    requires IsRun(run, steps) && Init(run[0]) && i < |run|
    requires Quiet(run[i]) && run[i].ok
    ensures run[i].built == run[i].live
  {
    RunKeepsInv(run, steps, i);
  }

  // ---- Progress: left alone, the follower becomes quiet

  ghost function Weight(b: bool, n: nat): nat { if b then n else 0 }

  ghost function LoopWeight(l: Loop): nat {
    match l
    case Idle => 0
    case Debouncing => 8
    case Listing => 3
    case HalfListed(_) => 2
    case Listed(_) => 1
    case Stopped => 0
  }

  ghost function Measure(s: State): nat {
    Weight(s.triggerCh, 9) + LoopWeight(s.loop) + 7 * s.timeChan
    + Weight(s.window, 6) + Weight(s.calling, 5) + Weight(s.rebuildCh, 4)
  }

  lemma DebouncingDecreases(s: State, step: Step, s': State)
    requires DebounceNext(s, step, s')
    ensures Measure(s') < Measure(s)
  {
    if step.TakeTrigger? || step.SendDebounce? {
      assert s'.window == s.window && s'.calling == s.calling && s'.rebuildCh == s.rebuildCh;
      assert LoopWeight(s'.loop) + Weight(s'.triggerCh, 9) + 7 * s'.timeChan
             < LoopWeight(s.loop) + Weight(s.triggerCh, 9) + 7 * s.timeChan;
    } else {
      assert s'.loop == s.loop && s'.triggerCh == s.triggerCh;
      hide LoopWeight;
    }
    hide DebounceNext;
  }

  lemma RebuildingKeepsDebouncer(s: State, step: Step, s': State)
    requires RebuildNext(s, step, s')
    ensures s'.window == s.window && s'.calling == s.calling && s'.triggerCh == s.triggerCh && s'.timeChan == s.timeChan
  {
    match step
    case TakeRebuild => assert s' == s.(rebuildCh := false, loop := Listing, unserved := false);
    case ListNamespaced => assert s' == s.(loop := s'.loop);
    case ListClusterWide => assert s' == s.(loop := s'.loop);
    case Swap => assert s' == s.(loop := Idle, starting := false, built := s.loop.resources, ok := true);
    case Fail => assert s' == s.(loop := s'.loop, ok := false);
  }

  // How the second half of the loop moves on.
  lemma RebuildingMoves(s: State, step: Step, s': State)
    requires RebuildNext(s, step, s')
    ensures if step.TakeRebuild? then s.rebuildCh && s.loop == Idle && s'.loop == Listing && !s'.rebuildCh
            else s'.rebuildCh == s.rebuildCh && LoopWeight(s'.loop) < LoopWeight(s.loop)
  {}

  lemma RebuildingDecreases(s: State, step: Step, s': State)
    requires RebuildNext(s, step, s')
    ensures Measure(s') < Measure(s)
  {
    hide RebuildNext;
    RebuildingKeepsDebouncer(s, step, s');
    RebuildingMoves(s, step, s');
  }

  lemma DebouncingKeepsResources(s: State, step: Step, s': State)
    requires DebounceNext(s, step, s')
    ensures s'.changes == s.changes && s'.live == s.live
  {}

  lemma RebuildingKeepsResources(s: State, step: Step, s': State)
    requires RebuildNext(s, step, s')
    ensures s'.changes == s.changes && s'.live == s.live
  {}

  // A step that leaves the debouncer or the loop nearer to rest.
  lemma StepsDecrease(s: State, step: Step, s': State)
    requires Next(s, step, s') && !Environment(step)
    ensures Measure(s') < Measure(s)
    ensures s'.changes == s.changes && s'.live == s.live
  {
    hide EnvironmentNext, DebounceNext, RebuildNext, Measure;
    if Debounces(step) {
      DebouncingDecreases(s, step, s');
      DebouncingKeepsResources(s, step, s');
    } else {
      RebuildingDecreases(s, step, s');
      RebuildingKeepsResources(s, step, s');
    }
  }

  ghost predicate CanStep(s: State) {
    exists step, s' :: !Environment(step) && Next(s, step, s')
  }

  // A step of the follower other than a failure.
  ghost predicate Working(step: Step) { !Environment(step) && !step.Fail? }

  ghost predicate CanWork(s: State) {
    exists step, s' :: Working(step) && Next(s, step, s')
  }

  // Nothing blocks: whatever the channels hold, some step is possible until all is quiet.
  lemma NeverStuck(s: State)
    requires Inv(s) && s.loop != Stopped && s.changes == 0
    ensures Quiet(s) || CanWork(s)
  {
    if !Quiet(s) {
      var step, s';
      if s.calling {
        step, s' := Callback, s.(calling := false, rebuildCh := true);
      } else if s.timeChan > 0 {
        step, s' := ReceiveDebounce, s.(timeChan := s.timeChan - 1, window := true);
      } else if s.window {
        step, s' := TickerFires, s.(window := false, calling := true);
      } else {
        match s.loop
        case Debouncing => step, s' := SendDebounce, s.(timeChan := s.timeChan + 1, loop := Idle);
        case Listing => step, s' := ListNamespaced, s.(loop := HalfListed(s.live.namespaced));
        case HalfListed(n) => step, s' := ListClusterWide, s.(loop := Listed(Resources(n, s.live.clusterWide)));
        case Listed(rs) => step, s' := Swap, s.(loop := Idle, starting := false, built := rs, ok := true);
        case Idle =>
          if s.triggerCh {
            step, s' := TakeTrigger, s.(triggerCh := false, loop := Debouncing);
          } else {
            step, s' := TakeRebuild, s.(rebuildCh := false, loop := Listing, unserved := false);
          }
      }
      assert Next(s, step, s');
    }
  }

  // Once changes have stopped and been notified, at most Measure steps are left, and where
  // no step is left the table, if its last rebuild succeeded, is that of the live resources.
  lemma {:induction false} Converges(run: seq<State>, steps: seq<Step>, i: nat, j: nat)
    requires IsRun(run, steps) && Init(run[0]) && i <= j < |run|
    requires forall m :: i <= m < j ==> !Environment(steps[m])
    requires run[i].changes == 0 && run[i].loop != Stopped
    ensures Measure(run[j]) + (j - i) <= Measure(run[i])
    ensures run[j].changes == 0 && run[j].live == run[i].live
    ensures !CanStep(run[j]) && run[j].loop != Stopped ==>
      Quiet(run[j]) && (run[j].ok ==> run[j].built == run[i].live)
    decreases j
  {
    hide CanStep, Inv, Measure, Pending, Next;
    if i < j {
      Converges(run, steps, i, j - 1);
      assert Next(run[j - 1], steps[j - 1], run[j - 1 + 1]);
      StepsDecrease(run[j - 1], steps[j - 1], run[j]);
    }
    RunKeepsInv(run, steps, j);
    if !CanStep(run[j]) && run[j].loop != Stopped { RestIsCurrent(run[j]); }
  }

  lemma RestIsCurrent(s: State)
    requires Inv(s) && s.loop != Stopped && s.changes == 0 && !CanStep(s)
    ensures Quiet(s) && (s.ok ==> s.built == s.live)
  {
    NeverStuck(s);
    if step, s' :| Working(step) && Next(s, step, s') {
      hide Next;
      assert !Environment(step) && Next(s, step, s');
    }
  }

  // ---- When a follower catches up

  ghost predicate Rebuilding(s: State) { s.loop == Listing || s.loop.HalfListed? || s.loop.Listed? }

  // A rebuild is running or still to come, or there is nothing to catch up with.
  ghost predicate CatchingUp(s: State) { Rebuilding(s) || Token(s) || s.built == s.live }

  // All runs without failures and without new changes end with a table that is current.
  ghost predicate EndsCurrent(s: State) {
    forall run: seq<State>, steps ::
      IsRun(run, steps) && run[0] == s && (forall m :: 0 <= m < |steps| ==> Working(steps[m])) && !CanWork(run[|steps|])
      ==> run[|steps|].built == s.live
  }

  lemma RebuildingStaysCatchingUp(s: State, step: Step, s': State)
    requires Inv(s) && s.changes == 0 && CatchingUp(s) && RebuildNext(s, step, s') && !step.Fail?
    ensures CatchingUp(s') && s'.loop != Stopped
  {}

  lemma StaysCatchingUp(s: State, step: Step, s': State)
    requires Inv(s) && s.changes == 0 && s.loop != Stopped && CatchingUp(s) && Next(s, step, s') && Working(step)
    ensures s'.changes == 0 && s'.loop != Stopped && CatchingUp(s') && s'.live == s.live
  {
    hide EnvironmentNext, RebuildNext, Measure, Inv, CatchingUp;
    StepsDecrease(s, step, s');
    if Debounces(step) {
      DebouncingKeepsToken(s, step, s');
      TokenCatchesUp(s');
    } else {
      RebuildingStaysCatchingUp(s, step, s');
    }
  }

  lemma TokenCatchesUp(s: State)
    requires Token(s)
    ensures CatchingUp(s)
  {}

  lemma {:induction false} CatchingUpAlong(run: seq<State>, steps: seq<Step>, i: nat)
    requires IsRun(run, steps) && Inv(run[0]) && run[0].changes == 0 && run[0].loop != Stopped && CatchingUp(run[0])
    requires i < |run| && forall m :: 0 <= m < i ==> Working(steps[m])
    ensures Inv(run[i]) && run[i].changes == 0 && run[i].loop != Stopped && CatchingUp(run[i])
    ensures run[i].live == run[0].live
  {
    hide Inv, Next, CatchingUp, Working;
    if i > 0 {
      CatchingUpAlong(run, steps, i - 1);
      assert Next(run[i - 1], steps[i - 1], run[i - 1 + 1]);
      StaysCatchingUp(run[i - 1], steps[i - 1], run[i]);
      InvKept(run[i - 1], steps[i - 1], run[i]);
    }
  }

  // From any state with no change outstanding: unless a rebuild fails the table ends up
  // current iff a rebuild is running or still to come, or the table is current already.
  lemma CatchesUpIff(s: State)
    requires Inv(s) && s.changes == 0 && s.loop != Stopped
    ensures EndsCurrent(s) <==> CatchingUp(s)
  {
    hide Next, Inv, CanWork;
    if CatchingUp(s) {
      forall run: seq<State>, steps |
        IsRun(run, steps) && run[0] == s && (forall m :: 0 <= m < |steps| ==>
          Working(steps[m])) && !CanWork(run[|steps|])
        ensures run[|steps|].built == s.live
      {
        CatchingUpAlong(run, steps, |steps|);
        NeverStuck(run[|steps|]);
      }
    } else {
      assert IsRun([s], []);
      assert !CanWork(s) by { NothingToDo(s); }
    }
  }

  lemma NothingToDo(s: State)
    requires !CatchingUp(s)
    ensures !CanWork(s)
  {
  }

  // A failed rebuild is not retried: with nothing else pending the table stays as it was
  // until the next change.
  lemma FailureIsNotRetried(s: State)
    requires Inv(s) && s.loop == Listing && !s.starting && !Pending(s.(loop := Idle)) && s.built != s.live
    ensures exists s' :: Next(s, Fail, s') && Quiet(s') && !CanStep(s') && s'.built != s'.live
  {
    var s' := s.(loop := Idle, ok := false);
    assert Next(s, Fail, s');
  }

  // The follower has built its first table from one set of resources, then they changed.
  function Changed(first: Resources, second: Resources): State {
    State(second, 1, false, false, 0, false, false, Idle, false, first, true, false)
  }

  lemma FirstRebuild(first: Resources, second: Resources) returns (run: seq<State>, steps: seq<Step>)
    ensures IsRun(run, steps) && Init(run[0]) && |steps| == 4 && run[4] == Changed(first, second)
  {
    var s0 := State(first, 0, false, false, 0, false, false, Listing, true, first, false, false);
    var s1, s2 := s0.(loop := HalfListed(first.namespaced)), s0.(loop := Listed(first));
    var s3, s4 := s0.(loop := Idle, starting := false, ok := true), Changed(first, second);
    run, steps := [s0, s1, s2, s3, s4], [ListNamespaced, ListClusterWide, Swap, Change(second)];
    assert RebuildNext(s0, steps[0], s1) && RebuildNext(s1, steps[1], s2) && RebuildNext(s2, steps[2], s3);
    assert EnvironmentNext(s3, steps[3], s4);
  }

  lemma TriggeredToToken(s4: State) returns (run: seq<State>, steps: seq<Step>)
    requires exists first, second :: s4 == Changed(first, second)
    ensures IsRun(run, steps) && run[0] == s4 && |steps| == 6
    ensures run[6] == s4.(changes := 0, unserved := true, rebuildCh := true)
  {
    var s5 := s4.(changes := 0, triggerCh := true, unserved := true);
    var s6 := s5.(triggerCh := false, loop := Debouncing);
    var s7, s8 := s6.(timeChan := 1, loop := Idle), s6.(window := true, loop := Idle);
    var s9, s10 := s6.(calling := true, loop := Idle), s6.(rebuildCh := true, loop := Idle);
    run := [s4, s5, s6, s7, s8, s9, s10];
    steps := [Trigger, TakeTrigger, SendDebounce, ReceiveDebounce, TickerFires, Callback];
    assert EnvironmentNext(s4, steps[0], s5) && DebounceNext(s5, steps[1], s6) && DebounceNext(s6, steps[2], s7);
    assert DebounceNext(s7, steps[3], s8) && DebounceNext(s8, steps[4], s9) && DebounceNext(s9, steps[5], s10);
    hide RebuildNext, DebounceNext, EnvironmentNext;
    forall i | 0 <= i < 6 ensures Next(run[i], steps[i], run[i + 1]) {}
  }

  lemma RunsJoin(a: seq<State>, b: seq<Step>, c: seq<State>, d: seq<Step>)
    requires IsRun(a, b) && IsRun(c, d) && a[|b|] == c[0]
    ensures IsRun(a + c[1..], b + d) && (a + c[1..])[|b + d|] == c[|d|]
  {
    hide Next;
    var run, steps := a + c[1..], b + d;
    forall i | 0 <= i < |steps| ensures Next(run[i], steps[i], run[i + 1]) {
      if i >= |b| {
        assert Next(c[i - |b|], d[i - |b|], c[i - |b| + 1]);
        assert run[i] == c[i - |b|] && run[i + 1] == c[i - |b| + 1];
      } else {
        assert Next(a[i], b[i], a[i + 1]);
      }
    }
  }

  // It happens: a change, its notification and a rebuild that fails.
  lemma FailureLeavesOutdated(first: Resources, second: Resources) returns (run: seq<State>, steps: seq<Step>)
    requires first != second
    ensures IsRun(run, steps) && Init(run[0]) && |steps| == 12 && steps[11] == Fail
    ensures Quiet(run[12]) && !CanStep(run[12]) && run[12].built != run[12].live
  {
    var s4 := Changed(first, second);
    var s := s4.(changes := 0, unserved := true, rebuildCh := true);
    var s' := s4.(changes := 0, loop := Listing);
    var s'' := s4.(changes := 0, ok := false);
    var a, b := FirstRebuild(first, second);
    var c, d := TriggeredToToken(s4);
    assert RebuildNext(s, TakeRebuild, s') && RebuildNext(s', Fail, s'');
    RestHasNoStep(s'');
    hide RebuildNext, DebounceNext, EnvironmentNext, CanStep;
    assert IsRun([s, s', s''], [TakeRebuild, Fail]);
    RunsJoin(a, b, c, d);
    RunsJoin(a + c[1..], b + d, [s, s', s''], [TakeRebuild, Fail]);
    run, steps := a + c[1..] + [s, s', s''][1..], b + d + [TakeRebuild, Fail];
  }

  lemma RestHasNoStep(s: State)
    requires Quiet(s)
    ensures !CanStep(s)
  {}
}
