// internal/reconciliation/debouncer.go: a window opens with the first request received and
// closes, with one callback, when its ticker fires. Time is a real number; the ticker may
// be served up to `latency` late, and the callback itself takes no time.
module Debouncer {

  datatype Config = Config(timeout: real, latency: real)

  // received and callbacks are histories of times; windows counts the windows so far.
  datatype State = State(now: real, startedTime: Window, received: seq<real>, callbacks: seq<real>, windows: nat)

  datatype Window = Closed | Open(start: real)

  datatype Step = Wait(duration: real) | Receive | Fire

  ghost predicate Init(s: State) {
    s.startedTime == Closed && s.received == [] && s.callbacks == [] && s.windows == 0
  }

  ghost predicate Next(c: Config, s: State, step: Step, s': State) {
    match step
    case Wait(duration) =>
      duration > 0.0
      && (s.startedTime.Open? ==> s.now + duration <= s.startedTime.start + c.timeout + c.latency)
      && s' == s.(now := s.now + duration)
    case Receive =>
      s' == s.(received := s.received + [s.now],
               startedTime := if s.startedTime == Closed then Open(s.now) else s.startedTime,
               windows := if s.startedTime == Closed then s.windows + 1 else s.windows)
    case Fire =>
      s.startedTime.Open? && s.now >= s.startedTime.start + c.timeout
      && s' == s.(startedTime := Closed, callbacks := s.callbacks + [s.now])
  }

  // A callback that answers the request received at r, in time.
  ghost predicate Answered(c: Config, s: State, r: real) {
    exists i :: 0 <= i < |s.callbacks| && r <= s.callbacks[i] <= r + c.timeout + c.latency
  }

  // The open window will answer the request received at r, in time.
  ghost predicate Pending(c: Config, s: State, r: real) {
    s.startedTime.Open? && s.startedTime.start <= r <= s.now <= s.startedTime.start + c.timeout + c.latency
  }

  // A request that the callback at time t was waiting for.
  ghost predicate Caused(c: Config, s: State, t: real) {
    exists i :: 0 <= i < |s.received| && s.received[i] + c.timeout <= t <= s.received[i] + c.timeout + c.latency
  }

  ghost predicate Spaced(c: Config, times: seq<real>) {
    forall i :: 0 <= i < |times| - 1 ==> times[i + 1] - times[i] >= c.timeout
  }

  ghost predicate Inv(c: Config, s: State) {
    && (forall i :: 0 <= i < |s.received| ==> Answered(c, s, s.received[i]) || Pending(c, s, s.received[i]))
    && (forall i :: 0 <= i < |s.callbacks| ==> Caused(c, s, s.callbacks[i]) && s.callbacks[i] <= s.now)
    && Spaced(c, s.callbacks)
    && (s.startedTime.Open? && s.callbacks != [] ==> s.callbacks[|s.callbacks| - 1] <= s.startedTime.start)
    && (s.startedTime.Open? ==>
      s.startedTime.start in s.received && s.now <= s.startedTime.start + c.timeout + c.latency)
    && |s.callbacks| + (if s.startedTime.Open? then 1 else 0) == s.windows
  }

  lemma WaitKeepsInv(c: Config, s: State, step: Step, s': State)
    requires c.timeout > 0.0 && c.latency >= 0.0 && Inv(c, s) && Next(c, s, step, s') && step.Wait?
    ensures Inv(c, s')
  {
    forall i | 0 <= i < |s'.received| ensures Answered(c, s', s'.received[i]) || Pending(c, s', s'.received[i]) {
      if Answered(c, s, s.received[i]) {
        var j :| 0 <= j < |s.callbacks| && s.received[i] <= s.callbacks[j] <= s.received[i] + c.timeout + c.latency;
        assert s'.callbacks[j] == s.callbacks[j];
      }
    }
    forall i | 0 <= i < |s'.callbacks| ensures Caused(c, s', s'.callbacks[i]) {
      StaysCaused(c, s, s', s.callbacks[i]);
    }
  }

  lemma ReceiveKeepsInv(c: Config, s: State, s': State)
    requires c.timeout > 0.0 && c.latency >= 0.0 && Inv(c, s) && Next(c, s, Receive, s')
    ensures Inv(c, s')
  {
    forall i | 0 <= i < |s'.received| ensures Answered(c, s', s'.received[i]) || Pending(c, s', s'.received[i]) {
      if i < |s.received| && Answered(c, s, s.received[i]) {
        assert Answered(c, s', s.received[i]);
      }
    }
    forall i | 0 <= i < |s'.callbacks| ensures Caused(c, s', s'.callbacks[i]) {
      StaysCaused(c, s, s', s.callbacks[i]);
    }
    assert s'.received[|s.received|] == s.now;
  }

  lemma FireAnswers(c: Config, s: State, s': State, r: real)
    requires Next(c, s, Fire, s') && (Answered(c, s, r) || Pending(c, s, r))
    ensures Answered(c, s', r)
  {
    if i :| 0 <= i < |s.callbacks| && r <= s.callbacks[i] <= r + c.timeout + c.latency {
      assert s'.callbacks[i] == s.callbacks[i];
    } else {
      assert s'.callbacks[|s.callbacks|] == s.now;
    }
  }

  lemma FireIsCaused(c: Config, s: State, s': State)
    requires c.timeout > 0.0 && c.latency >= 0.0 && Next(c, s, Fire, s')
    requires s.startedTime.start in s.received && s.now <= s.startedTime.start + c.timeout + c.latency
    ensures Caused(c, s', s.now)
  {
    var j :| 0 <= j < |s.received| && s.received[j] == s.startedTime.start;
    assert s'.received[j] + c.timeout <= s.now;
  }

  lemma FireKeepsInv(c: Config, s: State, s': State)
    requires c.timeout > 0.0 && c.latency >= 0.0 && Inv(c, s) && Next(c, s, Fire, s')
    ensures Inv(c, s')
  {
    hide Answered, Caused;
    forall i | 0 <= i < |s'.received| ensures Answered(c, s', s'.received[i]) {
      FireAnswers(c, s, s', s.received[i]);
    }
    forall i | 0 <= i < |s'.callbacks| ensures Caused(c, s', s'.callbacks[i]) {
      if i < |s.callbacks| {
        StaysCaused(c, s, s', s.callbacks[i]);
      } else {
        FireIsCaused(c, s, s');
      }
    }
  }

  lemma StaysCaused(c: Config, s: State, s': State, t: real)
    requires Caused(c, s, t) && s.received <= s'.received
    ensures Caused(c, s', t)
  {
    var i :| 0 <= i < |s.received| && s.received[i] + c.timeout <= t <= s.received[i] + c.timeout + c.latency;
    assert s'.received[i] == s.received[i];
  }

  ghost predicate IsRun(c: Config, run: seq<State>, steps: seq<Step>) {
    && |run| == |steps| + 1 && Init(run[0])
    && forall i :: 0 <= i < |steps| ==> Next(c, run[i], steps[i], run[i + 1])
  }

  lemma {:induction false} RunKeepsInv(c: Config, run: seq<State>, steps: seq<Step>, i: nat)
    requires c.timeout > 0.0 && c.latency >= 0.0 && IsRun(c, run, steps) && i < |run|
    ensures Inv(c, run[i])
  {
    hide Inv, Next;
    if i == 0 {
      InitInv(c, run[0]);
    } else {
      RunKeepsInv(c, run, steps, i - 1);
      assert Next(c, run[i - 1], steps[i - 1], run[i - 1 + 1]);
      match steps[i - 1]
      case Wait(_) => WaitKeepsInv(c, run[i - 1], steps[i - 1], run[i]);
      case Receive => ReceiveKeepsInv(c, run[i - 1], run[i]);
      case Fire => FireKeepsInv(c, run[i - 1], run[i]);
    }
  }

  lemma InitInv(c: Config, s: State)
    requires Init(s)
    ensures Inv(c, s)
  {}

  // Over every run: a request whose time is up has been answered, no later than one timeout
  // (and the latency) after it was received; callbacks are at least one timeout apart; no
  // callback comes without a request; and each window has at most one callback.
  lemma Timing(c: Config, run: seq<State>, steps: seq<Step>, i: nat)
    requires c.timeout > 0.0 && c.latency >= 0.0 && IsRun(c, run, steps) && i < |run|
    ensures forall r :: r in run[i].received && run[i].now > r + c.timeout + c.latency ==> Answered(c, run[i], r)
    ensures run[i].startedTime == Closed ==> forall r :: r in run[i].received ==> Answered(c, run[i], r)
    ensures forall t :: t in run[i].callbacks ==> Caused(c, run[i], t)
    ensures Spaced(c, run[i].callbacks)
    ensures |run[i].callbacks| <= run[i].windows <= |run[i].callbacks| + 1
  {
    RunKeepsInv(c, run, steps, i);
  }

  ghost predicate Possible(c: Config, s: State, step: Step) {
    exists s' :: Next(c, s, step, s')
  }

  // The goroutine's loop, given what select finds ready each time: it ends at the first
  // choice that cannot be, a fire of the stopped or still running ticker. The ticker is
  // running exactly while startedTime is set.
  method Start(c: Config, started: real, selected: seq<Step>) returns (callbacks: seq<real>, ghost run: seq<State>)
    requires c.timeout > 0.0 && c.latency >= 0.0
    ensures 0 < |run| <= |selected| + 1 && IsRun(c, run, selected[..|run| - 1])
    ensures |run| <= |selected| ==> !Possible(c, run[|run| - 1], selected[|run| - 1])
    ensures callbacks == run[|run| - 1].callbacks && Spaced(c, callbacks)
  {
    hide Answered, Caused, Spaced;
    var now, startedTime, ticker := started, Closed, Closed;
    callbacks := [];
    run := [State(started, Closed, [], [], 0)];
    var i := 0;
    while i < |selected|
      invariant 0 <= i <= |selected| && |run| == i + 1 && IsRun(c, run, selected[..i])
      invariant ticker == startedTime == run[i].startedTime && now == run[i].now && callbacks == run[i].callbacks
      decreases |selected| - i
    {
      ghost var s := run[i];
      ghost var s' := s;
      match selected[i] {
      case Wait(duration) =>
        if duration <= 0.0 || (ticker.Open? && now + duration > ticker.start + c.timeout + c.latency) { break; }
        now := now + duration;
        s' := s.(now := now);
      case Receive =>
        s' := s.(received := s.received + [now], windows := if startedTime == Closed then s.windows + 1 else s.windows);
        if startedTime == Closed {
          startedTime := Open(now);
          ticker := Open(now);
        }
        s' := s'.(startedTime := startedTime);
      case Fire =>
        if ticker == Closed || now < ticker.start + c.timeout { break; }
        ticker := Closed;
        startedTime := Closed;
        callbacks := callbacks + [now];
        s' := s.(startedTime := Closed, callbacks := callbacks);
      }
      assert Next(c, s, selected[i], s');
      assert selected[..i+1] == selected[..i] + [selected[i]];
      run := run + [s'];
      i := i + 1;
    }
    RunKeepsInv(c, run, selected[..i], i);
  }
}
