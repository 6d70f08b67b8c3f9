// internal/reconciliation/collector.go: events waiting to be batched.
module Collector {
  import opened Scopes

  datatype Event = Event(key: Key, generation: int, resourceVersion: string)

  const CHANNEL_CAPACITY := 10
  const TRIGGER_CAPACITY := 1024
  const DEBOUNCE_CAPACITY := 100

  type EventMap = map<Key, Event>

  // The rule by which a batch that could not be sent goes back into the map.
  function MergeOne(m: EventMap, e: Event): EventMap {
    if e.key !in m || e.generation > m[e.key].generation then m[e.key := e] else m
  }

  function Merge(m: EventMap, batch: seq<Event>): EventMap
    decreases |batch|
  {
    if batch == [] then m else Merge(MergeOne(m, batch[0]), batch[1..])
  }

  ghost predicate Keyed(m: EventMap) {
    forall k :: k in m ==> m[k].key == k
  }

  // Some event of the set is of the same resource and at least as new.
  ghost predicate CoveredBy(e: Event, events: set<Event>) {
    exists p :: p in events && p.key == e.key && p.generation >= e.generation
  }

  lemma {:induction false} MergeAppend(m: EventMap, batch: seq<Event>, e: Event)
    ensures Merge(m, batch + [e]) == MergeOne(Merge(m, batch), e)
    decreases |batch|
  {
    if batch != [] {
      assert (batch + [e])[1..] == batch[1..] + [e];
      MergeAppend(MergeOne(m, batch[0]), batch[1..], e);
    } else {
      assert ([] + [e])[1..] == [];
    }
  }

  // Merging back loses nothing, invents nothing, and never puts an older event in the
  // place of a newer one.
  lemma {:induction false} MergeKeepsNewest(m: EventMap, batch: seq<Event>)
    requires Keyed(m)
    ensures Keyed(Merge(m, batch))
    ensures forall k :: k in m ==> k in Merge(m, batch)
    ensures forall k :: k in m ==> Merge(m, batch)[k] == m[k] || Merge(m, batch)[k].generation > m[k].generation
    ensures forall e :: e in batch ==> e.key in Merge(m, batch) && Merge(m, batch)[e.key].generation >= e.generation
    ensures Merge(m, batch).Values <= m.Values + Elements(batch)
    decreases |batch|
  {
    if batch != [] {
      var one := MergeOne(m, batch[0]);
      MergeKeepsNewest(one, batch[1..]);
      assert one.Values <= m.Values + {batch[0]};
      assert Elements(batch) == {batch[0]} + Elements(batch[1..]);
    }
  }

  // All of a map's events merged into an empty map give the map.
  lemma MergedBack(m: EventMap, batch: seq<Event>)
    requires Keyed(m) && Elements(batch) == m.Values
    ensures Merge(map[], batch) == m
  {
    var r := Merge(map[], batch);
    MergeKeepsNewest(map[], batch);
    forall k | k in m ensures k in r {
      assert m[k] in m.Values && m[k] in Elements(batch);
    }
    forall k | k in r ensures k in m && r[k] == m[k] {
      assert r[k] in r.Values && r[k] in m.Values && r[k].key == k;
      var j :| j in m && m[j] == r[k];
    }
  }

  // flushed: a flush was asked for at once.
  datatype AddOutcome = Added(flushed: bool) | WaitsToDebounce | WaitsToFlush

  class EventCollector {
    var eventMap: EventMap
    var batchReadyCh: seq<seq<Event>>
    var batchTriggerCh: nat   // tokens in the channel that flushes are asked for on
    var timeChan: nat         // requests the debouncer has not received yet
    const maxBatchSize: nat

    constructor (maxBatchSize: nat)
      ensures eventMap == map[] && batchReadyCh == [] && batchTriggerCh == timeChan == 0
      ensures this.maxBatchSize == maxBatchSize
    {
      eventMap, batchReadyCh, batchTriggerCh, timeChan := map[], [], 0, 0;
      this.maxBatchSize := maxBatchSize;
    }

    // The event is in the map before either send, and each send waits for room, with the
    // lock held: the result says where the call is waiting if it is.
    method AddEvent(e: Event) returns (r: AddOutcome)
      modifies `eventMap, `timeChan, `batchTriggerCh
      ensures eventMap == old(eventMap)[e.key := e]
      ensures timeChan == if old(timeChan) < DEBOUNCE_CAPACITY then old(timeChan) + 1 else old(timeChan)
      ensures r == if old(timeChan) >= DEBOUNCE_CAPACITY then WaitsToDebounce
                   else if |eventMap| < maxBatchSize then Added(false)
                   else if old(batchTriggerCh) < TRIGGER_CAPACITY then Added(true)
                   else WaitsToFlush
      ensures batchTriggerCh == if r == Added(true) then old(batchTriggerCh) + 1 else old(batchTriggerCh)
    {
      eventMap := eventMap[e.key := e];
      if timeChan >= DEBOUNCE_CAPACITY { return WaitsToDebounce; }
      timeChan := timeChan + 1;
      if |eventMap| < maxBatchSize { return Added(false); }
      if batchTriggerCh >= TRIGGER_CAPACITY { return WaitsToFlush; }
      batchTriggerCh := batchTriggerCh + 1;
      r := Added(true);
    }

    // A flush sends all events as one batch, or changes nothing: what does not fit into the
    // channel goes back as it was.
    method FlushEvents()
      requires Keyed(eventMap)
      modifies `eventMap, `batchReadyCh
      ensures old(eventMap) == map[] || |old(batchReadyCh)| >= CHANNEL_CAPACITY ==>
        eventMap == old(eventMap) && batchReadyCh == old(batchReadyCh)
      ensures old(eventMap) != map[] && |old(batchReadyCh)| < CHANNEL_CAPACITY ==>
        && eventMap == map[] && |batchReadyCh| == |old(batchReadyCh)| + 1
        && batchReadyCh[..|old(batchReadyCh)|] == old(batchReadyCh)
        && Elements(batchReadyCh[|old(batchReadyCh)|]) == old(eventMap).Values
        && |batchReadyCh[|old(batchReadyCh)|]| == |old(eventMap)|
    {
      if |eventMap| == 0 { return; }
      var batch := CollectEventsIntoBatch();
      SendBatch(batch);
      if |old(batchReadyCh)| >= CHANNEL_CAPACITY {
        MergedBack(old(eventMap), batch);
      }
    }

    // Takes all events, in any order.
    method CollectEventsIntoBatch() returns (batch: seq<Event>)
      modifies `eventMap
      ensures eventMap == map[]
      ensures Elements(batch) == old(eventMap).Values && |batch| == |old(eventMap)|
    {
      batch := [];
      var todo := eventMap.Keys;
      while todo != {}
        invariant eventMap == old(eventMap) && todo <= eventMap.Keys
        invariant Elements(batch) == set k | k in eventMap.Keys - todo :: eventMap[k]
        invariant |batch| + |todo| == |eventMap.Keys|
      {
        var k :| k in todo;
        todo := todo - {k};
        assert Elements(batch + [eventMap[k]]) == Elements(batch) + {eventMap[k]};
        batch := batch + [eventMap[k]];
      }
      assert eventMap.Values == set k | k in eventMap.Keys :: eventMap[k];
      eventMap := map[];
    }

    // Never blocks: a batch that does not fit goes back into the map.
    method SendBatch(batch: seq<Event>)
      modifies `eventMap, `batchReadyCh
      ensures |old(batchReadyCh)| < CHANNEL_CAPACITY ==>
        batchReadyCh == old(batchReadyCh) + [batch] && eventMap == old(eventMap)
      ensures |old(batchReadyCh)| >= CHANNEL_CAPACITY ==>
        batchReadyCh == old(batchReadyCh) && eventMap == Merge(old(eventMap), batch)
    {
      if |batchReadyCh| < CHANNEL_CAPACITY {
        batchReadyCh := batchReadyCh + [batch];
      } else {
        for i := 0 to |batch|
          invariant batchReadyCh == old(batchReadyCh)
          invariant eventMap == Merge(old(eventMap), batch[..i])
        {
          var e := batch[i];
          MergeAppend(old(eventMap), batch[..i], e);
          assert batch[..i+1] == batch[..i] + [e];
          if e.key !in eventMap || e.generation > eventMap[e.key].generation {
            eventMap := eventMap[e.key := e];
          }
        }
        assert batch[..|batch|] == batch;
      }
    }
  }

  // ---- Any number of adders and flushers, interleaved

  datatype State = State(
    eventMap: EventMap, holding: map<nat, seq<Event>>, channel: seq<seq<Event>>,
    consumed: seq<seq<Event>>, added: set<Event>)

  datatype Step =
    | Add(e: Event) | Collect(flusher: nat, batch: seq<Event>) | Send(flusher: nat) | Remerge(flusher: nat) | Receive

  ghost predicate Init(s: State) {
    s == State(map[], map[], [], [], {})
  }

  ghost predicate Next(s: State, step: Step, s': State) {
    match step
    case Add(e) =>
      s' == s.(eventMap := s.eventMap[e.key := e], added := s.added + {e})
    case Collect(f, batch) =>
      f !in s.holding && s.eventMap != map[] && Elements(batch) == s.eventMap.Values
      && s' == s.(eventMap := map[], holding := s.holding[f := batch])
    case Send(f) =>
      f in s.holding && |s.channel| < CHANNEL_CAPACITY
      && s' == s.(channel := s.channel + [s.holding[f]], holding := s.holding - {f})
    case Remerge(f) =>
      f in s.holding && |s.channel| >= CHANNEL_CAPACITY
      && s' == s.(eventMap := Merge(s.eventMap, s.holding[f]), holding := s.holding - {f})
    case Receive =>
      s.channel != [] && s' == s.(consumed := s.consumed + [s.channel[0]], channel := s.channel[1..])
  }

  ghost function Flatten(batches: seq<seq<Event>>): set<Event> {
    set b, e | b in batches && e in b :: e
  }

  ghost function Held(holding: map<nat, seq<Event>>): set<Event> {
    set f, e | f in holding && e in holding[f] :: e
  }

  // Everywhere but in the map.
  ghost function Elsewhere(s: State): set<Event> {
    Held(s.holding) + Flatten(s.channel) + Flatten(s.consumed)
  }

  ghost function Places(s: State): set<Event> {
    s.eventMap.Values + Elsewhere(s)
  }

  // For each resource the greatest generation added is in the map, in flight, in the
  // channel or consumed.
  ghost predicate Conserved(s: State) {
    forall e :: e in s.added ==> CoveredBy(e, Places(s))
  }

  ghost predicate Inv(s: State) {
    Keyed(s.eventMap) && Places(s) <= s.added
  }

  // The add does not put an older event over the only copy of the newest.
  ghost predicate SafeAdd(s: State, e: Event) {
    e.key in s.eventMap && s.eventMap[e.key].generation > e.generation ==>
      CoveredBy(s.eventMap[e.key], Elsewhere(s))
  }

  lemma FlattenAppend(a: seq<seq<Event>>, b: seq<Event>)
    ensures Flatten(a + [b]) == Flatten(a) + Elements(b)
  {}

  lemma HeldAdd(holding: map<nat, seq<Event>>, f: nat, batch: seq<Event>)
    requires f !in holding
    ensures Held(holding[f := batch]) == Held(holding) + Elements(batch)
  {
    forall e ensures e in Held(holding[f := batch]) <==> e in Held(holding) || e in batch {
      if e in Held(holding) {
        var g :| g in holding && e in holding[g];
        assert g in holding[f := batch] && e in holding[f := batch][g];
      }
      if e in batch { assert e in holding[f := batch][f]; }
    }
  }

  lemma HeldRemove(holding: map<nat, seq<Event>>, f: nat)
    requires f in holding
    ensures Held(holding) == Held(holding - {f}) + Elements(holding[f])
  {
    HeldAdd(holding - {f}, f, holding[f]);
    assert holding == (holding - {f})[f := holding[f]];
  }

  lemma FlattenSplit(a: seq<seq<Event>>)
    requires a != []
    ensures Flatten(a) == Elements(a[0]) + Flatten(a[1..])
  {
    assert a == [a[0]] + a[1..];
  }

  // Steps other than adds only move events, or drop one that a newer one covers.
  lemma MovesCover(s: State, step: Step, s': State)
    requires Inv(s) && Next(s, step, s') && !step.Add?
    ensures Inv(s') && s'.added == s.added
    ensures forall e :: e in Places(s) ==> CoveredBy(e, Places(s'))
  {
    hide Merge, Flatten, Held;
    match step
    case Collect(f, batch) => HeldAdd(s.holding, f, batch);
    case Send(f) =>
      HeldRemove(s.holding, f);
      FlattenAppend(s.channel, s.holding[f]);
    case Remerge(f) =>
      HeldRemove(s.holding, f);
      MergeKeepsNewest(s.eventMap, s.holding[f]);
      forall e | e in Places(s) ensures CoveredBy(e, Places(s')) {
        if e in s.eventMap.Values || e in Elements(s.holding[f]) {
          assert e.key in s'.eventMap && s'.eventMap[e.key] in s'.eventMap.Values;
        }
      }
    case Receive =>
      FlattenSplit(s.channel);
      FlattenAppend(s.consumed, s.channel[0]);
  }

  lemma CoverTransitive(added: set<Event>, before: set<Event>, after: set<Event>)
    requires forall e :: e in added ==> CoveredBy(e, before)
    requires forall e :: e in before ==> CoveredBy(e, after)
    ensures forall e :: e in added ==> CoveredBy(e, after)
  {}

  lemma ElsewhereUnchanged(s: State, e: Event, s': State)
    requires Next(s, Add(e), s')
    ensures Elsewhere(s') == Elsewhere(s)
  {}

  lemma PlacesAfterAdd(s: State, e: Event, s': State)
    requires Inv(s) && Next(s, Add(e), s')
    ensures e in Places(s')
    ensures forall p :: p in Places(s) && (p.key != e.key || p in Elsewhere(s)) ==> p in Places(s')
    ensures forall p :: p in Places(s') ==> p == e || (p in Places(s) && (p.key != e.key || p in Elsewhere(s)))
    ensures forall p :: p in Places(s) && p.key == e.key && p !in Elsewhere(s) ==>
      e.key in s.eventMap && p == s.eventMap[e.key]
    ensures e.key in s.eventMap ==> s.eventMap[e.key] in Places(s) && s.eventMap[e.key].key == e.key
  {
    hide Elsewhere;
    ElsewhereUnchanged(s, e, s');
    assert e.key in s'.eventMap && s'.eventMap[e.key] == e;
    forall k | k in s.eventMap && k != e.key ensures s.eventMap[k] in s'.eventMap.Values {
      assert k in s'.eventMap && s'.eventMap[k] == s.eventMap[k];
    }
  }

  // An add keeps the newest events iff it is safe.
  lemma AddConservesIffSafe(s: State, e: Event, s': State)
    requires Inv(s) && Conserved(s) && Next(s, Add(e), s')
    ensures Keyed(s'.eventMap) && Places(s') <= s'.added
    ensures Conserved(s') <==> SafeAdd(s, e)
  {
    hide Places, Elsewhere, CoveredBy;
    PlacesAfterAdd(s, e, s');
    if SafeAdd(s, e) {
      forall a | a in s'.added ensures CoveredBy(a, Places(s')) {
        if a == e { Self(e, Places(s')); } else { AddCovers(s, e, s', a); }
      }
    }
    if Conserved(s') && e.key in s.eventMap && s.eventMap[e.key].generation > e.generation {
      assert CoveredBy(s.eventMap[e.key], Places(s'));
      LostIsElsewhere(s, e, s');
    }
  }

  lemma Self(e: Event, events: set<Event>)
    requires e in events
    ensures CoveredBy(e, events)
  {}

  lemma LostIsElsewhere(s: State, e: Event, s': State)
    requires Inv(s) && Next(s, Add(e), s')
    requires e.key in s.eventMap && s.eventMap[e.key].generation > e.generation
    requires CoveredBy(s.eventMap[e.key], Places(s'))
    ensures CoveredBy(s.eventMap[e.key], Elsewhere(s))
  {
    hide Places, Elsewhere;
    PlacesAfterAdd(s, e, s');
  }

  lemma AddCovers(s: State, e: Event, s': State, a: Event)
    requires Inv(s) && CoveredBy(a, Places(s)) && Next(s, Add(e), s') && SafeAdd(s, e)
    ensures CoveredBy(a, Places(s'))
  {
    hide Places, Elsewhere;
    PlacesAfterAdd(s, e, s');
    var p :| p in Places(s) && p.key == a.key && p.generation >= a.generation;
    if p.key == e.key && p !in Elsewhere(s) && p.generation > e.generation {
      var q :| q in Elsewhere(s) && q.key == p.key && q.generation >= p.generation;
      ElsewhereInPlaces(s, q);
      assert q in Places(s');
    }
  }

  lemma ElsewhereInPlaces(s: State, p: Event)
    requires p in Elsewhere(s)
    ensures p in Places(s)
  {}

  ghost predicate IsRun(run: seq<State>, steps: seq<Step>) {
    && |run| == |steps| + 1 && Init(run[0])
    && forall i :: 0 <= i < |steps| ==> Next(run[i], steps[i], run[i + 1])
  }

  // In every interleaving whose adds are safe, nothing is lost at any point.
  lemma {:induction false} Conservation(run: seq<State>, steps: seq<Step>, i: nat)
    requires IsRun(run, steps) && i < |run|
    requires forall j :: 0 <= j < i && steps[j].Add? ==> SafeAdd(run[j], steps[j].e)
    ensures Inv(run[i]) && Conserved(run[i])
  {
    hide SafeAdd, Places, Next;
    if i == 0 {
      assert Places(run[0]) == {} by { EmptyPlaces(run[0]); }
    } else {
      Conservation(run, steps, i - 1);
      var s, step, s' := run[i - 1], steps[i - 1], run[i];
      assert Next(s, step, run[i - 1 + 1]);
      if step.Add? {
        AddConservesIffSafe(s, step.e, s');
      } else {
        MovesCover(s, step, s');
        CoverTransitive(s.added, Places(s), Places(s'));
      }
    }
  }

  lemma EmptyPlaces(s: State)
    requires Init(s)
    ensures Places(s) == {}
  {}

  // Adding the generations of each resource in non-decreasing order is safe.
  lemma {:induction false} OrderedAddsConserve(run: seq<State>, steps: seq<Step>, i: nat)
    requires IsRun(run, steps) && i < |run|
    requires forall j :: 0 <= j < i && steps[j].Add? ==>
      forall e :: e in run[j].added && e.key == steps[j].e.key ==> e.generation <= steps[j].e.generation
    ensures Inv(run[i]) && Conserved(run[i])
  {
    hide Places, Next, Conserved;
    if i > 0 {
      OrderedAddsConserve(run, steps, i - 1);
    }
    forall j | 0 <= j < i && steps[j].Add? ensures SafeAdd(run[j], steps[j].e) {
      OrderedAddsConserve(run, steps, j);
      MapIsAdded(run[j]);
    }
    Conservation(run, steps, i);
  }

  lemma MapIsAdded(s: State)
    requires Inv(s)
    ensures forall k :: k in s.eventMap ==> s.eventMap[k] in s.added && s.eventMap[k].key == k
  {
    hide Elsewhere;
    forall k | k in s.eventMap ensures s.eventMap[k] in s.added {
      assert s.eventMap[k] in Places(s);
    }
  }

  // It happens: a resource that is created again starts at generation 1.
  lemma RecreationIsUnsafe(k: Key, older: int, newer: int, v: string) returns (run: seq<State>, steps: seq<Step>)
    requires older < newer
    ensures IsRun(run, steps) && steps == [Add(Event(k, newer, v)), Add(Event(k, older, v))]
    ensures !SafeAdd(run[1], steps[1].e) && !Conserved(run[2])
  {
    var e, f := Event(k, newer, v), Event(k, older, v);
    var s0 := State(map[], map[], [], [], {});
    var s1, s2 := State(map[k := e], map[], [], [], {e}), State(map[k := f], map[], [], [], {e, f});
    run, steps := [s0, s1, s2], [Add(e), Add(f)];
    assert Next(s0, Add(e), s1) && Next(s1, Add(f), s2);
    assert forall p :: p in s2.eventMap.Values ==> p == f;
    assert forall p :: p in Places(s2) ==> p == f;
    assert e in s2.added && !CoveredBy(e, Places(s2));
  }
}
