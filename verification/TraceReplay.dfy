/** The trace replay kernel over device arrays and the ring queue, proved against the state machine of TraceModel. */
module TraceReplay {
  import opened Sequences
  import opened DeviceTypes
  import opened RingQueue
  import opened TraceModel
  import opened Makespan

  datatype ReplayMetrics = ReplayMetrics(
    steps: nat, arrivals: nat, admissions: nat, completions: nat, quanta: nat, queueHigh: int, activeHigh: int)

  /** An order array: the ids of the requests listed so far, then -1. */
  ghost predicate OrderIs(order: seq<int>, ids: seq<int>, listed: seq<int>) {
    && |listed| <= |order|
    && forall j :: 0 <= j < |order| ==>
         order[j] == if j < |listed| && 0 <= listed[j] < |ids| then ids[listed[j]] else -1
  }

  function RequestIds(requests: seq<Descriptor>): seq<int> {
    seq(|requests|, i requires 0 <= i < |requests| => requests[i].requestId)
  }

  /** A request's state during the replay. */
  function StateIn(s: Replay, r: int, before: Status): Status {
    if r in s.completed then Complete
    else if r in s.ids then DecodeReady
    else if r in s.queue then PrefillReady
    else before
  }

  ghost predicate StatesAre(requests: seq<Descriptor>, before: seq<Descriptor>, s: Replay) {
    && |requests| == |before|
    && forall r :: 0 <= r < |requests| ==> requests[r] == before[r].(state := StateIn(s, r, before[r].state))
  }

  // ------------------------------------------------------------------------ arrivals

  /** A request arrives: it is queued unless the queue is full. */
  method ArriveOne(w: Workload, req: nat, requests: array<Descriptor>, queue: DeviceQueue,
                   ghost s: Replay, ghost q: seq<int>, ghost before: seq<Descriptor>)
    returns (pushed: bool)
    requires queue.Valid() && queue.capacity == w.capacity && queue.Contents() == q && req < requests.Length
    requires StatesAre(requests[..], before, s.(queue := q))
    requires req !in s.completed && req !in s.ids
    modifies requests, queue`tail, queue.entries
    ensures queue.Valid() && pushed == (|q| < w.capacity - 1)
    ensures var p := if pushed then q + [req] else q;
      queue.Contents() == p && StatesAre(requests[..], before, s.(queue := p))
  {
    pushed := queue.TryPush(req);
    if pushed {
      requests[req] := requests[req].(state := PrefillReady);
      StatesOnArrival(old(requests[..]), requests[..], before, s.(queue := q), req);
    }
  }

  lemma StatesOnArrival(was: seq<Descriptor>, now: seq<Descriptor>, before: seq<Descriptor>, s: Replay, req: nat)
    requires StatesAre(was, before, s) && req < |was| && req !in s.completed && req !in s.ids
    requires now == was[req := was[req].(state := PrefillReady)]
    ensures StatesAre(now, before, s.(queue := s.queue + [req]))
  {}

  /** The arrival loop of one step. */
  method ArriveLoop(w: Workload, step: nat, requests: array<Descriptor>, queue: DeviceQueue,
                    ghost s: Replay, ghost before: seq<Descriptor>)
    returns (pushed: nat)
    requires queue.Valid() && queue.capacity == w.capacity && queue.Contents() == s.queue
    requires requests.Length == w.Count() && BetweenSteps(w, s, step) && StatesAre(requests[..], before, s)
    modifies requests, queue`tail, queue.entries
    ensures queue.Valid() && queue.Contents() == Arrive(w, s, step).queue
    ensures StatesAre(requests[..], before, Arrive(w, s, step))
    ensures |Arrive(w, s, step).queue| == |s.queue| + pushed
  {
    pushed := 0;
    ghost var q := s.queue;
    for req := 0 to w.Count()
      invariant queue.Valid() && queue.Contents() == q == PushedTo(w, s.queue, step, req)
      invariant StatesAre(requests[..], before, s.(queue := q)) && |q| == |s.queue| + pushed
    {
      if w.arrival[req] != step { continue; }
      NotYetActive(w, s, step, req);
      var ok := ArriveOne(w, req, requests, queue, s, q, before);
      if ok {
        q, pushed := q + [req], pushed + 1;
      }
    }
  }

  lemma NotYetActive(w: Workload, s: Replay, k: nat, r: nat)
    requires BetweenSteps(w, s, k) && r < w.Count() && w.arrival[r] == k
    ensures r !in s.completed && r !in s.ids
  {
    ActiveAreAdmitted(w, s);
    assert r in s.admitted ==> Seen(w, k, 0, r);
  }

  lemma ActiveAreAdmitted(w: Workload, s: Replay)
    requires SlotInv(w, s)
    ensures forall x :: x in s.ids && x >= 0 ==> x in s.admitted && x !in s.completed
  {
    forall x | x in s.ids && x >= 0 ensures x in s.admitted && x !in s.completed {
      var i :| 0 <= i < |s.ids| && s.ids[i] == x;
      assert SlotOk(w, s, i);
    }
  }

  // ---------------------------------------------------------------------- admissions

  method CountActive(activeIds: array<int>) returns (count: nat)
    ensures count == ActiveCount(activeIds[..])
  {
    count := 0;
    for i := 0 to activeIds.Length
      invariant count == ActiveCount(activeIds[..i])
    {
      assert activeIds[..i + 1][..i] == activeIds[..i];
      if activeIds[i] >= 0 {
        count := count + 1;
      }
    }
    assert activeIds[..activeIds.Length] == activeIds[..];
  }

  /** The search for a free slot. */
  method FindFree(activeIds: array<int>) returns (slot: int)
    ensures slot == if FirstFree(activeIds[..]) < activeIds.Length then FirstFree(activeIds[..]) else -1
  {
    slot := -1;
    var i := 0;
    while i < activeIds.Length
      invariant 0 <= i <= activeIds.Length && slot == -1
      invariant forall j :: 0 <= j < i ==> activeIds[j] >= 0
    {
      if activeIds[i] < 0 {
        FirstFreeIs(activeIds[..], i);
        return i;
      }
      i := i + 1;
    }
  }

  lemma {:induction false} FirstFreeIs(ids: seq<int>, k: nat)
    requires k < |ids| && ids[k] < 0 && forall j :: 0 <= j < k ==> ids[j] >= 0
    ensures FirstFree(ids) == k
  {
    var f := FirstFree(ids);
    assert f < |ids| ==> ids[f] < 0;
  }

  /** The device arrays hold the state `s`. */
  ghost predicate Holds(w: Workload, s: Replay, queue: DeviceQueue, activeIds: array<int>, activeLeft: array<int>)
    reads queue, queue.entries, activeIds, activeLeft
  {
    && queue.Valid() && queue.capacity == w.capacity && queue.Contents() == s.queue
    && activeIds[..] == s.ids && activeLeft[..] == s.left
  }

  ghost predicate Separate(queue: DeviceQueue, activeIds: array<int>, activeLeft: array<int>,
                           admissionOrder: array<int>, completionOrder: array<int>) {
    && activeIds != activeLeft && activeIds != admissionOrder && activeIds != completionOrder
    && activeLeft != admissionOrder && activeLeft != completionOrder && admissionOrder != completionOrder
    && queue.entries != activeIds && queue.entries != activeLeft
    && queue.entries != admissionOrder && queue.entries != completionOrder
  }

  lemma AdmitStates(w: Workload, s: Replay, k: nat, i: nat, requests: seq<Descriptor>, before: seq<Descriptor>)
    requires OrderInv(w, s, k, i) && SlotInv(w, s) && s.queue != [] && FirstFree(s.ids) < |s.ids|
    requires StatesAre(requests, before, s) && |requests| == w.Count()
    ensures 0 <= s.queue[0] < w.Count()
    ensures StatesAre(requests[s.queue[0] := requests[s.queue[0]].(state := DecodeReady)], before, AdmitOne(w, s))
  {
    HeadIsNew(w, s, k, i);
    var r, f, t := s.queue[0], FirstFree(s.ids), AdmitOne(w, s);
    assert s.queue == [r] + s.queue[1..];
    forall x: int | x >= 0 ensures x in t.ids <==> x == r || x in s.ids {
      if x in s.ids {
        var j :| 0 <= j < |s.ids| && s.ids[j] == x;
        assert t.ids[j] == x;
      }
      assert t.ids[f] == r;
    }
  }

  /** One admission: the oldest waiting request takes the first free slot. */
  method AdmitNext(w: Workload, step: nat, requests: array<Descriptor>, queue: DeviceQueue, activeIds: array<int>,
                   activeLeft: array<int>, admissionOrder: array<int>, completionOrder: array<int>, slotsUsed: nat,
                   ghost s: Replay, ghost before: seq<Descriptor>)
    returns (ok: bool)
    requires Separate(queue, activeIds, activeLeft, admissionOrder, completionOrder)
    requires Holds(w, s, queue, activeIds, activeLeft) && OrderInv(w, s, step, w.Count()) && SlotInv(w, s)
    requires requests.Length == w.Count() && StatesAre(requests[..], before, s) && FirstFree(s.ids) < |s.ids|
    requires admissionOrder.Length == w.Count() && OrderIs(admissionOrder[..], RequestIds(before), s.admitted)
    requires slotsUsed == |s.admitted|
    modifies requests, queue`head, activeIds, activeLeft, admissionOrder
    ensures ok == (s.queue != [])
    ensures !ok ==> requests[..] == old(requests[..]) && Holds(w, s, queue, activeIds, activeLeft)
                    && admissionOrder[..] == old(admissionOrder[..])
    ensures ok ==> Holds(w, AdmitOne(w, s), queue, activeIds, activeLeft)
                   && StatesAre(requests[..], before, AdmitOne(w, s))
                   && OrderIs(admissionOrder[..], RequestIds(before), AdmitOne(w, s).admitted)
  {
    var r: int;
    ok, r := queue.TryPop();
    if ok {
      assert r == s.queue[0] && queue.Contents() == s.queue[1..];
      AdmitStates(w, s, step, w.Count(), requests[..], before);
      AdmittedFit(w, s, step);
      var slot := FindFree(activeIds);
      activeIds[slot] := r;
      activeLeft[slot] := w.service[r];
      requests[r] := requests[r].(state := DecodeReady);
      admissionOrder[slotsUsed] := requests[r].requestId;
    }
  }

  /** There is room in the order array for the next admission. */
  lemma AdmittedFit(w: Workload, s: Replay, k: nat)
    requires OrderInv(w, s, k, w.Count()) && s.queue != []
    ensures |s.admitted| < w.Count()
  {
    HeadIsNew(w, s, k, w.Count());
    var all := s.admitted + s.queue;
    assert forall a :: 0 <= a < |s.admitted| ==> all[a] == s.admitted[a];
    assert forall x :: x in s.admitted ==> Seen(w, k, w.Count(), x);
    RoomForOne(s.admitted, w.Count(), s.queue[0]);
  }

  lemma AdmitAdvances(w: Workload, s: Replay, k: nat)
    requires OrderInv(w, s, k, w.Count()) && SlotInv(w, s) && s.queue != [] && FirstFree(s.ids) < |s.ids|
    ensures var t := AdmitOne(w, s);
      && OrderInv(w, t, k, w.Count()) && SlotInv(w, t) && |t.admitted| == |s.admitted| + 1
      && ActiveCount(t.ids) == ActiveCount(s.ids) + 1 && AdmitAll(w, t) == AdmitAll(w, s)
  {
    AdmitOneKeeps(w, s, k, w.Count());
    HeadIsNew(w, s, k, w.Count());
    ActiveUpdate(s.ids, FirstFree(s.ids), s.queue[0]);
  }

  lemma AdmitStops(w: Workload, s: Replay)
    requires |s.ids| == |s.left| && (s.queue == [] || ActiveCount(s.ids) >= |s.ids|)
    ensures AdmitAll(w, s) == s
  {
    FreeSlot(s.ids);
  }

  /** The admission loop of one step. */
  method AdmitLoop(w: Workload, step: nat, requests: array<Descriptor>, queue: DeviceQueue, activeIds: array<int>,
                   activeLeft: array<int>, admissionOrder: array<int>, completionOrder: array<int>, slotsUsed: nat,
                   ghost s: Replay, ghost before: seq<Descriptor>)
    returns (admitted: nat, activeCount: nat)
    requires Separate(queue, activeIds, activeLeft, admissionOrder, completionOrder)
    requires Holds(w, s, queue, activeIds, activeLeft) && OrderInv(w, s, step, w.Count()) && SlotInv(w, s)
    requires requests.Length == w.Count() && StatesAre(requests[..], before, s)
    requires admissionOrder.Length == w.Count() && OrderIs(admissionOrder[..], RequestIds(before), s.admitted)
    requires slotsUsed == |s.admitted|
    modifies requests, queue`head, activeIds, activeLeft, admissionOrder
    ensures var t := AdmitAll(w, s);
      && |t.ids| == |t.left| && Holds(w, t, queue, activeIds, activeLeft)
      && StatesAre(requests[..], before, t) && OrderIs(admissionOrder[..], RequestIds(before), t.admitted)
      && admitted == |t.admitted| && activeCount == ActiveCount(t.ids) <= w.slots
  {
    admitted := slotsUsed;
    activeCount := CountActive(activeIds);
    ghost var t := s;
    var more := true;
    while activeCount < activeIds.Length && more
      invariant Holds(w, t, queue, activeIds, activeLeft) && OrderInv(w, t, step, w.Count()) && SlotInv(w, t)
      invariant StatesAre(requests[..], before, t) && OrderIs(admissionOrder[..], RequestIds(before), t.admitted)
      invariant admitted == |t.admitted| && activeCount == ActiveCount(t.ids)
      invariant AdmitAll(w, t) == AdmitAll(w, s) && (!more ==> t.queue == [])
      decreases activeIds.Length - activeCount, more
    {
      FreeSlot(t.ids);
      more := AdmitNext(w, step, requests, queue, activeIds, activeLeft, admissionOrder, completionOrder, admitted, t,
                        before);
      if more {
        AdmitAdvances(w, t, step);
        t := AdmitOne(w, t);
        admitted, activeCount := admitted + 1, activeCount + 1;
      }
    }
    AdmitStops(w, t);
  }

  // ------------------------------------------------------------------------- service

  lemma ServeStates(w: Workload, s: Replay, i: nat, requests: seq<Descriptor>, before: seq<Descriptor>)
    requires SlotInv(w, s) && i < |s.ids| && s.ids[i] >= 0 && StatesAre(requests, before, s) && |requests| == w.Count()
    ensures s.ids[i] < w.Count() && |s.completed| < w.Count()
    ensures s.left[i] - 1 > 0 ==> StatesAre(requests, before, ServeSlot(s, i))
    ensures s.left[i] - 1 <= 0 ==>
      StatesAre(requests[s.ids[i] := requests[s.ids[i]].(state := Complete)], before, ServeSlot(s, i))
  {
    var r, t := s.ids[i], ServeSlot(s, i);
    assert SlotOk(w, s, i);
    assert forall x :: x in s.completed ==> 0 <= x < w.Count();
    RoomForOne(s.completed, w.Count(), r);
    forall x: int | x >= 0 && x != r ensures x in t.ids <==> x in s.ids {
      if x in s.ids {
        var j :| 0 <= j < |s.ids| && s.ids[j] == x;
        assert t.ids[j] == x;
      }
    }
  }

  /** The device memory during service: slots, request states and the completion order are those of `s`. */
  ghost predicate Serving(w: Workload, s: Replay, requests: array<Descriptor>, queue: DeviceQueue,
                          activeIds: array<int>,
                          activeLeft: array<int>, completionOrder: array<int>, before: seq<Descriptor>)
    reads requests, queue, queue.entries, activeIds, activeLeft, completionOrder
  {
    && Holds(w, s, queue, activeIds, activeLeft) && SlotInv(w, s)
    && requests.Length == completionOrder.Length == w.Count() && StatesAre(requests[..], before, s)
    && OrderIs(completionOrder[..], RequestIds(before), s.completed)
  }

  /** The request in slot `i` has had its last quantum. */
  method CompleteSlot(w: Workload, i: nat, requests: array<Descriptor>, queue: DeviceQueue, activeIds: array<int>,
                      activeLeft: array<int>, admissionOrder: array<int>, completionOrder: array<int>, done: nat,
                      ghost s: Replay, ghost before: seq<Descriptor>)
    requires Separate(queue, activeIds, activeLeft, admissionOrder, completionOrder)
    requires Serving(w, s, requests, queue, activeIds, activeLeft, completionOrder, before)
    requires i < |s.ids| && done == |s.completed| && s.ids[i] >= 0 && s.left[i] - 1 <= 0
    modifies requests, activeIds, activeLeft, completionOrder
    ensures Serving(w, ServeSlot(s, i), requests, queue, activeIds, activeLeft, completionOrder, before)
  {
    ServeSlotKeeps(w, s, i);
    ServeStates(w, s, i, requests[..], before);
    var r := activeIds[i];
    requests[r] := requests[r].(state := Complete);
    completionOrder[done] := requests[r].requestId;
    activeIds[i] := -1;
    activeLeft[i] := 0;
  }

  /** A slot's request stays active after its quantum. */
  method SpendQuantum(w: Workload, i: nat, requests: array<Descriptor>, queue: DeviceQueue, activeIds: array<int>,
                      activeLeft: array<int>, admissionOrder: array<int>, completionOrder: array<int>,
                      ghost s: Replay, ghost before: seq<Descriptor>)
    requires Separate(queue, activeIds, activeLeft, admissionOrder, completionOrder)
    requires Serving(w, s, requests, queue, activeIds, activeLeft, completionOrder, before)
    requires i < |s.ids| && s.ids[i] >= 0 && s.left[i] - 1 > 0
    modifies activeLeft
    ensures Serving(w, ServeSlot(s, i), requests, queue, activeIds, activeLeft, completionOrder, before)
  {
    ServeSlotKeeps(w, s, i);
    ServeStates(w, s, i, requests[..], before);
    activeLeft[i] := activeLeft[i] - 1;
  }

  /** One slot's quantum. */
  method ServeNext(w: Workload, i: nat, requests: array<Descriptor>, queue: DeviceQueue, activeIds: array<int>,
                   activeLeft: array<int>, admissionOrder: array<int>, completionOrder: array<int>, done: nat,
                   ghost s: Replay, ghost before: seq<Descriptor>)
    returns (busy: nat, completed: nat)
    requires Separate(queue, activeIds, activeLeft, admissionOrder, completionOrder)
    requires Serving(w, s, requests, queue, activeIds, activeLeft, completionOrder, before)
    requires i < |s.ids| && done == |s.completed|
    modifies requests, activeIds, activeLeft, completionOrder
    ensures Serving(w, ServeSlot(s, i), requests, queue, activeIds, activeLeft, completionOrder, before)
    ensures ServeSlot(s, i).quanta == s.quanta + busy && |ServeSlot(s, i).completed| == completed
  {
    busy, completed := 0, done;
    if activeIds[i] < 0 {
      return;
    }
    busy := 1;
    if activeLeft[i] - 1 > 0 {
      SpendQuantum(w, i, requests, queue, activeIds, activeLeft, admissionOrder, completionOrder, s, before);
    } else {
      CompleteSlot(w, i, requests, queue, activeIds, activeLeft, admissionOrder, completionOrder, done, s, before);
      completed := done + 1;
    }
  }

  /** The service loop of one step. */
  method ServeLoop(w: Workload, requests: array<Descriptor>, queue: DeviceQueue, activeIds: array<int>,
                   activeLeft: array<int>, admissionOrder: array<int>, completionOrder: array<int>, done: nat,
                   ghost s: Replay, ghost before: seq<Descriptor>)
    returns (quanta: nat, completed: nat)
    requires Separate(queue, activeIds, activeLeft, admissionOrder, completionOrder)
    requires Serving(w, s, requests, queue, activeIds, activeLeft, completionOrder, before)
    requires done == |s.completed|
    modifies requests, activeIds, activeLeft, completionOrder
    ensures var t := ServeTo(s, |s.ids|);
      && Serving(w, t, requests, queue, activeIds, activeLeft, completionOrder, before)
      && t.quanta == s.quanta + quanta && |t.completed| == completed
  {
    quanta, completed := 0, done;
    ghost var t := s;
    for i := 0 to activeIds.Length
      invariant |s.ids| == activeIds.Length && t == ServeTo(s, i) && t.quanta == s.quanta + quanta
      invariant |t.completed| == completed
      invariant Serving(w, t, requests, queue, activeIds, activeLeft, completionOrder, before)
    {
      var busy: nat;
      busy, completed := ServeNext(w, i, requests, queue, activeIds, activeLeft, admissionOrder, completionOrder,
                                   completed, t, before);
      t, quanta := ServeSlot(t, i), quanta + busy;
    }
  }

  // -------------------------------------------------------------------------- kernel

  ghost predicate Lists(s: Replay, ids: seq<int>, admissionOrder: array<int>, completionOrder: array<int>)
    reads admissionOrder, completionOrder
  {
    OrderIs(admissionOrder[..], ids, s.admitted) && OrderIs(completionOrder[..], ids, s.completed)
  }

  /** The counters of a run that is in state `s`. */
  ghost predicate Counts(s: Replay, m: ReplayMetrics) {
    && m.admissions == |s.admitted| && m.completions == |s.completed| && m.quanta == s.quanta
    && m.arrivals == |s.admitted + s.queue|
  }

  /** The high watermarks are the peaks over all steps made. */
  ghost predicate Peaks(w: Workload, m: ReplayMetrics) {
    m.queueHigh == Peak(QueueAt(w), m.steps) && m.activeHigh == Peak(ActiveAt(w), m.steps)
  }

  /** The device memory and the counters are those of state `s`. */
  ghost predicate Current(w: Workload, s: Replay, m: ReplayMetrics, requests: array<Descriptor>, queue: DeviceQueue,
                          activeIds: array<int>, activeLeft: array<int>, admissionOrder: array<int>,
                          completionOrder: array<int>, before: seq<Descriptor>)
    reads requests, queue, queue.entries, activeIds, activeLeft, admissionOrder, completionOrder
  {
    && requests.Length == admissionOrder.Length == completionOrder.Length == w.Count()
    && Holds(w, s, queue, activeIds, activeLeft) && StatesAre(requests[..], before, s)
    && Lists(s, RequestIds(before), admissionOrder, completionOrder) && Counts(s, m)
  }

  /** What the loops of one step need to know about the state they start from. */
  lemma StepFacts(w: Workload, s: Replay, step: nat)
    requires BetweenSteps(w, s, step)
    ensures OrderInv(w, Arrive(w, s, step), step, w.Count()) && SlotInv(w, Arrive(w, s, step))
    ensures var t := Loaded(w, s, step);
      && |t.ids| == |t.left| == w.slots && SlotInv(w, t) && t.quanta == s.quanta && t.completed == s.completed
      && Step(w, s, step) == ServeTo(t, |t.ids|) && ServeTo(t, |t.ids|).admitted == t.admitted
      && ServeTo(t, |t.ids|).queue == t.queue
      && |t.admitted + t.queue| == |s.admitted| + |Arrive(w, s, step).queue|
  {
    LoadedKeeps(w, s, step);
    PushKeepsOrder(w, s, step, w.Count());
    QueueOnlyKeepsSlots(w, s, PushedTo(w, s.queue, step, w.Count()));
    ServeToKeeps(w, Loaded(w, s, step), w.slots);
  }

  /** One step of the replay, from state `s`. */
  method ReplayStep(w: Workload, requests: array<Descriptor>, queue: DeviceQueue, activeIds: array<int>,
                    activeLeft: array<int>, admissionOrder: array<int>, completionOrder: array<int>,
                    metric: ReplayMetrics, ghost s: Replay, ghost before: seq<Descriptor>)
    returns (m: ReplayMetrics)
    requires Separate(queue, activeIds, activeLeft, admissionOrder, completionOrder)
    requires BetweenSteps(w, s, metric.steps)
    requires Current(w, s, metric, requests, queue, activeIds, activeLeft, admissionOrder, completionOrder, before)
    modifies requests, queue, queue.entries, activeIds, activeLeft, admissionOrder, completionOrder
    ensures Current(w, Step(w, s, metric.steps), m, requests, queue, activeIds, activeLeft,
                    admissionOrder, completionOrder, before)
    ensures m.steps == metric.steps + 1
    ensures m.queueHigh == Max(metric.queueHigh, |Arrive(w, s, metric.steps).queue|)
    ensures m.activeHigh == Max(metric.activeHigh, ActiveCount(Loaded(w, s, metric.steps).ids))
  {
    var step := metric.steps;
    StepFacts(w, s, step);
    var pushed := ArriveLoop(w, step, requests, queue, s, before);
    var depth := queue.Depth();
    ghost var a := Arrive(w, s, step);
    var admitted, active := AdmitLoop(w, step, requests, queue, activeIds, activeLeft, admissionOrder, completionOrder,
                                      metric.admissions, a, before);
    ghost var t := Loaded(w, s, step);
    var quanta, completed := ServeLoop(w, requests, queue, activeIds, activeLeft, admissionOrder, completionOrder,
                                       metric.completions, t, before);
    m := ReplayMetrics(step + 1, metric.arrivals + pushed, admitted, completed, metric.quanta + quanta,
                       Max(metric.queueHigh, depth), Max(metric.activeHigh, active));
  }

  method Fill(a: array<int>, v: int)
    modifies a
    ensures a[..] == seq(a.Length, i => v)
  {
    for i := 0 to a.Length
      invariant forall j :: 0 <= j < i ==> a[j] == v
    {
      a[i] := v;
    }
  }

  /** No state before step `n` had completed everything. */
  ghost predicate OpenBefore(w: Workload, n: nat) {
    n == 0 || (OpenBefore(w, n - 1) && |After(w, n - 1).completed| < w.Count())
  }

  lemma {:induction false} OpenAt(w: Workload, n: nat, k: nat)
    requires OpenBefore(w, n) && k < n
    ensures |After(w, k).completed| < w.Count()
  {
    if k < n - 1 {
      OpenAt(w, n - 1, k);
    }
  }

  /** `s` is the state after the steps counted, nothing was complete before, and the watermarks are the peaks. */
  ghost predicate Reached(w: Workload, s: Replay, m: ReplayMetrics) {
    s == After(w, m.steps) && OpenBefore(w, m.steps) && Peaks(w, m)
  }

  lemma PeaksNext(w: Workload, m: ReplayMetrics, n: ReplayMetrics)
    requires Peaks(w, m) && n.steps == m.steps + 1
    requires n.queueHigh == Max(m.queueHigh, QueueAt(w)(m.steps))
    requires n.activeHigh == Max(m.activeHigh, ActiveAt(w)(m.steps))
    ensures Peaks(w, n)
  {
    PeakNext(QueueAt(w), m.steps);
    PeakNext(ActiveAt(w), m.steps);
  }

  lemma OpenNext(w: Workload, k: nat)
    requires OpenBefore(w, k) && |After(w, k).completed| < w.Count()
    ensures OpenBefore(w, k + 1)
  {}

  lemma PeaksAfterStep(w: Workload, s: Replay, m: ReplayMetrics, n: ReplayMetrics)
    requires |s.ids| == |s.left| && s == After(w, m.steps) && Peaks(w, m) && n.steps == m.steps + 1
    requires n.queueHigh == Max(m.queueHigh, |Arrive(w, s, m.steps).queue|)
    requires n.activeHigh == Max(m.activeHigh, ActiveCount(Loaded(w, s, m.steps).ids))
    ensures Peaks(w, n)
  {
    MeasuresAt(w, s, m.steps);
    PeaksNext(w, m, n);
  }

  lemma ReachedNext(w: Workload, s: Replay, m: ReplayMetrics, n: ReplayMetrics)
    requires |s.ids| == |s.left| && Reached(w, s, m) && |s.completed| < w.Count() && n.steps == m.steps + 1
    requires Peaks(w, n)
    ensures Reached(w, Step(w, s, m.steps), n)
  {
    AfterNext(w, m.steps);
    OpenNext(w, m.steps);
  }

  /** The replay loop: it stops when everything has completed or the step limit is reached. */
  method ReplayLoop(w: Workload, requests: array<Descriptor>, maxSteps: nat, queue: DeviceQueue, activeIds: array<int>,
                    activeLeft: array<int>, admissionOrder: array<int>, completionOrder: array<int>,
                    m0: ReplayMetrics, ghost before: seq<Descriptor>)
    returns (m: ReplayMetrics, ghost s: Replay)
    requires w.Valid() && Separate(queue, activeIds, activeLeft, admissionOrder, completionOrder)
    requires m0.steps == 0 && BetweenSteps(w, Initial(w), 0) && Reached(w, Initial(w), m0)
    requires Current(w, Initial(w), m0, requests, queue, activeIds, activeLeft, admissionOrder, completionOrder, before)
    modifies requests, queue, queue.entries, activeIds, activeLeft, admissionOrder, completionOrder
    ensures m.steps <= maxSteps && Reached(w, s, m)
    ensures Current(w, s, m, requests, queue, activeIds, activeLeft, admissionOrder, completionOrder, before)
    ensures m.steps == maxSteps || m.completions >= w.Count()
  {
    m, s := m0, Initial(w);
    while m.steps < maxSteps && m.completions < w.Count()
      invariant m.steps <= maxSteps && BetweenSteps(w, s, m.steps) && Reached(w, s, m)
      invariant Current(w, s, m, requests, queue, activeIds, activeLeft, admissionOrder, completionOrder, before)
      decreases maxSteps - m.steps
    {
      var n := ReplayStep(w, requests, queue, activeIds, activeLeft, admissionOrder, completionOrder, m, s, before);
      PeaksAfterStep(w, s, m, n);
      ReachedNext(w, s, m, n);
      StepKeeps(w, s, m.steps);
      m, s := n, Step(w, s, m.steps);
    }
  }

  /**
   `trace_replay_admission_kernel`. The arrays end up holding the state machine's
   state. With a queue larger than the number of requests the kernel completes
   them all whenever the step limit allows for the makespan bound.
   */
  method ReplayTrace(w: Workload, requests: array<Descriptor>, maxSteps: nat, queue: DeviceQueue, activeIds: array<int>,
                     activeLeft: array<int>, admissionOrder: array<int>, completionOrder: array<int>)
    returns (m: ReplayMetrics)
    requires w.Valid() && Separate(queue, activeIds, activeLeft, admissionOrder, completionOrder)
    requires queue.Valid() && queue.capacity == w.capacity && queue.Contents() == []
    requires activeIds.Length == activeLeft.Length == w.slots
    requires requests.Length == admissionOrder.Length == completionOrder.Length == w.Count()
    modifies requests, queue, queue.entries, activeIds, activeLeft, admissionOrder, completionOrder
    ensures m.steps <= maxSteps && Holds(w, After(w, m.steps), queue, activeIds, activeLeft)
    ensures StatesAre(requests[..], old(requests[..]), After(w, m.steps))
    ensures Lists(After(w, m.steps), RequestIds(old(requests[..])), admissionOrder, completionOrder)
    ensures Counts(After(w, m.steps), m) && Peaks(w, m)
    ensures m.steps == maxSteps || m.completions >= w.Count()
    ensures CompletesInTime(w, maxSteps, m)
  {
    ghost var before := requests[..];
    Fill(activeIds, -1);
    Fill(activeLeft, 0);
    Fill(admissionOrder, -1);
    Fill(completionOrder, -1);
    m := ReplayMetrics(0, 0, 0, 0, 0, 0, 0);
    InitialInv(w);
    ghost var s;
    m, s := ReplayLoop(w, requests, maxSteps, queue, activeIds, activeLeft, admissionOrder, completionOrder, m, before);
    EndsInTime(w, maxSteps, m);
  }

  /** Whatever bounds on arrivals and service hold: with enough steps allowed, all complete within the horizon. */
  ghost predicate CompletesInTime(w: Workload, maxSteps: nat, m: ReplayMetrics) {
    forall last: nat, longest: nat :: Bounded(w, last, longest) && maxSteps >= Horizon(w, last, longest) ==>
      m.completions == w.Count() && m.steps <= Horizon(w, last, longest)
  }

  lemma EndsInTime(w: Workload, maxSteps: nat, m: ReplayMetrics)
    requires m.steps <= maxSteps && m.completions == |After(w, m.steps).completed|
    requires OpenBefore(w, m.steps)
    requires m.steps == maxSteps || m.completions >= w.Count()
    ensures CompletesInTime(w, maxSteps, m)
  {
    forall last: nat, longest: nat | Bounded(w, last, longest) && maxSteps >= Horizon(w, last, longest)
      ensures m.completions == w.Count() && m.steps <= Horizon(w, last, longest)
    {
      EndsByHorizon(w, m.steps, maxSteps, last, longest);
    }
  }

  lemma EndsByHorizon(w: Workload, steps: nat, maxSteps: nat, last: nat, longest: nat)
    requires Bounded(w, last, longest) && Horizon(w, last, longest) <= maxSteps && steps <= maxSteps
    requires OpenBefore(w, steps)
    requires steps == maxSteps || |After(w, steps).completed| >= w.Count()
    ensures |After(w, steps).completed| == w.Count() && steps <= Horizon(w, last, longest)
  {
    var h := Horizon(w, last, longest);
    MakespanBound(w, last, longest);
    AfterKeeps(w, steps);
    CompletedAtMost(w, After(w, steps), steps);
    if h < steps {
      OpenAt(w, steps, h);
    }
  }

  lemma CompletedAtMost(w: Workload, s: Replay, k: nat)
    requires BetweenSteps(w, s, k)
    ensures |s.completed| <= w.Count()
  {
    DistinctBelow(s.completed, w.Count());
  }
}
