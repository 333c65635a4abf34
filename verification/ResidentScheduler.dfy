/** The resident scheduler: repeatedly picking the live request of highest priority. */
module ResidentScheduler {
  import opened Arithmetic
  import opened Sequences
  import opened Ranking
  import opened DeviceTypes

  /** The kernel looks at no more than this many requests. */
  const WINDOW := 256

  /** The priority that the search starts from; a request must exceed it to be found. */
  const LOWEST := -2147483647

  datatype SchedulerMetrics = SchedulerMetrics(examined: nat, scheduled: nat)

  function Width(n: nat): nat { Min(n, WINDOW) }

  predicate Live(r: Descriptor) { !r.IsDone() && r.priority > LOWEST }

  function LiveSet(rs: seq<Descriptor>): set<int> { set i | 0 <= i < |rs| && i < Width(|rs|) && Live(rs[i]) }

  function LiveIn(rs: seq<Descriptor>): seq<int> { Within(Range(0, Width(|rs|)), LiveSet(rs)) }

  /** Descending priority; equal priorities by index. */
  function PriorityOrder(rs: seq<Descriptor>): Order {
    (i: int, j: int) =>
      0 <= i < |rs| && 0 <= j < |rs|
      && (rs[i].priority > rs[j].priority || (rs[i].priority == rs[j].priority && i < j))
  }

  /** The schedule: the live requests, stably sorted by descending priority. */
  function Schedule(rs: seq<Descriptor>): seq<int> { Sort(PriorityOrder(rs), LiveIn(rs)) }

  lemma LiveFacts(rs: seq<Descriptor>)
    ensures forall i :: i in LiveIn(rs) <==> i in LiveSet(rs)
    ensures NoDup(LiveIn(rs)) && TotalOn(PriorityOrder(rs), LiveIn(rs))
    ensures |LiveIn(rs)| <= Width(|rs|)
  {
    var all := Range(0, Width(|rs|));
    WithinMember(all, LiveSet(rs));
    WithinNoDup(all, LiveSet(rs));
    forall i | i in LiveSet(rs) ensures i in all {
      RangeMember(0, Width(|rs|), i);
    }
    SplitLength(all, LiveSet(rs));
  }

  lemma ScheduleFacts(rs: seq<Descriptor>)
    ensures NoDup(Schedule(rs)) && |Schedule(rs)| <= Width(|rs|) && Sorted(PriorityOrder(rs), Schedule(rs))
    ensures forall i :: i in Schedule(rs) <==> i in LiveSet(rs)
  {
    LiveFacts(rs);
    SortMember(PriorityOrder(rs), LiveIn(rs));
    SortSorted(PriorityOrder(rs), LiveIn(rs));
    SortedNoDup(PriorityOrder(rs), Schedule(rs));
  }

  /** The best live request not yet picked among the first `n`, or -1. */
  ghost predicate BestOfFirst(rs: seq<Descriptor>, picked: seq<int>, n: int, best: int) {
    if best < 0 then forall i :: 0 <= i < n && i in LiveSet(rs) ==> i in picked
    else
      && best < n && best in LiveSet(rs) && best !in picked
      && forall i :: 0 <= i < n && i in LiveSet(rs) && i !in picked && i != best ==> PriorityOrder(rs)(best, i)
  }

  lemma PickNext(rs: seq<Descriptor>, picked: seq<int>, best: int)
    requires picked <= Schedule(rs) && BestOfFirst(rs, picked, Width(|rs|), best)
    ensures best >= 0 ==> picked + [best] <= Schedule(rs)
    ensures best < 0 ==> picked == Schedule(rs)
  {
    LiveFacts(rs);
    if best >= 0 {
      NextRanked(PriorityOrder(rs), LiveIn(rs), picked, best);
    } else {
      AllRanked(PriorityOrder(rs), LiveIn(rs), picked);
    }
  }

  function Better(rs: seq<Descriptor>, picked: seq<int>, n: nat, best: int): int
    requires n < |rs| && best < n
  {
    if n in picked || !Live(rs[n]) then best
    else if best < 0 || rs[n].priority > rs[best].priority then n
    else best
  }

  lemma BetterStep(rs: seq<Descriptor>, picked: seq<int>, n: nat, best: int)
    requires n < Width(|rs|) && best < n && BestOfFirst(rs, picked, n, best)
    ensures BestOfFirst(rs, picked, n + 1, Better(rs, picked, n, best))
  {}

  /** The inner search, counting every request it looks at. */
  method FindBest(requests: array<Descriptor>, flags: array<bool>, ghost picked: seq<int>)
    returns (best: int, looked: nat)
    requires flags.Length == WINDOW && forall i :: 0 <= i < WINDOW ==> (flags[i] <==> i in picked)
    ensures BestOfFirst(requests[..], picked, Width(requests.Length), best) && best < Width(requests.Length)
    ensures looked == Width(requests.Length)
  {
    best, looked := -1, 0;
    var bestPriority := LOWEST;
    ghost var rs := requests[..];
    while looked < requests.Length && looked < WINDOW
      invariant 0 <= looked <= Width(requests.Length) && -1 <= best < looked
      invariant bestPriority == if best >= 0 then rs[best].priority else LOWEST
      invariant BestOfFirst(rs, picked, looked, best)
    {
      var i := looked;
      BetterStep(rs, picked, i, best);
      looked := looked + 1;
      if flags[i] { continue; }
      if requests[i].IsDone() { continue; }
      if requests[i].priority > bestPriority {
        bestPriority := requests[i].priority;
        best := i;
      }
    }
  }

  /** The first `k` entries of an output array are those of the picked requests, the rest is -1. */
  ghost predicate Emitted(ids: seq<int>, priorities: seq<int>, rs: seq<Descriptor>, picked: seq<int>) {
    && |ids| == |priorities| == |rs| && |picked| <= |rs|
    && forall j :: 0 <= j < |rs| ==>
         if j < |picked| && 0 <= picked[j] < |rs|
         then ids[j] == rs[picked[j]].requestId && priorities[j] == rs[picked[j]].priority
         else ids[j] == -1 && priorities[j] == -1
  }

  /** One slot of the schedule. */
  method FillSlot(requests: array<Descriptor>, slot: nat, flags: array<bool>, ids: array<int>, priorities: array<int>,
                  ghost picked: seq<int>)
    returns (found: bool, looked: nat, ghost next: seq<int>)
    requires ids != priorities && ids.Length == priorities.Length == requests.Length
    requires slot == |picked| < requests.Length
    requires flags.Length == WINDOW && forall i :: 0 <= i < WINDOW ==> (flags[i] <==> i in picked)
    requires picked <= Schedule(requests[..]) && Emitted(ids[..], priorities[..], requests[..], picked)
    modifies flags, ids, priorities
    ensures forall i :: 0 <= i < WINDOW ==> (flags[i] <==> i in next)
    ensures next <= Schedule(requests[..]) && Emitted(ids[..], priorities[..], requests[..], next)
    ensures if found then |next| == slot + 1 else next == picked == Schedule(requests[..])
    ensures looked == Width(requests.Length)
  {
    var best: int;
    best, looked := FindBest(requests, flags, picked);
    PickNext(requests[..], picked, best);
    found, next := best >= 0, picked;
    if found {
      next := picked + [best];
      flags[best] := true;
      ids[slot] := requests[best].requestId;
      priorities[slot] := requests[best].priority;
    }
  }

  method ClearOutputs(ids: array<int>, priorities: array<int>)
    requires ids != priorities && ids.Length == priorities.Length
    modifies ids, priorities
    ensures forall j :: 0 <= j < ids.Length ==> ids[j] == -1 && priorities[j] == -1
  {
    for i := 0 to ids.Length
      invariant forall j :: 0 <= j < i ==> ids[j] == -1 && priorities[j] == -1
    {
      ids[i], priorities[i] := -1, -1;
    }
  }

  /** The selection loop: it ends with the schedule complete. */
  method FillSchedule(requests: array<Descriptor>, flags: array<bool>, ids: array<int>, priorities: array<int>)
    returns (scheduled: nat, examined: nat, ghost rounds: nat)
    requires ids != priorities && ids.Length == priorities.Length == requests.Length
    requires flags.Length == WINDOW && forall i :: 0 <= i < WINDOW ==> !flags[i]
    requires Emitted(ids[..], priorities[..], requests[..], [])
    modifies flags, ids, priorities
    ensures Emitted(ids[..], priorities[..], requests[..], Schedule(requests[..]))
    ensures scheduled == |Schedule(requests[..])| && rounds == Min(requests.Length, scheduled + 1)
    ensures examined == Times(Width(requests.Length), rounds)
  {
    ghost var picked: seq<int> := [];
    rounds := 0;
    scheduled, examined := 0, 0;
    var more := true;
    ScheduleFacts(requests[..]);
    while scheduled < requests.Length && more
      invariant 0 <= scheduled <= requests.Length && picked <= Schedule(requests[..]) && |picked| == scheduled
      invariant forall i :: 0 <= i < WINDOW ==> (flags[i] <==> i in picked)
      invariant Emitted(ids[..], priorities[..], requests[..], picked)
      invariant !more ==> picked == Schedule(requests[..]) && scheduled < requests.Length
      invariant examined == Times(Width(requests.Length), rounds)
      invariant rounds == if more then scheduled else scheduled + 1
      decreases requests.Length - scheduled, more
    {
      var looked: nat;
      more, looked, picked := FillSlot(requests, scheduled, flags, ids, priorities, picked);
      examined, rounds := examined + looked, rounds + 1;
      if more {
        scheduled := scheduled + 1;
      }
    }
  }

  /** `resident_schedule_requests_kernel`. */
  method ScheduleRequests(requests: array<Descriptor>, ids: array<int>, priorities: array<int>)
    returns (metric: SchedulerMetrics)
    requires ids != priorities && ids.Length == priorities.Length == requests.Length
    modifies ids, priorities
    ensures Emitted(ids[..], priorities[..], requests[..], Schedule(requests[..]))
    ensures metric.scheduled == |Schedule(requests[..])|
    ensures metric.examined == Min(requests.Length, metric.scheduled + 1) * Width(requests.Length)
  {
    ClearOutputs(ids, priorities);
    var flags := new bool[WINDOW](i => false);
    var scheduled, examined: nat;
    ghost var rounds: nat;
    scheduled, examined, rounds := FillSchedule(requests, flags, ids, priorities);
    TimesIsProduct(Width(requests.Length), rounds);
    metric := SchedulerMetrics(examined, scheduled);
  }

  // ----------------------------------------------------------------------- results

  /**
   With at most 256 requests and priorities above the starting value: the output is
   exactly the live requests, highest priority first, ties by lower index, then -1.
   */
  lemma OutputIsSchedule(rs: seq<Descriptor>, ids: seq<int>, priorities: seq<int>, i: nat, j: nat)
    requires |rs| <= WINDOW && forall x :: 0 <= x < |rs| ==> rs[x].priority > LOWEST
    requires Emitted(ids, priorities, rs, Schedule(rs)) && i < j < |rs|
    ensures var q := Schedule(rs);
      && NoDup(q) && (forall x :: x in q <==> 0 <= x < |rs| && !rs[x].IsDone())
      && (forall k :: 0 <= k < |q| ==> 0 <= q[k] < |rs|)
      && (i < |q| ==> ids[i] == rs[q[i]].requestId && priorities[i] == rs[q[i]].priority)
      && (i >= |q| ==> ids[i] == -1 && priorities[i] == -1)
      && (j < |q| ==> priorities[i] > priorities[j] || (priorities[i] == priorities[j] && q[i] < q[j]))
  {
    ScheduleFacts(rs);
    var q := Schedule(rs);
    assert forall x :: 0 <= x < |q| ==> q[x] in q;
  }

  /** With more than 256 requests, or at the lowest priority, a live request is left out exactly then. */
  lemma LeftOutExactly(rs: seq<Descriptor>, i: int)
    requires 0 <= i < |rs| && !rs[i].IsDone()
    ensures i !in Schedule(rs) <==> i >= WINDOW || rs[i].priority <= LOWEST
  {
    ScheduleFacts(rs);
  }
}
