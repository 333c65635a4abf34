/**
 Trace replay as a state machine: arrivals enter a bounded queue, a bounded set of
 slots admits them in order, and every active request gets one quantum a step.
 */
module TraceModel {
  import opened Arithmetic
  import opened Sequences

  datatype Workload = Workload(arrival: seq<int>, service: seq<int>, slots: nat, capacity: nat)
  {
    function Count(): nat { |arrival| }
    ghost predicate Valid() { |service| == |arrival| }
    function Service(r: int): int { if 0 <= r < |service| then service[r] else 0 }
    /** Steps a request occupies a slot. */
    function Need(r: int): nat { Max(1, Service(r)) }
  }

  /**
   `ids` and `left` are the active slots, `admitted` and `completed` the order
   arrays so far, `served` the quanta each request has received.
   */
  datatype Replay = Replay(
    queue: seq<int>, ids: seq<int>, left: seq<int>, admitted: seq<int>, completed: seq<int>,
    served: seq<nat>, quanta: nat)

  function Initial(w: Workload): Replay {
    Replay([], seq(w.slots, i => -1), seq(w.slots, i => 0), [], [], seq(w.Count(), i => 0), 0)
  }

  /** The queue after the arrivals among the first `i` requests at `step`. */
  function PushedTo(w: Workload, q: seq<int>, step: int, i: nat): seq<int>
    requires i <= w.Count()
  {
    if i == 0 then q
    else
      var p := PushedTo(w, q, step, i - 1);
      if w.arrival[i - 1] == step && |p| < w.capacity - 1 then p + [i - 1] else p
  }

  function Arrive(w: Workload, s: Replay, step: int): Replay {
    s.(queue := PushedTo(w, s.queue, step, w.Count()))
  }

  /** The first free slot, or the number of slots. */
  function FirstFree(ids: seq<int>): (k: nat)
    ensures k <= |ids| && (forall i :: 0 <= i < k ==> ids[i] >= 0) && (k < |ids| ==> ids[k] < 0)
  {
    if ids == [] || ids[0] < 0 then 0 else 1 + FirstFree(ids[1..])
  }

  function ActiveCount(ids: seq<int>): (n: nat)
    ensures n <= |ids|
  {
    if ids == [] then 0 else ActiveCount(ids[..|ids| - 1]) + if ids[|ids| - 1] >= 0 then 1 else 0
  }

  /** The head of the queue takes the first free slot. */
  function AdmitOne(w: Workload, s: Replay): Replay
    requires s.queue != [] && FirstFree(s.ids) < |s.ids| == |s.left|
  {
    var k, r := FirstFree(s.ids), s.queue[0];
    s.(queue := s.queue[1..], ids := s.ids[k := r], left := s.left[k := w.Service(r)], admitted := s.admitted + [r])
  }

  function AdmitAll(w: Workload, s: Replay): Replay
    requires |s.ids| == |s.left|
    decreases |s.queue|
  {
    if s.queue == [] || FirstFree(s.ids) == |s.ids| then s else AdmitAll(w, AdmitOne(w, s))
  }

  /** One quantum for the request in slot `i`, if any. */
  function ServeSlot(s: Replay, i: nat): Replay
    requires i < |s.ids| == |s.left|
  {
    var r := s.ids[i];
    if r < 0 then s
    else
      var t := s.(quanta := s.quanta + 1,
                  served := if r < |s.served| then s.served[r := s.served[r] + 1] else s.served);
      if s.left[i] - 1 > 0 then t.(left := s.left[i := s.left[i] - 1])
      else t.(left := s.left[i := 0], ids := s.ids[i := -1], completed := s.completed + [r])
  }

  function ServeTo(s: Replay, i: nat): (t: Replay)
    requires i <= |s.ids| == |s.left|
    ensures |t.ids| == |t.left| == |s.ids|
  {
    if i == 0 then s else ServeSlot(ServeTo(s, i - 1), i - 1)
  }

  lemma {:induction false} AdmitKeepsSlots(w: Workload, s: Replay)
    requires |s.ids| == |s.left|
    ensures |AdmitAll(w, s).ids| == |AdmitAll(w, s).left| == |s.ids|
    decreases |s.queue|
  {
    if s.queue != [] && FirstFree(s.ids) < |s.ids| {
      AdmitKeepsSlots(w, AdmitOne(w, s));
    }
  }

  /** One replay step: arrivals, admissions, one quantum for each active slot. */
  function Step(w: Workload, s: Replay, step: int): (t: Replay)
    requires |s.ids| == |s.left|
    ensures |t.ids| == |t.left| == |s.ids|
  {
    var a := AdmitAll(w, Arrive(w, s, step));
    AdmitKeepsSlots(w, Arrive(w, s, step));
    ServeTo(a, |a.ids|)
  }

  /** The state after `k` steps. */
  function After(w: Workload, k: nat): (s: Replay)
    ensures |s.ids| == |s.left| == w.slots
  {
    if k == 0 then Initial(w) else Step(w, After(w, k - 1), k - 1)
  }

  // ------------------------------------------------------------------- invariants

  /** Request `x` has been looked at before request `i` of step `k`. */
  predicate Seen(w: Workload, k: int, i: int, x: int) {
    0 <= x < w.Count() && (0 <= w.arrival[x] < k || (w.arrival[x] == k && x < i))
  }

  /** Admitted and queued requests, in that order, are distinct requests already seen. */
  ghost predicate OrderInv(w: Workload, s: Replay, k: int, i: int) {
    NoDup(s.admitted + s.queue) && forall x :: x in s.admitted || x in s.queue ==> Seen(w, k, i, x)
  }

  /** The request in slot `i`. */
  ghost predicate SlotOk(w: Workload, s: Replay, i: nat)
    requires i < |s.ids| == |s.left|
  {
    var r := s.ids[i];
    r >= 0 ==>
      && r < |s.served| && r in s.admitted && r !in s.completed
      && s.served[r] + s.left[i] == w.Service(r) && (s.left[i] >= 1 || s.served[r] == 0)
  }

  ghost predicate Shaped(w: Workload, s: Replay) {
    w.Valid() && |s.ids| == |s.left| == w.slots && |s.served| == w.Count()
  }

  ghost predicate SlotsOk(w: Workload, s: Replay)
    requires |s.ids| == |s.left|
  {
    forall i: nat :: i < |s.ids| ==> SlotOk(w, s, i)
  }

  /** No request is in two slots. */
  ghost predicate SlotsApart(ids: seq<int>) {
    forall i, j :: 0 <= i < j < |ids| && ids[i] >= 0 ==> ids[i] != ids[j]
  }

  /** Completed requests were admitted, complete once, and have received exactly their service. */
  ghost predicate CompletedOk(w: Workload, s: Replay) {
    && NoDup(s.completed)
    && (forall x :: x in s.completed ==> 0 <= x < |s.served| && x in s.admitted && s.served[x] == w.Need(x))
  }

  /** Every admitted request is active or completed; no other request has been served. */
  ghost predicate AdmittedOk(s: Replay) {
    && (forall x :: x in s.admitted ==> x >= 0 && (x in s.completed || x in s.ids))
    && (forall x :: 0 <= x < |s.served| && x !in s.admitted ==> s.served[x] == 0)
  }

  ghost predicate SlotInv(w: Workload, s: Replay) {
    && Shaped(w, s) && SlotsOk(w, s) && SlotsApart(s.ids) && CompletedOk(w, s) && AdmittedOk(s)
    && |s.admitted| == ActiveCount(s.ids) + |s.completed|
    && s.quanta == SumNat(s.served)
  }

  function SumNat(s: seq<nat>): nat { if s == [] then 0 else SumNat(s[..|s| - 1]) + s[|s| - 1] }

  lemma {:induction false} SumUpdate(s: seq<nat>, i: nat, v: nat)
    requires i < |s|
    ensures SumNat(s[i := v]) == SumNat(s) - s[i] + v
  {
    var k := |s| - 1;
    if i < k {
      assert s[i := v][..k] == s[..k][i := v];
      SumUpdate(s[..k], i, v);
    } else {
      assert s[i := v][..k] == s[..k];
    }
  }

  lemma {:induction false} SumLe(s: seq<nat>, t: seq<nat>)
    requires |s| == |t| && forall i :: 0 <= i < |s| ==> s[i] <= t[i]
    ensures SumNat(s) <= SumNat(t)
  {
    if s != [] {
      var k := |s| - 1;
      SumLe(s[..k], t[..k]);
    }
  }

  lemma {:induction false} SumZero(n: nat)
    ensures SumNat(seq(n, i => 0)) == 0
  {
    if n > 0 {
      SumZero(n - 1);
      assert seq(n, i => 0)[..n - 1] == seq(n - 1, i => 0);
    }
  }

  lemma {:induction false} ActiveUpdate(ids: seq<int>, i: nat, v: int)
    requires i < |ids|
    ensures ActiveCount(ids[i := v]) == ActiveCount(ids) - (if ids[i] >= 0 then 1 else 0) + (if v >= 0 then 1 else 0)
  {
    var k := |ids| - 1;
    if i < k {
      assert ids[i := v][..k] == ids[..k][i := v];
      ActiveUpdate(ids[..k], i, v);
    } else {
      assert ids[i := v][..k] == ids[..k];
    }
  }

  /** There is a free slot exactly when fewer requests are active than slots exist. */
  lemma {:induction false} FreeSlot(ids: seq<int>)
    ensures ActiveCount(ids) == |ids| <==> forall i :: 0 <= i < |ids| ==> ids[i] >= 0
    ensures ActiveCount(ids) == 0 <==> forall i :: 0 <= i < |ids| ==> ids[i] < 0
    ensures ActiveCount(ids) < |ids| <==> FirstFree(ids) < |ids|
  {
    if ids != [] {
      var k := |ids| - 1;
      FreeSlot(ids[..k]);
      assert forall i :: 0 <= i < k ==> ids[..k][i] == ids[i];
    }
  }

  lemma InitialInv(w: Workload)
    requires w.Valid()
    ensures OrderInv(w, Initial(w), 0, 0) && SlotInv(w, Initial(w))
  {
    SumZero(w.Count());
    FreeSlot(Initial(w).ids);
  }

  lemma {:induction false} PushKeepsOrder(w: Workload, s: Replay, k: nat, i: nat)
    requires i <= w.Count() && OrderInv(w, s, k, 0)
    ensures OrderInv(w, s.(queue := PushedTo(w, s.queue, k, i)), k, i)
  {
    if i > 0 {
      PushKeepsOrder(w, s, k, i - 1);
      var p := PushedTo(w, s.queue, k, i - 1);
      var t := s.(queue := p);
      if w.arrival[i - 1] == k && |p| < w.capacity - 1 {
        assert s.admitted + (p + [i - 1]) == (s.admitted + p) + [i - 1];
        assert forall x :: x in s.admitted + p ==> Seen(w, k, i - 1, x) && x != i - 1;
        ConcatNoDup(s.admitted + p, [i - 1]);
      }
    }
  }

  /** The head of the queue has not been admitted yet. */
  lemma HeadIsNew(w: Workload, s: Replay, k: nat, i: nat)
    requires OrderInv(w, s, k, i) && s.queue != []
    ensures s.queue[0] !in s.admitted && 0 <= s.queue[0] < w.Count()
    ensures s.admitted + [s.queue[0]] + s.queue[1..] == s.admitted + s.queue
  {
    var all := s.admitted + s.queue;
    assert s.queue[0] in s.queue && Seen(w, k, i, s.queue[0]);
    forall j | 0 <= j < |s.admitted| ensures s.admitted[j] != s.queue[0] {
      assert all[j] == s.admitted[j] && all[|s.admitted|] == s.queue[0];
    }
  }

  lemma AdmitSlots(w: Workload, s: Replay)
    requires Shaped(w, s) && SlotsOk(w, s) && SlotsApart(s.ids) && CompletedOk(w, s) && AdmittedOk(s)
    requires s.queue != [] && FirstFree(s.ids) < |s.ids| && s.queue[0] !in s.admitted && 0 <= s.queue[0] < w.Count()
    ensures SlotsOk(w, AdmitOne(w, s)) && SlotsApart(AdmitOne(w, s).ids)
  {
    var t := AdmitOne(w, s);
    forall j: nat | j < |t.ids| ensures SlotOk(w, t, j) {
      assert SlotOk(w, s, j);
    }
    forall j: nat | j < |s.ids| ensures s.ids[j] != s.queue[0] {
      assert SlotOk(w, s, j);
    }
  }

  lemma AdmitLists(w: Workload, s: Replay)
    requires Shaped(w, s) && CompletedOk(w, s) && AdmittedOk(s)
    requires s.queue != [] && FirstFree(s.ids) < |s.ids| && s.queue[0] >= 0
    ensures CompletedOk(w, AdmitOne(w, s)) && AdmittedOk(AdmitOne(w, s))
  {
    var t, f, r := AdmitOne(w, s), FirstFree(s.ids), s.queue[0];
    forall x | x in t.admitted ensures x >= 0 && (x in t.completed || x in t.ids) {
      if x == r {
        assert t.ids[f] == r;
      } else if x in s.ids {
        var j :| 0 <= j < |s.ids| && s.ids[j] == x;
        assert t.ids[j] == x;
      }
    }
  }

  lemma AdmitOneKeeps(w: Workload, s: Replay, k: nat, i: nat)
    requires OrderInv(w, s, k, i) && SlotInv(w, s) && s.queue != [] && FirstFree(s.ids) < |s.ids|
    ensures OrderInv(w, AdmitOne(w, s), k, i) && SlotInv(w, AdmitOne(w, s))
    ensures AdmitOne(w, s).admitted + AdmitOne(w, s).queue == s.admitted + s.queue
  {
    HeadIsNew(w, s, k, i);
    AdmitSlots(w, s);
    AdmitLists(w, s);
    ActiveUpdate(s.ids, FirstFree(s.ids), s.queue[0]);
    assert s.queue == [s.queue[0]] + s.queue[1..];
  }

  lemma {:induction false} AdmitAllKeeps(w: Workload, s: Replay, k: nat, i: nat)
    requires OrderInv(w, s, k, i) && SlotInv(w, s)
    ensures var t := AdmitAll(w, s);
      && OrderInv(w, t, k, i) && SlotInv(w, t) && t.admitted + t.queue == s.admitted + s.queue
      && t.completed == s.completed && t.quanta == s.quanta
      && (t.queue == [] || ActiveCount(t.ids) == |t.ids|)
    decreases |s.queue|
  {
    FreeSlot(s.ids);
    if s.queue != [] && FirstFree(s.ids) < |s.ids| {
      AdmitOneKeeps(w, s, k, i);
      AdmitAllKeeps(w, AdmitOne(w, s), k, i);
    }
  }

  /** The request in slot `i` is in no other slot and has not completed. */
  lemma ServeSlots(w: Workload, s: Replay, i: nat)
    requires Shaped(w, s) && SlotsOk(w, s) && SlotsApart(s.ids) && i < |s.ids|
    ensures SlotsOk(w, ServeSlot(s, i)) && SlotsApart(ServeSlot(s, i).ids)
  {
    var t := ServeSlot(s, i);
    assert SlotOk(w, s, i);
    forall j: nat | j < |t.ids| ensures SlotOk(w, t, j) {
      assert SlotOk(w, s, j);
    }
  }

  lemma ServeLists(w: Workload, s: Replay, i: nat)
    requires Shaped(w, s) && i < |s.ids| && SlotOk(w, s, i) && CompletedOk(w, s) && AdmittedOk(s)
    ensures CompletedOk(w, ServeSlot(s, i)) && AdmittedOk(ServeSlot(s, i))
  {
    var t, r := ServeSlot(s, i), s.ids[i];
    forall x | x in t.admitted ensures x >= 0 && (x in t.completed || x in t.ids) {
      if x !in t.completed {
        var j :| 0 <= j < |s.ids| && s.ids[j] == x;
        assert t.ids[j] == x;
      }
    }
  }

  lemma ServeSlotKeeps(w: Workload, s: Replay, i: nat)
    requires SlotInv(w, s) && i < |s.ids|
    ensures SlotInv(w, ServeSlot(s, i))
  {
    assert SlotOk(w, s, i);
    ServeSlots(w, s, i);
    ServeLists(w, s, i);
    if s.ids[i] >= 0 {
      SumUpdate(s.served, s.ids[i], s.served[s.ids[i]] + 1);
      ActiveUpdate(s.ids, i, -1);
    }
  }

  /** From `s` to `t` the first `i` slots have had their quantum: whoever stays active has one step less to go. */
  ghost predicate Served(s: Replay, t: Replay, i: nat)
    requires i <= |s.ids| == |s.left| == |t.ids| == |t.left|
  {
    && t.queue == s.queue && t.admitted == s.admitted
    && t.quanta == s.quanta + ActiveCount(s.ids[..i])
    && (forall j :: 0 <= j < i && t.ids[j] >= 0 ==>
          t.left[j] >= 1 && t.left[j] == s.left[j] - 1 && t.ids[j] == s.ids[j])
    && (forall j :: i <= j < |s.ids| ==> t.ids[j] == s.ids[j] && t.left[j] == s.left[j])
  }

  lemma ServedOneMore(s: Replay, p: Replay, i: nat)
    requires i < |s.ids| == |s.left| == |p.ids| == |p.left| && Served(s, p, i)
    ensures Served(s, ServeSlot(p, i), i + 1)
  {
    assert s.ids[..i + 1][..i] == s.ids[..i];
  }

  lemma {:induction false} ServeToKeeps(w: Workload, s: Replay, i: nat)
    requires SlotInv(w, s) && i <= |s.ids|
    ensures SlotInv(w, ServeTo(s, i)) && Served(s, ServeTo(s, i), i)
  {
    if i > 0 {
      ServeToKeeps(w, s, i - 1);
      ServeSlotKeeps(w, ServeTo(s, i - 1), i - 1);
      ServedOneMore(s, ServeTo(s, i - 1), i - 1);
    } else {
      assert s.ids[..0] == [];
    }
  }

  // ------------------------------------------------------------------- whole runs

  /** Whoever is active between steps has service left. */
  ghost predicate AllPending(s: Replay)
    requires |s.ids| == |s.left|
  {
    forall i :: 0 <= i < |s.ids| && s.ids[i] >= 0 ==> s.left[i] >= 1
  }

  ghost predicate BetweenSteps(w: Workload, s: Replay, k: nat) {
    OrderInv(w, s, k, 0) && SlotInv(w, s) && AllPending(s)
  }

  lemma QueueOnlyKeepsSlots(w: Workload, s: Replay, q: seq<int>)
    requires SlotInv(w, s)
    ensures SlotInv(w, s.(queue := q))
  {
    forall i: nat | i < |s.ids| ensures SlotOk(w, s.(queue := q), i) {
      assert SlotOk(w, s, i);
    }
  }

  /** The state after arrivals and admissions of step `k`. */
  function Loaded(w: Workload, s: Replay, k: int): Replay
    requires |s.ids| == |s.left|
  {
    AdmitAll(w, Arrive(w, s, k))
  }

  lemma LoadedKeeps(w: Workload, s: Replay, k: nat)
    requires BetweenSteps(w, s, k)
    ensures var t := Loaded(w, s, k);
      && OrderInv(w, t, k, w.Count()) && SlotInv(w, t) && t.quanta == s.quanta && t.completed == s.completed
      && t.admitted + t.queue == s.admitted + PushedTo(w, s.queue, k, w.Count())
      && (t.queue == [] || ActiveCount(t.ids) == |t.ids|)
  {
    PushKeepsOrder(w, s, k, w.Count());
    QueueOnlyKeepsSlots(w, s, PushedTo(w, s.queue, k, w.Count()));
    AdmitAllKeeps(w, Arrive(w, s, k), k, w.Count());
  }

  lemma StepKeeps(w: Workload, s: Replay, k: nat)
    requires BetweenSteps(w, s, k)
    ensures BetweenSteps(w, Step(w, s, k), k + 1)
    ensures var t := Loaded(w, s, k);
      |t.ids| == |t.left| && Step(w, s, k) == ServeTo(t, |t.ids|) && Served(t, Step(w, s, k), |t.ids|)
  {
    LoadedKeeps(w, s, k);
    var t := Loaded(w, s, k);
    ServeToKeeps(w, t, |t.ids|);
    var u := Step(w, s, k);
    assert u.admitted + u.queue == t.admitted + t.queue;
    forall x | x in u.admitted || x in u.queue ensures Seen(w, k + 1, 0, x) {
      assert Seen(w, k, w.Count(), x);
    }
  }

  lemma AfterNext(w: Workload, k: nat)
    ensures After(w, k + 1) == Step(w, After(w, k), k)
  {}

  lemma AfterKeeps(w: Workload, k: nat)
    requires w.Valid()
    ensures BetweenSteps(w, After(w, k), k)
  {
    InitialInv(w);
    forall n: nat | BetweenSteps(w, After(w, n), n) ensures BetweenSteps(w, After(w, n + 1), n + 1) {
      AfterNext(w, n);
      StepKeeps(w, After(w, n), n);
    }
    CountUp((n: nat) => BetweenSteps(w, After(w, n), n), 0, k);
  }

  /**
   Conservation, whatever the queue capacity: the requests taken in so far are
   queued, active or completed, each once; no more are active than slots exist;
   and every quantum went to a completed request, which got exactly its service,
   or to one that is still active.
   */
  lemma Conservation(w: Workload, k: nat)
    requires w.Valid()
    ensures var s := After(w, k);
      && NoDup(s.admitted + s.queue)
      && |s.admitted + s.queue| == |s.queue| + ActiveCount(s.ids) + |s.completed|
      && ActiveCount(s.ids) <= w.slots
      && |s.served| == w.Count() && |s.left| == |s.ids|
      && NoDup(s.completed)
      && (forall x :: x in s.completed ==> 0 <= x < w.Count() && x in s.admitted && s.served[x] == Max(1, w.service[x]))
      && s.quanta == SumNat(s.served)
      && (forall x :: 0 <= x < w.Count() && s.served[x] > 0 ==> x in s.completed || x in s.ids)
      && (forall i :: 0 <= i < |s.ids| && s.ids[i] >= 0 ==>
            s.ids[i] < w.Count() && s.served[s.ids[i]] == w.service[s.ids[i]] - s.left[i])
  {
    AfterKeeps(w, k);
    var s := After(w, k);
    forall i: nat | i < |s.ids| && s.ids[i] >= 0
      ensures s.ids[i] < w.Count() && s.served[s.ids[i]] == w.service[s.ids[i]] - s.left[i]
    {
      assert SlotOk(w, s, i);
    }
  }

  /** The largest of `f(0)` to `f(k - 1)`. */
  function Peak(f: nat -> nat, k: nat): nat {
    if k == 0 then 0 else Max(Peak(f, k - 1), f(k - 1))
  }

  lemma PeakNext(f: nat -> nat, k: nat)
    ensures Peak(f, k + 1) == Max(Peak(f, k), f(k))
  {}

  lemma {:induction false} PeakBounded(f: nat -> nat, k: nat, bound: nat)
    requires forall j: nat :: j < k ==> f(j) <= bound
    ensures Peak(f, k) <= bound
  {
    if k > 0 {
      PeakBounded(f, k - 1, bound);
    }
  }

  /** The length of the queue after the arrivals of a step. */
  function QueueAt(w: Workload): nat -> nat {
    (j: nat) => |Arrive(w, After(w, j), j).queue|
  }

  /** How many requests are active in a step. */
  function ActiveAt(w: Workload): nat -> nat {
    (j: nat) => ActiveCount(Loaded(w, After(w, j), j).ids)
  }

  /** The two measures at a state that step `k` starts from. */
  lemma MeasuresAt(w: Workload, s: Replay, k: nat)
    requires |s.ids| == |s.left| && s == After(w, k)
    ensures QueueAt(w)(k) == |Arrive(w, s, k).queue| && ActiveAt(w)(k) == ActiveCount(Loaded(w, s, k).ids)
  {}

  lemma StepWithinBounds(w: Workload, s: Replay, k: nat)
    requires BetweenSteps(w, s, k)
    ensures |Arrive(w, s, k).queue| <= w.Count() && ActiveCount(Loaded(w, s, k).ids) <= w.slots
  {
    LoadedKeeps(w, s, k);
    QueueWithinCount(w, s, k);
  }

  lemma BoundsAt(w: Workload, k: nat)
    requires w.Valid()
    ensures |Arrive(w, After(w, k), k).queue| <= w.Count() && ActiveCount(Loaded(w, After(w, k), k).ids) <= w.slots
  {
    AfterKeeps(w, k);
    StepWithinBounds(w, After(w, k), k);
  }

  /** The queue never holds more than all requests, and the active set never exceeds its slots. */
  lemma PeaksBounded(w: Workload, k: nat)
    requires w.Valid()
    ensures Peak(QueueAt(w), k) <= w.Count() && Peak(ActiveAt(w), k) <= w.slots
  {
    forall j: nat | j < k ensures QueueAt(w)(j) <= w.Count() && ActiveAt(w)(j) <= w.slots {
      BoundsAt(w, j);
    }
    PeakBounded(QueueAt(w), k, w.Count());
    PeakBounded(ActiveAt(w), k, w.slots);
  }

  lemma QueueWithinCount(w: Workload, s: Replay, k: nat)
    requires BetweenSteps(w, s, k)
    ensures |Arrive(w, s, k).queue| <= w.Count()
  {
    PushKeepsOrder(w, s, k, w.Count());
    var q := Arrive(w, s, k).queue;
    forall a, b | 0 <= a < b < |q| ensures q[a] != q[b] {
      assert (s.admitted + q)[|s.admitted| + a] == q[a] && (s.admitted + q)[|s.admitted| + b] == q[b];
    }
    forall y | y in q ensures 0 <= y < w.Count() {
      assert Seen(w, k, w.Count(), y);
    }
    DistinctBelow(q, w.Count());
  }

  // ------------------------------------------------------------- admission in order

  /** Requests below `i` arriving at step `k`, by index. */
  function ArrivalsAt(w: Workload, k: int, i: nat): seq<int>
    requires i <= w.Count()
  {
    if i == 0 then [] else ArrivalsAt(w, k, i - 1) + if w.arrival[i - 1] == k then [i - 1] else []
  }

  /** All arrivals before step `k`, by step and then by index. */
  function ArrivedBefore(w: Workload, k: nat): seq<int> {
    if k == 0 then [] else ArrivedBefore(w, k - 1) + ArrivalsAt(w, k - 1, w.Count())
  }

  predicate ArrivesBefore(w: Workload, x: int, y: int) {
    && 0 <= x < w.Count() && 0 <= y < w.Count()
    && (w.arrival[x] < w.arrival[y] || (w.arrival[x] == w.arrival[y] && x < y))
  }

  lemma {:induction false} ArrivalsAtFacts(w: Workload, k: int, i: nat)
    requires i <= w.Count()
    ensures forall x :: x in ArrivalsAt(w, k, i) <==> 0 <= x < i && w.arrival[x] == k
    ensures forall a, b :: 0 <= a < b < |ArrivalsAt(w, k, i)| ==> ArrivalsAt(w, k, i)[a] < ArrivalsAt(w, k, i)[b]
  {
    if i > 0 {
      ArrivalsAtFacts(w, k, i - 1);
      var p := ArrivalsAt(w, k, i - 1);
      assert forall a :: 0 <= a < |p| ==> p[a] in p;
    }
  }

  /** The reference order: exactly the arrivals before `k`, sorted by arrival step and index. */
  lemma {:induction false} ArrivedIsSorted(w: Workload, k: nat)
    ensures forall x :: x in ArrivedBefore(w, k) <==> 0 <= x < w.Count() && 0 <= w.arrival[x] < k
    ensures forall a, b :: 0 <= a < b < |ArrivedBefore(w, k)| ==>
      ArrivesBefore(w, ArrivedBefore(w, k)[a], ArrivedBefore(w, k)[b])
  {
    if k > 0 {
      ArrivedIsSorted(w, k - 1);
      ArrivalsAtFacts(w, k - 1, w.Count());
      var p, q := ArrivedBefore(w, k - 1), ArrivalsAt(w, k - 1, w.Count());
      var all := ArrivedBefore(w, k);
      forall a, b | 0 <= a < b < |all| ensures ArrivesBefore(w, all[a], all[b]) {
        if a < |p| { assert all[a] in p; } else { assert all[a] in q; }
        if b < |p| { assert all[b] in p; } else { assert all[b] in q; }
      }
    }
  }

  /** With capacity above the number of requests no push is refused. */
  lemma {:induction false} NoPushRefused(w: Workload, s: Replay, k: nat, i: nat)
    requires i <= w.Count() && OrderInv(w, s, k, 0) && w.capacity > w.Count()
    ensures PushedTo(w, s.queue, k, i) == s.queue + ArrivalsAt(w, k, i)
    ensures i < w.Count() && w.arrival[i] == k ==> |PushedTo(w, s.queue, k, i)| < w.capacity - 1
  {
    var p := PushedTo(w, s.queue, k, i);
    PushKeepsOrder(w, s, k, i);
    if i > 0 {
      NoPushRefused(w, s, k, i - 1);
    }
    if i < w.Count() && w.arrival[i] == k {
      forall a, b | 0 <= a < b < |p| ensures p[a] != p[b] {
        assert (s.admitted + p)[|s.admitted| + a] == p[a] && (s.admitted + p)[|s.admitted| + b] == p[b];
      }
      forall y | y in p ensures 0 <= y < w.Count() {
        assert Seen(w, k, i, y);
      }
      assert i !in p;
      RoomForOne(p, w.Count(), i);
    }
  }

  lemma StepTakesArrivals(w: Workload, s: Replay, k: nat)
    requires BetweenSteps(w, s, k) && w.capacity > w.Count()
    ensures var t := Step(w, s, k);
      t.admitted + t.queue == (s.admitted + s.queue) + ArrivalsAt(w, k, w.Count())
  {
    NoPushRefused(w, s, k, w.Count());
    LoadedKeeps(w, s, k);
    StepKeeps(w, s, k);
    assert s.admitted + (s.queue + ArrivalsAt(w, k, w.Count())) == (s.admitted + s.queue) + ArrivalsAt(w, k, w.Count());
  }

  /** Admissions follow the order of arrival: admitted, then queued, is the sorted list of arrivals. */
  lemma {:induction false} AdmissionOrder(w: Workload, k: nat)
    requires w.Valid() && w.capacity > w.Count()
    ensures After(w, k).admitted + After(w, k).queue == ArrivedBefore(w, k)
    ensures After(w, k).admitted <= ArrivedBefore(w, k)
  {
    if k > 0 {
      AdmissionOrder(w, k - 1);
      AfterKeeps(w, k - 1);
      StepTakesArrivals(w, After(w, k - 1), k - 1);
    }
  }
}
