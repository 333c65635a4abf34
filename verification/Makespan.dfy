/** The makespan bound of trace replay: last arrival, plus total work over slots, plus the longest service. */
module Makespan {
  import opened Arithmetic
  import opened Sequences
  import opened TraceModel

  function Needs(w: Workload): seq<nat> { seq(w.Count(), i => w.Need(i)) }

  /** The work of all requests together. */
  function TotalWork(w: Workload): nat { SumNat(Needs(w)) }

  /** All requests arrive between step 0 and `last`, and none needs more than `longest` steps. */
  ghost predicate Bounded(w: Workload, last: nat, longest: nat) {
    && w.Valid() && w.slots >= 1 && w.capacity > w.Count()
    && forall x :: 0 <= x < w.Count() ==> 0 <= w.arrival[x] <= last && w.Need(x) <= longest
  }

  function Horizon(w: Workload, last: nat, longest: nat): nat
    requires w.slots >= 1
  {
    last + TotalWork(w) / w.slots + longest
  }

  /** No request ever receives more than it needs. */
  lemma QuantaWithinWork(w: Workload, s: Replay, k: nat)
    requires BetweenSteps(w, s, k)
    ensures s.quanta <= TotalWork(w)
  {
    forall x | 0 <= x < w.Count() ensures s.served[x] <= Needs(w)[x] {
      if x in s.admitted && x !in s.completed {
        var i :| 0 <= i < |s.ids| && s.ids[i] == x;
        assert SlotOk(w, s, i);
      }
    }
    SumLe(s.served, Needs(w));
  }

  lemma QuotientBound(m: nat, x: int, total: nat)
    requires m >= 1 && m * x <= total
    ensures x <= total / m
  {
    var q := total / m;
    MulStep(q, m);
    assert total == q * m + total % m && total < (q + 1) * m;
    if x > q {
      MulLe(q + 1, x, m);
    }
  }

  /** Since the last arrival every slot has been busy in every step. */
  ghost predicate Busy(w: Workload, s: Replay, k: nat, last: nat) { w.slots * (k - last) <= s.quanta }

  /** The queue has run empty, and every active request will be done by `bound`. */
  ghost predicate Draining(s: Replay, k: nat, last: nat, bound: nat) {
    && k > last && s.queue == [] && |s.ids| == |s.left|
    && forall i :: 0 <= i < |s.ids| && s.ids[i] >= 0 ==> k + s.left[i] <= bound
  }

  lemma BusyStep(w: Workload, s: Replay, k: nat, last: nat, longest: nat)
    requires Bounded(w, last, longest) && BetweenSteps(w, s, k) && last <= k && Busy(w, s, k, last)
    ensures Busy(w, Step(w, s, k), k + 1, last) || Draining(Step(w, s, k), k + 1, last, Horizon(w, last, longest))
  {
    var t := Loaded(w, s, k);
    LoadedKeeps(w, s, k);
    StepKeeps(w, s, k);
    var u := Step(w, s, k);
    if t.queue != [] {
      assert t.ids[..|t.ids|] == t.ids;
      OneMoreStep(w.slots, k - last);
    } else {
      QuantaWithinWork(w, s, k);
      QuotientBound(w.slots, k - last, TotalWork(w));
      forall i | 0 <= i < |u.ids| && u.ids[i] >= 0 ensures k + 1 + u.left[i] <= Horizon(w, last, longest) {
        assert SlotOk(w, t, i);
        assert w.Need(t.ids[i]) <= longest;
      }
    }
  }

  lemma OneMoreStep(m: nat, x: int)
    ensures m * (x + 1) == m * x + m
  {}

  lemma {:induction false} NothingArrives(w: Workload, q: seq<int>, k: int, i: nat)
    requires i <= w.Count() && forall x :: 0 <= x < i ==> w.arrival[x] != k
    ensures PushedTo(w, q, k, i) == q
  {
    if i > 0 {
      NothingArrives(w, q, k, i - 1);
    }
  }

  lemma DrainingStep(w: Workload, s: Replay, k: nat, last: nat, longest: nat, bound: nat)
    requires Bounded(w, last, longest) && BetweenSteps(w, s, k) && Draining(s, k, last, bound)
    ensures Draining(Step(w, s, k), k + 1, last, bound)
  {
    NothingArrives(w, s.queue, k, w.Count());
    assert Loaded(w, s, k) == s;
    StepKeeps(w, s, k);
  }

  lemma {:induction false} BusyOrDraining(w: Workload, k: nat, last: nat, longest: nat)
    requires Bounded(w, last, longest) && k >= last
    ensures Busy(w, After(w, k), k, last) || Draining(After(w, k), k, last, Horizon(w, last, longest))
    decreases k
  {
    if k > last {
      BusyOrDraining(w, k - 1, last, longest);
      AfterKeeps(w, k - 1);
      NextBusyOrDraining(w, After(w, k - 1), k - 1, last, longest);
    }
  }

  lemma NextBusyOrDraining(w: Workload, s: Replay, k: nat, last: nat, longest: nat)
    requires Bounded(w, last, longest) && k >= last && BetweenSteps(w, s, k)
    requires Busy(w, s, k, last) || Draining(s, k, last, Horizon(w, last, longest))
    ensures Busy(w, Step(w, s, k), k + 1, last) || Draining(Step(w, s, k), k + 1, last, Horizon(w, last, longest))
  {
    if Busy(w, s, k, last) {
      BusyStep(w, s, k, last, longest);
    } else {
      DrainingStep(w, s, k, last, longest, Horizon(w, last, longest));
    }
  }

  /** Every slot busy up to the horizon would be more work than there is. */
  lemma BusyEnds(w: Workload, s: Replay, last: nat, longest: nat)
    requires Bounded(w, last, longest) && BetweenSteps(w, s, Horizon(w, last, longest)) && longest >= 1
    ensures !Busy(w, s, Horizon(w, last, longest), last)
  {
    var k := Horizon(w, last, longest);
    QuantaWithinWork(w, s, k);
    if Busy(w, s, k, last) {
      QuotientBound(w.slots, k - last, TotalWork(w));
    }
  }

  /** The makespan bound: by the horizon every request has completed, once. */
  lemma MakespanBound(w: Workload, last: nat, longest: nat)
    requires Bounded(w, last, longest)
    ensures var s := After(w, Horizon(w, last, longest));
      |s.completed| == w.Count() && NoDup(s.completed) && forall x :: x in s.completed <==> 0 <= x < w.Count()
  {
    var k := Horizon(w, last, longest);
    var s := After(w, k);
    AfterKeeps(w, k);
    if w.Count() == 0 {
      NobodyCompletes(w, s, k);
    } else {
      assert w.Need(0) <= longest;
      BusyOrDraining(w, k, last, longest);
      BusyEnds(w, s, last, longest);
      AllCompleted(w, s, k, last, longest);
    }
  }

  lemma NobodyCompletes(w: Workload, s: Replay, k: nat)
    requires BetweenSteps(w, s, k) && w.Count() == 0
    ensures s.completed == []
  {
    forall x ensures x in s.completed <==> x in Range(0, 0) {
      RangeMember(0, 0, x);
    }
    SameElementsSameLength(s.completed, Range(0, 0));
  }

  lemma AllCompleted(w: Workload, s: Replay, k: nat, last: nat, longest: nat)
    requires Bounded(w, last, longest) && BetweenSteps(w, s, k) && s == After(w, k)
    requires Draining(s, k, last, k)
    ensures |s.completed| == w.Count() && forall x :: x in s.completed <==> 0 <= x < w.Count()
  {
    assert forall i :: 0 <= i < |s.ids| ==> s.ids[i] < 0;
    AdmissionOrder(w, k);
    ArrivedIsSorted(w, k);
    assert s.admitted + [] == s.admitted;
    forall x ensures x in s.completed <==> 0 <= x < w.Count() {
      if 0 <= x < w.Count() {
        assert x in s.admitted;
        assert x !in s.ids || x < 0;
      }
    }
    forall x ensures x in s.completed <==> x in Range(0, w.Count()) {
      RangeMember(0, w.Count(), x);
    }
    SameElementsSameLength(s.completed, Range(0, w.Count()));
  }
}
