/** Trace replay, request by request: who is served when, and in which order requests complete. */
module ReplayService {
  import opened Sequences
  import opened TraceModel

  /** The slots below `i` whose request needs no quantum beyond this one, in slot order. */
  function Finishing(s: Replay, i: nat): seq<int>
    requires i <= |s.ids| == |s.left|
  {
    if i == 0 then []
    else Finishing(s, i - 1) + if s.ids[i - 1] >= 0 && s.left[i - 1] <= 1 then [s.ids[i - 1]] else []
  }

  /** The slots below `i` have been served: one quantum for each request in them, no other, completion in slot order. */
  ghost predicate ServedBelow(s: Replay, t: Replay, i: nat, x: int)
    requires i <= |s.ids| == |s.left|
  {
    && t.admitted == s.admitted && |t.served| == |s.served|
    && (0 <= x < |s.served| ==> t.served[x] == s.served[x] + (if x in s.ids[..i] then 1 else 0))
    && t.completed == s.completed + Finishing(s, i)
  }

  lemma {:induction false} ServedOnce(w: Workload, s: Replay, i: nat, x: int)
    requires SlotInv(w, s) && i <= |s.ids|
    ensures ServedBelow(s, ServeTo(s, i), i, x)
  {
    if i > 0 {
      ServedOnce(w, s, i - 1, x);
      ServeToKeeps(w, s, i - 1);
      ServedNext(w, s, ServeTo(s, i - 1), i - 1, x);
    }
  }

  lemma ServedNext(w: Workload, s: Replay, p: Replay, i: nat, x: int)
    requires SlotInv(w, s) && i < |s.ids| == |p.ids| == |p.left| && SlotInv(w, p)
    requires ServedBelow(s, p, i, x) && Served(s, p, i)
    ensures ServedBelow(s, ServeSlot(p, i), i + 1, x)
  {
    assert SlotOk(w, p, i);
    OneSlotEach(s.ids, i);
  }

  lemma OneSlotEach(ids: seq<int>, i: nat)
    requires SlotsApart(ids) && i < |ids|
    ensures ids[i] >= 0 ==> ids[i] !in ids[..i]
    ensures forall x :: x in ids[..i + 1] <==> x in ids[..i] || x == ids[i]
  {
    assert ids[..i + 1] == ids[..i] + [ids[i]];
  }

  /** One step of the replay for an admitted request that is, or is not, done. */
  lemma StepServes(w: Workload, s: Replay, k: nat, x: int)
    requires BetweenSteps(w, s, k) && 0 <= x < w.Count() && x in Step(w, s, k).admitted
    ensures var t := Step(w, s, k);
      && |t.served| == w.Count()
      && t.served[x] == s.served[x] + (if x in s.completed then 0 else 1)
      && (x in t.completed <==> t.served[x] == w.Need(x))
  {
    var l, t := Loaded(w, s, k), Step(w, s, k);
    LoadedKeeps(w, s, k);
    StepKeeps(w, s, k);
    ServedOnce(w, l, |l.ids|, x);
    assert l.ids[..|l.ids|] == l.ids;
    LoadedServes(w, s, k);
    if x in l.ids {
      var i :| 0 <= i < |l.ids| && l.ids[i] == x;
      assert SlotOk(w, l, i);
    }
    if x in t.ids {
      var i :| 0 <= i < |t.ids| && t.ids[i] == x;
      assert SlotOk(w, t, i);
    }
  }

  /** The requests that complete in a step are those in their last quantum, in the order of their slots. */
  lemma CompletionOrder(w: Workload, s: Replay, k: nat)
    requires BetweenSteps(w, s, k)
    ensures var l := Loaded(w, s, k);
      |l.ids| == |l.left| == w.slots && Step(w, s, k).completed == s.completed + Finishing(l, w.slots)
  {
    LoadedKeeps(w, s, k);
    ServedOnce(w, Loaded(w, s, k), w.slots, 0);
  }

  /** Arrivals and admissions serve nobody. */
  lemma LoadedServes(w: Workload, s: Replay, k: nat)
    requires BetweenSteps(w, s, k)
    ensures Loaded(w, s, k).served == s.served
  {
    AdmitServes(w, Arrive(w, s, k));
  }

  lemma {:induction false} AdmitServes(w: Workload, s: Replay)
    requires |s.ids| == |s.left|
    ensures AdmitAll(w, s).served == s.served
    decreases |s.queue|
  {
    if s.queue != [] && FirstFree(s.ids) < |s.ids| {
      AdmitServes(w, AdmitOne(w, s));
    }
  }

  /** Whoever has been admitted stays so. */
  lemma StepAdmits(w: Workload, s: Replay, k: nat, x: int)
    requires BetweenSteps(w, s, k) && x in s.admitted
    ensures x in Step(w, s, k).admitted
  {
    StepKeeps(w, s, k);
    AdmitKeepsAdmitted(w, Arrive(w, s, k), x);
  }

  lemma {:induction false} AdmitKeepsAdmitted(w: Workload, s: Replay, x: int)
    requires |s.ids| == |s.left| && x in s.admitted
    ensures x in AdmitAll(w, s).admitted
    decreases |s.queue|
  {
    if s.queue != [] && FirstFree(s.ids) < |s.ids| {
      AdmitKeepsAdmitted(w, AdmitOne(w, s), x);
    }
  }

  /** Request `x` is admitted in step `a`. */
  ghost predicate AdmittedIn(w: Workload, x: int, a: nat) {
    x !in After(w, a).admitted && x in After(w, a + 1).admitted
  }

  /**
   No admitted request ever waits: from the step that admits it on it gets one quantum
   in every step, and completes with the last of max(1, service) of them. So the step
   in which a request completes follows from the one that admits it.
   */
  lemma {:induction false} ServedWithoutPause(w: Workload, x: int, a: nat, k: nat, s: Replay)
    requires w.Valid() && AdmittedIn(w, x, a) && k > a && s == After(w, k)
    ensures 0 <= x < w.Count() == |s.served| && x in s.admitted
    ensures s.served[x] == Min(k - a, Max(1, w.service[x]))
    ensures x in s.completed <==> k - a >= Max(1, w.service[x])
  {
    var before := After(w, k - 1);
    NextState(w, k, before, s);
    if k - 1 > a {
      ServedWithoutPause(w, x, a, k - 1, before);
      NextQuantum(w, x, k - a, before, k - 1, s);
    } else {
      NextQuantum(w, x, 1, before, a, s);
    }
  }

  lemma NextState(w: Workload, k: nat, before: Replay, s: Replay)
    requires w.Valid() && k >= 1 && before == After(w, k - 1) && s == After(w, k)
    ensures BetweenSteps(w, before, k - 1) && s == Step(w, before, k - 1)
  {
    AfterKeeps(w, k - 1);
  }

  /** The `n`-th step of a request: its first, or the next after `n - 1`. */
  lemma NextQuantum(w: Workload, x: int, n: nat, before: Replay, k: nat, s: Replay)
    requires BetweenSteps(w, before, k) && s == Step(w, before, k)
    requires n >= 1 && if n == 1 then x in s.admitted && x !in before.admitted else x in before.admitted
    requires n > 1 ==> 0 <= x < |before.served| && before.served[x] == Min(n - 1, w.Need(x))
                       && (x in before.completed <==> n - 1 >= w.Need(x))
    ensures 0 <= x < w.Count() == |s.served| && x in s.admitted
    ensures s.served[x] == Min(n, Max(1, w.service[x]))
    ensures x in s.completed <==> n >= Max(1, w.service[x])
  {
    if n > 1 {
      StepAdmits(w, before, k, x);
    }
    StepKeeps(w, before, k);
    assert Seen(w, k + 1, 0, x);
    StepServes(w, before, k, x);
  }
}
