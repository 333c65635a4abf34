/**
 The host-driven baseline: one decode step per launch. It is the reference that a
 mega-kernel iteration must match when speculation is off, and its whole token
 sequence has a closed form.
 */
module Baseline {
  import opened Arithmetic
  import opened Sequences
  import opened DeviceTypes
  import opened Stages
  import opened ResidentBlock

  /** `baseline_host_decode_step_kernel` for one request. */
  function BaselineStep(r: Descriptor): Descriptor {
    if r.IsDone() || (r.state != DecodeReady && r.state != PrefillReady) then r
    else
      var q := if r.state == PrefillReady
        then r.(decodePos := 0, outputCount := 0, lastToken := Rem(r.requestId * 7 + 3, VOCABULARY),
                state := DecodeReady)
        else r;
      var p := q.(lastToken := Rem(q.lastToken + 1 + q.requestId, VOCABULARY),
                  outputCount := q.outputCount + 1, decodePos := q.decodePos + 1);
      if p.lastToken == p.eos then p.(flags := p.flags + {EosSeen}, state := Complete)
      else if p.outputCount >= p.maxNew then p.(state := Complete)
      else p
  }

  method BaselineDecodeStep(requests: array<Descriptor>, idx: nat)
    modifies requests
    ensures requests[..] == if idx < requests.Length
      then old(requests[..])[idx := BaselineStep(old(requests[idx]))] else old(requests[..])
  {
    if idx >= requests.Length {
      return;
    }
    var r := requests[idx];
    if r.IsDone() {
      return;
    }
    if r.state != DecodeReady && r.state != PrefillReady {
      return;
    }
    if r.state == PrefillReady {
      r := r.(decodePos := 0, outputCount := 0, lastToken := Rem(r.requestId * 7 + 3, VOCABULARY));
      r := r.(state := DecodeReady);
    }
    if r.state == DecodeReady {
      var next := Rem(r.lastToken + 1 + r.requestId, VOCABULARY);
      r := r.(lastToken := next, outputCount := r.outputCount + 1, decodePos := r.decodePos + 1);
      if next == r.eos {
        r := r.(flags := r.flags + {EosSeen}, state := Complete);
      } else if r.outputCount >= r.maxNew {
        r := r.(state := Complete);
      }
    }
    requests[idx] := r;
  }

  /** What one mega-kernel iteration does to a descriptor; a done request is left alone. */
  function IterationReq(r: Descriptor, draft: seq<int>, present: bool): Descriptor {
    if r.IsDone() then r
    else CommitReq(VerifyReq(DecodeReq(PrefillReq(r)), draft, present))
  }

  /** The adaptive fields, which the baseline does not have. */
  function WithBlock(r: Descriptor, ema: real, blockSize: int): Descriptor { r.(ema := ema, blockSize := blockSize) }

  /**
   With speculation off a mega-kernel iteration is a baseline step, whatever the
   adaptive fields hold, except for a request found in the middle of a
   speculative round, which only the mega-kernel moves on.
   */
  lemma IterationIsBaseline(r: Descriptor, ema: real, blockSize: int, draft: seq<int>, present: bool)
    requires SpeculativeEnabled !in r.flags
    ensures IterationReq(WithBlock(r, ema, blockSize), draft, present) == WithBlock(BaselineStep(r), ema, blockSize)
       <==> r.state !in {DraftReady, VerifyReady, CommitReady}
  {
    var q := WithBlock(r, ema, blockSize);
    if r.state in {DraftReady, VerifyReady} {
      assert VerifyReq(q, draft, present).state == CommitReady;
      assert IterationReq(q, draft, present).state != r.state;
    } else if r.state == CommitReady {
      assert CommitReq(q).state != CommitReady;
    }
  }

  // ---------------------------------------------------------------- closed form

  function After(r: Descriptor, n: nat): Descriptor {
    if n == 0 then r else BaselineStep(After(r, n - 1))
  }

  /** The token of step `n`, counted from one. */
  function TokenAt(r: Descriptor, n: nat): int { (r.lastToken + n * (1 + r.requestId)) % VOCABULARY }

  predicate StopsAt(r: Descriptor, n: nat) {
    n >= 1 && (TokenAt(r, n) == r.eos || r.outputCount + n >= r.maxNew)
  }

  /** A request ready to decode, with token and id as the launcher sets them. */
  predicate Started(r: Descriptor) { r.state == DecodeReady && r.lastToken >= 0 && 1 + r.requestId >= 0 }

  /** The first step that completes the request. */
  function FirstStop(r: Descriptor, n: nat): (k: nat)
    requires n >= 1
    decreases Max(r.maxNew - r.outputCount - n, 0)
  {
    if StopsAt(r, n) then n else FirstStop(r, n + 1)
  }

  lemma {:induction false} FirstStopIsFirst(r: Descriptor, n: nat)
    requires n >= 1
    ensures FirstStop(r, n) >= n && StopsAt(r, FirstStop(r, n))
    ensures forall k :: n <= k < FirstStop(r, n) ==> !StopsAt(r, k)
    ensures FirstStop(r, n) <= Max(r.maxNew - r.outputCount, n)
    decreases Max(r.maxNew - r.outputCount - n, 0)
  {
    if !StopsAt(r, n) {
      FirstStopIsFirst(r, n + 1);
    }
  }

  lemma ModStep(a: nat, d: nat)
    ensures (a % VOCABULARY + d) % VOCABULARY == (a + d) % VOCABULARY
  {
    var q := a / VOCABULARY;
    assert a == q * VOCABULARY + a % VOCABULARY;
    ModShift(a % VOCABULARY + d, q);
  }

  lemma {:induction false} ModShift(a: nat, q: nat)
    ensures (a + q * VOCABULARY) % VOCABULARY == a % VOCABULARY
  {
    if q > 0 {
      ModShift(a, q - 1);
      assert a + q * VOCABULARY == a + (q - 1) * VOCABULARY + VOCABULARY;
    }
  }

  /** Token arithmetic of one more step. */
  lemma TokenStep(r: Descriptor, n: nat)
    requires Started(r)
    ensures n >= 1 ==> Rem(TokenAt(r, n) + 1 + r.requestId, VOCABULARY) == TokenAt(r, n + 1)
    ensures Rem(r.lastToken + 1 + r.requestId, VOCABULARY) == TokenAt(r, 1)
  {
    var d := 1 + r.requestId;
    MulLe(0, n, d);
    assert (n + 1) * d == n * d + d;
    ModStep(r.lastToken + n * d, d);
  }

  /** While no earlier step has stopped, everything about step `n` is known. */
  lemma {:induction false} ClosedForm(r: Descriptor, n: nat)
    requires Started(r) && n >= 1 && forall k :: 1 <= k < n ==> !StopsAt(r, k)
    ensures After(r, n) == r.(
      lastToken := TokenAt(r, n), outputCount := r.outputCount + n, decodePos := r.decodePos + n,
      flags := if TokenAt(r, n) == r.eos then r.flags + {EosSeen} else r.flags,
      state := if StopsAt(r, n) then Complete else DecodeReady)
  {
    TokenStep(r, n - 1);
    if n > 1 {
      ClosedForm(r, n - 1);
      assert !StopsAt(r, n - 1);
    }
  }

  /** Where a request that has still to be prefilled starts from: its own seed token, and no output. */
  function Seeded(r: Descriptor): Descriptor
    requires r.requestId >= 0
  {
    r.(state := DecodeReady, lastToken := (7 * r.requestId + 3) % VOCABULARY, outputCount := 0, decodePos := 0)
  }

  /**
   A request that has still to be prefilled takes the course of its seeded descriptor,
   whatever token and counts it came with; before any stop its token has a closed form
   in its id and the step alone.
   */
  lemma {:induction false} PrefillStarts(r: Descriptor, n: nat)
    requires r.state == PrefillReady && r.requestId >= 0 && n >= 1
    ensures Started(Seeded(r)) && After(r, n) == After(Seeded(r), n)
    ensures TokenAt(Seeded(r), n) == (7 * r.requestId + 3 + n * (1 + r.requestId)) % VOCABULARY
  {
    if n > 1 {
      PrefillStarts(r, n - 1);
    }
    MulLe(0, n, 1 + r.requestId);
    ModStep(7 * r.requestId + 3, n * (1 + r.requestId));
  }

  /**
   The whole run: still decoding before the first stopping step, and from that step
   on complete and unchanged. The stop is the earlier of the first EOS token and
   the exhausted budget.
   */
  lemma {:induction false} BaselineRun(r: Descriptor, n: nat)
    requires Started(r)
    ensures var stop := FirstStop(r, 1);
      && (n < stop ==> After(r, n).state == DecodeReady)
      && (n >= stop ==> After(r, n) == After(r, stop) && After(r, n).state == Complete)
      && (n >= stop ==> After(r, n).outputCount == r.outputCount + stop)
      && (n >= stop && EosSeen !in r.flags ==> (EosSeen in After(r, n).flags <==> TokenAt(r, stop) == r.eos))
  {
    var stop := FirstStop(r, 1);
    FirstStopIsFirst(r, 1);
    if n > stop {
      BaselineRun(r, n - 1);
    } else if n >= 1 {
      ClosedForm(r, n);
    }
  }

  /** With no output yet and a budget of at least one, completion takes the smaller of budget and first EOS step. */
  lemma CompletionStep(r: Descriptor)
    requires Started(r) && r.outputCount == 0 && r.maxNew >= 1
    ensures var stop := FirstStop(r, 1);
      && 1 <= stop <= r.maxNew
      && (forall n: nat :: 1 <= n < stop ==> TokenAt(r, n) != r.eos)
      && (stop < r.maxNew ==> TokenAt(r, stop) == r.eos)
      && After(r, stop).state == Complete
      && (stop > 0 ==> After(r, stop - 1).state == DecodeReady)
  {
    FirstStopIsFirst(r, 1);
    var stop := FirstStop(r, 1);
    BaselineRun(r, stop);
    BaselineRun(r, stop - 1);
    forall n: nat | 1 <= n < stop ensures TokenAt(r, n) != r.eos {
      assert !StopsAt(r, n);
    }
  }

  // ---------------------------------------------------- the mega-kernel, iterated

  /** A resident block's loop body does to its descriptor what the iteration above says. */
  lemma BodyIsIteration(k: Launch, l: Local, first: bool)
    requires k.pageSize >= 1
    ensures var start := if first then InitBlock(k, l) else l;
      Body(k, l, first).req
        == IterationReq(start.req, DoDecode(k, DoSelect(DoPrefill(start))).draft, k.hasDrafts)
  {}

  predicate MidRound(r: Descriptor) { r.state in {DraftReady, VerifyReady, CommitReady} }

  lemma BaselineStaysOut(r: Descriptor)
    requires SpeculativeEnabled !in r.flags && !MidRound(r)
    ensures SpeculativeEnabled !in BaselineStep(r).flags && !MidRound(BaselineStep(r))
  {}

  lemma {:induction false} AfterStaysOut(r: Descriptor, n: nat)
    requires SpeculativeEnabled !in r.flags && !MidRound(r)
    ensures SpeculativeEnabled !in After(r, n).flags && !MidRound(After(r, n))
  {
    if n > 0 {
      AfterStaysOut(r, n - 1);
      BaselineStaysOut(After(r, n - 1));
    }
  }

  /** One body of the loop against one baseline step, with the adaptive fields set as the block sets them. */
  lemma BodyIsBaseline(k: Launch, l: Local, r: Descriptor, first: bool)
    requires k.pageSize >= 1 && SpeculativeEnabled !in r.flags && !MidRound(r)
    requires if first then l.req == r else l.req == WithBlock(r, 0.80, StartBlock(k))
    ensures Body(k, l, first).req == WithBlock(BaselineStep(r), 0.80, StartBlock(k))
  {
    var start := if first then InitBlock(k, l) else l;
    var draft := DoDecode(k, DoSelect(DoPrefill(start))).draft;
    BodyIsIteration(k, l, first);
    IterationIsBaseline(r, 0.80, StartBlock(k), draft, k.hasDrafts);
  }

  /** With speculation off, `n` iterations of a resident block are `n` baseline launches. */
  lemma {:induction false} IterationsAreBaseline(k: Launch, l: Local, n: nat)
    requires k.pageSize >= 1 && n >= 1 && SpeculativeEnabled !in l.req.flags && !MidRound(l.req)
    ensures Iterations(k, l, n).req == WithBlock(After(l.req, n), 0.80, StartBlock(k))
  {
    if n > 1 {
      IterationsAreBaseline(k, l, n - 1);
    }
    AfterStaysOut(l.req, n - 1);
    BodyIsBaseline(k, Iterations(k, l, n - 1), After(l.req, n - 1), n == 1);
  }

  /**
   A whole run of a resident block with speculation off: it has completed if and
   only if it was given as many iterations as the closed form needs, and then with
   exactly that many tokens, the last one the closed form's.
   */
  lemma SoloRunMatchesBaseline(k: Launch, l: Local)
    requires k.pageSize >= 1 && k.maxIterations >= 1 && Started(l.req) && SpeculativeEnabled !in l.req.flags
    ensures var r, stop := SoloRun(k, l).req, FirstStop(l.req, 1);
      && (r.state == Complete <==> k.maxIterations >= stop)
      && (k.maxIterations >= stop ==>
            r.outputCount == l.req.outputCount + stop && r.lastToken == TokenAt(l.req, stop))
  {
    var stop := FirstStop(l.req, 1);
    IterationsAreBaseline(k, l, k.maxIterations);
    BaselineRun(l.req, k.maxIterations);
    FirstStopIsFirst(l.req, 1);
    ClosedForm(l.req, stop);
  }
}
