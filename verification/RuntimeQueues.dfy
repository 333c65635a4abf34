/**
 Who is served next. Both queues of the runtime are in descending order of priority,
 and requests of the same priority in the order in which they joined; so every step
 takes a request that no waiting request outranks.
 */
module RuntimeQueues {
  import opened Arithmetic
  import opened Sequences
  import opened KvCacheModel
  import opened Requests
  import opened RuntimeModel

  /** How many requests of the queue have at least the priority of `r`. */
  function Place(q: seq<Req>, r: Req): (p: nat)
    ensures p <= |q|
  {
    if q == [] then 0 else Place(q[..|q| - 1], r) + if q[|q| - 1].priority >= r.priority then 1 else 0
  }

  function InsertAt<T>(s: seq<T>, p: nat, x: T): seq<T> { s[..Min(p, |s|)] + [x] + s[Min(p, |s|)..] }

  /** Ticket by ticket: a higher priority comes first, and of equal priorities the earlier ticket. */
  ghost predicate InOrder(q: seq<Req>, tickets: seq<nat>) {
    && |q| == |tickets|
    && forall i, j :: 0 <= i < j < |q| ==>
         q[i].priority > q[j].priority || (q[i].priority == q[j].priority && tickets[i] < tickets[j])
  }

  /** All tickets were handed out before `k`. */
  ghost predicate IssuedBefore(tickets: seq<nat>, k: nat) { forall i :: 0 <= i < |tickets| ==> tickets[i] < k }

  ghost predicate Descending(q: seq<Req>) { forall i, j :: 0 <= i < j < |q| ==> q[i].priority >= q[j].priority }

  lemma {:induction false} PlaceAmong(q: seq<Req>, r: Req, i: nat)
    requires Descending(q) && i < |q|
    ensures i < Place(q, r) <==> q[i].priority >= r.priority
  {
    var k := |q| - 1;
    if i < k {
      PlaceAmong(q[..k], r, i);
    } else {
      AllBefore(q, r);
    }
  }

  /** If the last request has the priority, all have. */
  lemma {:induction false} AllBefore(q: seq<Req>, r: Req)
    requires Descending(q) && q != []
    ensures q[|q| - 1].priority >= r.priority ==> Place(q, r) == |q|
  {
    var k := |q| - 1;
    if k > 0 && q[k].priority >= r.priority {
      assert q[..k][k - 1].priority >= q[k].priority;
      AllBefore(q[..k], r);
    }
  }

  /** A request joins behind all that have at least its priority, and before all others. */
  lemma {:induction false} PushIsInsert(q: seq<Req>, r: Req)
    requires Descending(q)
    ensures Push(q, r) == InsertAt(q, Place(q, r), r)
  {
    if q != [] {
      var k := |q| - 1;
      AllBefore(q, r);
      if q[k].priority < r.priority {
        PushIsInsert(q[..k], r);
        var p := Place(q, r);
        assert p <= k && q[..k][..p] == q[..p] && q[p..] == q[..k][p..] + [q[k]];
      } else {
        assert q[..|q|] == q && q[|q|..] == [];
      }
    }
  }

  lemma OrderDescends(q: seq<Req>, tickets: seq<nat>)
    requires InOrder(q, tickets)
    ensures Descending(q)
  {}

  /** Behind all that have at least its priority, before all others, and with the latest ticket. */
  ghost predicate Fits(q: seq<Req>, r: Req, p: nat) {
    && p <= |q|
    && (forall i :: 0 <= i < p ==> q[i].priority >= r.priority)
    && (forall i :: p <= i < |q| ==> q[i].priority < r.priority)
  }

  lemma InsertKeepsPair(q: seq<Req>, tickets: seq<nat>, r: Req, k: nat, p: nat, i: nat, j: nat)
    requires InOrder(q, tickets) && IssuedBefore(tickets, k) && Fits(q, r, p) && i < j <= |q|
    ensures var u, v := InsertAt(q, p, r), InsertAt(tickets, p, k);
      u[i].priority > u[j].priority || (u[i].priority == u[j].priority && v[i] < v[j])
  {
    InsertedAt(q, p, r, i);
    InsertedAt(q, p, r, j);
    InsertedAt(tickets, p, k, i);
    InsertedAt(tickets, p, k, j);
  }

  lemma InsertKeepsOrder(q: seq<Req>, tickets: seq<nat>, r: Req, k: nat, p: nat)
    requires InOrder(q, tickets) && IssuedBefore(tickets, k) && Fits(q, r, p)
    ensures InOrder(InsertAt(q, p, r), InsertAt(tickets, p, k)) && IssuedBefore(InsertAt(tickets, p, k), k + 1)
  {
    var u, v := InsertAt(q, p, r), InsertAt(tickets, p, k);
    forall i: nat, j: nat | i < j < |u|
      ensures u[i].priority > u[j].priority || (u[i].priority == u[j].priority && v[i] < v[j])
    {
      InsertKeepsPair(q, tickets, r, k, p, i, j);
    }
    forall i: nat | i < |v| ensures v[i] < k + 1 {
      InsertedAt(tickets, p, k, i);
    }
  }

  /** The newcomer gets the next ticket, at its place. */
  lemma PushKeepsOrder(q: seq<Req>, tickets: seq<nat>, r: Req, k: nat)
    requires InOrder(q, tickets) && IssuedBefore(tickets, k)
    ensures var p := Place(q, r);
      InOrder(Push(q, r), InsertAt(tickets, p, k)) && IssuedBefore(InsertAt(tickets, p, k), k + 1)
  {
    OrderDescends(q, tickets);
    PushIsInsert(q, r);
    forall i: nat | i < |q| ensures i < Place(q, r) <==> q[i].priority >= r.priority {
      PlaceAmong(q, r, i);
    }
    InsertKeepsOrder(q, tickets, r, k, Place(q, r));
  }

  lemma InsertedAt<T>(s: seq<T>, p: nat, x: T, i: nat)
    requires p <= |s| && i <= |s|
    ensures InsertAt(s, p, x)[i] == if i < p then s[i] else if i == p then x else s[i - 1]
  {}

  lemma PopKeepsOrder(q: seq<Req>, tickets: seq<nat>)
    requires InOrder(q, tickets) && q != []
    ensures InOrder(q[1..], tickets[1..])
  {}

  // -------------------------------------------------------------------- submissions

  /** The prefill queue after the requests were submitted one after the other. */
  function SubmitAll(cfg: Config, rs: seq<Req>): seq<Req> {
    if rs == [] then [] else Push(SubmitAll(cfg, rs[..|rs| - 1]), Submitted(cfg, rs[|rs| - 1]))
  }

  /** For each place of that queue, the number of the submission that holds it. */
  function SubmitTickets(cfg: Config, rs: seq<Req>): seq<nat> {
    if rs == [] then []
    else
      var k := |rs| - 1;
      InsertAt(SubmitTickets(cfg, rs[..k]), Place(SubmitAll(cfg, rs[..k]), Submitted(cfg, rs[k])), k)
  }

  /** Each place of the queue holds the submission that its ticket names. */
  ghost predicate Holds(cfg: Config, rs: seq<Req>, q: seq<Req>, t: seq<nat>) {
    |q| == |t| && forall i :: 0 <= i < |q| ==> t[i] < |rs| && q[i] == Submitted(cfg, rs[t[i]])
  }

  lemma HoldsOneMore(cfg: Config, rs: seq<Req>, q: seq<Req>, t: seq<nat>, p: nat)
    requires rs != [] && p <= |q|
    requires Holds(cfg, rs[..|rs| - 1], q, t)
    ensures Holds(cfg, rs, InsertAt(q, p, Submitted(cfg, rs[|rs| - 1])), InsertAt(t, p, |rs| - 1))
  {
    var r, k := Submitted(cfg, rs[|rs| - 1]), |rs| - 1;
    forall i: nat | i <= |q| ensures InsertAt(t, p, k)[i] < |rs|
      && InsertAt(q, p, r)[i] == Submitted(cfg, rs[InsertAt(t, p, k)[i]])
    {
      InsertedAt(q, p, r, i);
      InsertedAt(t, p, k, i);
    }
  }

  /** A request without layers gets all of them; nothing else about its identity or its tokens changes. */
  lemma SubmissionDefaults(cfg: Config, r: Req)
    ensures var q := Submitted(cfg, r);
      && SameIdentity(q.(layers := r.layers), r) && q.committed == r.committed && q.finished == r.finished
      && if r.layers != [] then q.layers == r.layers
         else |q.layers| == cfg.numLayers && forall l :: 0 <= l < cfg.numLayers ==> q.layers[l] == l
  {}

  /** Submissions queue up by priority, then in the order in which they were made; none is lost. */
  lemma {:induction false} SubmissionsInOrder(cfg: Config, rs: seq<Req>)
    ensures InOrder(SubmitAll(cfg, rs), SubmitTickets(cfg, rs)) && |SubmitAll(cfg, rs)| == |rs|
    ensures IssuedBefore(SubmitTickets(cfg, rs), |rs|)
    ensures Holds(cfg, rs, SubmitAll(cfg, rs), SubmitTickets(cfg, rs))
  {
    if rs != [] {
      var k := |rs| - 1;
      var q, t, r := SubmitAll(cfg, rs[..k]), SubmitTickets(cfg, rs[..k]), Submitted(cfg, rs[k]);
      SubmissionsInOrder(cfg, rs[..k]);
      PushKeepsOrder(q, t, r, k);
      OrderDescends(q, t);
      PushIsInsert(q, r);
      HoldsOneMore(cfg, rs, q, t, Place(q, r));
    }
  }

  // ----------------------------------------------------------------------- whole runs

  /** The request that is about to join the decode queue, if one is. */
  predicate Joins(s: Rt) {
    (s.stage.Enqueuing? && s.prefilled != []) || (s.stage.Settling? && s.batch != [] && !s.batch[0].0.finished)
  }

  function Joining(s: Rt): Req
    requires Joins(s)
  {
    if s.stage.Enqueuing? then s.prefilled[0] else s.batch[0].0
  }

  /** How a step moves the queues: their heads are taken, and requests join the decode queue. */
  lemma StepMovesQueues(cfg: Config, s: Rt)
    requires s.cache.pageSize >= 1
    ensures var n := Step(cfg, s);
      && (n.prefillQ == s.prefillQ || (s.stage.Prefilling? && s.prefillQ != [] && n.prefillQ == s.prefillQ[1..]))
      && (if Joins(s) then n.decodeQ == Push(s.decodeQ, Joining(s))
          else n.decodeQ == s.decodeQ || (s.stage.Decoding? && s.decodeQ != [] && n.decodeQ == s.decodeQ[1..]))
  {}

  /** For each place of the decode queue after `k` steps, the step in which its request joined. */
  ghost function Tickets(cfg: Config, s: Rt, k: nat): seq<nat>
    requires s.cache.pageSize >= 1
  {
    if k == 0 then []
    else
      NextTickets(Iterate(cfg, s, k - 1), Iterate(cfg, s, k), Tickets(cfg, s, k - 1), k - 1)
  }

  /** Step `k` leads from `p` to `n`: who joins gets ticket `k`, and who leaves takes the first one along. */
  ghost function NextTickets(p: Rt, n: Rt, t: seq<nat>, k: nat): seq<nat> {
    if Joins(p) then InsertAt(t, Place(p.decodeQ, Joining(p)), k)
    else if |n.decodeQ| < |p.decodeQ| && t != [] then t[1..]
    else t
  }

  lemma TicketsNext(cfg: Config, s: Rt, k: nat)
    requires s.cache.pageSize >= 1
    ensures Tickets(cfg, s, k + 1) == NextTickets(Iterate(cfg, s, k), Iterate(cfg, s, k + 1), Tickets(cfg, s, k), k)
  {}

  ghost predicate OrderedAt(cfg: Config, s: Rt, k: nat)
    requires s.cache.pageSize >= 1
  {
    && InOrder(Iterate(cfg, s, k).decodeQ, Tickets(cfg, s, k)) && IssuedBefore(Tickets(cfg, s, k), k)
  }

  lemma OrderedNext(cfg: Config, p: Rt, n: Rt, t: seq<nat>, k: nat)
    requires p.cache.pageSize >= 1 && n == Step(cfg, p) && InOrder(p.decodeQ, t) && IssuedBefore(t, k)
    ensures InOrder(n.decodeQ, NextTickets(p, n, t, k)) && IssuedBefore(NextTickets(p, n, t, k), k + 1)
  {
    StepMovesQueues(cfg, p);
    if Joins(p) {
      PushKeepsOrder(p.decodeQ, t, Joining(p), k);
    } else if n.decodeQ != p.decodeQ {
      PopKeepsOrder(p.decodeQ, t);
    }
  }

  lemma NextOrderedAt(cfg: Config, s: Rt, k: nat)
    requires s.cache.pageSize >= 1
    ensures OrderedAt(cfg, s, k) ==> OrderedAt(cfg, s, k + 1)
  {
    IterateNext(cfg, s, k);
    TicketsNext(cfg, s, k);
    if OrderedAt(cfg, s, k) {
      OrderedNext(cfg, Iterate(cfg, s, k), Iterate(cfg, s, k + 1), Tickets(cfg, s, k), k);
    }
  }

  lemma DecodeQueueInOrder(cfg: Config, s: Rt, k: nat)
    requires s.cache.pageSize >= 1 && s.decodeQ == []
    ensures OrderedAt(cfg, s, k)
  {
    forall n: nat | OrderedAt(cfg, s, n) ensures OrderedAt(cfg, s, n + 1) {
      NextOrderedAt(cfg, s, n);
    }
    CountUp((n: nat) => OrderedAt(cfg, s, n), 0, k);
  }

  /** The prefill queue is what is left of the submissions. */
  lemma PrefillQueueIsRest(cfg: Config, s: Rt, k: nat)
    requires s.cache.pageSize >= 1
    ensures IsRest(Iterate(cfg, s, k).prefillQ, s.prefillQ)
  {
    forall t: Rt | t.cache.pageSize >= 1 && IsRest(t.prefillQ, s.prefillQ)
      ensures IsRest(Step(cfg, t).prefillQ, s.prefillQ)
    {
      StepMovesQueues(cfg, t);
    }
    RunKeeps(cfg, (t: Rt) => IsRest(t.prefillQ, s.prefillQ), s, k);
  }

  ghost predicate IsRest(q: seq<Req>, all: seq<Req>) { |q| <= |all| && q == all[|all| - |q|..] }

  lemma RestInOrder(cfg: Config, rs: seq<Req>, q: seq<Req>, all: seq<Req>, tickets: seq<nat>)
    requires IsRest(q, all) && InOrder(all, tickets) && Holds(cfg, rs, all, tickets)
    ensures InOrder(q, tickets[|all| - |q|..]) && Holds(cfg, rs, q, tickets[|all| - |q|..])
  {}

  /** The first request outranks all others: a higher priority, or the same and an earlier ticket. */
  ghost predicate HeadFirst(q: seq<Req>, tickets: seq<nat>) {
    && |q| == |tickets|
    && forall i :: 0 < i < |q| ==>
         q[0].priority > q[i].priority || (q[0].priority == q[i].priority && tickets[0] < tickets[i])
  }

  lemma OrderHead(q: seq<Req>, tickets: seq<nat>)
    requires InOrder(q, tickets)
    ensures HeadFirst(q, tickets)
  {}

  /**
   In every reachable state the decode queue is in order, by priority and then by the
   step in which a request joined, so that its head outranks all others.
   */
  lemma DecodeHeadFirst(cfg: Config, c: Cache, q: seq<Req>, k: nat)
    requires c.pageSize >= 1
    ensures OrderedAt(cfg, Initial(c, q), k)
    ensures HeadFirst(Iterate(cfg, Initial(c, q), k).decodeQ, Tickets(cfg, Initial(c, q), k))
  {
    DecodeQueueInOrder(cfg, Initial(c, q), k);
    OrderHead(Iterate(cfg, Initial(c, q), k).decodeQ, Tickets(cfg, Initial(c, q), k));
  }

  /**
   And the prefill queue is, by priority and then by the number of the submission:
   what is left of the submissions in that order.
   */
  lemma PrefillHeadFirst(cfg: Config, c: Cache, rs: seq<Req>, k: nat) returns (tickets: seq<nat>)
    requires c.pageSize >= 1
    ensures IsSuffix(tickets, SubmitTickets(cfg, rs))
    ensures InOrder(Iterate(cfg, Initial(c, SubmitAll(cfg, rs)), k).prefillQ, tickets)
    ensures HeadFirst(Iterate(cfg, Initial(c, SubmitAll(cfg, rs)), k).prefillQ, tickets)
    ensures Holds(cfg, rs, Iterate(cfg, Initial(c, SubmitAll(cfg, rs)), k).prefillQ, tickets)
  {
    PrefillQueueIsRest(cfg, Initial(c, SubmitAll(cfg, rs)), k);
    tickets := RestHeadFirst(cfg, rs, Iterate(cfg, Initial(c, SubmitAll(cfg, rs)), k).prefillQ);
  }

  lemma RestHeadFirst(cfg: Config, rs: seq<Req>, q: seq<Req>) returns (tickets: seq<nat>)
    requires IsRest(q, SubmitAll(cfg, rs))
    ensures IsSuffix(tickets, SubmitTickets(cfg, rs))
    ensures InOrder(q, tickets) && HeadFirst(q, tickets) && Holds(cfg, rs, q, tickets)
  {
    var all, issued := SubmitAll(cfg, rs), SubmitTickets(cfg, rs);
    SubmissionsInOrder(cfg, rs);
    tickets := issued[|rs| - |q|..];
    RestInOrder(cfg, rs, q, all, issued);
    OrderHead(q, tickets);
  }

  ghost predicate IsSuffix(s: seq<nat>, t: seq<nat>) { |s| <= |t| && s == t[|t| - |s|..] }

  /** A decode step works on the head of its queue, and on no other request. */
  lemma DecodeServesHead(cfg: Config, s: Rt)
    requires s.cache.pageSize >= 1 && s.stage.Decoding? && s.stage.slots > 0 && s.decodeQ != []
    ensures var n, o := Step(cfg, s), DecodeOne(cfg, s.cache, s.decodeQ[0]);
      if o.Decoded? then n.decodeQ == s.decodeQ[1..] && n.batch == s.batch + [(o.req, o.trace)] else n.stage.Raised?
  {
    StepIsDecode(cfg, s);
  }

  /** So does a prefill step. */
  lemma PrefillServesHead(cfg: Config, s: Rt)
    requires s.cache.pageSize >= 1 && s.stage.Prefilling? && s.prefillQ != []
    ensures var n, o := Step(cfg, s), PrefillOne(cfg, s.cache, s.prefillQ[0]);
      if o.Prefilled? then n.prefillQ == s.prefillQ[1..] && n.prefilled == s.prefilled + [o.req] else n.stage.Raised?
  {}
}
