/** The pool of io loops: whom the k-th connection goes to, and how evenly the loops are loaded. */
module ThreadPoolSpec {
  type Loop = nat

  /** `next` is the index of the loop the next connection goes to. */
  datatype Pool = Pool(base: Loop, loops: seq<Loop>, next: nat) {
    ghost predicate Valid() {
      next < |loops| || (loops == [] && next == 0)
    }
  }

  /** The loop get_next_loop returns, and the pool it leaves. */
  function Chosen(p: Pool): Loop
    requires p.Valid()
  {
    if p.loops == [] then p.base else p.loops[p.next]
  }

  function Advance(p: Pool): (r: Pool)
    requires p.Valid()
    ensures r.Valid()
  {
    if p.loops == [] then p else if p.next + 1 >= |p.loops| then p.(next := 0) else p.(next := p.next + 1)
  }

  /** The pool after `k` connections. */
  function AfterAll(p: Pool, k: nat): (r: Pool)
    requires p.Valid()
    ensures r.Valid()
  {
    if k == 0 then p else Advance(AfterAll(p, k - 1))
  }

  /** The loops the next `k` connections go to. */
  function Assigned(p: Pool, k: nat): (r: seq<Loop>)
    requires p.Valid()
    ensures |r| == k
  {
    if k == 0 then [] else Assigned(p, k - 1) + [Chosen(AfterAll(p, k - 1))]
  }

  /** How many connections of `a` went to loop `l`. */
  function Load(a: seq<Loop>, l: Loop): nat {
    if a == [] then 0 else Load(a[..|a| - 1], l) + if a[|a| - 1] == l then 1 else 0
  }

  lemma LaterIsLarger(q: nat, d: nat, n: nat, r: nat)
    requires d > 0 && r < n
    ensures (q + d) * n > q * n + r
  {
    assert (q + d) * n == q * n + d * n;
    assert d * n == n + (d - 1) * n;
  }

  lemma DivModIs(a: nat, n: nat, q: nat, r: nat)
    requires r < n && a == q * n + r
    ensures a / n == q && a % n == r
  {
    var p := a / n;
    assert a == p * n + a % n;
    if p < q {
      LaterIsLarger(p, q - p, n, a % n);
    } else if q < p {
      LaterIsLarger(q, p - q, n, r);
    }
  }

  /** One more moves on by one place, around the end. */
  lemma NextPlace(a: nat, n: nat)
    requires n > 0
    ensures (a + 1) % n == (if a % n + 1 == n then 0 else a % n + 1)
    ensures (a + 1) / n == (if a % n + 1 == n then a / n + 1 else a / n)
  {
    if a % n + 1 == n {
      assert a + 1 == (a / n + 1) * n;
      DivModIs(a + 1, n, a / n + 1, 0);
    } else {
      DivModIs(a + 1, n, a / n, a % n + 1);
    }
  }

  lemma {:induction false} RoundRobinNext(p: Pool, k: nat)
    requires p.Valid() && p.loops != []
    ensures AfterAll(p, k) == p.(next := (p.next + k) % |p.loops|)
  {
    if k > 0 {
      RoundRobinNext(p, k - 1);
      NextPlace(p.next + k - 1, |p.loops|);
    }
  }

  /** From any point on, the k-th connection goes to the k-th loop after `next`, around; without loops, to the base. */
  lemma {:induction false} RoundRobin(p: Pool, k: nat, i: nat)
    requires p.Valid() && i < k
    ensures Assigned(p, k)[i] == if p.loops == [] then p.base else p.loops[(p.next + i) % |p.loops|]
  {
    if i < k - 1 {
      RoundRobin(p, k - 1, i);
    } else if p.loops != [] {
      RoundRobinNext(p, k - 1);
    } else {
      BaseStays(p, k - 1);
    }
  }

  lemma {:induction false} BaseStays(p: Pool, k: nat)
    requires p.Valid() && p.loops == []
    ensures AfterAll(p, k) == p
  {
    if k > 0 {
      BaseStays(p, k - 1);
    }
  }

  ghost predicate Distinct(loops: seq<Loop>) {
    forall i, j :: 0 <= i < j < |loops| ==> loops[i] != loops[j]
  }

  /** How many connections pass before loop `i` is next. */
  function Wait(p: Pool, i: nat): (w: nat)
    requires p.Valid() && i < |p.loops|
    ensures w < |p.loops|
  {
    if p.next <= i then i - p.next else i + |p.loops| - p.next
  }

  /** `k` places on from `next`, around the end. */
  lemma Wraps(next: nat, k: nat, n: nat)
    requires next < n
    ensures (next + k) % n == if next + k % n < n then next + k % n else next + k % n - n
  {
    var q, r := k / n, k % n;
    assert k == q * n + r;
    if next + r < n {
      DivModIs(next + k, n, q, next + r);
    } else {
      assert (q + 1) * n == q * n + n;
      DivModIs(next + k, n, q + 1, next + r - n);
    }
  }

  lemma WaitEnds(p: Pool, k: nat, i: nat)
    requires p.Valid() && i < |p.loops|
    ensures (p.next + k) % |p.loops| == i <==> k % |p.loops| == Wait(p, i)
  {
    Wraps(p.next, k, |p.loops|);
  }

  /** The exact load of every loop after any number of connections, from any point on. */
  lemma {:induction false} ExactLoad(p: Pool, k: nat, i: nat)
    requires p.Valid() && Distinct(p.loops) && i < |p.loops|
    ensures Load(Assigned(p, k), p.loops[i]) == k / |p.loops| + if Wait(p, i) < k % |p.loops| then 1 else 0
  {
    var n := |p.loops|;
    if k == 0 {
      DivModIs(0, n, 0, 0);
    } else {
      ExactLoad(p, k - 1, i);
      NextPlace(k - 1, n);
      RoundRobinNext(p, k - 1);
      WaitEnds(p, k - 1, i);
      assert Assigned(p, k)[..k - 1] == Assigned(p, k - 1);
    }
  }

  /** No loop is ever ahead of another by more than one connection. */
  lemma FairAssignment(p: Pool, k: nat, i: nat, j: nat)
    requires p.Valid() && Distinct(p.loops) && i < |p.loops| && j < |p.loops|
    ensures Load(Assigned(p, k), p.loops[i]) <= Load(Assigned(p, k), p.loops[j]) + 1
  {
    ExactLoad(p, k, i);
    ExactLoad(p, k, j);
  }
}
