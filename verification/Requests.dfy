/** The operation request of internal/domain/operation.go, reduced to the fields that
    the queue, the locker and the executor look at, and the order in which requests
    are served. */
module Requests {

  type OpId = string
  type ProjectId = string

  /** `createdAt` is an instant; 0 is Go's zero time. */
  datatype Request = Request(id: OpId, project: ProjectId, priority: int, createdAt: int)

  /** The comparison of the heap: higher priority first, then the earlier instant. */
  predicate Less(a: Request, b: Request) {
    if a.priority != b.priority then a.priority > b.priority else a.createdAt < b.createdAt
  }

  /** The order promised to callers: `a` may be served before `b`. */
  predicate MayPrecede(a: Request, b: Request) {
    a.priority > b.priority || (a.priority == b.priority && a.createdAt <= b.createdAt)
  }

  /** `r` is one of the requests that should be served next. */
  ghost predicate Best(r: Request, pending: multiset<Request>) {
    r in pending && forall x | x in pending :: !Less(x, r)
  }

  /** `out` is what repeatedly serving a best request until none is left can produce. */
  ghost predicate Drains(pending: multiset<Request>, out: seq<Request>) {
    if out == [] then pending == multiset{}
    else Best(out[0], pending) && Drains(pending - multiset{out[0]}, out[1..])
  }

  /** Priority descending and, within a priority, time ascending. */
  ghost predicate Ordered(out: seq<Request>) {
    out == [] || ((forall x | x in out[1..] :: MayPrecede(out[0], x)) && Ordered(out[1..]))
  }

  lemma MultisetHead<T>(s: seq<T>)
    requires s != []
    ensures multiset(s) == multiset{s[0]} + multiset(s[1..])
  {
    assert s == [s[0]] + s[1..];
  }

  lemma BestLeads(pending: multiset<Request>, first: Request, rest: seq<Request>)
    requires pending == multiset{first} + multiset(rest)
    ensures Best(first, pending) <==> forall x | x in rest :: MayPrecede(first, x)
  {
    assert first in pending;
    forall x | x in rest ensures x in pending {
      assert x in multiset(rest);
    }
    forall x | x in pending ensures x == first || x in rest {
      assert x in multiset{first} || x in multiset(rest);
    }
  }

  lemma RemoveThenAdd<T>(pending: multiset<T>, x: T, rest: multiset<T>)
    requires x in pending
    ensures pending - multiset{x} == rest <==> pending == multiset{x} + rest
  {
  }

  /** Draining serves every pending request exactly once, in the promised order, and
      every such order is a possible drain. */
  lemma {:induction false} DrainsIffOrdered(pending: multiset<Request>, out: seq<Request>)
    ensures Drains(pending, out) <==> multiset(out) == pending && Ordered(out)
    decreases |out|
  {
    if out != [] {
      var first, rest := out[0], out[1..];
      MultisetHead(out);
      DrainsIffOrdered(pending - multiset{first}, rest);
      if first in pending {
        RemoveThenAdd(pending, first, multiset(rest));
        if pending == multiset{first} + multiset(rest) {
          BestLeads(pending, first, rest);
        }
      }
    }
  }

  /** The requests of one priority, in the order in which they occur. */
  function OfPriority(s: seq<Request>, p: int): (r: seq<Request>)
    ensures forall x | x in r :: x in s && x.priority == p
  {
    if s == [] then []
    else if s[0].priority == p then [s[0]] + OfPriority(s[1..], p)
    else OfPriority(s[1..], p)
  }

  lemma {:induction false} OfPriorityCount(s: seq<Request>, p: int, x: Request)
    ensures multiset(OfPriority(s, p))[x] == if x.priority == p then multiset(s)[x] else 0
  {
    if s != [] {
      MultisetHead(s);
      OfPriorityCount(s[1..], p, x);
    }
  }

  ghost predicate TimesIncrease(s: seq<Request>) {
    s == [] || ((forall x | x in s[1..] :: s[0].createdAt < x.createdAt) && TimesIncrease(s[1..]))
  }

  ghost predicate TimesAscend(s: seq<Request>) {
    s == [] || ((forall x | x in s[1..] :: s[0].createdAt <= x.createdAt) && TimesAscend(s[1..]))
  }

  lemma {:induction false} OfPriorityAscends(s: seq<Request>, p: int)
    requires Ordered(s)
    ensures TimesAscend(OfPriority(s, p))
  {
    if s != [] {
      OfPriorityAscends(s[1..], p);
      if s[0].priority == p {
        assert OfPriority(s, p)[1..] == OfPriority(s[1..], p);
      }
    }
  }

  lemma InHeadOrTail<T>(s: seq<T>, x: T)
    requires x in s
    ensures x == s[0] || x in s[1..]
  {
  }

  /** An ascending sequence with the elements of a strictly increasing one is that one. */
  lemma {:induction false} AscendingIsUnique(a: seq<Request>, b: seq<Request>)
    requires TimesAscend(a) && TimesIncrease(b) && multiset(a) == multiset(b)
    ensures a == b
    decreases |a|
  {
    if a == [] {
      assert |multiset(b)| == |b| == 0;
    } else {
      assert a[0] in multiset(b);
      assert b[0] in multiset(a);
      InHeadOrTail(b, a[0]);
      InHeadOrTail(a, b[0]);
      assert a[0] == b[0];
      MultisetHead(a);
      MultisetHead(b);
      assert multiset(a[1..]) == multiset(a) - multiset{a[0]};
      AscendingIsUnique(a[1..], b[1..]);
      assert a == [a[0]] + a[1..] && b == [b[0]] + b[1..];
    }
  }

  /** First in, first out within a priority: when the requests of a priority arrive with strictly
      increasing timestamps, draining serves them in their order of arrival. */
  lemma FifoWithinPriority(arrivals: seq<Request>, out: seq<Request>, p: int)
    requires TimesIncrease(OfPriority(arrivals, p)) && Drains(multiset(arrivals), out)
    ensures OfPriority(out, p) == OfPriority(arrivals, p)
  {
    DrainsIffOrdered(multiset(arrivals), out);
    OfPriorityAscends(out, p);
    forall x: Request
      ensures multiset(OfPriority(out, p))[x] == multiset(OfPriority(arrivals, p))[x]
    {
      OfPriorityCount(out, p, x);
      OfPriorityCount(arrivals, p, x);
    }
    assert multiset(OfPriority(out, p)) == multiset(OfPriority(arrivals, p));
    AscendingIsUnique(OfPriority(out, p), OfPriority(arrivals, p));
  }
}
