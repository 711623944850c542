/** The timing algebra that the composition operators promise: what an await
    expression means, with no scheduler, token or handler in sight. The kernel
    modules prove that the event-driven machinery computes exactly this. */
module AwaitAlgebra {

  /** A point in simulated time, or no point at all. */
  datatype Instant = At(t: int) | Never

  predicate Le(a: Instant, b: Instant) {
    b.Never? || (a.At? && a.t <= b.t)
  }

  function Plus(a: Instant, d: nat): Instant {
    match a
    case At(t) => At(t + d)
    case Never => Never
  }

  function Later(a: Instant, b: Instant): Instant {
    if Le(a, b) then b else a
  }

  function Sooner(a: Instant, b: Instant): Instant {
    if Le(a, b) then a else b
  }

  /** The latest of `ts`, but no earlier than `floor`. */
  function Latest(ts: seq<Instant>, floor: Instant): Instant {
    if ts == [] then floor else Later(ts[0], Latest(ts[1..], floor))
  }

  /** The earliest of `ts`; nothing is earlier than never. */
  function Earliest(ts: seq<Instant>): Instant {
    if ts == [] then Never else Sooner(ts[0], Earliest(ts[1..]))
  }

  datatype Condition = AnyOf | AllOf

  /** Await expressions. Priorities only order events of the same time. */
  datatype Await =
    | Delay(d: nat, prio: int)
    | Until(t: int, prio: int)
    | Compose(cond: Condition, kids: seq<Await>, latency: nat, prio: int)
    | Sequential(kids: seq<Await>, start: nat, ret: nat, prio: int, retPrio: int)

  /** Awaiting `e` at time `n` does not suspend. */
  predicate ReadyAt(e: Await, n: int) {
    match e
    case Delay(_, _) => false
    case Until(t, _) => n >= t
    case Compose(AllOf, kids, _, _) => forall i | 0 <= i < |kids| :: ReadyAt(kids[i], n)
    case Compose(AnyOf, kids, _, _) => exists i | 0 <= i < |kids| :: ReadyAt(kids[i], n)
    case Sequential(_, _, _, _, _) => false
  }

  /** The time at which a process that awaits `e` at time `n` goes on. */
  function Denote(e: Await, n: int): Instant
    decreases e, 1
  {
    match e
    case Delay(d, _) => At(n + d)
    case Until(t, _) => At(if n >= t then n else t)
    case Compose(cond, kids, latency, _) =>
      if ReadyAt(e, n) then At(n)
      else
        var ts := DenoteEach(kids, n);
        Plus(if cond.AllOf? then Latest(ts, At(n)) else Earliest(ts), latency)
    case Sequential(kids, start, ret, _, _) =>
      Plus(Thread(kids, At(n + start)), ret)
  }

  /** The times of several awaits that all begin at `n`. */
  function DenoteEach(es: seq<Await>, n: int): (ts: seq<Instant>)
    ensures |ts| == |es|
    ensures forall i | 0 <= i < |es| :: ts[i] == Denote(es[i], n)
    decreases es, 0
  {
    if es == [] then [] else [Denote(es[0], n)] + DenoteEach(es[1..], n)
  }

  /** Awaiting `es` one after the other, the first one from `from` on. */
  function Thread(es: seq<Await>, from: Instant): Instant
    decreases es, 0
  {
    if es == [] || from.Never? then from
    else Thread(es[1..], Denote(es[0], from.t))
  }

  /** An await that is ready takes no time. */
  lemma ReadyTakesNoTime(e: Await, n: int)
    requires ReadyAt(e, n)
    ensures Denote(e, n) == At(n)
  {
  }

  lemma {:induction false} LatestBounds(ts: seq<Instant>, floor: Instant)
    ensures Le(floor, Latest(ts, floor))
    ensures forall t | t in ts :: Le(t, Latest(ts, floor))
    ensures Latest(ts, floor) == floor || Latest(ts, floor) in ts
  {
    if ts != [] {
      LatestBounds(ts[1..], floor);
      assert ts == [ts[0]] + ts[1..];
    }
  }

  lemma {:induction false} EarliestIsLeast(ts: seq<Instant>)
    ensures forall t | t in ts :: Le(Earliest(ts), t)
    ensures Earliest(ts).Never? || Earliest(ts) in ts
  {
    if ts != [] {
      EarliestIsLeast(ts[1..]);
      assert ts == [ts[0]] + ts[1..];
    }
  }

  /** No await finishes before it begins. */
  lemma {:induction false} DenoteInflates(e: Await, n: int)
    ensures Le(At(n), Denote(e, n))
    decreases e, 1
  {
    match e
    case Delay(_, _) =>
    case Until(_, _) =>
    case Compose(cond, kids, latency, _) =>
      var ts := DenoteEach(kids, n);
      LatestBounds(ts, At(n));
      forall i | 0 <= i < |kids|
        ensures Le(At(n), ts[i])
      {
        DenoteInflates(kids[i], n);
      }
      EarliestIsLeast(ts);
    case Sequential(kids, start, _, _, _) =>
      ThreadInflates(kids, At(n + start));
  }

  lemma {:induction false} ThreadInflates(es: seq<Await>, from: Instant)
    ensures Le(from, Thread(es, from))
    decreases es, 0
  {
    if es != [] && from.At? {
      DenoteInflates(es[0], from.t);
      ThreadInflates(es[1..], Denote(es[0], from.t));
    }
  }

  /** Awaiting a concatenation is awaiting its halves in turn. */
  lemma {:induction false} ThreadAppend(a: seq<Await>, b: seq<Await>, from: Instant)
    ensures Thread(a + b, from) == Thread(b, Thread(a, from))
  {
    if a == [] {
      assert a + b == b;
    } else if from.At? {
      assert (a + b)[0] == a[0] && (a + b)[1..] == a[1..] + b;
      ThreadAppend(a[1..], b, Denote(a[0], from.t));
    } else {
      assert a + b != [];
    }
  }
}
