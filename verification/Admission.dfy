/** In-flight request and body-byte admission (runtime.go:62-86). */
module Admission {
  import opened Base
  import opened Counting

  const MIB := 0x10_0000

  datatype Refusal = BodyTooLarge | CapacityExceeded

  datatype Load = Load(active: int, bytes: int)

  /** What a request is charged: an unknown length is charged at its limit. */
  function Charged(length: int, limit: int): int {
    if length < 0 then limit else length
  }

  function Admit(a: Load, concurrency: int, bodyMiB: int, length: int, limit: int): (Load, Option<Refusal>) {
    if length > limit then (a, Some(BodyTooLarge))
    else if a.active >= concurrency || a.bytes + Charged(length, limit) > bodyMiB * MIB then (a, Some(CapacityExceeded))
    else (Load(a.active + 1, a.bytes + Charged(length, limit)), None)
  }

  function Leave(a: Load, charged: int): Load {
    Load(a.active - 1, a.bytes - charged)
  }

  class BodyLease {
    const charged: int
    var done: bool

    constructor (charged: int)
      ensures this.charged == charged && !done
    {
      this.charged := charged;
      done := false;
    }
  }

  class RequestAdmission {
    var active: int
    var bytes: int
    const concurrency: int
    const bodyMiB: int

    function View(): Load
      reads this
    {
      Load(active, bytes)
    }

    constructor (concurrency: int, bodyMiB: int)
      ensures View() == Load(0, 0) && this.concurrency == concurrency && this.bodyMiB == bodyMiB
    {
      active, bytes := 0, 0;
      this.concurrency, this.bodyMiB := concurrency, bodyMiB;
    }

    method AcquireBody(length: int, limit: int) returns (refusal: Option<Refusal>, lease: BodyLease?)
      modifies this
      ensures (View(), refusal) == Admit(old(View()), concurrency, bodyMiB, length, limit)
      ensures refusal.None? <==> lease != null
      ensures lease != null ==> fresh(lease) && !lease.done && lease.charged == Charged(length, limit)
    {
      if length > limit {
        return Some(BodyTooLarge), null;
      }
      var charged := length;
      if charged < 0 {
        charged := limit;
      }
      if active >= concurrency || bytes + charged > bodyMiB * MIB {
        return Some(CapacityExceeded), null;
      }
      active := active + 1;
      bytes := bytes + charged;
      lease := new BodyLease(charged);
      refusal := None;
    }

    method ReleaseBody(lease: BodyLease)
      modifies this, lease`done
      ensures lease.done
      ensures View() == if old(lease.done) then old(View()) else Leave(old(View()), lease.charged)
    {
      if !lease.done {
        lease.done := true;
        active := active - 1;
        bytes := bytes - lease.charged;
      }
    }
  }

  // ---------- Runs ----------

  /** A request body: its declared length, negative when unknown, and the most that will be read of it. */
  datatype Body = Body(length: int, limit: int)

  datatype World = World(load: Load, inFlight: seq<Body>)

  datatype Step = Arrive(body: Body) | Depart(k: nat)

  function Next(w: World, concurrency: int, bodyMiB: int, s: Step): World {
    match s
    case Arrive(b) =>
      var (load, refusal) := Admit(w.load, concurrency, bodyMiB, b.length, b.limit);
      World(load, if refusal.None? then w.inFlight + [b] else w.inFlight)
    case Depart(k) =>
      if k < |w.inFlight| then
        World(Leave(w.load, Charged(w.inFlight[k].length, w.inFlight[k].limit)), Without(w.inFlight, k))
      else w
  }

  function Run(concurrency: int, bodyMiB: int, steps: seq<Step>): World {
    if steps == [] then World(Load(0, 0), [])
    else Next(Run(concurrency, bodyMiB, steps[..|steps| - 1]), concurrency, bodyMiB, steps[|steps| - 1])
  }

  /** The most bytes a body can turn out to have. */
  function Largest(): Body -> int {
    (b: Body) => if 0 <= b.length then b.length else b.limit
  }

  predicate Limited(s: Step) {
    s.Arrive? ==> 0 <= s.body.limit
  }

  /** Conservation over any run with non-negative limits: the counters are exactly what is in flight,
      within both capacities. */
  lemma {:induction false} LoadIsConserved(concurrency: int, bodyMiB: int, steps: seq<Step>)
    requires 0 <= concurrency && 0 <= bodyMiB && forall k :: 0 <= k < |steps| ==> Limited(steps[k])
    ensures var w := Run(concurrency, bodyMiB, steps);
            w.load.active == |w.inFlight| <= concurrency
            && w.load.bytes == Sum(w.inFlight, Largest()) <= bodyMiB * MIB
            && forall k :: 0 <= k < |w.inFlight| ==> Max(0, w.inFlight[k].length) <= w.inFlight[k].limit
  {
    if steps != [] {
      var w, s := Run(concurrency, bodyMiB, steps[..|steps| - 1]), steps[|steps| - 1];
      LoadIsConserved(concurrency, bodyMiB, steps[..|steps| - 1]);
      match s
      case Arrive(b) => SumLast(w.inFlight, b, Largest());
      case Depart(k) => if k < |w.inFlight| { SumWithout(w.inFlight, k, Largest()); }
    }
  }

  /** Sizes the bodies may turn out to have: as declared, or anything up to the limit. */
  ghost predicate Possible(sizes: seq<int>, bodies: seq<Body>) {
    |sizes| == |bodies|
    && forall i :: 0 <= i < |sizes| ==>
         if 0 <= bodies[i].length then sizes[i] == bodies[i].length else 0 <= sizes[i] <= bodies[i].limit
  }

  function Bytes(): int -> int {
    (n: int) => n
  }

  lemma {:induction false} NoLarger(sizes: seq<int>, bodies: seq<Body>)
    requires Possible(sizes, bodies)
    ensures Sum(sizes, Bytes()) <= Sum(bodies, Largest())
  {
    if sizes != [] {
      NoLarger(sizes[..|sizes| - 1], bodies[..|bodies| - 1]);
    }
  }

  lemma {:induction false} AsLarge(bodies: seq<Body>) returns (sizes: seq<int>)
    requires forall i :: 0 <= i < |bodies| ==> 0 <= bodies[i].limit
    ensures Possible(sizes, bodies) && Sum(sizes, Bytes()) == Sum(bodies, Largest())
  {
    sizes := [];
    if bodies != [] {
      var front, last := bodies[..|bodies| - 1], bodies[|bodies| - 1];
      var before := AsLarge(front);
      sizes := before + [Largest()(last)];
      SumLast(before, Largest()(last), Bytes());
    }
  }

  /** Whatever sizes these bodies turn out to have, together they fit. */
  ghost predicate AlwaysFit(bodies: seq<Body>, room: int) {
    forall sizes :: Possible(sizes, bodies) ==> Sum(sizes, Bytes()) <= room
  }

  lemma FitsAtWorst(bodies: seq<Body>, room: int)
    requires forall i :: 0 <= i < |bodies| ==> 0 <= bodies[i].limit
    ensures AlwaysFit(bodies, room) <==> Sum(bodies, Largest()) <= room
  {
    var worst := AsLarge(bodies);
    forall sizes | Possible(sizes, bodies)
      ensures Sum(sizes, Bytes()) <= Sum(bodies, Largest())
    {
      NoLarger(sizes, bodies);
    }
  }

  /** The gate is neither too lax nor too strict: a body within its limit is admitted if and only if a place is free
      and, whatever sizes the bodies in flight and this one turn out to have, together they fit the memory set aside. */
  lemma AdmittedExactly(concurrency: int, bodyMiB: int, steps: seq<Step>, b: Body)
    requires 0 <= concurrency && 0 <= bodyMiB && (forall k :: 0 <= k < |steps| ==> Limited(steps[k])) && 0 <= b.limit
    ensures var w := Run(concurrency, bodyMiB, steps);
            Admit(w.load, concurrency, bodyMiB, b.length, b.limit).1
            == if b.length > b.limit then Some(BodyTooLarge)
               else if |w.inFlight| < concurrency && AlwaysFit(w.inFlight + [b], bodyMiB * 1_048_576) then None
               else Some(CapacityExceeded)
  {
    var w := Run(concurrency, bodyMiB, steps);
    LoadIsConserved(concurrency, bodyMiB, steps);
    SumLast(w.inFlight, b, Largest());
    FitsAtWorst(w.inFlight + [b], bodyMiB * 1_048_576);
  }
}
