/** The per-key mutex that lets identical requests wait for one leader (keyed_gate.go). Its entries are
    counted references, deleted when the last reference goes and created anew when the key returns.
    The five atomic steps of its goroutines are modelled; any number of requests interleave. */
module KeyedGate {
  import opened Base

  /** Registered and selecting on the semaphore; holding it; semaphore freed but reference not dropped. */
  datatype Stage = Waiting | Holding | Leaving

  datatype Claim<E> = Claim(key: string, entry: E, stage: Stage)

  /** The map, the occupied semaphores, the reference counts of every entry ever made, and the requests
      between registration and drop. Entries are compared by identity. */
  datatype Gate<E(==)> = Gate(entries: map<string, E>, full: set<E>, refs: map<E, int>, claims: map<int, Claim<E>>)

  datatype Step<E> =
    | Register(id: int, key: string, created: E)
    | Grant(id: int)
    | Cancel(id: int)
    | Free(id: int)
    | Drop(id: int)

  predicate Enabled<E>(g: Gate<E>, s: Step<E>) {
    match s
    case Register(id, key, created) => id !in g.claims && (key in g.entries || created !in g.refs)
    case Grant(id) => id in g.claims && g.claims[id].stage == Waiting && g.claims[id].entry !in g.full
    case Cancel(id) => id in g.claims && g.claims[id].stage == Waiting
    case Free(id) => id in g.claims && g.claims[id].stage == Holding
    case Drop(id) => id in g.claims && g.claims[id].stage == Leaving
  }

  function EntryFor<E>(g: Gate<E>, key: string, created: E): E {
    if key in g.entries then g.entries[key] else created
  }

  /** drop: the last reference deletes whatever the map holds under the key. */
  function Dropped<E>(g: Gate<E>, id: int): Gate<E>
    requires id in g.claims
  {
    var c := g.claims[id];
    var left := GetOr(g.refs, c.entry, 0) - 1;
    g.(refs := g.refs[c.entry := left],
       entries := if left == 0 then g.entries - {c.key} else g.entries,
       claims := g.claims - {id})
  }

  function Next<E>(g: Gate<E>, s: Step<E>): Gate<E> {
    if !Enabled(g, s) then g
    else
      match s
      case Register(id, key, created) =>
        var e := EntryFor(g, key, created);
        g.(entries := g.entries[key := e], refs := g.refs[e := GetOr(g.refs, e, 0) + 1],
           claims := g.claims[id := Claim(key, e, Waiting)])
      case Grant(id) =>
        g.(full := g.full + {g.claims[id].entry}, claims := g.claims[id := g.claims[id].(stage := Holding)])
      case Cancel(id) => Dropped(g, id)
      case Free(id) =>
        g.(full := g.full - {g.claims[id].entry}, claims := g.claims[id := g.claims[id].(stage := Leaving)])
      case Drop(id) => Dropped(g, id)
  }

  function Empty<E>(): Gate<E> {
    Gate(map[], {}, map[], map[])
  }

  function Run<E>(steps: seq<Step<E>>): Gate<E> {
    if steps == [] then Empty() else Next(Run(steps[..|steps| - 1]), steps[|steps| - 1])
  }

  /** The requests that refer to an entry: waiters, holders and those about to drop. */
  function Referrers<E>(g: Gate<E>, e: E): set<int> {
    set id | id in g.claims && g.claims[id].entry == e
  }

  lemma Referred<E>(g: Gate<E>, e: E) returns (id: int)
    requires |Referrers(g, e)| > 0
    ensures id in Referrers(g, e)
  {
    if forall x: int :: x !in Referrers(g, e) {
      NoMember(Referrers(g, e));
    }
    id :| id in Referrers(g, e);
  }

  lemma NoMember<T>(s: set<T>)
    requires forall x <- s :: false
    ensures |s| == 0
  {
    assert s == {};
  }

  predicate Holds<E>(g: Gate<E>, id: int) {
    id in g.claims && g.claims[id].stage == Holding
  }

  /** Every count is the number of requests referring to the entry. */
  ghost predicate Counted<E>(g: Gate<E>) {
    (forall e :: e in g.refs ==> g.refs[e] == |Referrers(g, e)|)
    && (forall id :: id in g.claims ==> g.claims[id].entry in g.refs)
  }

  /** A request's entry is the one in the map under its key, every mapped entry is referred to, and no entry
      stands under two keys. */
  ghost predicate Filed<E>(g: Gate<E>) {
    (forall id :: id in g.claims ==> g.claims[id].key in g.entries && g.entries[g.claims[id].key] == g.claims[id].entry)
    && (forall k :: k in g.entries ==> g.entries[k] in g.refs && g.refs[g.entries[k]] > 0)
    && (forall k1, k2 :: k1 in g.entries && k2 in g.entries && g.entries[k1] == g.entries[k2] ==> k1 == k2)
  }

  /** A semaphore is occupied exactly while one request holds its entry. */
  ghost predicate Exclusive<E>(g: Gate<E>) {
    (forall e :: e in g.full ==> exists id :: Holds(g, id) && g.claims[id].entry == e)
    && (forall id :: Holds(g, id) ==> g.claims[id].entry in g.full)
    && (forall i, j :: Holds(g, i) && Holds(g, j) && g.claims[i].entry == g.claims[j].entry ==> i == j)
  }

  ghost predicate GateOk<E>(g: Gate<E>) {
    Counted(g) && Filed(g) && Exclusive(g)
  }

  /** Holding requests that stay the same keep the semaphores exclusive. */
  lemma ExclusiveKept<E>(g: Gate<E>, g': Gate<E>)
    requires Exclusive(g) && g'.full == g.full
    requires forall id :: Holds(g, id) ==> Holds(g', id) && g'.claims[id].entry == g.claims[id].entry
    requires forall id :: Holds(g', id) ==> Holds(g, id)
    ensures Exclusive(g')
  {
    forall e | e in g'.full
      ensures exists id :: Holds(g', id) && g'.claims[id].entry == e
    {
      var id :| Holds(g, id) && g.claims[id].entry == e;
      assert Holds(g', id);
    }
  }

  lemma RegisterKeepsCounts<E>(g: Gate<E>, g': Gate<E>, id: int, c: Claim<E>)
    requires Counted(g) && id !in g.claims
    requires g'.claims == g.claims[id := c] && g'.refs == g.refs[c.entry := GetOr(g.refs, c.entry, 0) + 1]
    ensures Counted(g')
  {
    var e := c.entry;
    assert g'.refs[e] == |Referrers(g', e)| by {
      assert Referrers(g', e) == Referrers(g, e) + {id};
      if |Referrers(g, e)| > 0 {
        var other := Referred(g, e);
        assert g.claims[other].entry in g.refs;
      }
    }
    forall other | other in g'.refs && other != e
      ensures g'.refs[other] == |Referrers(g', other)|
    {
      assert Referrers(g', other) == Referrers(g, other);
    }
  }

  lemma RegisterKeepsFiling<E>(g: Gate<E>, id: int, key: string, created: E)
    requires Counted(g) && Filed(g) && Enabled(g, Register(id, key, created))
    ensures Filed(Next(g, Register(id, key, created)))
  {
    var g' := Next(g, Register(id, key, created));
    var e := EntryFor(g, key, created);
    assert GetOr(g.refs, e, 0) >= 0;
    assert g'.refs[e] > 0;
    if key !in g.entries {
      assert forall k :: k in g.entries ==> g.entries[k] != e;
    }
  }

  lemma RegisterKeepsGate<E>(g: Gate<E>, id: int, key: string, created: E)
    requires GateOk(g) && Enabled(g, Register(id, key, created))
    ensures GateOk(Next(g, Register(id, key, created)))
  {
    RegisterKeepsCounts(g, Next(g, Register(id, key, created)), id, Claim(key, EntryFor(g, key, created), Waiting));
    RegisterKeepsFiling(g, id, key, created);
    ExclusiveKept(g, Next(g, Register(id, key, created)));
  }

  /** Taking or freeing a semaphore touches no count and no map entry. */
  lemma StageKeepsFiling<E>(g: Gate<E>, id: int, stage: Stage, full: set<E>)
    requires Counted(g) && Filed(g) && id in g.claims
    ensures var g' := g.(full := full, claims := g.claims[id := g.claims[id].(stage := stage)]);
            Counted(g') && Filed(g')
  {
    var g' := g.(full := full, claims := g.claims[id := g.claims[id].(stage := stage)]);
    forall other | other in g'.refs
      ensures g'.refs[other] == |Referrers(g', other)|
    {
      assert Referrers(g', other) == Referrers(g, other);
    }
  }

  lemma GrantKeepsGate<E>(g: Gate<E>, id: int)
    requires GateOk(g) && Enabled(g, Grant(id))
    ensures GateOk(Next(g, Grant(id)))
  {
    var g' := Next(g, Grant(id));
    var e := g.claims[id].entry;
    StageKeepsFiling(g, id, Holding, g.full + {e});
    assert Holds(g', id);
    assert forall h :: h != id ==> (Holds(g', h) <==> Holds(g, h));
    forall f | f in g'.full
      ensures exists h :: Holds(g', h) && g'.claims[h].entry == f
    {
      if f != e {
        var h :| Holds(g, h) && g.claims[h].entry == f;
        assert Holds(g', h);
      }
    }
  }

  lemma FreeKeepsGate<E>(g: Gate<E>, id: int)
    requires GateOk(g) && Enabled(g, Free(id))
    ensures GateOk(Next(g, Free(id)))
  {
    var g' := Next(g, Free(id));
    var e := g.claims[id].entry;
    StageKeepsFiling(g, id, Leaving, g.full - {e});
    assert Holds(g, id) && !Holds(g', id);
    assert forall h :: h != id ==> (Holds(g', h) <==> Holds(g, h));
    forall f | f in g'.full
      ensures exists h :: Holds(g', h) && g'.claims[h].entry == f
    {
      var h :| Holds(g, h) && g.claims[h].entry == f;
      assert Holds(g', h);
    }
  }

  lemma DropKeepsCounts<E>(g: Gate<E>, id: int)
    requires Counted(g) && id in g.claims
    ensures Counted(Dropped(g, id))
  {
    var g' := Dropped(g, id);
    var e := g.claims[id].entry;
    assert id in Referrers(g, e);
    assert Referrers(g', e) == Referrers(g, e) - {id};
    forall other | other in g'.refs && other != e
      ensures g'.refs[other] == |Referrers(g', other)|
    {
      assert Referrers(g', other) == Referrers(g, other);
    }
  }

  /** The last reference deletes the key's map entry, and it is this request's own entry that it deletes. */
  lemma DropKeepsFiling<E>(g: Gate<E>, id: int)
    requires Counted(g) && Filed(g) && id in g.claims && Counted(Dropped(g, id))
    ensures Filed(Dropped(g, id))
  {
    var g' := Dropped(g, id);
    var c := g.claims[id];
    forall h | h in g'.claims
      ensures g'.claims[h].key in g'.entries && g'.entries[g'.claims[h].key] == g'.claims[h].entry
    {
      if g'.claims[h].key == c.key {
        assert h in Referrers(g', c.entry);
      }
    }
    forall k | k in g'.entries
      ensures g'.entries[k] in g'.refs && g'.refs[g'.entries[k]] > 0
    {
      if g.entries[k] == c.entry {
        assert k == c.key;
        assert g'.refs[c.entry] == |Referrers(g', c.entry)|;
      }
    }
  }

  lemma DropKeepsGate<E>(g: Gate<E>, id: int)
    requires GateOk(g) && id in g.claims && !Holds(g, id)
    ensures GateOk(Dropped(g, id))
  {
    DropKeepsCounts(g, id);
    DropKeepsFiling(g, id);
    ExclusiveKept(g, Dropped(g, id));
  }

  lemma {:induction false} GateAlwaysOk<E>(steps: seq<Step<E>>)
    ensures GateOk(Run(steps))
  {
    if steps != [] {
      var g, s := Run(steps[..|steps| - 1]), steps[|steps| - 1];
      GateAlwaysOk(steps[..|steps| - 1]);
      if Enabled(g, s) {
        match s
        case Register(id, key, created) => RegisterKeepsGate(g, id, key, created);
        case Grant(id) => GrantKeepsGate(g, id);
        case Free(id) => FreeKeepsGate(g, id);
        case Cancel(id) => DropKeepsGate(g, id);
        case Drop(id) => DropKeepsGate(g, id);
      }
    }
  }

  /** Mutual exclusion per key, in every interleaving, even across deletion and re-creation of the
      key's entry. */
  lemma OneHolderPerKey<E>(steps: seq<Step<E>>, i: int, j: int)
    requires var g := Run(steps); Holds(g, i) && Holds(g, j) && g.claims[i].key == g.claims[j].key
    ensures i == j
  {
    GateAlwaysOk(steps);
  }

  /** Reference counts are exactly the live requests of an entry, and an entry is in the map exactly while
      it has any; with nobody live the map is empty. */
  lemma EntriesAreLive<E>(steps: seq<Step<E>>, e: E)
    requires e in Run(steps).refs
    ensures var g := Run(steps);
            g.refs[e] == |Referrers(g, e)|
            && (e in g.entries.Values <==> g.refs[e] > 0)
            && (g.claims == map[] ==> g.entries == map[])
  {
    GateAlwaysOk(steps);
    var g := Run(steps);
    if g.refs[e] > 0 {
      var id := Referred(g, e);
      assert g.entries[g.claims[id].key] == e;
    }
    if g.claims == map[] {
      forall f
        ensures |Referrers(g, f)| == 0
      {
        NoMember(Referrers(g, f));
      }
      assert forall k :: k !in g.entries;
    }
  }

  /** Nobody waits in vain: a waiter can be granted exactly when no request holds its key. */
  lemma WaiterServedWhenFree<E>(steps: seq<Step<E>>, id: int)
    requires id in Run(steps).claims && Run(steps).claims[id].stage == Waiting
    ensures var g := Run(steps);
            Enabled(g, Grant(id)) <==> !exists h :: Holds(g, h) && g.claims[h].key == g.claims[id].key
  {
    GateAlwaysOk(steps);
    var g := Run(steps);
    var e := g.claims[id].entry;
    if h :| Holds(g, h) && g.claims[h].key == g.claims[id].key {
      assert g.claims[h].entry == e;
    }
    if e in g.full {
      var h :| Holds(g, h) && g.claims[h].entry == e;
      assert g.entries[g.claims[h].key] == g.entries[g.claims[id].key];
    }
  }

  class GateEntry {
    var occupied: bool
    var refs: int

    constructor ()
      ensures !occupied && refs == 0
    {
      occupied := false;
      refs := 0;
    }
  }

  /** The gate itself. A caller of acquire runs Register, then either Grant followed later by Free and Drop
      (its release), or Cancel. Which request is at which stage is ghost. */
  class Gatekeeper {
    var entries: map<string, GateEntry>
    ghost var made: set<GateEntry>
    ghost var claims: map<int, Claim<GateEntry>>

    ghost predicate Valid()
      reads this
    {
      (forall key :: key in entries ==> entries[key] in made)
      && (forall id :: id in claims ==> claims[id].entry in made)
    }

    ghost function View(): Gate<GateEntry>
      reads this, made
    {
      Gate(entries, set e | e in made && e.occupied, map e | e in made :: e.refs, claims)
    }

    constructor ()
      ensures Valid() && fresh(made) && View() == Empty()
    {
      entries, made, claims := map[], {}, map[];
    }

    method Register(ghost id: int, key: string) returns (e: GateEntry)
      requires Valid() && id !in claims
      modifies this, made
      ensures Valid() && fresh(made - old(made)) && id in claims && e == claims[id].entry
      ensures Enabled(old(View()), Step.Register(id, key, e))
      ensures View() == Next(old(View()), Step.Register(id, key, e))
    {
      if key in entries {
        e := entries[key];
      } else {
        e := new GateEntry();
        entries := entries[key := e];
        made := made + {e};
      }
      e.refs := e.refs + 1;
      claims := claims[id := Claim(key, e, Waiting)];
    }

    /** The send on the semaphore channel goes through. */
    method Grant(ghost id: int, e: GateEntry)
      requires Valid() && Enabled(View(), Step.Grant(id)) && e == claims[id].entry
      modifies this`claims, made
      ensures Valid() && View() == Next(old(View()), Step.Grant(id))
    {
      e.occupied := true;
      claims := claims[id := claims[id].(stage := Holding)];
    }

    /** The receive that starts a release. */
    method Free(ghost id: int, e: GateEntry)
      requires Valid() && Enabled(View(), Step.Free(id)) && e == claims[id].entry
      modifies this`claims, made
      ensures Valid() && View() == Next(old(View()), Step.Free(id))
    {
      e.occupied := false;
      claims := claims[id := claims[id].(stage := Leaving)];
    }

    /** Ends a cancelled wait and ends a release. */
    method Drop(ghost id: int, key: string, e: GateEntry)
      requires Valid() && id in claims && claims[id].stage != Holding && claims[id].key == key && claims[id].entry == e
      modifies this, made
      ensures Valid() && made == old(made)
      ensures View() == Next(old(View()), if old(claims)[id].stage == Waiting then Step.Cancel(id) else Step.Drop(id))
    {
      e.refs := e.refs - 1;
      if e.refs == 0 {
        entries := entries - {key};
      }
      claims := claims - {id};
    }
  }
}
