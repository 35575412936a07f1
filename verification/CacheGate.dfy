/** The gate key of a request (cache_route.go:44-60): the sorted cache keys of its candidates, joined. The
    digest taken of the joined text is an opaque identifier, so the text itself stands for it. */
module CacheGate {
  import opened Base
  import opened Sorting

  /** Go's string order. */
  predicate LexLe(a: string, b: string) {
    if a == "" then true
    else if b == "" then false
    else if a[0] != b[0] then a[0] < b[0]
    else LexLe(a[1..], b[1..])
  }

  lemma {:induction false} LexTotal(a: string, b: string)
    ensures LexLe(a, b) || LexLe(b, a)
    ensures LexLe(a, b) && LexLe(b, a) ==> a == b
  {
    if a != "" && b != "" && a[0] == b[0] {
      LexTotal(a[1..], b[1..]);
      assert a == [a[0]] + a[1..] && b == [b[0]] + b[1..];
    }
  }

  lemma {:induction false} LexTransitive(a: string, b: string, c: string)
    requires LexLe(a, b) && LexLe(b, c)
    ensures LexLe(a, c)
  {
    if a != "" && b != "" && c != "" && a[0] == b[0] == c[0] {
      LexTransitive(a[1..], b[1..], c[1..]);
    }
  }

  lemma LexOrder()
    ensures TotalOrder(LexLe)
  {
    forall a: string, b: string
      ensures LexLe(a, b) || LexLe(b, a)
      ensures LexLe(a, b) && LexLe(b, a) ==> a == b
    {
      LexTotal(a, b);
    }
    forall a: string, b: string, c: string | LexLe(a, b) && LexLe(b, c)
      ensures LexLe(a, c)
    {
      LexTransitive(a, b, c);
    }
  }

  function Join(keys: seq<string>): string
    requires keys != []
  {
    if |keys| == 1 then keys[0] else keys[0] + ":" + Join(keys[1..])
  }

  /** No gate for a request without candidates or with an input that is not cacheable. */
  function GateKey(keys: seq<string>): Option<string> {
    if keys == [] || "" in keys then None else Some(Join(Sorted(keys, LexLe)))
  }

  /** The loop that collects the keys. */
  method CacheLock(candidates: seq<string>) returns (gate: Option<string>)
    ensures gate == GateKey(candidates)
  {
    var keys: seq<string> := [];
    for i := 0 to |candidates|
      invariant keys == candidates[..i] && "" !in keys
    {
      if candidates[i] == "" {
        return None;
      }
      keys := keys + [candidates[i]];
    }
    if |keys| == 0 {
      return None;
    }
    assert keys == candidates;
    return Some(Join(Sorted(keys, LexLe)));
  }

  predicate Plain(key: string) {
    ':' !in key
  }

  /** The text before the first colon. */
  function Head(text: string): string {
    if text == "" || text[0] == ':' then "" else [text[0]] + Head(text[1..])
  }

  lemma {:induction false} HeadOf(x: string, r: string)
    requires Plain(x) && (r == "" || r[0] == ':')
    ensures Head(x + r) == x
  {
    if x == "" {
      assert x + r == r;
    } else {
      assert (x + r)[1..] == x[1..] + r;
      HeadOf(x[1..], r);
    }
  }

  function Tail(keys: seq<string>): string
    requires keys != []
  {
    if |keys| == 1 then "" else ":" + Join(keys[1..])
  }

  lemma JoinSplits(keys: seq<string>)
    requires keys != [] && Plain(keys[0])
    ensures Head(Join(keys)) == keys[0] && Join(keys)[|keys[0]|..] == Tail(keys)
  {
    assert Join(keys) == keys[0] + Tail(keys);
    HeadOf(keys[0], Tail(keys));
  }

  lemma {:induction false} JoinInjective(a: seq<string>, b: seq<string>)
    requires a != [] && b != [] && Join(a) == Join(b)
    requires forall k :: k in a || k in b ==> Plain(k)
    ensures a == b
  {
    JoinSplits(a);
    JoinSplits(b);
    assert Tail(a) == Tail(b);
    if |a| > 1 {
      assert Join(a[1..]) == Tail(a)[1..] == Join(b[1..]);
      JoinInjective(a[1..], b[1..]);
    }
    assert a == [a[0]] + a[1..] && b == [b[0]] + b[1..];
  }

  /** A request goes through no gate exactly when it has no candidate, or one whose input is not cacheable. */
  lemma NoGate(keys: seq<string>)
    ensures GateKey(keys).None? <==> |keys| == 0 || exists i :: 0 <= i < |keys| && |keys[i]| == 0
  {
    if "" in keys {
      var i :| 0 <= i < |keys| && keys[i] == "";
    }
  }

  /** Two cacheable requests meet at one gate exactly when they ask for the same keys, in whatever order
      their candidates are listed. */
  lemma SameGate(a: seq<string>, b: seq<string>)
    requires GateKey(a).Some? && GateKey(b).Some?
    requires forall k :: k in a || k in b ==> Plain(k)
    ensures GateKey(a) == GateKey(b) <==> multiset(a) == multiset(b)
  {
    LexOrder();
    SortedCanonical(a, b, LexLe);
    var sa, sb := Sorted(a, LexLe), Sorted(b, LexLe);
    if Join(sa) == Join(sb) {
      forall k | k in sa || k in sb
        ensures Plain(k)
      {
        assert k in multiset(sa) || k in multiset(sb);
        assert k in multiset(a) || k in multiset(b);
      }
      JoinInjective(sa, sb);
    }
  }
}
