/** Weighted choice by one random draw, as both the router and the cache lookup make it:
    walk the weights, subtracting each from the draw, and stop when it goes negative. */
module WeightedDraw {
  import opened Counting

  function Total(ws: seq<nat>): (t: nat) {
    if ws == [] then 0 else Total(ws[..|ws| - 1]) + ws[|ws| - 1]
  }

  /** Member j owns the draws from the sum of the weights before it up to that sum plus its own. */
  predicate Owns(ws: seq<nat>, j: nat, draw: int)
    requires j < |ws|
  {
    Total(ws[..j]) <= draw < Total(ws[..j + 1])
  }

  lemma TotalStep(ws: seq<nat>, j: nat)
    requires j < |ws|
    ensures Total(ws[..j + 1]) == Total(ws[..j]) + ws[j]
  {
    assert ws[..j + 1][..j] == ws[..j];
  }

  lemma {:induction false} TotalMonotone(ws: seq<nat>, i: nat, j: nat)
    requires i <= j <= |ws|
    ensures Total(ws[..i]) <= Total(ws[..j])
    decreases j
  {
    if i < j {
      TotalStep(ws, j - 1);
      TotalMonotone(ws, i, j - 1);
    }
  }

  lemma OwnerUnique(ws: seq<nat>, i: nat, j: nat, draw: int)
    requires i < |ws| && j < |ws| && Owns(ws, i, draw) && Owns(ws, j, draw)
    ensures i == j
  {
    if i < j {
      TotalMonotone(ws, i + 1, j);
    } else if j < i {
      TotalMonotone(ws, j + 1, i);
    }
  }

  /** The loop of the source: default to the first member, subtract weights until negative. */
  method Choose(ws: seq<nat>, draw: int) returns (chosen: nat)
    requires 0 <= draw < Total(ws)
    ensures chosen < |ws| && Owns(ws, chosen, draw)
  {
    chosen := 0;
    var pick := draw;
    assert ws[..|ws|] == ws;
    for i := 0 to |ws|
      invariant pick == draw - Total(ws[..i]) && 0 <= pick
    {
      TotalStep(ws, i);
      pick := pick - ws[i];
      if pick < 0 {
        return i;
      }
    }
    assert false;
  }

  /** The member that owns the draw: every draw below the total has one, so the default choice
      of the loop is never used as a fallback. */
  function Owner(ws: seq<nat>, draw: int): (j: nat)
    requires 0 <= draw < Total(ws)
    ensures j < |ws| && Owns(ws, j, draw)
    decreases |ws|
  {
    var last := |ws| - 1;
    assert ws[..last + 1] == ws;
    if Total(ws[..last]) <= draw then last
    else
      var j := Owner(ws[..last], draw);
      assert ws[..last][..j] == ws[..j] && ws[..last][..j + 1] == ws[..j + 1];
      j
  }

  /** The draws that choose member j. */
  ghost function DrawsFor(ws: seq<nat>, j: nat): set<int> {
    set d | d in Interval(0, Total(ws)) && Owner(ws, d) == j
  }

  /** Each member is chosen by exactly as many of the possible draws as its weight. */
  lemma DrawShare(ws: seq<nat>, j: nat)
    requires j < |ws|
    ensures |DrawsFor(ws, j)| == ws[j]
  {
    var lo, hi := Total(ws[..j]), Total(ws[..j + 1]);
    TotalStep(ws, j);
    TotalMonotone(ws, j + 1, |ws|);
    assert ws[..|ws|] == ws;
    forall d | d in Interval(0, Total(ws))
      ensures Owner(ws, d) == j <==> lo <= d < hi
    {
      if lo <= d < hi {
        OwnerUnique(ws, j, Owner(ws, d), d);
      }
    }
    assert DrawsFor(ws, j) == Interval(lo, hi);
  }
}
