/** Ranked layers: integer bucket arithmetic and equal weights. */
module Layers {
  import opened Outcomes
  import opened Sums

  /** The zero-based layer of a rank. */
  function Bucket(rank: nat, layers: nat, count: nat): nat
    requires 0 < count
  {
    rank * layers / count
  }

  /** The first rank of a layer: the least rank with rank * layers >= layer * count. */
  function First(layer: nat, layers: nat, count: nat): nat
    requires 0 < layers
  {
    (layer * count + layers - 1) / layers
  }

  lemma QuotientBounds(a: nat, b: nat)
    requires 0 < b
    ensures a / b * b <= a < a / b * b + b
  {
  }

  lemma ProductStep(a: nat, b: nat, c: nat)
    requires a < b
    ensures a * c + c <= b * c
  {
    ProductAtLeast(a + 1, b, c);
    assert (a + 1) * c == a * c + c;
  }

  lemma {:induction false} ProductAtLeast(a: nat, b: nat, c: nat)
    requires a <= b
    ensures a * c <= b * c
    decreases b - a
  {
    if a < b {
      ProductAtLeast(a + 1, b, c);
      assert (a + 1) * c == a * c + c;
    }
  }

  /** The only quotient with the right bounds, stated without division. */
  lemma SameQuotient(p: nat, q: nat, a: nat, b: nat)
    requires p * b <= a < p * b + b && q * b <= a < q * b + b
    ensures p == q
  {
    if p < q {
      ProductStep(p, q, b);
    } else if q < p {
      ProductStep(q, p, b);
    }
  }

  lemma QuotientIs(a: nat, b: nat, q: nat)
    requires 0 < b && q * b <= a < q * b + b
    ensures a / b == q
  {
    QuotientBounds(a, b);
    SameQuotient(a / b, q, a, b);
  }

  /** A rank is at or past a layer's first rank exactly when its scaled rank reaches the layer. */
  lemma FirstIsLeast(layer: nat, layers: nat, count: nat, rank: nat)
    requires 0 < layers
    ensures First(layer, layers, count) <= rank <==> layer * count <= rank * layers
  {
    var x := layer * count;
    var f := First(layer, layers, count);
    QuotientBounds(x + layers - 1, layers);
    assert x <= f * layers < x + layers;
    if f < rank {
      ProductStep(f, rank, layers);
    } else if rank < f {
      ProductStep(rank, f, layers);
    }
  }

  /** A layer is the contiguous block of ranks from its first rank up to the next layer's first rank. */
  lemma LayerIsBlock(rank: nat, layers: nat, count: nat, layer: nat)
    requires 0 < layers && 0 < count && rank < count
    ensures Bucket(rank, layers, count) == layer <==>
      First(layer, layers, count) <= rank < First(layer + 1, layers, count)
    ensures Bucket(rank, layers, count) < layers
  {
    FirstIsLeast(layer, layers, count, rank);
    FirstIsLeast(layer + 1, layers, count, rank);
    var x := rank * layers;
    QuotientBounds(x, count);
    assert (layer + 1) * count == layer * count + count;
    if layer * count <= x < layer * count + count {
      QuotientIs(x, count, layer);
    }
    ProductStep(rank, count, layers);
    SmallQuotient(x, count, layers);
  }

  lemma SmallQuotient(a: nat, b: nat, bound: nat)
    requires 0 < b && a < bound * b
    ensures a / b < bound
  {
    QuotientBounds(a, b);
    if bound <= a / b {
      ProductAtLeast(bound, a / b, b);
    }
  }

  lemma FirstEnds(layers: nat, count: nat)
    requires 0 < layers
    ensures First(0, layers, count) == 0 && First(layers, layers, count) == count
  {
    QuotientIs(layers - 1, layers, 0);
    QuotientIs(layers * count + layers - 1, layers, count);
  }

  lemma FirstBounds(layer: nat, layers: nat, count: nat)
    requires 0 < layers
    ensures layer * count <= First(layer, layers, count) * layers < layer * count + layers
  {
    QuotientBounds(layer * count + layers - 1, layers);
  }

  /**
   * Blocks cover all ranks, from zero up to the count, and with at least as many items as layers each has floor or
   * ceiling size.
   */
  lemma BlockSizes(layer: nat, layers: nat, count: nat)
    requires layer < layers
    ensures First(0, layers, count) == 0 && First(layers, layers, count) == count
    ensures var size := First(layer + 1, layers, count) - First(layer, layers, count);
      && count / layers <= size
      && (if count % layers == 0 then size == count / layers else size <= count / layers + 1)
      && (layers <= count ==> 1 <= size)
  {
    hide First;
    FirstEnds(layers, count);
    FirstBounds(layer, layers, count);
    FirstBounds(layer + 1, layers, count);
    assert (layer + 1) * count == layer * count + count;
    BlockGap(First(layer, layers, count), First(layer + 1, layers, count), count / layers, count % layers, layers,
      layer * count);
    if layers <= count {
      QuotientPositive(count, layers);
    }
  }

  lemma QuotientPositive(a: nat, b: nat)
    requires 0 < b <= a
    ensures 1 <= a / b
  {
    QuotientBounds(a, b);
  }

  lemma BlockGap(f: nat, g: nat, q: nat, r: nat, layers: nat, x: nat)
    requires r < layers && x <= f * layers < x + layers
    requires x + (q * layers + r) <= g * layers < x + (q * layers + r) + layers
    ensures q <= g - f <= q + 1
    ensures r == 0 ==> g - f == q
  {
    assert (f + q) * layers == f * layers + q * layers;
    assert (f + q + 1) * layers == (f + q) * layers + layers;
    if g < f + q {
      ProductStep(g, f + q, layers);
    } else if f + q + 1 < g {
      ProductStep(f + q + 1, g, layers);
    }
  }

  /** The ranks of a layer, in rank order. */
  function Members(layer: nat, layers: nat, count: nat, upto: nat): seq<nat>
    requires 0 < count
  {
    if upto == 0 then []
    else Members(layer, layers, count, upto - 1) + (if Bucket(upto - 1, layers, count) == layer then [upto - 1] else [])
  }

  lemma {:induction false} MembersCount(layer: nat, layers: nat, count: nat, upto: nat)
    requires 0 < layers && 0 < count && upto <= count
    ensures var f, g := First(layer, layers, count), First(layer + 1, layers, count);
      |Members(layer, layers, count, upto)|
        == (if upto <= f then 0 else if upto <= g then upto - f else if g < f then 0 else g - f)
    ensures First(layer, layers, count) <= First(layer + 1, layers, count)
    ensures var members := Members(layer, layers, count, upto);
      forall i :: 0 <= i < |members| ==> members[i] == First(layer, layers, count) + i
  {
    FirstGrows(layer, layers, count);
    if upto != 0 {
      MembersCount(layer, layers, count, upto - 1);
      LayerIsBlock(upto - 1, layers, count, layer);
    }
  }

  /**
   * In cross-multiplied form: exactly the ranks whose share of all ranks falls into the layer's share of all layers.
   */
  lemma {:induction false} MembersAre(layer: nat, layers: nat, count: nat, upto: nat, rank: nat)
    requires 0 < layers && 0 < count
    ensures rank in Members(layer, layers, count, upto) <==>
      rank < upto && layer * count <= rank * layers < (layer + 1) * count
  {
    if upto != 0 {
      MembersAre(layer, layers, count, upto - 1, rank);
      BucketIs(upto - 1, layers, count, layer);
    }
  }

  lemma BucketIs(rank: nat, layers: nat, count: nat, layer: nat)
    requires 0 < count
    ensures Bucket(rank, layers, count) == layer <==> layer * count <= rank * layers < (layer + 1) * count
  {
    var x := rank * layers;
    assert x == x / count * count + x % count;
    if layer * count <= x < (layer + 1) * count {
      QuotientOf(x, count, layer);
    }
  }

  lemma QuotientOf(x: nat, count: nat, q: nat)
    requires 0 < count && q * count <= x < (q + 1) * count
    ensures x / count == q
  {
    var p := x / count;
    assert x == p * count + x % count;
    assert p < q ==> (p + 1) * count <= q * count;
    assert q < p ==> (q + 1) * count <= p * count;
  }

  lemma FirstGrows(layer: nat, layers: nat, count: nat)
    requires 0 < layers
    ensures First(layer, layers, count) <= First(layer + 1, layers, count)
  {
    FirstIsLeast(layer, layers, count, First(layer + 1, layers, count));
    FirstIsLeast(layer + 1, layers, count, First(layer + 1, layers, count));
    assert (layer + 1) * count == layer * count + count;
  }

  function Total(weights: seq<real>): real {
    if weights == [] then 0.0 else Total(weights[..|weights| - 1]) + weights[|weights| - 1]
  }

  lemma {:induction false} TotalOfEqual(weights: seq<real>, w: real)
    requires forall i :: 0 <= i < |weights| ==> weights[i] == w
    ensures Total(weights) == Times(|weights| as real, w)
  {
    hide Times;
    TimesAdd(0.0, 0.0, w);
    if weights != [] {
      var n := |weights| - 1;
      TotalOfEqual(weights[..n], w);
      TimesAdd(n as real, 1.0, w);
      assert n as real + 1.0 == |weights| as real;
    }
  }

  /** The selected items of one date and the common weight given to each. */
  method SelectLayer(count: nat, layer: int, layers: int, gross: real) returns (r: Result<(seq<nat>, seq<real>)>)
    ensures r.Err? <==> layers <= 0 || layer < 0 || layers <= layer || gross < 0.0 || 1.0 < gross || count < layers
    ensures r.Ok? ==>
      && r.value.0 == Members(layer, layers, count, count)
      && |r.value.1| == |r.value.0|
      && Total(r.value.1) == gross
      && (forall i, j :: 0 <= i < |r.value.1| && 0 <= j < |r.value.1| ==> r.value.1[i] == r.value.1[j])
  {
    if layers <= 0 || layer < 0 || layers <= layer || gross < 0.0 || 1.0 < gross || count < layers {
      return Err(InvalidInput);
    }
    var selected: seq<nat> := [];
    for rank := 0 to count
      invariant selected == Members(layer, layers, count, rank)
    {
      if Bucket(rank, layers, count) == layer {
        selected := selected + [rank];
      }
    }
    MembersCount(layer, layers, count, count);
    BlockSizes(layer, layers, count);
    FirstIsLeast(layer + 1, layers, count, count);
    ProductAtLeast(layer + 1, layers, count);
    var size := |selected| as real;
    var weight := gross / size;
    var weights := seq(|selected|, i requires 0 <= i < |selected| => weight);
    TotalOfEqual(weights, weight);
    assert Times(size, weight) == gross by {
      TimesDivide(gross, size);
    }
    return Ok((selected, weights));
  }
}
