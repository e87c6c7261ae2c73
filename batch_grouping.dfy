/**
 The greedy, order-preserving grouping of emitted characters into batch
 descriptors (TextBatchRenderer.cpp, GenerateBatches). Each character takes
 six vertices; the k-th emitted character starts at vertex 6k. The first
 character, and every character whose atlas differs from the one before,
 opens a descriptor of six vertices; any other character grows the last
 descriptor by six.

 `Grouping` is that rule as a function of the stream of atlas ids. The
 lemmas show that its result is the run-length encoding of the stream:
 contiguous from offset 0, whole quads, adjacent descriptors on different
 atlases, expanding back to the stream, and the only list of descriptors
 with those properties.
 */
module BatchGrouping {
  import opened TextTypes

  /** Sum of the vertex counts of `bs`. */
  function VertexSum(bs: seq<Batch>): nat
  {
    if bs == [] then 0 else VertexSum(bs[..|bs| - 1]) + bs[|bs| - 1].numVertices
  }

  /** One character's step of the grouping: open a descriptor at `offset`, or grow the last one. */
  function Extend(bs: seq<Batch>, id: nat, offset: nat): seq<Batch>
  {
    if bs == [] || bs[|bs| - 1].fontAtlasId != id then
      bs + [Batch(offset, 6, id)]
    else
      bs[..|bs| - 1] + [bs[|bs| - 1].(numVertices := bs[|bs| - 1].numVertices + 6)]
  }

  /** The descriptors built for the atlas ids `ids` of the emitted characters, in order. */
  function Grouping(ids: seq<nat>): seq<Batch>
  {
    if ids == [] then []
    else Extend(Grouping(ids[..|ids| - 1]), ids[|ids| - 1], 6 * (|ids| - 1))
  }

  /** The atlas id of every character the descriptors cover, in vertex order. */
  function Expand(bs: seq<Batch>): seq<nat>
  {
    if bs == [] then []
    else Expand(bs[..|bs| - 1]) + Quads(bs[|bs| - 1].fontAtlasId, bs[|bs| - 1].numVertices)
  }

  /** One `id` per whole six-vertex quad of `n` vertices. */
  function Quads(id: nat, n: nat): (r: seq<nat>)
    ensures |r| == n / 6
  {
    if n < 6 then [] else Quads(id, n - 6) + [id]
  }

  /** The first descriptor starts at vertex 0 and each next one where the previous ends. */
  ghost predicate Contiguous(bs: seq<Batch>)
  {
    (bs != [] ==> bs[0].offset == 0) &&
    forall j, k {:trigger bs[j], bs[k]} :: 0 <= j < k < |bs| && k == j + 1 ==>
      bs[k].offset == bs[j].offset + bs[j].numVertices
  }

  /** Each descriptor covers at least one character, and only whole characters. */
  ghost predicate WholeQuads(bs: seq<Batch>)
  {
    forall k :: 0 <= k < |bs| ==> bs[k].numVertices > 0 && bs[k].numVertices % 6 == 0
  }

  /** No two neighbouring descriptors bind the same atlas. */
  ghost predicate Maximal(bs: seq<Batch>)
  {
    forall j, k {:trigger bs[j], bs[k]} :: 0 <= j < k < |bs| && k == j + 1 ==>
      bs[j].fontAtlasId != bs[k].fontAtlasId
  }

  /** The run-length encoding conditions together. */
  ghost predicate WellFormed(bs: seq<Batch>)
  {
    Contiguous(bs) && WholeQuads(bs) && Maximal(bs)
  }

  /**
   The same conditions read one descriptor at a time, from the end: the
   last descriptor starts where the others end, covers whole characters
   and differs in atlas from the one before it. `WellFormedIsChained`
   shows the two readings agree.
   */
  ghost predicate Chained(bs: seq<Batch>)
  {
    bs == [] ||
    var init, last := bs[..|bs| - 1], bs[|bs| - 1];
    Chained(init) && Fits(init, last)
  }

  /** `b` may follow `bs` in a chained list. */
  ghost predicate Fits(bs: seq<Batch>, b: Batch)
  {
    b.offset == VertexSum(bs) && b.numVertices > 0 && b.numVertices % 6 == 0 &&
    (bs != [] ==> bs[|bs| - 1].fontAtlasId != b.fontAtlasId)
  }

  lemma VertexSumPrefix(bs: seq<Batch>, k: nat)
    requires k < |bs|
    ensures VertexSum(bs[..k + 1]) == VertexSum(bs[..k]) + bs[k].numVertices
  {
    assert bs[..k + 1][..k] == bs[..k];
  }

  lemma VertexSumSnoc(bs: seq<Batch>, b: Batch)
    ensures VertexSum(bs + [b]) == VertexSum(bs) + b.numVertices
  {
    assert (bs + [b])[..|bs|] == bs;
  }

  lemma ChainedSnoc(bs: seq<Batch>, b: Batch)
    ensures Chained(bs + [b]) <==> Chained(bs) && Fits(bs, b)
  {
    assert (bs + [b])[..|bs|] == bs;
  }

  // ---------------------------------------------------------------------------
  // The two readings of well-formedness

  /** A well-formed prefix stays well-formed. */
  lemma WellFormedPrefix(bs: seq<Batch>, n: nat)
    requires WellFormed(bs) && n <= |bs|
    ensures WellFormed(bs[..n])
  {
  }

  /** In a contiguous list each descriptor starts at the sum of the counts before it. */
  lemma {:induction false} OffsetIsPrefixSum(bs: seq<Batch>, k: nat)
    requires Contiguous(bs) && k < |bs|
    ensures bs[k].offset == VertexSum(bs[..k])
  {
    if k == 0 {
      assert bs[..k] == [];
    } else {
      OffsetIsPrefixSum(bs, k - 1);
      VertexSumPrefix(bs, k - 1);
    }
  }

  /** Appending a descriptor that fits keeps the list well-formed. */
  lemma WellFormedSnoc(bs: seq<Batch>, b: Batch)
    requires WellFormed(bs) && Fits(bs, b)
    ensures WellFormed(bs + [b])
  {
    var r := bs + [b];
    var n := |bs|;
    if n == 0 {
      assert r == [b];
    } else {
      OffsetIsPrefixSum(bs, n - 1);
      VertexSumPrefix(bs, n - 1);
      assert bs[..n] == bs;
      assert r[0] == bs[0];
    }
    forall k | 0 <= k < |r| ensures r[k].numVertices > 0 && r[k].numVertices % 6 == 0 {
      if k < n {
        assert r[k] == bs[k];
      }
    }
    forall j, k | 0 <= j < k < |r| && k == j + 1
      ensures r[k].offset == r[j].offset + r[j].numVertices
      ensures r[j].fontAtlasId != r[k].fontAtlasId
    {
      assert r[j] == bs[j];
      if k < n {
        assert r[k] == bs[k];
      } else {
        assert r[k] == b;
      }
    }
  }

  /** The pairwise conditions hold exactly when every descriptor fits after the ones before it. */
  lemma {:induction false} WellFormedIsChained(bs: seq<Batch>)
    ensures WellFormed(bs) <==> Chained(bs)
  {
    if bs != [] {
      var n := |bs| - 1;
      var init, last := bs[..n], bs[n];
      assert bs == init + [last];
      if Chained(bs) {
        WellFormedIsChained(init);
        WellFormedSnoc(init, last);
      }
      if WellFormed(bs) {
        WellFormedPrefix(bs, n);
        WellFormedIsChained(init);
        OffsetIsPrefixSum(bs, n);
        if n > 0 {
          assert init[n - 1] == bs[n - 1];
        }
      }
    }
  }

  // ---------------------------------------------------------------------------
  // The grouping is well-formed and preserves the stream

  /** One step of the grouping keeps the descriptors chained and adds six vertices. */
  lemma ExtendChained(bs: seq<Batch>, id: nat, offset: nat)
    requires Chained(bs) && offset == VertexSum(bs)
    ensures Chained(Extend(bs, id, offset))
    ensures VertexSum(Extend(bs, id, offset)) == offset + 6
  {
    if bs == [] || bs[|bs| - 1].fontAtlasId != id {
      var b := Batch(offset, 6, id);
      ChainedSnoc(bs, b);
      VertexSumSnoc(bs, b);
    } else {
      var n := |bs| - 1;
      var init, last := bs[..n], bs[n];
      var grown := last.(numVertices := last.numVertices + 6);
      ChainedSnoc(init, grown);
      VertexSumSnoc(init, grown);
    }
  }

  /**
   The grouping is chained; its vertex counts add up to six per character;
   it has at most one descriptor per character; when any character was
   emitted, the last descriptor is on the last character's atlas.
   */
  lemma {:induction false} GroupingChained(ids: seq<nat>)
    ensures Chained(Grouping(ids)) && VertexSum(Grouping(ids)) == 6 * |ids|
    ensures |Grouping(ids)| <= |ids|
    ensures ids != [] ==>
              Grouping(ids) != [] && Grouping(ids)[|Grouping(ids)| - 1].fontAtlasId == ids[|ids| - 1]
  {
    if ids != [] {
      var init := ids[..|ids| - 1];
      GroupingChained(init);
      ExtendChained(Grouping(init), ids[|ids| - 1], 6 * |init|);
    }
  }

  /**
   The grouping is the run-length encoding's shape: the first descriptor
   starts at 0, each next one where the previous ends, each covers whole
   characters, and neighbours bind different atlases.
   */
  lemma GroupingWellFormed(ids: seq<nat>)
    ensures WellFormed(Grouping(ids))
  {
    GroupingChained(ids);
    WellFormedIsChained(Grouping(ids));
  }

  /** Opening a descriptor of one character adds that character to the expansion. */
  lemma OpenExpands(bs: seq<Batch>, id: nat, offset: nat)
    ensures Expand(bs + [Batch(offset, 6, id)]) == Expand(bs) + [id]
  {
    ExpandSnoc(bs, Batch(offset, 6, id));
    assert Quads(id, 6) == [id];
  }

  /** Growing the last descriptor by one character adds that character to the expansion. */
  lemma GrowExpands(init: seq<Batch>, last: Batch)
    ensures Expand(init + [last.(numVertices := last.numVertices + 6)]) ==
              Expand(init) + Quads(last.fontAtlasId, last.numVertices) + [last.fontAtlasId]
  {
    ExpandSnoc(init, last.(numVertices := last.numVertices + 6));
  }

  /** Adding a character to the stream adds it to the expansion. */
  lemma ExtendExpands(bs: seq<Batch>, id: nat, offset: nat)
    ensures Expand(Extend(bs, id, offset)) == Expand(bs) + [id]
  {
    if bs == [] || bs[|bs| - 1].fontAtlasId != id {
      OpenExpands(bs, id, offset);
    } else {
      GrowExpands(bs[..|bs| - 1], bs[|bs| - 1]);
    }
  }

  /** Expanding the descriptors gives back the stream they were built from: order is preserved. */
  lemma {:induction false} GroupingExpands(ids: seq<nat>)
    ensures Expand(Grouping(ids)) == ids
  {
    if ids != [] {
      var init := ids[..|ids| - 1];
      GroupingExpands(init);
      ExtendExpands(Grouping(init), ids[|ids| - 1], 6 * |init|);
      assert init + [ids[|ids| - 1]] == ids;
    }
  }

  // ---------------------------------------------------------------------------
  // Uniqueness

  lemma {:induction false} ExpandLength(bs: seq<Batch>)
    requires Chained(bs)
    ensures 6 * |Expand(bs)| == VertexSum(bs)
  {
    if bs != [] {
      ExpandLength(bs[..|bs| - 1]);
    }
  }

  lemma ExpandSnoc(bs: seq<Batch>, b: Batch)
    ensures Expand(bs + [b]) == Expand(bs) + Quads(b.fontAtlasId, b.numVertices)
  {
    assert (bs + [b])[..|bs|] == bs;
  }

  lemma GroupingSnoc(ids: seq<nat>, id: nat)
    ensures Grouping(ids + [id]) == Extend(Grouping(ids), id, 6 * |ids|)
  {
    assert (ids + [id])[..|ids|] == ids;
  }

  /**
   Taking the last character off a chained list whose last descriptor
   covers more than one character leaves a chained list expanding to the
   shorter stream.
   */
  lemma ShrinkLast(init: seq<Batch>, last: Batch)
    requires Chained(init + [last]) && last.numVertices > 6
    ensures Chained(init + [last.(numVertices := last.numVertices - 6)])
    ensures Expand(init + [last]) ==
              Expand(init + [last.(numVertices := last.numVertices - 6)]) + [last.fontAtlasId]
  {
    var shrunk := last.(numVertices := last.numVertices - 6);
    ChainedSnoc(init, last);
    ChainedSnoc(init, shrunk);
    ExpandSnoc(init, last);
    ExpandSnoc(init, shrunk);
  }

  /** A last descriptor of one character is the one the grouping opens for that character. */
  lemma OpenedLast(init: seq<Batch>, last: Batch, idsInit: seq<nat>)
    requires Chained(init + [last]) && last.numVertices == 6
    requires init == Grouping(idsInit) && Expand(init) == idsInit
    ensures init + [last] == Grouping(idsInit + [last.fontAtlasId])
  {
    GroupingSnoc(idsInit, last.fontAtlasId);
    ChainedSnoc(init, last);
    ExpandLength(init);
  }

  /** A last descriptor of several characters is the grouping's descriptor grown by its last character. */
  lemma GrownLast(init: seq<Batch>, last: Batch, idsInit: seq<nat>)
    requires last.numVertices > 6
    requires init + [last.(numVertices := last.numVertices - 6)] == Grouping(idsInit)
    ensures init + [last] == Grouping(idsInit + [last.fontAtlasId])
  {
    var shrunk := last.(numVertices := last.numVertices - 6);
    GroupingSnoc(idsInit, last.fontAtlasId);
    assert (init + [shrunk])[..|init|] == init;
  }

  lemma {:induction false} ChainedUnique(bs: seq<Batch>, ids: seq<nat>)
    requires Chained(bs) && Expand(bs) == ids
    ensures bs == Grouping(ids)
    decreases |ids|
  {
    if bs != [] {
      var n := |bs| - 1;
      var init, last := bs[..n], bs[n];
      var id := last.fontAtlasId;
      assert bs == init + [last];
      if last.numVertices == 6 {
        ExpandSnoc(init, last);
        var idsInit := Expand(init);
        assert ids == idsInit + [id];
        ChainedUnique(init, idsInit);
        OpenedLast(init, last, idsInit);
      } else {
        var shrunk := last.(numVertices := last.numVertices - 6);
        ShrinkLast(init, last);
        var idsInit := Expand(init + [shrunk]);
        assert ids == idsInit + [id];
        ChainedUnique(init + [shrunk], idsInit);
        GrownLast(init, last, idsInit);
      }
    }
  }

  /**
   The greedy grouping is the only well-formed list of descriptors that
   covers the stream: any descriptors that start at 0, are contiguous,
   cover whole characters, never repeat an atlas between neighbours and
   expand to `ids` are exactly `Grouping(ids)`.
   */
  lemma GroupingUnique(bs: seq<Batch>, ids: seq<nat>)
    requires WellFormed(bs) && Expand(bs) == ids
    ensures bs == Grouping(ids)
  {
    WellFormedIsChained(bs);
    ChainedUnique(bs, ids);
  }
}
