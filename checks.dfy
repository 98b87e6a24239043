/** The two advisory checks the read splitter runs after classifying: the
    unmapped set against the names with no contig, and the pairwise overlap
    of the four written categories. Each is the boolean condition handed to
    the warning printer; the checks never change the sets. */
module Checks {
  import opened Records
  import opened Partition

  /** The unmapped names derived the other way: every name with a row that
      has no contig, over the whole table. */
  function NullContigReads(t: seq<Row>): (s: set<string>)
    ensures forall n :: n in s <==> exists r :: r in t && r.readname == n && r.chromosome.None?
  {
    ReadSet(Where(t, (r: Row) => r.chromosome.None?))
  }

  /** The condition of the unmapped cross-check: nothing in `unmapped` is
      missing from the null-contig names. It looks in one direction only;
      names with no contig that are not in `unmapped` go unnoticed. */
  function UnmappedCheckPasses(t: seq<Row>, unmapped: set<string>): (ok: bool)
    ensures ok <==> forall n :: n in unmapped ==> exists r :: r in t && r.readname == n && r.chromosome.None?
  {
    var nullContig := NullContigReads(t);
    assert unmapped - nullContig == {} ==> unmapped <= nullContig;
    |unmapped - nullContig| == 0
  }

  /** When every row flagged unmapped has no contig, the cross-check passes
      on the classification, whatever the mitochondrial contig. */
  lemma UnmappedCheckPassesWhenUnmappedRowsHaveNoContig(t: seq<Row>, mito: string)
    requires forall r :: r in t && r.unmapped ==> r.chromosome.None?
    ensures UnmappedCheckPasses(t, Classify(t, mito).unmapped)
  {
    var p := Classify(t, mito);
    forall n | n in p.unmapped ensures exists r :: r in t && r.readname == n && r.chromosome.None? {
      var r :| r in t && r.readname == n && r.isread1 && r.unmapped;
    }
  }

  /** The cross-check is one-sided: a lone unmapped mate 2 without a contig
      is a null-contig name but is placed, not unmapped, and the check
      still passes. */
  lemma UnmappedCheckIsOneSided()
    ensures var t := [Row("E", false, true, None, 0)];
      && UnmappedCheckPasses(t, Classify(t, DEFAULT_MITO).unmapped)
      && NullContigReads(t) != Classify(t, DEFAULT_MITO).unmapped
  {
    var t := [Row("E", false, true, None, 0)];
    var p := Classify(t, DEFAULT_MITO);
    assert t[0] in t;
    assert "E" in NullContigReads(t);
    assert "E" !in p.unmapped by {
      assert !UnmappedMate(t, "E", true);
    }
  }

  /** The cross-check can fail when a read name is not unique: two pairs
      share the name "B", and in each one mate is unmapped and placed at its
      mapped mate's contig. The unmapped read-1 row of the first pair and the
      unmapped non-read-1 row of the second make "B" unmapped, yet no row of
      "B" lacks a contig. */
  lemma UnmappedCheckCanFail()
    ensures var t := [
        Row("B", true, true, Some("chr1"), 0), Row("B", false, false, Some("chr1"), 60),
        Row("B", true, false, Some("chr2"), 60), Row("B", false, true, Some("chr2"), 0)];
      !UnmappedCheckPasses(t, Classify(t, DEFAULT_MITO).unmapped)
  {
    var t := [
        Row("B", true, true, Some("chr1"), 0), Row("B", false, false, Some("chr1"), 60),
        Row("B", true, false, Some("chr2"), 60), Row("B", false, true, Some("chr2"), 0)];
    assert t[0] in t && t[3] in t;
    assert !OnMito(t, DEFAULT_MITO, "B");
    assert forall r :: r in t ==> r.chromosome.Some?;
    UnmappedWithoutNullContigFails(t, DEFAULT_MITO, "B");
  }

  /** A name unmapped on both mates with no row lacking a contig makes the
      cross-check fail. */
  lemma UnmappedWithoutNullContigFails(t: seq<Row>, mito: string, n: string)
    requires !OnMito(t, mito, n) && UnmappedMate(t, n, true) && UnmappedMate(t, n, false)
    requires forall r :: r in t && r.readname == n ==> r.chromosome.Some?
    ensures !UnmappedCheckPasses(t, Classify(t, mito).unmapped)
  {
    assert n in Classify(t, mito).unmapped;
  }

  /** The pairs (i, j) with `from <= i < j` whose sets overlap, in the order
      of the nested loop over the category list: the iterations in which
      the overlap warning's condition is true. */
  function OverlappingPairsFrom(sets: seq<set<string>>, from: nat): (r: seq<(nat, nat)>)
    ensures forall pr :: pr in r <==> from <= pr.0 < pr.1 < |sets| && sets[pr.0] * sets[pr.1] != {}
    decreases |sets| - from
  {
    if from >= |sets| then [] else OverlapsWith(sets, from, from + 1) + OverlappingPairsFrom(sets, from + 1)
  }

  /** The inner loop for a fixed first index `i`: the later indices `j >= from`
      whose set overlaps `sets[i]`. */
  function OverlapsWith(sets: seq<set<string>>, i: nat, from: nat): (r: seq<(nat, nat)>)
    requires i < |sets|
    ensures forall pr :: pr in r <==> pr.0 == i && from <= pr.1 < |sets| && sets[i] * sets[pr.1] != {}
    decreases |sets| - from
  {
    if from >= |sets| then []
    else (if sets[i] * sets[from] != {} then [(i, from)] else []) + OverlapsWith(sets, i, from + 1)
  }

  /** Every overlapping pair of the category list. */
  function OverlappingPairs(sets: seq<set<string>>): (r: seq<(nat, nat)>)
    ensures forall pr :: pr in r <==> pr.0 < pr.1 < |sets| && sets[pr.0] * sets[pr.1] != {}
  {
    OverlappingPairsFrom(sets, 0)
  }

  /** The overlap warning never fires on a classification: no iteration of
      the nested loop finds two categories that share a name. */
  lemma NoOverlapWarning(t: seq<Row>, mito: string)
    ensures OverlappingPairs(Categories(Classify(t, mito))) == []
  {
    var p := Classify(t, mito);
    var r := OverlappingPairs(Categories(p));
    if r != [] {
      assert r[0] in r;
      PartitionOfAllReads(t, mito);
      CategoriesDisjoint(p, r[0].0, r[0].1);
      assert false;
    }
  }
}
