/** The classification of the read splitter: from a record table and the
    name of the mitochondrial contig, the sets of read names the run writes
    out, computed in the same order and with the same set operations as the
    source (all reads, mitochondrial, per-mate unmapped, unmapped, placed,
    mapped). */
module Partition {
  import opened Records

  /** Default name of the mitochondrial contig; the empty name switches the
      mitochondrial category off. */
  const DEFAULT_MITO: string := "chrM"

  /** Every set the classification derives. */
  datatype Split = Split(
    allreads: set<string>,
    mitochondrial: set<string>,
    unmappedR1: set<string>,
    unmappedR2: set<string>,
    unmapped: set<string>,
    placed: set<string>,
    mapped: set<string>)

  // Row-level descriptions of the categories, independent of the set pipeline.

  /** Some row of `t` carries the name `n`. */
  predicate Named(t: seq<Row>, n: string) {
    exists r :: r in t && r.readname == n
  }

  /** Some row named `n` lies on the contig `mito`, and the category is switched on. */
  predicate OnMito(t: seq<Row>, mito: string, n: string) {
    mito != "" && exists r :: r in t && r.readname == n && r.chromosome == Some(mito)
  }

  /** Some row named `n` with read-1 flag `first` has the unmapped flag set. */
  predicate UnmappedMate(t: seq<Row>, n: string, first: bool) {
    exists r :: r in t && r.readname == n && r.isread1 == first && r.unmapped
  }

  /** The row-level description of a classification: what each set must
      hold, stated name by name from the rows, independently of the order of
      set operations that computes it. */
  ghost predicate Describes(t: seq<Row>, mito: string, p: Split) {
    forall n ::
      && (n in p.allreads <==> Named(t, n))
      && (n in p.mitochondrial <==> OnMito(t, mito, n))
      && (n in p.unmappedR1 <==> !OnMito(t, mito, n) && UnmappedMate(t, n, true))
      && (n in p.unmappedR2 <==> !OnMito(t, mito, n) && UnmappedMate(t, n, false))
      && (n in p.unmapped <==> !OnMito(t, mito, n) && UnmappedMate(t, n, true) && UnmappedMate(t, n, false))
      && (n in p.placed <==> !OnMito(t, mito, n) && UnmappedMate(t, n, true) != UnmappedMate(t, n, false))
      && (n in p.mapped <==>
            Named(t, n) && !OnMito(t, mito, n) && !UnmappedMate(t, n, true) && !UnmappedMate(t, n, false))
  }

  /** The four categories are pairwise disjoint and their union is `allreads`. */
  ghost predicate IsPartition(p: Split) {
    && p.mitochondrial !! p.unmapped
    && p.mitochondrial !! p.placed
    && p.mitochondrial !! p.mapped
    && p.unmapped !! p.placed
    && p.unmapped !! p.mapped
    && p.placed !! p.mapped
    && p.mitochondrial + p.unmapped + p.placed + p.mapped == p.allreads
  }

  /** The mitochondrial names: with a contig name given, the names of the
      rows on that contig; with the empty name, none. */
  function Mitochondrial(t: seq<Row>, mito: string): (m: set<string>)
    ensures forall n :: n in m <==> OnMito(t, mito, n)
  {
    if mito != "" then ReadSet(Where(t, (r: Row) => r.chromosome == Some(mito))) else {}
  }

  /** The mate table: the rows whose read-1 flag is `first` (the read-1
      table, or with `first` false the table of every other row), leaving
      out every row whose name is in `excluded`. */
  function MateTable(t: seq<Row>, excluded: set<string>, first: bool): (w: seq<Row>)
    ensures forall r :: r in w <==> r in t && r.isread1 == first && r.readname !in excluded
  {
    Where(t, (r: Row) => r.isread1 == first && r.readname !in excluded)
  }

  /** The names of the rows of a mate table that have the unmapped flag set. */
  function UnmappedNames(mates: seq<Row>): (u: set<string>)
    ensures forall n :: n in u <==> exists r :: r in mates && r.readname == n && r.unmapped
  {
    ReadSet(Where(mates, (r: Row) => r.unmapped))
  }

  /** The classification. Each set is described by what the rows say about
      its names: the mitochondrial names are those with a row on the
      mitochondrial contig; the others ignore every row of a mitochondrial
      name; unmapped names have an unmapped read-1 row and an unmapped
      non-read-1 row, placed names have exactly one of the two, and mapped
      names are the remaining names of the table. */
  function Classify(t: seq<Row>, mito: string): (p: Split)
    ensures Describes(t, mito, p)
  {
    var allreads := ReadSet(t);
    var mitochondrial := Mitochondrial(t, mito);
    var read1 := MateTable(t, mitochondrial, true);
    var read2 := MateTable(t, mitochondrial, false);
    var unmappedR1 := UnmappedNames(read1);
    var unmappedR2 := UnmappedNames(read2);
    var unmapped := unmappedR1 * unmappedR2;
    var placed := (unmappedR1 + unmappedR2) - unmapped;
    var mapped := allreads - (unmapped + placed + mitochondrial);
    Split(allreads, mitochondrial, unmappedR1, unmappedR2, unmapped, placed, mapped)
  }

  /** The four written categories, in the order the overlap check walks
      them: mitochondrial, unmapped, placed, mapped. */
  function Categories(p: Split): (cs: seq<set<string>>)
    ensures |cs| == 4
    ensures cs[0] == p.mitochondrial && cs[1] == p.unmapped && cs[2] == p.placed && cs[3] == p.mapped
  {
    [p.mitochondrial, p.unmapped, p.placed, p.mapped]
  }

  /** Any split that the rows describe is a partition of the table's names. */
  lemma DescribedSplitIsPartition(t: seq<Row>, mito: string, p: Split)
    requires Describes(t, mito, p)
    ensures IsPartition(p)
  {
    var all := p.mitochondrial + p.unmapped + p.placed + p.mapped;
    forall n | n in all ensures n in p.allreads {
      if OnMito(t, mito, n) {
        var r :| r in t && r.readname == n && r.chromosome == Some(mito);
      } else if UnmappedMate(t, n, true) {
        var r :| r in t && r.readname == n && r.isread1 && r.unmapped;
      } else if UnmappedMate(t, n, false) {
        var r :| r in t && r.readname == n && !r.isread1 && r.unmapped;
      }
    }
    assert all == p.allreads;
  }

  /** The rows determine the split: two splits they both describe are equal. */
  lemma DescribesUnique(t: seq<Row>, mito: string, p: Split, q: Split)
    requires Describes(t, mito, p) && Describes(t, mito, q)
    ensures p == q
  {
  }

  /** The four categories of a classification are pairwise disjoint and
      together hold every read name of the table. */
  lemma PartitionOfAllReads(t: seq<Row>, mito: string)
    ensures IsPartition(Classify(t, mito))
  {
    DescribedSplitIsPartition(t, mito, Classify(t, mito));
  }

  /** In a partition, any two distinct categories share no name. */
  lemma CategoriesDisjoint(p: Split, i: nat, j: nat)
    requires IsPartition(p)
    requires i < j < 4
    ensures Categories(p)[i] * Categories(p)[j] == {}
  {
    if i == 0 {
      assert j == 1 || j == 2 || j == 3;
    } else if i == 1 {
      assert j == 2 || j == 3;
    } else {
      assert i == 2 && j == 3;
    }
  }

  /** The mitochondrial category takes precedence: its names appear in no
      other set of the classification. */
  lemma MitochondrialPrecedence(t: seq<Row>, mito: string, n: string)
    requires OnMito(t, mito, n)
    ensures var p := Classify(t, mito);
      n in p.mitochondrial && n !in p.unmappedR1 && n !in p.unmappedR2 && n !in p.unmapped && n !in p.placed && n !in p.mapped
  {
  }

  /** Naming a mitochondrial contig only takes its names out of the other
      categories: compared with the run that has the category switched off,
      unmapped, placed and mapped lose exactly the mitochondrial names. */
  lemma MitochondrialOnlyRemoves(t: seq<Row>, mito: string)
    ensures var p, q := Classify(t, mito), Classify(t, "");
      && p.allreads == q.allreads
      && p.unmappedR1 == q.unmappedR1 - p.mitochondrial
      && p.unmappedR2 == q.unmappedR2 - p.mitochondrial
      && p.unmapped == q.unmapped - p.mitochondrial
      && p.placed == q.placed - p.mitochondrial
      && p.mapped == q.mapped - p.mitochondrial
  {
    DescribedRemoval(t, mito, Classify(t, mito), Classify(t, ""));
  }

  /** The removal property for any two splits the rows describe, one with
      the contig named and one with the category switched off. */
  lemma DescribedRemoval(t: seq<Row>, mito: string, p: Split, q: Split)
    requires Describes(t, mito, p) && Describes(t, "", q)
    ensures
      && p.allreads == q.allreads
      && p.unmappedR1 == q.unmappedR1 - p.mitochondrial
      && p.unmappedR2 == q.unmappedR2 - p.mitochondrial
      && p.unmapped == q.unmapped - p.mitochondrial
      && p.placed == q.placed - p.mitochondrial
      && p.mapped == q.mapped - p.mitochondrial
  {
  }

  /** A name whose unmapped rows all have the read-1 flag clear (a lone
      unmapped mate 2 or an unpaired unmapped read) and that is not
      mitochondrial is placed, not unmapped. */
  lemma LoneUnmappedMateIsPlaced(t: seq<Row>, mito: string, n: string)
    requires exists r :: r in t && r.readname == n && !r.isread1 && r.unmapped
    requires forall r :: r in t && r.readname == n && r.unmapped ==> !r.isread1
    requires !OnMito(t, mito, n)
    ensures n in Classify(t, mito).placed
    ensures n !in Classify(t, mito).unmapped
  {
  }
}
