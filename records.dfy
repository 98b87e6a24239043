/** The record table of the read splitter: alignment records flattened into
    rows of five fields, the row filters the classifier applies to a table,
    and the set of read names a table holds. */
module Records {

  datatype Option<T> = None | Some(value: T)

  /** One alignment record as the alignment reader hands it over.
      `referenceName` is absent for a record that is not placed on any contig. */
  datatype Record = Record(
    queryName: string,
    isRead1: bool,
    isUnmapped: bool,
    referenceName: Option<string>,
    mapq: nat)

  /** One row of the record table: Readname, Isread1, Unmapped, Chromosome, Mapq. */
  datatype Row = Row(
    readname: string,
    isread1: bool,
    unmapped: bool,
    chromosome: Option<string>,
    mapq: int)

  /** The row a single record contributes to the table. */
  function RowOf(rec: Record): (row: Row)
    ensures row.readname == rec.queryName && row.isread1 == rec.isRead1 && row.unmapped == rec.isUnmapped
    ensures row.chromosome == rec.referenceName && row.mapq == rec.mapq
  {
    Row(rec.queryName, rec.isRead1, rec.isUnmapped, rec.referenceName, rec.mapq)
  }

  /** The record table: one row per record, in the order of the records,
      each field copied unchanged. */
  function RecordsTable(recs: seq<Record>): (t: seq<Row>)
    ensures |t| == |recs|
    ensures forall i :: 0 <= i < |recs| ==>
      && t[i].readname == recs[i].queryName
      && t[i].isread1 == recs[i].isRead1
      && t[i].unmapped == recs[i].isUnmapped
      && t[i].chromosome == recs[i].referenceName
      && t[i].mapq == recs[i].mapq
  {
    if recs == [] then [] else [RowOf(recs[0])] + RecordsTable(recs[1..])
  }

  /** Building the table of two runs of records one after the other gives
      the two tables one after the other: the table keeps input order. */
  lemma {:induction false} RecordsTableAppend(a: seq<Record>, b: seq<Record>)
    ensures RecordsTable(a + b) == RecordsTable(a) + RecordsTable(b)
  {
    if a == [] {
      assert a + b == b;
    } else {
      assert (a + b)[1..] == a[1..] + b;
      RecordsTableAppend(a[1..], b);
    }
  }

  /** The rows of `t` for which `keep` holds, in table order (a boolean mask
      applied to the table). */
  function Where(t: seq<Row>, keep: Row -> bool): (w: seq<Row>)
    ensures |w| <= |t|
    ensures forall r :: r in w <==> r in t && keep(r)
  {
    if t == [] then []
    else if keep(t[0]) then [t[0]] + Where(t[1..], keep)
    else Where(t[1..], keep)
  }

  /** Filtering keeps table order: the rows kept from two runs of rows are
      the rows kept from the first run followed by those kept from the second. */
  lemma {:induction false} WhereAppend(a: seq<Row>, b: seq<Row>, keep: Row -> bool)
    ensures Where(a + b, keep) == Where(a, keep) + Where(b, keep)
  {
    if a == [] {
      assert a + b == b;
    } else {
      assert (a + b)[1..] == a[1..] + b;
      WhereAppend(a[1..], b, keep);
    }
  }

  /** The set of read names of a table. A name that occurs on several rows
      (two mates, secondary alignments) is one element. */
  function ReadSet(t: seq<Row>): (s: set<string>)
    ensures forall n :: n in s <==> exists r :: r in t && r.readname == n
    ensures |s| <= |t|
  {
    if t == [] then {}
    else
      var rest := ReadSet(t[1..]);
      assert |{t[0].readname} + rest| <= 1 + |rest|;
      {t[0].readname} + rest
  }

  /** Two rows sharing a name make the name set strictly smaller than the table. */
  lemma {:induction false} ReadSetCollapses(t: seq<Row>, i: nat, j: nat)
    requires i < j < |t|
    requires t[i].readname == t[j].readname
    ensures |ReadSet(t)| < |t|
  {
    if i == 0 {
      assert t[j] in t[1..];
      assert ReadSet(t) == ReadSet(t[1..]);
    } else {
      ReadSetCollapses(t[1..], i - 1, j - 1);
    }
  }

  /** The names in the table built from `recs` are exactly the query names of `recs`. */
  lemma ReadSetOfRecords(recs: seq<Record>)
    ensures forall n :: n in ReadSet(RecordsTable(recs)) <==> exists k :: 0 <= k < |recs| && recs[k].queryName == n
  {
    var t := RecordsTable(recs);
    forall n | n in ReadSet(t) ensures exists k :: 0 <= k < |recs| && recs[k].queryName == n {
      var r :| r in t && r.readname == n;
      var k :| 0 <= k < |t| && t[k] == r;
      assert recs[k].queryName == n;
    }
    forall n | exists k :: 0 <= k < |recs| && recs[k].queryName == n ensures n in ReadSet(t) {
      var k :| 0 <= k < |recs| && recs[k].queryName == n;
      assert t[k] in t;
    }
  }
}
