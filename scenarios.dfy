/** Small worked tables: one per kind of read pair, classified with the
    default mitochondrial contig or with the category switched off. Each
    states the whole split the classification yields. */
module Scenarios {
  import opened Records
  import opened Partition

  /** Both mates mapped to an ordinary contig: the name is mapped. */
  lemma BothMatesMapped()
    ensures Classify([Row("A", true, false, Some("chr1"), 60), Row("A", false, false, Some("chr1"), 60)], DEFAULT_MITO)
         == Split({"A"}, {}, {}, {}, {}, {}, {"A"})
  {
    var t := [Row("A", true, false, Some("chr1"), 60), Row("A", false, false, Some("chr1"), 60)];
    var q := Split({"A"}, {}, {}, {}, {}, {}, {"A"});
    assert t[0] in t;
    assert forall r :: r in t ==> r.readname == "A" && !r.unmapped && r.chromosome == Some("chr1");
    assert Describes(t, DEFAULT_MITO, q);
    DescribesUnique(t, DEFAULT_MITO, Classify(t, DEFAULT_MITO), q);
  }

  /** Both mates unmapped: the name is unmapped. */
  lemma BothMatesUnmapped()
    ensures Classify([Row("B", true, true, None, 0), Row("B", false, true, None, 0)], DEFAULT_MITO)
         == Split({"B"}, {}, {"B"}, {"B"}, {"B"}, {}, {})
  {
    var t := [Row("B", true, true, None, 0), Row("B", false, true, None, 0)];
    var q := Split({"B"}, {}, {"B"}, {"B"}, {"B"}, {}, {});
    assert t[0] in t && t[1] in t;
    assert forall r :: r in t ==> r.readname == "B" && r.chromosome == None;
    assert Describes(t, DEFAULT_MITO, q);
    DescribesUnique(t, DEFAULT_MITO, Classify(t, DEFAULT_MITO), q);
  }

  /** Mate 1 mapped, mate 2 unmapped: the name is placed. */
  lemma OneMateUnmapped()
    ensures Classify([Row("C", true, false, Some("chr1"), 60), Row("C", false, true, None, 0)], DEFAULT_MITO)
         == Split({"C"}, {}, {}, {"C"}, {}, {"C"}, {})
  {
    var t := [Row("C", true, false, Some("chr1"), 60), Row("C", false, true, None, 0)];
    var q := Split({"C"}, {}, {}, {"C"}, {}, {"C"}, {});
    assert t[0] in t && t[1] in t;
    assert forall r :: r in t ==> r.readname == "C" && r.chromosome != Some(DEFAULT_MITO);
    assert !UnmappedMate(t, "C", true);
    assert Describes(t, DEFAULT_MITO, q);
    DescribesUnique(t, DEFAULT_MITO, Classify(t, DEFAULT_MITO), q);
  }

  /** A read on the mitochondrial contig is mitochondrial and nothing else. */
  lemma MitochondrialRead()
    ensures Classify([Row("D", true, false, Some("chrM"), 60)], DEFAULT_MITO)
         == Split({"D"}, {"D"}, {}, {}, {}, {}, {})
  {
    var t := [Row("D", true, false, Some("chrM"), 60)];
    var q := Split({"D"}, {"D"}, {}, {}, {}, {}, {});
    assert t[0] in t;
    assert forall r :: r in t ==> r.readname == "D";
    assert Describes(t, DEFAULT_MITO, q);
    DescribesUnique(t, DEFAULT_MITO, Classify(t, DEFAULT_MITO), q);
  }

  /** With the category switched off the same read counts as mapped. */
  lemma MitochondrialReadWhenDisabled()
    ensures Classify([Row("D", true, false, Some("chrM"), 60)], "")
         == Split({"D"}, {}, {}, {}, {}, {}, {"D"})
  {
    var t := [Row("D", true, false, Some("chrM"), 60)];
    var q := Split({"D"}, {}, {}, {}, {}, {}, {"D"});
    assert t[0] in t;
    assert forall r :: r in t ==> r.readname == "D" && !r.unmapped;
    assert Describes(t, "", q);
    DescribesUnique(t, "", Classify(t, ""), q);
  }
}
