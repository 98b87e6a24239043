# Read splitter: classification of alignment records

This project models the classification step of the read splitter
(`readspliter.py`, version 3.0.0). The splitter reads the records of a BAM
file and flattens them into a table of five columns: read name, read-1
flag, unmapped flag, contig and mapping quality. From that table it derives
four sets of read names and writes each to its own file:

- **mitochondrial**: names with a record on the mitochondrial contig (default `chrM`; an empty name switches this category off);
- **unmapped**: names with an unmapped read-1 record and an unmapped non-read-1 record;
- **placed**: names with exactly one of the two;
- **mapped**: every other name of the table.

The split is computed by a chain of set operations in a fixed order, with
mitochondrial names removed first. Two advisory checks follow:

- the unmapped set is compared against the names whose records have no contig;
- the four categories are tested pairwise for overlap.

The model is pure, like the source:

- `Records` (`records.dfy`) holds the records, the table rows, the table builder, the boolean-mask row filter `Where` and the name set `ReadSet`.
- `Partition` (`partition.dfy`) holds the set pipeline `Classify` in the source's order. Beside it is an independent row-level description of every set (`Describes`). `Classify` is proved to meet that description. The description is proved to determine the split uniquely, and any split it describes is proved to be a partition of the table's names.
- `Checks` (`checks.dfy`) holds the two warning conditions, with the nested pairwise loop as a recursive enumeration of the overlapping pairs.
- `Scenarios` (`scenarios.dfy`) works through small tables, one per kind of read pair.

The warning printer takes a message and a condition, and its definition is
not part of this model. At line 122 the condition is true when the sets
agree. At line 146 it is true when two sets overlap. The model exposes both
conditions as they stand, without deciding which polarity prints.

## Model

| member | source | states |
|---|---|---|
| Records.RowOf | readspliter.py:54 | the row of one record copies its query name, read-1 flag, unmapped flag, reference name and mapping quality |
| Records.RecordsTable | readspliter.py:51-54 | one row per record, same length and order, name, read-1 flag, unmapped flag, contig and mapping quality copied unchanged |
| Records.RecordsTableAppend | readspliter.py:51-54 | the table of two record runs is the two tables concatenated (input order is kept) |
| Records.ReadSet | readspliter.py:57-60 | a name is in the set iff some row carries it; the set is no larger than the table |
| Records.ReadSetCollapses | readspliter.py:57-60 | two rows with the same name (mates, secondary alignments) make the name set strictly smaller than the table |
| Records.ReadSetOfRecords | readspliter.py:97-100 | `allreads` of the built table is exactly the set of query names of the records |
| Records.Where | readspliter.py:103-113 | a boolean-mask filter keeps exactly the rows of the table that satisfy the mask |
| Records.WhereAppend | readspliter.py:103-113 | filtering two runs of rows one after the other gives the two filtered runs one after the other, so the filter keeps table order |
| Partition.Mitochondrial | readspliter.py:103 | empty when the contig name is empty, whatever the table holds; otherwise exactly the names with a row on that contig (`Classify` inherits this through its mitochondrial clause) |
| Partition.MateTable | readspliter.py:110 | the read-1 table (or the non-read-1 table) holds exactly the rows with that flag whose name is not mitochondrial |
| Partition.UnmappedNames | readspliter.py:113 | exactly the names of the mate table's rows with the unmapped flag set |
| Partition.Classify | readspliter.py:100-134 | the set pipeline meets the row-level description: all names; mitochondrial names; per-mate unmapped names outside mitochondrial; unmapped iff both mates unmapped; placed iff exactly one; mapped iff named, not mitochondrial and neither mate unmapped |
| Partition.DescribedSplitIsPartition | readspliter.py:100-134 | any split meeting the row-level description has four pairwise disjoint categories whose union is `allreads` |
| Partition.DescribesUnique | readspliter.py:100-134 | the row-level description determines every set of the split |
| Partition.PartitionOfAllReads | readspliter.py:100-134 | mitochondrial, unmapped, placed and mapped are pairwise disjoint and their union is `allreads` |
| Partition.Categories | readspliter.py:140 | the category list has four entries: mitochondrial, unmapped, placed and mapped, in that order, which fixes the pairs the overlap loop tests |
| Partition.CategoriesDisjoint | readspliter.py:140-146 | in a partition, the sets at any two distinct positions of the category list have an empty intersection |
| Partition.MitochondrialPrecedence | readspliter.py:110-134 | a name with a row on the named mitochondrial contig is mitochondrial and is in neither per-mate unmapped set, nor in unmapped, placed or mapped |
| Partition.MitochondrialOnlyRemoves | readspliter.py:103-134 | naming a contig removes exactly the mitochondrial names from the per-mate, unmapped, placed and mapped sets of the run with the category off, and changes nothing else |
| Partition.DescribedRemoval | readspliter.py:103-134 | the same removal property for any two splits meeting the row-level description |
| Partition.LoneUnmappedMateIsPlaced | readspliter.py:110-128 | a non-mitochondrial name whose unmapped rows are all non-read-1 (a lone unmapped mate 2 or an unpaired read) is placed, not unmapped |
| Checks.NullContigReads | readspliter.py:119 | exactly the names with a row that has no contig |
| Checks.UnmappedCheckPasses | readspliter.py:122 | the line-122 condition holds iff every unmapped name has a row with no contig |
| Checks.UnmappedCheckPassesWhenUnmappedRowsHaveNoContig | readspliter.py:113-122 | if every row flagged unmapped has no contig, the line-122 condition holds for any contig name |
| Checks.UnmappedCheckIsOneSided | readspliter.py:119-128 | a lone unmapped mate 2 with no contig is in the null-contig set but not in unmapped, and the line-122 condition still holds |
| Checks.UnmappedWithoutNullContigFails | readspliter.py:113-122 | a non-mitochondrial name with an unmapped read-1 row and an unmapped non-read-1 row, none of whose rows lacks a contig, makes the line-122 condition false |
| Checks.UnmappedCheckCanFail | readspliter.py:113-122 | a name reused by two pairs, each with one unmapped mate placed at its mate's contig, is unmapped with no null-contig row, so the line-122 condition is false |
| Checks.OverlapsWith | readspliter.py:144-146 | the inner loop for first index i yields exactly the pairs (i, j), with j in range, whose sets overlap |
| Checks.OverlappingPairsFrom | readspliter.py:143-146 | the nested loop from index `from` yields exactly the pairs i < j whose sets overlap |
| Checks.OverlappingPairs | readspliter.py:140-146 | the iterations whose line-146 condition is true are exactly the pairs i < j of overlapping sets |
| Checks.NoOverlapWarning | readspliter.py:140-146 | on every classification no pair overlaps, so the line-146 condition is false in every iteration |
| Scenarios.BothMatesMapped | readspliter.py:100-134 | two mapped mates on chr1 give mapped = {A} and every other category empty |
| Scenarios.BothMatesUnmapped | readspliter.py:100-134 | two unmapped mates give unmapped = {B} (and both per-mate sets {B}) |
| Scenarios.OneMateUnmapped | readspliter.py:100-134 | a mapped mate 1 and an unmapped mate 2 give placed = {C} |
| Scenarios.MitochondrialRead | readspliter.py:100-134 | a read on chrM with the default contig gives mitochondrial = {D} and nothing else |
| Scenarios.MitochondrialReadWhenDisabled | readspliter.py:100-134 | the same read with the category switched off is mapped |

## Left out

- The samtools version gate (`checksam`, line 66) is an external tool check.
- Command-line parsing (lines 69-82) is left out. The contig name is a plain parameter; `DEFAULT_MITO` is the default `chrM` of line 43.
- Output file names (`outnames`, line 85) and removing the outputs of an earlier run (lines 88-94) are file-system housekeeping.
- BAM decoding (`loadbam`, line 97) is left out. The records are an abstract `seq<Record>`.
- Writing the sets and asserting each output file exists (lines 106-107, 125, 131, 137) is file I/O. A failed write ends the run, so the order of the writes decides which files remain. It also decides which warning conditions are evaluated: a failed write at line 107 comes before the line-122 check, and one at line 125, 131 or 137 comes before the line-146 loop.
- Printing the warnings (`ifprint`) is left out. Only the conditions passed to it are modelled.
- pandas machinery is left out. The table is a `seq<Row>` and a boolean mask is the filter `Where`. The mapping quality is carried in each row and never used by the classification.
- Running the classification twice gives the same split because `Classify` is a function; this needs no lemma.
- Partition.Classify: on an empty record list the model returns the all-empty split. The source does not, by how pandas types an empty table: its columns have object type, so the empty `Unmapped` column used as a mask at line 113 is not read as a boolean mask, the selected frame has no `Readname` column, and `readset` fails. By then at most the mitochondrial file has been written (line 107, and only when a contig is named).
