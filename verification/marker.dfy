/**
 * ForestDB block markers, the block-type categories they map to, and the
 * per-category counters (`type_cnt`) with the statistics report built from them.
 */
module Marker {
  import opened Text

  /** The marker ForestDB writes in the last byte of a block, by block kind. */
  const BLK_MARKER_BNODE: bv8 := 0xff
  const BLK_MARKER_DBHEADER: bv8 := 0xee
  const BLK_MARKER_DOC: bv8 := 0xdd
  const BLK_MARKER_SB: bv8 := 0xcc
  /** Size of the trailing marker in marker mode 0. */
  const BLK_MARKER_SIZE: nat := 1

  /** The four ForestDB block kinds (`fdb_blk_types`) and "not a ForestDB block". */
  datatype BlockType = Doc | BNode | DbHeader | Superblock | NotFdb

  predicate Recognised(t: BlockType)
  {
    t != NotFdb
  }

  /** The marker byte a recognised kind is written with. */
  function MarkerOf(t: BlockType): bv8
    requires Recognised(t)
  {
    match t
    case Doc => BLK_MARKER_DOC
    case BNode => BLK_MARKER_BNODE
    case DbHeader => BLK_MARKER_DBHEADER
    case Superblock => BLK_MARKER_SB
  }

  /**
   * The `switch` on the marker byte: each of the four marker values names
   * its kind, and every other byte is "not FDB".
   */
  function Classify(b: bv8): (t: BlockType)
    ensures Recognised(t) ==> MarkerOf(t) == b
    ensures !Recognised(t) <==> b !in {BLK_MARKER_BNODE, BLK_MARKER_DBHEADER, BLK_MARKER_DOC, BLK_MARKER_SB}
  {
    if b == BLK_MARKER_BNODE then BNode
    else if b == BLK_MARKER_DBHEADER then DbHeader
    else if b == BLK_MARKER_DOC then Doc
    else if b == BLK_MARKER_SB then Superblock
    else NotFdb
  }

  /** Classifying the marker of a recognised kind gives that kind back. */
  lemma {:induction false} ClassifyMarkerOf(t: BlockType)
    requires Recognised(t)
    ensures Classify(MarkerOf(t)) == t
  {
  }

  /** The tag printed after a block's fields. */
  function Label(t: BlockType): string
  {
    match t
    case Doc => "DOC"
    case BNode => "BNODE"
    case DbHeader => "DBHEADER"
    case Superblock => "SB"
    case NotFdb => "NOT_FDB"
  }

  /** Tags are single non-empty fields, and distinct kinds print distinct tags. */
  lemma {:induction false} LabelsAreDistinctFields(t: BlockType, u: BlockType)
    ensures IsWord(Label(t))
    ensures Label(t) == Label(u) ==> t == u
  {
    var l := Label(t);
    assert forall i :: 0 <= i < |l| ==> 'A' <= l[i] <= 'Z' || l[i] == '_';
  }

  // ---------------------------------------------------------------------
  // Counters

  /** `type_cnt`: one counter per kind, then the counter of every block inspected. */
  datatype Stats = Stats(doc: nat, bnode: nat, dbheader: nat, sb: nat, notFdb: nat, total: nat)

  const ZERO: Stats := Stats(0, 0, 0, 0, 0, 0)

  /** Zeroed counters count nothing of any kind. */
  lemma {:induction false} ZeroCounts(t: BlockType)
    ensures Count(ZERO, t) == 0
  {
  }

  function Count(s: Stats, t: BlockType): nat
  {
    match t
    case Doc => s.doc
    case BNode => s.bnode
    case DbHeader => s.dbheader
    case Superblock => s.sb
    case NotFdb => s.notFdb
  }

  /** The kind counters add up to the total counter. */
  predicate Consistent(s: Stats)
  {
    s.doc + s.bnode + s.dbheader + s.sb + s.notFdb == s.total
  }

  /**
   * Counting one classified block: its kind's counter and the total go up by
   * one, no other counter changes, so the counters stay consistent.
   */
  function Record(s: Stats, t: BlockType): (r: Stats)
    ensures r.total == s.total + 1
    ensures forall u :: Count(r, u) == Count(s, u) + (if u == t then 1 else 0)
    ensures Consistent(r) <==> Consistent(s)
  {
    match t
    case Doc => s.(doc := s.doc + 1, total := s.total + 1)
    case BNode => s.(bnode := s.bnode + 1, total := s.total + 1)
    case DbHeader => s.(dbheader := s.dbheader + 1, total := s.total + 1)
    case Superblock => s.(sb := s.sb + 1, total := s.total + 1)
    case NotFdb => s.(notFdb := s.notFdb + 1, total := s.total + 1)
  }

  /** Blocks in ForestDB format: every block inspected minus the unrecognised ones. */
  function FdbTotal(s: Stats): int
  {
    s.total - s.notFdb
  }

  /** With consistent counters the ForestDB total is the sum of the four recognised kinds. */
  lemma {:induction false} FdbTotalIsRecognisedSum(s: Stats)
    requires Consistent(s)
    ensures FdbTotal(s) == s.doc + s.bnode + s.dbheader + s.sb
    ensures 0 <= FdbTotal(s) <= s.total
  {
  }

  // ---------------------------------------------------------------------
  // Report

  /** Position of a kind in `type_cnt` and in the report (`fdb_blk_types`, with "not FDB" at `BLK_TYPE_END`). */
  function Slot(t: BlockType): nat
  {
    match t
    case Doc => 0
    case BNode => 1
    case DbHeader => 2
    case Superblock => 3
    case NotFdb => 4
  }

  const TOTAL_SLOT: nat := 5

  /** `fdb_blk_names`. */
  function RowName(i: nat): string
    requires i <= TOTAL_SLOT
  {
    ["Document", "Index", "Header", "Superblock", "Not FDB", "Total Writes"][i]
  }

  datatype Row = Row(name: string, pages: nat)
  datatype Report = Report(rows: seq<Row>, fdbTotal: int, total: nat)

  /**
   * The integer content of `print_count`: one row per counter in `type_cnt`
   * order, and the ForestDB total the first percentage column divides by.
   */
  function MakeReport(s: Stats): (r: Report)
    ensures |r.rows| == TOTAL_SLOT + 1
    ensures forall t :: r.rows[Slot(t)] == Row(RowName(Slot(t)), Count(s, t))
    ensures r.rows[TOTAL_SLOT] == Row(RowName(TOTAL_SLOT), s.total)
    ensures r.total == s.total
    ensures Consistent(s) ==> r.fdbTotal == r.rows[0].pages + r.rows[1].pages + r.rows[2].pages + r.rows[3].pages
  {
    var counts := [s.doc, s.bnode, s.dbheader, s.sb, s.notFdb, s.total];
    Report(seq(TOTAL_SLOT + 1, i requires 0 <= i <= TOTAL_SLOT => Row(RowName(i), counts[i])), FdbTotal(s), s.total)
  }

  /**
   * The loop of `print_count` over `type_cnt` as written, keeping the counts
   * and the FDB total `total - type_cnt[BLK_TYPE_END]`.
   */
  method PrintCount(s: Stats) returns (r: Report)
    ensures r == MakeReport(s)
  {
    var typeCnt := [s.doc, s.bnode, s.dbheader, s.sb, s.notFdb, s.total];
    var total := typeCnt[TOTAL_SLOT];
    var fdbTotal := (total as int) - typeCnt[Slot(NotFdb)];
    var rows: seq<Row> := [];
    var i := 0;
    while i < TOTAL_SLOT + 1
      invariant i <= TOTAL_SLOT + 1
      invariant rows == MakeReport(s).rows[..i]
    {
      rows := rows + [Row(RowName(i), typeCnt[i])];
      i := i + 1;
    }
    r := Report(rows, fdbTotal, total);
  }
}
