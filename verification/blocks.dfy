/**
 * The block loop of one I/O event: the byte range is cut into blocks, the
 * marker byte of each block is read from the device and classified, the
 * counters are updated and one annotated line is printed per block.
 */
module BlockRange {
  import opened Machine
  import opened Text
  import opened Marker
  import opened Trace

  /**
   * The device as the byte at each absolute position. Every positioned read
   * is taken to fill the block with these bytes.
   */
  type Device = nat -> bv8

  /** Block sizes the loop handles: positive, and representable in the `int` it is copied into. */
  predicate ValidBlockSize(blocksize: nat)
  {
    0 < blocksize <= INT_MAX
  }

  /** The marker byte of the block at `offset` in marker mode 0: the last byte of the block. */
  function MarkerByte(dev: Device, offset: U64, blocksize: nat): bv8
    requires ValidBlockSize(blocksize)
  {
    dev(offset + blocksize - BLK_MARKER_SIZE)
  }

  /**
   * The block offsets the loop visits: while at least one block's worth of
   * bytes remains it reads a block at the current offset, advances the
   * offset by a block (modulo 2^64) and consumes a block of the length; a
   * flush event stops after its first block.
   */
  function ScanOffsets(offset: U64, bytes: U64, blocksize: nat, flush: bool): seq<U64>
    requires ValidBlockSize(blocksize)
    decreases bytes
  {
    if blocksize <= bytes && 0 < bytes then
      [offset] + (if flush then [] else ScanOffsets(ToU64(offset + blocksize), bytes - blocksize, blocksize, flush))
    else []
  }

  /** How many blocks an event of `bytes` bytes yields: whole blocks only, and at most one for a flush. */
  function BlockCount(bytes: nat, blocksize: nat, flush: bool): nat
    requires blocksize > 0
  {
    if flush then Min(1, bytes / blocksize) else bytes / blocksize
  }

  /**
   * Closed form of the scan: exactly ⌊L/B⌋ blocks (at most one for a flush),
   * at offsets off, off + B, off + 2B, … taken modulo 2^64.
   */
  lemma {:induction false} ScanOffsetsClosedForm(offset: U64, bytes: U64, blocksize: nat, flush: bool)
    requires ValidBlockSize(blocksize)
    ensures |ScanOffsets(offset, bytes, blocksize, flush)| == BlockCount(bytes, blocksize, flush)
    ensures forall i :: 0 <= i < |ScanOffsets(offset, bytes, blocksize, flush)| ==>
      ScanOffsets(offset, bytes, blocksize, flush)[i] == ToU64(offset + i * blocksize)
  {
    ScanLength(offset, bytes, blocksize, flush);
    forall i | 0 <= i < |ScanOffsets(offset, bytes, blocksize, flush)|
      ensures ScanOffsets(offset, bytes, blocksize, flush)[i] == ToU64(offset + i * blocksize)
    {
      ScanOffsetAt(offset, bytes, blocksize, flush, i);
    }
  }

  lemma {:induction false} ScanLength(offset: U64, bytes: U64, blocksize: nat, flush: bool)
    requires ValidBlockSize(blocksize)
    ensures |ScanOffsets(offset, bytes, blocksize, flush)| == BlockCount(bytes, blocksize, flush)
    decreases bytes
  {
    if blocksize <= bytes {
      DivStep(bytes, blocksize);
      if !flush {
        ScanLength(ToU64(offset + blocksize), bytes - blocksize, blocksize, flush);
      }
    } else {
      DivUnique(bytes, blocksize, 0, bytes);
    }
  }

  lemma {:induction false} ScanOffsetAt(offset: U64, bytes: U64, blocksize: nat, flush: bool, i: nat)
    requires ValidBlockSize(blocksize) && i < |ScanOffsets(offset, bytes, blocksize, flush)|
    ensures ScanOffsets(offset, bytes, blocksize, flush)[i] == ToU64(offset + i * blocksize)
    decreases i
  {
    if i > 0 {
      var next := ToU64(offset + blocksize);
      assert !flush && ScanOffsets(offset, bytes, blocksize, flush)[i]
        == ScanOffsets(next, bytes - blocksize, blocksize, flush)[i - 1];
      ScanOffsetAt(next, bytes - blocksize, blocksize, flush, i - 1);
      NextOffset(offset, blocksize, i);
    }
  }

  /** The offset i blocks on is one block on, then i - 1 blocks further. */
  lemma {:induction false} NextOffset(offset: U64, blocksize: nat, i: nat)
    requires i > 0
    ensures ToU64(ToU64(offset + blocksize) + (i - 1) * blocksize) == ToU64(offset + i * blocksize)
  {
    ToU64AddLeft(offset + blocksize, (i - 1) * blocksize);
    assert blocksize + (i - 1) * blocksize == i * blocksize;
  }

  lemma {:induction false} DivStep(x: nat, d: nat)
    requires 0 < d <= x
    ensures (x - d) / d + 1 == x / d
    ensures x / d >= 1
  {
    var q := (x - d) / d;
    var r := (x - d) % d;
    assert x - d == d * q + r;
    assert x == d * (q + 1) + r;
    DivUnique(x, d, q + 1, r);
  }

  /** Division is determined by quotient and remainder. */
  lemma {:induction false} DivUnique(x: nat, d: nat, q: nat, r: nat)
    requires 0 < d && r < d && x == d * q + r
    ensures x / d == q
  {
    var q', r' := x / d, x % d;
    assert x == d * q' + r';
    if q' > q {
      MulMonotone(d, q + 1, q');
      assert false;
    } else if q' < q {
      MulMonotone(d, q' + 1, q);
      assert false;
    }
  }

  lemma {:induction false} MulMonotone(d: nat, a: nat, b: nat)
    requires a <= b
    ensures d * a <= d * b
  {
    var k: nat := b - a;
    assert d * b == d * a + d * k;
  }

  /** A range shorter than one block reads nothing. */
  lemma {:induction false} ShortRangeReadsNothing(offset: U64, bytes: U64, blocksize: nat, flush: bool)
    requires ValidBlockSize(blocksize) && bytes < blocksize
    ensures ScanOffsets(offset, bytes, blocksize, flush) == []
  {
  }

  // ---------------------------------------------------------------------
  // Output

  /** A piece of standard output: an echoed line, or the annotated line of one inspected block. */
  datatype Chunk = Echo(text: string) | BlockLine(text: string, kind: BlockType)

  /** The fields the print loop writes: slots below `idx`, except those holding "00", in slot order. */
  function PrintedFields(lists: Buffer, idx: nat): seq<string>
    requires idx <= FIELDS
  {
    if idx == 0 then []
    else
      var fs := PrintedFields(lists, idx - 1);
      if lists[idx - 1] == "00" then fs else fs + [lists[idx - 1]]
  }

  /**
   * The print loop writes exactly the slots below `idx` that do not hold
   * "00": nothing else, and none of those is left out.
   */
  lemma {:induction false} PrintedFieldsAreSlots(lists: Buffer, idx: nat)
    requires idx <= FIELDS
    ensures forall f :: f in PrintedFields(lists, idx) <==> f != "00" && f in lists[..idx]
    ensures |PrintedFields(lists, idx)| <= idx
  {
    if idx > 0 {
      PrintedFieldsAreSlots(lists, idx - 1);
      assert lists[..idx] == lists[..idx - 1] + [lists[idx - 1]];
    }
  }

  /** The slots the print loop writes, as indices: those below `idx` not holding "00", in increasing order. */
  function PrintedSlots(lists: Buffer, idx: nat): seq<nat>
    requires idx <= FIELDS
  {
    if idx == 0 then []
    else
      var ks := PrintedSlots(lists, idx - 1);
      if lists[idx - 1] == "00" then ks else ks + [idx - 1]
  }

  /** The printed slots are strictly increasing, and are exactly the slots below `idx` not holding "00". */
  lemma {:induction false} PrintedSlotsFilter(lists: Buffer, idx: nat)
    requires idx <= FIELDS
    ensures var ks := PrintedSlots(lists, idx);
      && (forall i, j :: 0 <= i < j < |ks| ==> ks[i] < ks[j])
      && (forall k :: k in ks <==> 0 <= k < idx && lists[k] != "00")
  {
    if idx > 0 {
      var ks := PrintedSlots(lists, idx - 1);
      PrintedSlotsFilter(lists, idx - 1);
      if lists[idx - 1] != "00" {
        var ks' := ks + [idx - 1];
        assert PrintedSlots(lists, idx) == ks';
        forall k
          ensures k in ks' <==> 0 <= k < idx && lists[k] != "00"
        {
          assert k in ks' <==> k in ks || k == idx - 1;
        }
        forall i, j | 0 <= i < j < |ks'|
          ensures ks'[i] < ks'[j]
        {
          assert ks'[i] == ks[i] && ks[i] in ks;
          if j < |ks| {
            assert ks'[j] == ks[j];
          }
        }
      }
    }
  }

  /**
   * The print loop writes the contents of exactly those slots, each once and
   * in slot order.
   */
  lemma {:induction false} PrintedFieldsInSlotOrder(lists: Buffer, idx: nat)
    requires idx <= FIELDS
    ensures |PrintedFields(lists, idx)| == |PrintedSlots(lists, idx)|
    ensures forall j :: 0 <= j < |PrintedSlots(lists, idx)| ==>
      PrintedSlots(lists, idx)[j] < idx && PrintedFields(lists, idx)[j] == lists[PrintedSlots(lists, idx)[j]]
  {
    if idx > 0 {
      var fs, ks := PrintedFields(lists, idx - 1), PrintedSlots(lists, idx - 1);
      PrintedFieldsInSlotOrder(lists, idx - 1);
      if lists[idx - 1] != "00" {
        var fs', ks' := fs + [lists[idx - 1]], ks + [idx - 1];
        assert PrintedFields(lists, idx) == fs' && PrintedSlots(lists, idx) == ks';
        forall j | 0 <= j < |ks'|
          ensures ks'[j] < idx && fs'[j] == lists[ks'[j]]
        {
          if j < |ks| {
            assert fs'[j] == fs[j] && ks'[j] == ks[j];
          }
        }
      }
    }
  }

  /** One annotated line: every printed field followed by a blank, then the kind's tag and a newline. */
  function BlockLineText(lists: Buffer, idx: nat, t: BlockType): string
    requires idx <= FIELDS
  {
    Spaced(PrintedFields(lists, idx)) + Label(t) + "\n"
  }

  /**
   * The print loop `for (k = 0; k < idx; k++)` as written: skip a slot
   * holding "00", print any other followed by a blank, then the tag and the
   * end of line.
   */
  method WriteBlockLine(lists: Buffer, idx: nat, t: BlockType) returns (text: string)
    requires idx <= FIELDS
    ensures text == BlockLineText(lists, idx, t)
  {
    text := [];
    var k := 0;
    while k < idx
      invariant k <= idx
      invariant text == Spaced(PrintedFields(lists, k))
    {
      if lists[k] != "00" {
        SpacedSnoc(PrintedFields(lists, k), lists[k]);
        text := text + lists[k] + " ";
      }
      k := k + 1;
    }
    text := text + Label(t) + "\n";
  }

  /** The buffer, the output and the counters after inspecting some blocks of an event. */
  datatype Emission = Emission(lists: Buffer, chunks: seq<Chunk>, stats: Stats)

  /** How many of the chunks are annotated lines of kind `t`. */
  function KindCount(chunks: seq<Chunk>, t: BlockType): nat
  {
    if chunks == [] then 0
    else (if chunks[0].BlockLine? && chunks[0].kind == t then 1 else 0) + KindCount(chunks[1..], t)
  }

  /** How many of the chunks are annotated block lines. */
  function BlockLines(chunks: seq<Chunk>): nat
  {
    if chunks == [] then 0
    else (if chunks[0].BlockLine? then 1 else 0) + BlockLines(chunks[1..])
  }

  lemma {:induction false} CountsOfConcat(a: seq<Chunk>, b: seq<Chunk>)
    ensures forall t :: KindCount(a + b, t) == KindCount(a, t) + KindCount(b, t)
    ensures BlockLines(a + b) == BlockLines(a) + BlockLines(b)
    decreases |a|
  {
    if a != [] {
      assert (a + b)[1..] == a[1..] + b;
      CountsOfConcat(a[1..], b);
    } else {
      assert a + b == b;
    }
  }

  /** Every annotated line has exactly one kind. */
  lemma {:induction false} KindCountsSum(chunks: seq<Chunk>)
    ensures KindCount(chunks, Doc) + KindCount(chunks, BNode) + KindCount(chunks, DbHeader)
          + KindCount(chunks, Superblock) + KindCount(chunks, NotFdb) == BlockLines(chunks)
    decreases |chunks|
  {
    if chunks != [] {
      KindCountsSum(chunks[1..]);
    }
  }

  /**
   * Counters that grew by exactly what some output tagged stay consistent:
   * every annotated line has one kind, so the kind counters and the total
   * grow by the same amount.
   */
  lemma {:induction false} GrowthKeepsConsistent(s0: Stats, s1: Stats, chunks: seq<Chunk>)
    requires Consistent(s0)
    requires s1.total == s0.total + BlockLines(chunks)
    requires forall t :: Count(s1, t) == Count(s0, t) + KindCount(chunks, t)
    ensures Consistent(s1)
  {
    KindCountsSum(chunks);
    assert Count(s1, Doc) == Count(s0, Doc) + KindCount(chunks, Doc);
    assert Count(s1, BNode) == Count(s0, BNode) + KindCount(chunks, BNode);
    assert Count(s1, DbHeader) == Count(s0, DbHeader) + KindCount(chunks, DbHeader);
    assert Count(s1, Superblock) == Count(s0, Superblock) + KindCount(chunks, Superblock);
    assert Count(s1, NotFdb) == Count(s0, NotFdb) + KindCount(chunks, NotFdb);
  }

  /**
   * Inspecting the blocks at `offsets` in order: each block's marker is
   * classified and counted, slot 7 is rewritten to the block's offset in
   * decimal, and one annotated line is printed.
   */
  function Emit(dev: Device, blocksize: nat, lists: Buffer, idx: nat, offsets: seq<U64>, stats: Stats): (e: Emission)
    requires ValidBlockSize(blocksize) && idx <= FIELDS
    decreases |offsets|
  {
    if offsets == [] then Emission(lists, [], stats)
    else
      var t := Classify(MarkerByte(dev, offsets[0], blocksize));
      var current := lists[7 := DecimalOf(offsets[0])];
      var rest := Emit(dev, blocksize, current, idx, offsets[1..], Record(stats, t));
      Emission(rest.lists, [BlockLine(BlockLineText(current, idx, t), t)] + rest.chunks, rest.stats)
  }

  /**
   * An event prints one line per block, and each kind's counter (and the
   * total) grows by exactly the number of lines tagged with that kind.
   */
  lemma {:induction false} EmitCounts(dev: Device, blocksize: nat, lists: Buffer, idx: nat, offsets: seq<U64>, stats: Stats)
    requires ValidBlockSize(blocksize) && idx <= FIELDS
    ensures var e := Emit(dev, blocksize, lists, idx, offsets, stats);
      && |e.chunks| == |offsets|
      && BlockLines(e.chunks) == |offsets|
      && e.stats.total == stats.total + |offsets|
      && forall t :: Count(e.stats, t) == Count(stats, t) + KindCount(e.chunks, t)
    decreases |offsets|
  {
    if offsets != [] {
      var t := Classify(MarkerByte(dev, offsets[0], blocksize));
      var current := lists[7 := DecimalOf(offsets[0])];
      EmitCounts(dev, blocksize, current, idx, offsets[1..], Record(stats, t));
    }
  }

  /**
   * The i-th line of an event describes the i-th block: the buffer with slot
   * 7 set to that block's offset, tagged with the kind of that block's marker.
   */
  lemma {:induction false} EmitLine(dev: Device, blocksize: nat, lists: Buffer, idx: nat, offsets: seq<U64>, stats: Stats, i: nat)
    requires ValidBlockSize(blocksize) && idx <= FIELDS && i < |offsets|
    ensures i < |Emit(dev, blocksize, lists, idx, offsets, stats).chunks|
    ensures var t := Classify(MarkerByte(dev, offsets[i], blocksize));
      Emit(dev, blocksize, lists, idx, offsets, stats).chunks[i]
        == BlockLine(BlockLineText(lists[7 := DecimalOf(offsets[i])], idx, t), t)
    decreases i
  {
    EmitCounts(dev, blocksize, lists, idx, offsets, stats);
    if i > 0 {
      var t := Classify(MarkerByte(dev, offsets[0], blocksize));
      var current := lists[7 := DecimalOf(offsets[0])];
      var rest := Emit(dev, blocksize, current, idx, offsets[1..], Record(stats, t));
      assert Emit(dev, blocksize, lists, idx, offsets, stats).chunks[i] == rest.chunks[i - 1];
      EmitLine(dev, blocksize, current, idx, offsets[1..], Record(stats, t), i - 1);
      assert offsets[1..][i - 1] == offsets[i];
      OverwriteSlot(lists, 7, DecimalOf(offsets[0]), DecimalOf(offsets[i]));
    }
  }

  lemma {:induction false} OverwriteSlot(lists: Buffer, k: nat, a: string, b: string)
    requires k < FIELDS
    ensures lists[k := a][k := b] == lists[k := b]
  {
  }

  /** After an event, slot 7 holds the offset of its last block; the rest of the buffer is unchanged. */
  lemma {:induction false} EmitBuffer(dev: Device, blocksize: nat, lists: Buffer, idx: nat, offsets: seq<U64>, stats: Stats)
    requires ValidBlockSize(blocksize) && idx <= FIELDS
    ensures Emit(dev, blocksize, lists, idx, offsets, stats).lists
      == if offsets == [] then lists else lists[7 := DecimalOf(offsets[|offsets| - 1])]
    decreases |offsets|
  {
    if offsets != [] {
      var t := Classify(MarkerByte(dev, offsets[0], blocksize));
      var current := lists[7 := DecimalOf(offsets[0])];
      EmitBuffer(dev, blocksize, current, idx, offsets[1..], Record(stats, t));
      if |offsets| > 1 {
        OverwriteSlot(lists, 7, DecimalOf(offsets[0]), DecimalOf(offsets[|offsets| - 1]));
      }
    }
  }

  /**
   * The loop `while (blocksize <= bytes && 0 < bytes)` as written: read,
   * classify and count a block, rewrite slot 7, advance offset and length,
   * print, and stop after one block when the action starts with 'F'.
   */
  method InspectRange(dev: Device, blocksize: nat, lists0: Buffer, idx: nat, offset0: U64, bytes0: U64, stats0: Stats)
    returns (lists: Buffer, chunks: seq<Chunk>, stats: Stats)
    requires ValidBlockSize(blocksize) && idx <= FIELDS
    ensures Emission(lists, chunks, stats)
      == Emit(dev, blocksize, lists0, idx, ScanOffsets(offset0, bytes0, blocksize, Head(lists0[6]) == 'F'), stats0)
    ensures Consistent(stats0) ==> Consistent(stats)
  {
    var flush := Head(lists0[6]) == 'F';
    ghost var whole := Emit(dev, blocksize, lists0, idx, ScanOffsets(offset0, bytes0, blocksize, flush), stats0);
    assert [] + whole.chunks == whole.chunks;
    lists, chunks, stats := BlockLoop(dev, blocksize, lists0, idx, offset0, bytes0, stats0, whole);
  }

  /**
   * The block loop itself, given the emission it is to produce: the loop
   * invariant says that the lines printed so far, followed by the emission of
   * the blocks that remain, make up `whole`.
   */
  method BlockLoop(dev: Device, blocksize: nat, lists0: Buffer, idx: nat, offset0: U64, bytes0: U64, stats0: Stats, ghost whole: Emission)
    returns (lists: Buffer, chunks: seq<Chunk>, stats: Stats)
    requires ValidBlockSize(blocksize) && idx <= FIELDS
    requires Resumes(whole, [], Emit(dev, blocksize, lists0, idx, ScanOffsets(offset0, bytes0, blocksize, Head(lists0[6]) == 'F'), stats0))
    ensures Emission(lists, chunks, stats) == whole
    ensures Consistent(stats0) ==> Consistent(stats)
  {
    var flush := Head(lists0[6]) == 'F';
    var offset: U64, bytes: U64 := offset0, bytes0;
    lists, chunks, stats := lists0, [], stats0;
    while blocksize <= bytes && 0 < bytes
      invariant lists[6] == lists0[6]
      invariant Consistent(stats0) ==> Consistent(stats)
      invariant Resumes(whole, chunks, Emit(dev, blocksize, lists, idx, ScanOffsets(offset, bytes, blocksize, flush), stats))
      decreases bytes
    {
      ghost var lists_, offset_, bytes_, stats_, chunks_ := lists, offset, bytes, stats, chunks;
      var t := Classify(MarkerByte(dev, offset, blocksize));
      stats := Record(stats, t);
      lists := lists[7 := DecimalOf(offset)];
      offset := ToU64(offset + blocksize);
      bytes := bytes - blocksize;
      var text := WriteBlockLine(lists, idx, t);
      chunks := chunks + [BlockLine(text, t)];
      LoopStep(dev, blocksize, lists_, idx, offset_, bytes_, stats_, flush, whole, chunks_, lists, offset, bytes, stats, chunks);
      if Head(lists[6]) == 'F' {
        break;
      }
    }
    assert Resumes(whole, chunks, Emission(lists, [], stats));
    assert chunks + [] == chunks;
  }

  /** `whole` is what is printed so far followed by the emission of the remaining blocks. */
  ghost predicate Resumes(whole: Emission, done: seq<Chunk>, rest: Emission)
  {
    whole == Emission(rest.lists, done + rest.chunks, rest.stats)
  }

  /**
   * One turn of the block loop keeps `Resumes`: the first remaining block's
   * line moves to the printed part and the scan continues from the next
   * offset (or ends, for a flush).
   */
  lemma {:induction false} LoopStep(dev: Device, blocksize: nat, lists: Buffer, idx: nat, offset: U64, bytes: U64, stats: Stats, flush: bool,
                 whole: Emission, done: seq<Chunk>,
                 lists': Buffer, offset': U64, bytes': U64, stats': Stats, done': seq<Chunk>)
    requires ValidBlockSize(blocksize) && idx <= FIELDS && blocksize <= bytes
    requires Resumes(whole, done, Emit(dev, blocksize, lists, idx, ScanOffsets(offset, bytes, blocksize, flush), stats))
    requires lists' == lists[7 := DecimalOf(offset)]
    requires offset' == ToU64(offset + blocksize) && bytes' == bytes - blocksize
    requires stats' == Record(stats, Classify(MarkerByte(dev, offset, blocksize)))
    requires done' == done + [BlockLine(BlockLineText(lists', idx, Classify(MarkerByte(dev, offset, blocksize))),
                                        Classify(MarkerByte(dev, offset, blocksize)))]
    ensures flush ==> Resumes(whole, done', Emission(lists', [], stats'))
    ensures !flush ==> Resumes(whole, done', Emit(dev, blocksize, lists', idx, ScanOffsets(offset', bytes', blocksize, flush), stats'))
  {
    LoopAdvance(dev, blocksize, lists, idx, offset, bytes, stats, flush, whole, done);
  }

  lemma {:induction false} LoopAdvance(dev: Device, blocksize: nat, lists: Buffer, idx: nat, offset: U64, bytes: U64, stats: Stats, flush: bool,
                 whole: Emission, done: seq<Chunk>)
    requires ValidBlockSize(blocksize) && idx <= FIELDS && blocksize <= bytes
    requires Resumes(whole, done, Emit(dev, blocksize, lists, idx, ScanOffsets(offset, bytes, blocksize, flush), stats))
    ensures
      var t := Classify(MarkerByte(dev, offset, blocksize));
      var current := lists[7 := DecimalOf(offset)];
      var done' := done + [BlockLine(BlockLineText(current, idx, t), t)];
      && (flush ==> Resumes(whole, done', Emission(current, [], Record(stats, t))))
      && (!flush ==> Resumes(whole, done', Emit(dev, blocksize, current, idx,
                                               ScanOffsets(ToU64(offset + blocksize), bytes - blocksize, blocksize, flush),
                                               Record(stats, t))))
  {
    var t := Classify(MarkerByte(dev, offset, blocksize));
    var current := lists[7 := DecimalOf(offset)];
    var line := BlockLine(BlockLineText(current, idx, t), t);
    var offsets := ScanOffsets(offset, bytes, blocksize, flush);
    var tail := if flush then [] else ScanOffsets(ToU64(offset + blocksize), bytes - blocksize, blocksize, flush);
    assert offsets == [offset] + tail;
    assert offsets[1..] == tail;
    var rest := Emit(dev, blocksize, current, idx, tail, Record(stats, t));
    assert Emit(dev, blocksize, lists, idx, offsets, stats) == Emission(rest.lists, [line] + rest.chunks, rest.stats);
    ConcatAssoc(done, [line], rest.chunks);
  }

  /**
   * The number of lines an event prints: ⌊L/B⌋ for a read or write, at most
   * one for a flush, none when the range is shorter than a block.
   */
  lemma {:induction false} EventBlockCount(dev: Device, blocksize: nat, lists: Buffer, idx: nat, offset: U64, bytes: U64, stats: Stats, flush: bool)
    requires ValidBlockSize(blocksize) && idx <= FIELDS
    ensures |Emit(dev, blocksize, lists, idx, ScanOffsets(offset, bytes, blocksize, flush), stats).chunks|
      == BlockCount(bytes, blocksize, flush)
    ensures flush ==> |Emit(dev, blocksize, lists, idx, ScanOffsets(offset, bytes, blocksize, flush), stats).chunks| <= 1
  {
    EmitCounts(dev, blocksize, lists, idx, ScanOffsets(offset, bytes, blocksize, flush), stats);
    ScanLength(offset, bytes, blocksize, flush);
  }

  /** A slot holds at most one field: no white space inside it. */
  predicate Clean(lists: Buffer)
  {
    forall k :: 0 <= k < FIELDS ==> NoSpace(lists[k])
  }

  /**
   * Tokenizing an annotated line gives back the printed fields that are not
   * empty, followed by the block's tag.
   */
  lemma {:induction false} BlockLineFields(lists: Buffer, idx: nat, t: BlockType)
    requires idx <= FIELDS && Clean(lists)
    ensures Words(BlockLineText(lists, idx, t)) == NonEmpty(PrintedFields(lists, idx)) + [Label(t)]
  {
    var fs := PrintedFields(lists, idx);
    PrintedFieldsAreSlots(lists, idx);
    forall i | 0 <= i < |fs|
      ensures NoSpace(fs[i])
    {
      assert fs[i] in lists[..idx];
    }
    assert BlockLineText(lists, idx, t) == Spaced(fs) + (Label(t) + "\n");
    WordsOfSpaced(fs, Label(t) + "\n");
    LabelsAreDistinctFields(t, t);
    WordsOfSeparated(Label(t), '\n', []);
    assert Label(t) + "\n" == Label(t) + ['\n'] + [];
  }
}
