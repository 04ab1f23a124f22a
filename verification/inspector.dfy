/**
 * The inspection session: every line of the trace read from standard input
 * is tokenized into the persistent field buffer and then dropped, echoed,
 * or expanded into one annotated line per block; at end of input the
 * counters are reported.
 */
module Inspector {
  import opened Machine
  import opened Text
  import opened Marker
  import opened Trace
  import opened BlockRange

  /** What survives from one line to the next: the field buffer and the counters. */
  datatype State = State(lists: Buffer, stats: Stats)

  /** The state `do_inspect` starts from: empty slots and zeroed counters. */
  const INITIAL: State := State(EMPTY_BUFFER, ZERO)

  /**
   * The effect of one line: the next state and what it writes to standard
   * output, or termination by the uncaught `std::out_of_range` that
   * `substr(1, …)` throws on an empty slot 10.
   */
  datatype LineResult = Continue(state: State, chunks: seq<Chunk>) | Terminated

  /** One turn of the `fgets` loop. */
  function Step(blocksize: nat, app: string, dev: Device, st: State, line: string): LineResult
    requires ValidBlockSize(blocksize)
  {
    var tok := Tokenize(line, st.lists);
    match Decide(tok, app)
    case SubstrOutOfRange => Terminated
    case SelfIo => Continue(State(tok.lists, st.stats), [])
    case PassThrough => Continue(State(tok.lists, st.stats), [Echo(line)])
    case Actionable(offset, bytes, flush) =>
      var e := Event(blocksize, dev, st.stats, tok, offset, bytes, flush);
      Continue(State(e.lists, e.stats), e.chunks)
  }

  /**
   * The block loop of an event: slot 9 is overwritten with "8" first, then
   * each block from `offset` on is inspected.
   */
  function Event(blocksize: nat, dev: Device, stats: Stats, tok: Tokens, offset: U64, bytes: U64, flush: bool): Emission
    requires ValidBlockSize(blocksize) && tok.idx <= FIELDS
  {
    Emit(dev, blocksize, tok.lists[9 := "8"], tok.idx, ScanOffsets(offset, bytes, blocksize, flush), stats)
  }

  /** A line that is an event continues with the event's buffer, counters and output. */
  lemma {:induction false} StepOfEvent(blocksize: nat, app: string, dev: Device, st: State, line: string)
    requires ValidBlockSize(blocksize)
    requires Decide(Tokenize(line, st.lists), app).Actionable?
    ensures var tok := Tokenize(line, st.lists);
      var d := Decide(tok, app);
      var e := Event(blocksize, dev, st.stats, tok, d.offset, d.bytes, d.flush);
      Step(blocksize, app, dev, st, line) == Continue(State(e.lists, e.stats), e.chunks)
  {
  }

  /**
   * An event prints ⌊L/B⌋ annotated lines for a byte length L (at most one
   * for an index flush) and nothing else; each kind's counter grows by the
   * number of lines tagged with it, the total by the number of lines.
   */
  lemma {:induction false} EventCounts(blocksize: nat, dev: Device, stats: Stats, tok: Tokens, offset: U64, bytes: U64, flush: bool)
    requires ValidBlockSize(blocksize) && tok.idx <= FIELDS
    ensures var e := Event(blocksize, dev, stats, tok, offset, bytes, flush);
      && |e.chunks| == BlockLines(e.chunks) == BlockCount(bytes, blocksize, flush)
      && (flush ==> |e.chunks| <= 1)
      && e.stats.total == stats.total + BlockLines(e.chunks)
      && forall t :: Count(e.stats, t) == Count(stats, t) + KindCount(e.chunks, t)
  {
    var offsets := ScanOffsets(offset, bytes, blocksize, flush);
    EmitCounts(dev, blocksize, tok.lists[9 := "8"], tok.idx, offsets, stats);
    EventBlockCount(dev, blocksize, tok.lists[9 := "8"], tok.idx, offset, bytes, stats, flush);
  }

  /**
   * The i-th annotated line of an event describes the block at byte offset
   * off + i·B (modulo 2^64): the line's fields with the sector count replaced
   * by "8" and the start sector by that offset, tagged with the kind of the
   * block's marker byte.
   */
  lemma {:induction false} EventLine(blocksize: nat, dev: Device, stats: Stats, tok: Tokens, offset: U64, bytes: U64, flush: bool, i: nat)
    requires ValidBlockSize(blocksize) && tok.idx <= FIELDS
    requires i < |Event(blocksize, dev, stats, tok, offset, bytes, flush).chunks|
    ensures var at := ToU64(offset + i * blocksize);
      var t := Classify(MarkerByte(dev, at, blocksize));
      Event(blocksize, dev, stats, tok, offset, bytes, flush).chunks[i]
        == BlockLine(BlockLineText(tok.lists[9 := "8"][7 := DecimalOf(at)], tok.idx, t), t)
  {
    var offsets := ScanOffsets(offset, bytes, blocksize, flush);
    EmitCounts(dev, blocksize, tok.lists[9 := "8"], tok.idx, offsets, stats);
    ScanOffsetAt(offset, bytes, blocksize, flush, i);
    EmitLine(dev, blocksize, tok.lists[9 := "8"], tok.idx, offsets, stats, i);
  }

  /**
   * Re-tokenizing an annotated line gives the printed fields that are not
   * empty, then the block's tag; when the line has a start-sector field the
   * block's offset is among them, and it reads back as that offset whenever
   * it fits a `long long`.
   */
  lemma {:induction false} EventLineReadsBack(blocksize: nat, dev: Device, stats: Stats, tok: Tokens, offset: U64, bytes: U64, flush: bool, i: nat)
    requires ValidBlockSize(blocksize) && tok.idx <= FIELDS && Clean(tok.lists)
    requires i < |Event(blocksize, dev, stats, tok, offset, bytes, flush).chunks|
    ensures var at := ToU64(offset + i * blocksize);
      var lists := tok.lists[9 := "8"][7 := DecimalOf(at)];
      var t := Classify(MarkerByte(dev, at, blocksize));
      && Event(blocksize, dev, stats, tok, offset, bytes, flush).chunks[i].text
         == BlockLineText(lists, tok.idx, t)
      && Words(BlockLineText(lists, tok.idx, t)) == NonEmpty(PrintedFields(lists, tok.idx)) + [Label(t)]
      && (7 < tok.idx ==> DecimalOf(at) in PrintedFields(lists, tok.idx))
      && (at <= LLONG_MAX ==> Atoll(DecimalOf(at)) == at)
  {
    var at := ToU64(offset + i * blocksize);
    var lists := tok.lists[9 := "8"][7 := DecimalOf(at)];
    var t := Classify(MarkerByte(dev, at, blocksize));
    EventLine(blocksize, dev, stats, tok, offset, bytes, flush, i);
    DecimalIsField(at);
    assert NoSpace("8");
    assert Clean(lists);
    BlockLineFields(lists, tok.idx, t);
    PrintedFieldsAreSlots(lists, tok.idx);
    if 7 < tok.idx {
      assert lists[..tok.idx][7] == DecimalOf(at);
    }
    if at <= LLONG_MAX {
      AtollOfDecimal(at);
    }
  }

  /** An event leaves every slot a single field. */
  lemma {:induction false} EventKeepsClean(blocksize: nat, dev: Device, stats: Stats, tok: Tokens, offset: U64, bytes: U64, flush: bool)
    requires ValidBlockSize(blocksize) && tok.idx <= FIELDS && Clean(tok.lists)
    ensures Clean(Event(blocksize, dev, stats, tok, offset, bytes, flush).lists)
  {
    var lists := tok.lists[9 := "8"];
    assert NoSpace("8");
    assert Clean(lists);
    var offsets := ScanOffsets(offset, bytes, blocksize, flush);
    EmitBuffer(dev, blocksize, lists, tok.idx, offsets, stats);
    if offsets != [] {
      DecimalIsField(offsets[|offsets| - 1]);
    }
  }

  /** Tokenizing fills slots with single fields only. */
  lemma {:induction false} TokenizeKeepsClean(line: string, lists: Buffer)
    requires Clean(lists)
    ensures Clean(Tokenize(line, lists).lists)
  {
    var tok := Tokenize(line, lists);
    var ws := Words(line);
    TokenizeSlots(line, lists);
    forall k | 0 <= k < FIELDS
      ensures NoSpace(tok.lists[k])
    {
      if k < |ws| {
        assert IsWord(ws[k]);
      }
    }
  }

  /**
   * A line changes the counters by exactly what it prints: each kind's
   * counter grows by the number of lines tagged with that kind, the total by
   * the number of annotated lines.
   */
  lemma {:induction false} StepCounters(blocksize: nat, app: string, dev: Device, st: State, line: string)
    requires ValidBlockSize(blocksize)
    ensures var r := Step(blocksize, app, dev, st, line);
      r.Continue? ==>
        && r.state.stats.total == st.stats.total + BlockLines(r.chunks)
        && forall t :: Count(r.state.stats, t) == Count(st.stats, t) + KindCount(r.chunks, t)
  {
    var tok := Tokenize(line, st.lists);
    var d := Decide(tok, app);
    if d.Actionable? {
      StepOfEvent(blocksize, app, dev, st, line);
      EventCounts(blocksize, dev, st.stats, tok, d.offset, d.bytes, d.flush);
    }
  }

  /** Every slot only ever holds a single field. */
  lemma {:induction false} StepKeepsClean(blocksize: nat, app: string, dev: Device, st: State, line: string)
    requires ValidBlockSize(blocksize) && Clean(st.lists)
    ensures var r := Step(blocksize, app, dev, st, line);
      r.Continue? ==> Clean(r.state.lists)
  {
    var tok := Tokenize(line, st.lists);
    TokenizeKeepsClean(line, st.lists);
    var d := Decide(tok, app);
    if d.Actionable? {
      StepOfEvent(blocksize, app, dev, st, line);
      EventKeepsClean(blocksize, dev, st.stats, tok, d.offset, d.bytes, d.flush);
    }
  }

  /** A line taken for the inspector's own read prints nothing and counts nothing; only the buffer changes. */
  lemma {:induction false} SelfIoIsDropped(blocksize: nat, app: string, dev: Device, st: State, line: string)
    requires ValidBlockSize(blocksize)
    requires Decide(Tokenize(line, st.lists), app) == SelfIo
    ensures var r := Step(blocksize, app, dev, st, line);
      r == Continue(State(Tokenize(line, st.lists).lists, st.stats), [])
  {
  }

  /**
   * A line of 11 or 12 fields whose eleventh field, past its first
   * character, starts with the program name is taken for the inspector's
   * own read.
   */
  lemma {:induction false} NamedLineIsSelfIo(app: string, st: State, line: string)
    requires 11 <= |Words(line)| <= 12 && app <= Words(line)[10][1..]
    ensures Decide(Tokenize(line, st.lists), app) == SelfIo
  {
    var tok := Tokenize(line, st.lists);
    TokenizeSlots(line, st.lists);
    DecideCases(tok, app);
    assert tok.lists[10] == Words(line)[10];
  }

  /**
   * A line of exactly ten fields is taken for the inspector's own read when
   * slot 10, left there by an earlier line, matches the program name: the
   * test reads a field the line does not have.
   */
  lemma {:induction false} TenFieldLineMatchingStaleSlotIsSelfIo(app: string, st: State, line: string)
    requires |Words(line)| == 10 && st.lists[10] != [] && app <= st.lists[10][1..]
    ensures Decide(Tokenize(line, st.lists), app) == SelfIo
  {
    var tok := Tokenize(line, st.lists);
    TokenizeSlots(line, st.lists);
    DecideCases(tok, app);
    assert tok.idx == 11 && tok.lists[10] == st.lists[10];
  }

  /**
   * A line is echoed exactly when it is neither the inspector's own I/O nor
   * an event; echoing changes no counter.
   */
  lemma {:induction false} EchoedExactlyWhenPassThrough(blocksize: nat, app: string, dev: Device, st: State, line: string)
    requires ValidBlockSize(blocksize)
    ensures var r := Step(blocksize, app, dev, st, line);
      r.Continue? && r.chunks == [Echo(line)] <==> Decide(Tokenize(line, st.lists), app) == PassThrough
    ensures var r := Step(blocksize, app, dev, st, line);
      Decide(Tokenize(line, st.lists), app) == PassThrough ==> r.Continue? && r.state.stats == st.stats
  {
    var tok := Tokenize(line, st.lists);
    var d := Decide(tok, app);
    if d.Actionable? {
      StepOfEvent(blocksize, app, dev, st, line);
      EventCounts(blocksize, dev, st.stats, tok, d.offset, d.bytes, d.flush);
      assert BlockLines([Echo(line)]) == 0;
    }
  }

  /**
   * An index-flush record is an event whatever its field count. With fewer
   * than ten fields, the sector count (and with seven fields the start
   * sector too) is read from a slot that the line did not reach, that is,
   * from whatever an earlier line left there.
   */
  lemma {:induction false} ShortIndexFlushReadsStaleSlots(app: string, st: State, line: string)
    requires 7 <= |Words(line)| <= 9
    requires Head(Words(line)[5]) == 'I' && Head(Words(line)[6]) == 'F'
    ensures var d := Decide(Tokenize(line, st.lists), app);
      && d.Actionable? && d.flush
      && d.bytes == SectorsToBytes(st.lists[9])
      && (|Words(line)| == 7 ==> d.offset == SectorsToBytes(st.lists[7]))
  {
    var tok := Tokenize(line, st.lists);
    TokenizeSlots(line, st.lists);
    DecideCases(tok, app);
    assert tok.lists[5] == Words(line)[5] && tok.lists[6] == Words(line)[6];
    assert tok.lists[9] == st.lists[9];
    assert |Words(line)| == 7 ==> tok.lists[7] == st.lists[7];
  }

  /**
   * On a buffer whose slot 9 was never filled, a short index-flush record
   * has length 0: it is neither annotated nor echoed, and vanishes.
   */
  lemma {:induction false} ShortIndexFlushVanishes(blocksize: nat, app: string, dev: Device, st: State, line: string)
    requires ValidBlockSize(blocksize)
    requires 7 <= |Words(line)| <= 9 && st.lists[9] == ""
    requires Head(Words(line)[5]) == 'I' && Head(Words(line)[6]) == 'F'
    ensures var r := Step(blocksize, app, dev, st, line);
      r.Continue? && r.chunks == [] && r.state.stats == st.stats
  {
    ShortIndexFlushReadsStaleSlots(app, st, line);
    var tok := Tokenize(line, st.lists);
    var d := Decide(tok, app);
    assert Atoll("") == 0;
    assert d.bytes == 0;
    StepOfEvent(blocksize, app, dev, st, line);
    EventCounts(blocksize, dev, st.stats, tok, d.offset, d.bytes, d.flush);
    assert BlockCount(0, blocksize, d.flush) == 0;
  }

  /**
   * A line of exactly ten fields, while slot 10 has never been filled, makes
   * `substr(1, …)` throw and ends the program.
   */
  lemma {:induction false} TenFieldLineOnEmptySlotTerminates(blocksize: nat, app: string, dev: Device, st: State, line: string)
    requires ValidBlockSize(blocksize)
    requires |Words(line)| == 10 && st.lists[10] == ""
    ensures Step(blocksize, app, dev, st, line) == Terminated
  {
    var tok := Tokenize(line, st.lists);
    TokenizeSlots(line, st.lists);
    DecideCases(tok, app);
    assert tok.idx == 11 && tok.lists[10] == "";
  }

  // ---------------------------------------------------------------------
  // The whole trace

  /** Everything written to standard output, the final state, and whether an exception ended the loop. */
  datatype RunResult = RunResult(output: seq<Chunk>, state: State, terminated: bool)

  /** The `fgets` loop over the lines of the trace, in order. */
  function Run(blocksize: nat, app: string, dev: Device, st: State, lines: seq<string>): RunResult
    requires ValidBlockSize(blocksize)
    decreases |lines|
  {
    if lines == [] then RunResult([], st, false)
    else
      match Step(blocksize, app, dev, st, lines[0])
      case Terminated => RunResult([], st, true)
      case Continue(next, chunks) =>
        var rest := Run(blocksize, app, dev, next, lines[1..]);
        RunResult(chunks + rest.output, rest.state, rest.terminated)
  }

  /**
   * Over a whole trace the counters account for the output exactly: each
   * kind's counter grows by the number of lines tagged with it and the total
   * by the number of annotated lines.
   */
  lemma {:induction false} RunCounters(blocksize: nat, app: string, dev: Device, st: State, lines: seq<string>)
    requires ValidBlockSize(blocksize)
    ensures var r := Run(blocksize, app, dev, st, lines);
      && r.state.stats.total == st.stats.total + BlockLines(r.output)
      && forall t :: Count(r.state.stats, t) == Count(st.stats, t) + KindCount(r.output, t)
    decreases |lines|
  {
    if lines != [] {
      var s := Step(blocksize, app, dev, st, lines[0]);
      if s.Continue? {
        var rest := Run(blocksize, app, dev, s.state, lines[1..]);
        assert Run(blocksize, app, dev, st, lines) == RunResult(s.chunks + rest.output, rest.state, rest.terminated);
        StepCounters(blocksize, app, dev, st, lines[0]);
        RunCounters(blocksize, app, dev, s.state, lines[1..]);
        CountsOfConcat(s.chunks, rest.output);
      }
    }
  }

  /** Consistent counters stay consistent over a whole trace. */
  lemma {:induction false} RunKeepsConsistent(blocksize: nat, app: string, dev: Device, st: State, lines: seq<string>)
    requires ValidBlockSize(blocksize) && Consistent(st.stats)
    ensures Consistent(Run(blocksize, app, dev, st, lines).state.stats)
  {
    var r := Run(blocksize, app, dev, st, lines);
    RunCounters(blocksize, app, dev, st, lines);
    GrowthKeepsConsistent(st.stats, r.state.stats, r.output);
  }

  /** No slot ever holds white space, from the empty buffer on. */
  lemma {:induction false} RunKeepsClean(blocksize: nat, app: string, dev: Device, st: State, lines: seq<string>)
    requires ValidBlockSize(blocksize) && Clean(st.lists)
    ensures Clean(Run(blocksize, app, dev, st, lines).state.lists)
    decreases |lines|
  {
    if lines != [] {
      var s := Step(blocksize, app, dev, st, lines[0]);
      if s.Continue? {
        StepKeepsClean(blocksize, app, dev, st, lines[0]);
        RunKeepsClean(blocksize, app, dev, s.state, lines[1..]);
      }
    }
  }

  /** The inspection reaches `print_count` unless a line throws. */
  datatype Ending = Completed(report: Report) | Aborted | NotOpened
  datatype Inspection = Inspection(output: seq<Chunk>, ending: Ending)

  /**
   * `do_inspect` in marker mode 0: if the device opens, zero the counters,
   * run the trace through the fresh buffer, and report the counters at end
   * of input. A device that does not open produces no output.
   */
  function Inspect(marker: int, blocksize: nat, app: string, devOpen: bool, dev: Device, lines: seq<string>): (r: Inspection)
    requires marker == 0 && ValidBlockSize(blocksize)
    ensures !devOpen <==> r.ending == NotOpened
    ensures !devOpen ==> r.output == []
  {
    if !devOpen then Inspection([], NotOpened)
    else
      var run := Run(blocksize, app, dev, INITIAL, lines);
      Inspection(run.output, if run.terminated then Aborted else Completed(MakeReport(run.state.stats)))
  }

  /**
   * The statistics account for the output: the report's rows are the
   * numbers of annotated lines of each kind, the total row the number of
   * annotated lines, and the ForestDB total the recognised ones.
   */
  lemma {:induction false} InspectReport(marker: int, blocksize: nat, app: string, devOpen: bool, dev: Device, lines: seq<string>)
    requires marker == 0 && ValidBlockSize(blocksize)
    ensures var r := Inspect(marker, blocksize, app, devOpen, dev, lines);
      r.ending.Completed? ==>
        && |r.ending.report.rows| == TOTAL_SLOT + 1
        && (forall t :: r.ending.report.rows[Slot(t)].pages == KindCount(r.output, t))
        && r.ending.report.rows[TOTAL_SLOT].pages == BlockLines(r.output)
        && r.ending.report.fdbTotal == BlockLines(r.output) - KindCount(r.output, NotFdb)
  {
    var r := Inspect(marker, blocksize, app, devOpen, dev, lines);
    if r.ending.Completed? {
      var run := Run(blocksize, app, dev, INITIAL, lines);
      assert r.output == run.output && r.ending.report == MakeReport(run.state.stats);
      RunCounters(blocksize, app, dev, INITIAL, lines);
      forall t {
        ZeroCounts(t);
      }
      ReportAccountsFor(run.state.stats, run.output);
    }
  }

  /**
   * Counters that started from zero and grew with the output report, row by
   * row, the lines of each kind, all annotated lines, and the recognised ones.
   */
  lemma {:induction false} ReportAccountsFor(s: Stats, output: seq<Chunk>)
    requires s.total == BlockLines(output)
    requires forall t :: Count(s, t) == KindCount(output, t)
    ensures var r := MakeReport(s);
      && |r.rows| == TOTAL_SLOT + 1
      && (forall t :: r.rows[Slot(t)].pages == KindCount(output, t))
      && r.rows[TOTAL_SLOT].pages == BlockLines(output)
      && r.fdbTotal == BlockLines(output) - KindCount(output, NotFdb)
  {
    assert Count(s, NotFdb) == s.notFdb;
  }

  // ---------------------------------------------------------------------
  // The loops as written

  /** One turn of the `fgets` loop written step by step, the block loop included. */
  method ProcessLine(blocksize: nat, app: string, dev: Device, st: State, line: string) returns (r: LineResult)
    requires ValidBlockSize(blocksize)
    ensures r == Step(blocksize, app, dev, st, line)
  {
    var lists, idx := ExtractTokens(line, st.lists);
    var d := Decide(Tokens(lists, idx), app);
    match d
    case SubstrOutOfRange =>
      r := Terminated;
    case SelfIo =>
      r := Continue(State(lists, st.stats), []);
    case PassThrough =>
      r := Continue(State(lists, st.stats), [Echo(line)]);
    case Actionable(offset, bytes, flush) =>
      lists := lists[9 := "8"];
      var chunks, stats;
      lists, chunks, stats := InspectRange(dev, blocksize, lists, idx, offset, bytes, st.stats);
      r := Continue(State(lists, stats), chunks);
  }

  /** `do_inspect` as a loop over the input lines. */
  method InspectStream(marker: int, blocksize: nat, app: string, devOpen: bool, dev: Device, lines: seq<string>)
    returns (r: Inspection)
    requires marker == 0 && ValidBlockSize(blocksize)
    ensures r == Inspect(marker, blocksize, app, devOpen, dev, lines)
  {
    if !devOpen {
      return Inspection([], NotOpened);
    }
    var st := INITIAL;
    var output: seq<Chunk> := [];
    var terminated := false;
    var i := 0;
    ghost var whole := Run(blocksize, app, dev, INITIAL, lines);
    while i < |lines| && !terminated
      invariant 0 <= i <= |lines|
      invariant terminated ==> whole == RunResult(output, st, true)
      invariant !terminated ==> Continues(whole, output, Run(blocksize, app, dev, st, lines[i..]))
      decreases |lines| - i, !terminated
    {
      var s := ProcessLine(blocksize, app, dev, st, lines[i]);
      assert lines[i..][0] == lines[i] && lines[i..][1..] == lines[i + 1..];
      Advance(blocksize, app, dev, st, lines[i..], whole, output);
      match s
      case Terminated =>
        terminated := true;
      case Continue(next, chunks) =>
        output := output + chunks;
        st := next;
        i := i + 1;
    }
    if !terminated {
      assert lines[i..] == [];
      assert output + [] == output;
    }
    assert whole == RunResult(output, st, terminated);
    if terminated {
      r := Inspection(output, Aborted);
    } else {
      var report := PrintCount(st.stats);
      r := Inspection(output, Completed(report));
    }
  }

  /** `whole` is the output so far followed by the run over the remaining lines. */
  ghost predicate Continues(whole: RunResult, done: seq<Chunk>, rest: RunResult)
  {
    whole == RunResult(done + rest.output, rest.state, rest.terminated)
  }

  /**
   * One line of a run: a line that throws ends it with what was printed so
   * far, any other line's output is appended and the run continues.
   */
  lemma {:induction false} Advance(blocksize: nat, app: string, dev: Device, st: State, lines: seq<string>, whole: RunResult, done: seq<Chunk>)
    requires ValidBlockSize(blocksize) && lines != []
    requires Continues(whole, done, Run(blocksize, app, dev, st, lines))
    ensures var s := Step(blocksize, app, dev, st, lines[0]);
      && (s.Terminated? ==> whole == RunResult(done, st, true))
      && (s.Continue? ==> Continues(whole, done + s.chunks, Run(blocksize, app, dev, s.state, lines[1..])))
  {
    var s := Step(blocksize, app, dev, st, lines[0]);
    if s.Terminated? {
      assert done + [] == done;
    } else {
      var rest := Run(blocksize, app, dev, s.state, lines[1..]);
      assert done + (s.chunks + rest.output) == (done + s.chunks) + rest.output;
    }
  }
}
