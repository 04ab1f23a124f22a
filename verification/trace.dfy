/**
 * One blkparse trace line: splitting it into the 16-slot field buffer
 * (`lists`) and deciding whether it is the inspector's own I/O, an I/O event
 * to inspect, or a line to echo.
 */
module Trace {
  import opened Machine
  import opened Text

  /** Number of field slots; fields past the 16th are never read. */
  const FIELDS: nat := 16

  /** Bytes per sector, the unit of the offset and length fields. */
  const SECTOR_SIZE: nat := 512

  /**
   * The field buffer. It is allocated once and never cleared, so a slot the
   * current line does not reach still holds what an earlier line left there.
   */
  type Buffer = b: seq<string> | |b| == FIELDS witness ["", "", "", "", "", "", "", "", "", "", "", "", "", "", "", ""]

  /** The buffer as allocated by `new string[16]`. */
  const EMPTY_BUFFER: Buffer := ["", "", "", "", "", "", "", "", "", "", "", "", "", "", "", ""]

  /** The buffer after tokenizing, and the counter the extraction loop leaves (`idx`). */
  datatype Tokens = Tokens(lists: Buffer, idx: nat)

  /**
   * Tokenizing a line with n fields: the first min(n, 16) slots receive the
   * fields, the other slots keep their contents, and because the loop
   * increments `idx` on the failing extraction as well, `idx` ends at
   * min(n + 1, 16).
   */
  function Tokenize(line: string, lists: Buffer): Tokens
  {
    var ws := Words(line);
    var n := Min(|ws|, FIELDS);
    Tokens(ws[..n] + lists[n..], Min(|ws| + 1, FIELDS))
  }

  /** Slot k receives the k-th field when the line has one, and keeps its contents otherwise. */
  lemma {:induction false} TokenizeSlots(line: string, lists: Buffer)
    ensures forall k :: 0 <= k < FIELDS ==>
      Tokenize(line, lists).lists[k] == if k < |Words(line)| then Words(line)[k] else lists[k]
  {
  }

  /**
   * The stored fields are the line's own: printing the filled slots with a
   * blank after each and splitting the result again gives back the first
   * min(n, 16) fields of the line.
   */
  lemma {:induction false} TokenizeRoundTrip(line: string, lists: Buffer)
    ensures var n := Min(|Words(line)|, FIELDS);
      Words(Spaced(Tokenize(line, lists).lists[..n])) == Words(line)[..n]
  {
    var ws := Words(line);
    var n := Min(|ws|, FIELDS);
    var fs := Tokenize(line, lists).lists[..n];
    assert fs == ws[..n];
    forall i | 0 <= i < |fs|
      ensures IsWord(fs[i])
    {
      assert fs[i] == ws[i];
    }
    WordsOfSpaced(fs, []);
    NonEmptyOfFields(fs);
    assert Spaced(fs) + [] == Spaced(fs);
  }

  /**
   * The extraction loop `while (idx < 16 && is >> lists[idx++]);` step by
   * step: slot `k` receives the k-th field while there is one, and `idx`
   * is incremented before the extraction is known to succeed.
   */
  method ExtractTokens(line: string, lists0: Buffer) returns (lists: Buffer, idx: nat)
    ensures Tokens(lists, idx) == Tokenize(line, lists0)
    ensures idx == Min(|Words(line)| + 1, FIELDS)
  {
    var ws := Words(line);
    lists := lists0;
    idx := 0;
    var extracted := true;
    while idx < FIELDS && extracted
      invariant idx <= FIELDS
      invariant extracted ==> idx <= |ws|
      invariant !extracted ==> idx == |ws| + 1
      invariant forall k :: 0 <= k < FIELDS ==> lists[k] == if k < idx && k < |ws| then ws[k] else lists0[k]
    {
      var k := idx;
      idx := idx + 1;
      if k < |ws| {
        lists := lists[k := ws[k]];
      } else {
        extracted := false;
      }
    }
    var expected := Tokenize(line, lists0);
    TokenizeSlots(line, lists0);
    assert lists == expected.lists;
  }

  // ---------------------------------------------------------------------
  // Disposition

  /** What the inspector does with one tokenized line. */
  datatype Disposition =
    | SubstrOutOfRange                                  // `substr(1, …)` on an empty slot 10 throws
    | SelfIo                                            // the inspector's own read: dropped
    | Actionable(offset: U64, bytes: U64, flush: bool)  // a block range to inspect
    | PassThrough                                       // echoed unchanged

  /** The self-I/O test applies only when `idx` is 11, 12 or 13, i.e. to lines of 10 to 12 fields. */
  predicate InSelfIoRange(idx: nat)
  {
    10 < idx < 14
  }

  /**
   * The event test as written. `&&` binds tighter than `||`, so the test
   * on `idx` guards only the data-write/read branch: an index-flush record
   * is accepted whatever its field count.
   */
  predicate IsEvent(lists: Buffer, idx: nat)
  {
    (idx > 10 && Head(lists[5]) == 'D' && (Head(lists[6]) == 'W' || Head(lists[6]) == 'R'))
    || (Head(lists[5]) == 'I' && Head(lists[6]) == 'F')
  }

  /** A sector-count field in bytes: `atoll(field) * 512`, stored in a `uint64_t`. */
  function SectorsToBytes(field: string): (r: U64)
    ensures 0 <= Atoll(field) && Atoll(field) * SECTOR_SIZE < U64_LIMIT ==> r == Atoll(field) * SECTOR_SIZE
    ensures r % SECTOR_SIZE == 0
  {
    SectorMultipleAligned(Atoll(field));
    ToU64(Atoll(field) * SECTOR_SIZE)
  }

  /** 2^64 is a multiple of 512, so reducing a multiple of 512 modulo 2^64 keeps it one. */
  lemma {:induction false} SectorMultipleAligned(x: int)
    ensures ToU64(x * SECTOR_SIZE) % SECTOR_SIZE == 0
  {
    var q := (x * SECTOR_SIZE) / U64_LIMIT;
    var m := x - q * 0x80_0000_0000_0000;
    assert x * SECTOR_SIZE - q * U64_LIMIT == m * SECTOR_SIZE;
    assert ToU64(x * SECTOR_SIZE) == m * SECTOR_SIZE;
  }

  /**
   * The disposition of a tokenized line. Slot 10 without its first
   * character is compared with the program name over the name's length
   * only, so the name need only be a prefix of it; slot 7 is the start
   * sector, slot 9 the sector count, slot 6 the action.
   */
  function Decide(tok: Tokens, app: string): Disposition
  {
    if InSelfIoRange(tok.idx) && tok.lists[10] == [] then SubstrOutOfRange
    else if InSelfIoRange(tok.idx) && Substr(tok.lists[10], 1, |app|) == app then SelfIo
    else if IsEvent(tok.lists, tok.idx) then
      Actionable(SectorsToBytes(tok.lists[7]), SectorsToBytes(tok.lists[9]), Head(tok.lists[6]) == 'F')
    else PassThrough
  }

  /**
   * The four dispositions, each characterised: the exception exactly for an
   * empty slot 10 in the self-I/O range, self-I/O exactly for a name prefix
   * there, an event exactly when the event test holds outside those two
   * cases, and pass-through for everything else. An event's offset and
   * length are the sector fields 7 and 9 in bytes, and it is a flush exactly
   * when the action starts with 'F'.
   */
  lemma {:induction false} DecideCases(tok: Tokens, app: string)
    ensures var d := Decide(tok, app);
      && (d == SubstrOutOfRange <==> InSelfIoRange(tok.idx) && tok.lists[10] == [])
      && (d == SelfIo <==> InSelfIoRange(tok.idx) && tok.lists[10] != [] && app <= tok.lists[10][1..])
      && (d.Actionable? <==>
           !(InSelfIoRange(tok.idx) && (tok.lists[10] == [] || app <= tok.lists[10][1..])) && IsEvent(tok.lists, tok.idx))
      && (d == PassThrough <==>
           !(InSelfIoRange(tok.idx) && (tok.lists[10] == [] || app <= tok.lists[10][1..])) && !IsEvent(tok.lists, tok.idx))
      && (d.Actionable? ==>
           && d.offset == SectorsToBytes(tok.lists[7])
           && d.bytes == SectorsToBytes(tok.lists[9])
           && (d.flush <==> Head(tok.lists[6]) == 'F'))
  {
    if InSelfIoRange(tok.idx) && tok.lists[10] != [] {
      SubstrMatchIsPrefix(tok.lists[10], 1, app);
    }
  }

  /** A flush event is always an index-flush record: the data branch admits only 'W' and 'R'. */
  lemma {:induction false} FlushEventIsIndexFlush(tok: Tokens, app: string)
    requires Decide(tok, app).Actionable? && Decide(tok, app).flush
    ensures Head(tok.lists[5]) == 'I'
  {
    DecideCases(tok, app);
  }

  /** An event with at most 10 fields can only be an index-flush record. */
  lemma {:induction false} ShortEventIsIndexFlush(tok: Tokens, app: string)
    requires Decide(tok, app).Actionable? && tok.idx <= 10
    ensures Head(tok.lists[5]) == 'I' && Head(tok.lists[6]) == 'F' && Decide(tok, app).flush
  {
    DecideCases(tok, app);
  }
}
