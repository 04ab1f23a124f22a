# ForestDB block inspector, modelled in Dafny

The inspector reads a blkparse trace of a block device on standard input. It
splits every line into whitespace-separated fields, kept in a 16-slot buffer
that persists from line to line. It then decides what the line is:

- **the inspector's own read**: the line is dropped;
- **a data read or write, or an index flush**: the byte range of the event is
  cut into blocks of the configured size. Each block's trailing marker byte
  is read from the device and classified as a ForestDB document, index node,
  DB header or superblock, or "not FDB". The per-kind counters and the total
  counter are incremented, and one annotated line is printed per block (one
  block only for a flush);
- **anything else**: the line is echoed.

At end of input the counters are reported. Before any of this,
`verify_config` normalises the configuration.

The model follows `src/inspector/standalone.cc`, and is organised as:

| module | file | models |
|---|---|---|
| `Machine` | `machine.dfy` | `uint64_t` wrap-around, the `int` and `long long` limits |
| `Text` | `text.dfy` | `istringstream >>` field extraction, `substr`, `atoll`, `sprintf("%" PRIu64)` |
| `Settings` | `settings.dfy` | the status codes and `verify_config` |
| `Marker` | `marker.dfy` | the marker constants, block kinds, `type_cnt` and the integer content of `print_count` |
| `Trace` | `trace.dfy` | the token buffer, the extraction loop and the disposition of a line |
| `BlockRange` | `blocks.dfy` | the block loop, the per-block output line and the counter updates |
| `Inspector` | `inspector.dfy` | one turn of the `fgets` loop, the whole run and `do_inspect` |

The behaviour is stated by reference definitions:

- `Words` and `Tokenize`: tokenizing into the buffer;
- `Decide`: the disposition of a line;
- `ScanOffsets`: the offsets the block loop visits;
- `Emit`: the work done per block;
- `PrintedFields` and `BlockLineText`: an annotated line;
- `MakeReport`: the report;
- `Step` and `Run`: one line and the whole trace.

Each loop of the source is also written as a method with the loop as
written, and each method is proved to compute its reference definition:

| loop | method | reference |
|---|---|---|
| token extraction | `ExtractTokens` | `Tokenize` |
| block loop | `BlockLoop`, called by `InspectRange` | `Emit` over `ScanOffsets` |
| print loop | `WriteBlockLine` | `BlockLineText` |
| `print_count` loop | `PrintCount` | `MakeReport` |
| `fgets` loop | `InspectStream` | `Inspect`, that is `Run` |

One turn of the `fgets` loop, composed of these methods, is `ProcessLine`. It
is proved equal to `Step`.

Standard output is modelled as a sequence of chunks. Each chunk is an echoed
line, or an annotated block line together with its tag.

The device is a function from byte position to byte (`Device`). Whether the
device opens is a parameter (`devOpen`). The program name is a parameter
(`app`). The trace is given as its sequence of lines.

## Model

| member | source | states |
|---|---|---|
| Machine.ToU64 | src/inspector/standalone.cc:199-200 | conversion to `uint64_t`: values already in range are kept, and the result is congruent to the input modulo 2^64 |
| Settings.StatusCode | src/inspector/standalone.cc:27-30 | only `SUCCESS` has status code 0 |
| Settings.VerifyConfig | src/inspector/standalone.cc:62-82 | an empty device name gives `DEV_NOT_FOUND` and changes nothing, and that is the only error; otherwise the result is `SUCCESS`, a block size of 0 becomes 4096, a marker mode outside {0,1} becomes 0, the device name is kept, and valid values are kept |
| Settings.NormalisedIsFixedPoint | src/inspector/standalone.cc:62-82 | an already valid configuration passes with `SUCCESS` and comes out unchanged |
| Settings.VerifyConfigIdempotent | src/inspector/standalone.cc:62-82 | verifying a verified configuration gives the same verdict again |
| Marker.Classify | src/inspector/standalone.cc:115-118 | a byte classifies as a ForestDB kind exactly when it is one of the four marker values, and then as the kind whose marker it is; every other byte is "not FDB" |
| Marker.ClassifyMarkerOf | src/inspector/standalone.cc:212-233 | the switch recovers each kind from its own marker byte |
| Marker.LabelsAreDistinctFields | src/inspector/standalone.cc:212-233 | every tag printed after a block is one whitespace-free field, and distinct kinds print distinct tags |
| Marker.Record | src/inspector/standalone.cc:212-234 | counting a block raises its kind's counter and the total by one and changes no other counter, so consistency of the counters is kept |
| Marker.FdbTotalIsRecognisedSum | src/inspector/standalone.cc:141-144 | with consistent counters, `total - NOT_FDB` is the sum of the four recognised counters and lies between 0 and the total |
| Marker.PrintCount | src/inspector/standalone.cc:141-153 | the loop of `print_count` as written produces the report: the rows in order, the FDB total and the total |
| Marker.MakeReport | src/inspector/standalone.cc:141-153 | the report has six rows in `type_cnt` order, each with its name from `fdb_blk_names` and its counter, the last row the total; with consistent counters the FDB total is the sum of the first four rows |
| Text.WordsOfSpaced | src/inspector/standalone.cc:185-189 | splitting fields that were printed each followed by a blank gives back exactly the non-empty ones, in order, followed by the fields of what comes after |
| Text.WordsOfSeparated | src/inspector/standalone.cc:185-189 | a whitespace-free field, one whitespace character and a rest split into that field (if not empty) followed by the fields of the rest |
| Text.Substr | src/inspector/standalone.cc:191 | `substr(pos, n)` yields min(n, size - pos) characters and is a prefix of the string from `pos` |
| Text.SubstrMatchIsPrefix | src/inspector/standalone.cc:191 | comparing `substr(1, n)` with a name of length n holds exactly when the name is a prefix of the field past its first character |
| Text.Atoll | src/inspector/standalone.cc:199-200 | the value of `atoll` always lies in the `long long` range |
| Text.DecimalOfDenotes | src/inspector/standalone.cc:237 | the printed offset is a non-empty run of digits without a leading zero that denotes the offset |
| Text.AtollOfDecimal | src/inspector/standalone.cc:199 | reading a printed offset back with `atoll` gives the offset whenever it fits a `long long` |
| Text.AtollOfDigits | src/inspector/standalone.cc:199-200 | `atoll` of a digit string is its value, saturated to `long long` |
| Text.DecimalIsField | src/inspector/standalone.cc:237-247 | a printed offset is one whitespace-free field and is never the skipped placeholder "00" |
| Trace.TokenizeRoundTrip | src/inspector/standalone.cc:185-189 | the first min(n, 16) slots hold the line's own fields: printed with blanks and split again, they give back the line's first min(n, 16) fields |
| Trace.TokenizeSlots | src/inspector/standalone.cc:189 | slot k receives the k-th field when the line has one, and otherwise keeps what an earlier line left there |
| Trace.ExtractTokens | src/inspector/standalone.cc:185-189 | the extraction loop as written leaves the same buffer as the tokenizer; `idx` ends at min(n + 1, 16) for a line of n fields, because it is incremented on the failing extraction too |
| Trace.SectorsToBytes | src/inspector/standalone.cc:199-200 | a sector field in bytes is 512 times its `atoll` value whenever that fits `uint64_t`, and is always a multiple of 512 |
| Trace.DecideCases | src/inspector/standalone.cc:191-197 | the four dispositions, each as an if-and-only-if. An empty slot 10 within 10 < idx < 14 throws. The self-I/O case holds exactly when the program name is a prefix of slot 10 past its first character within that range. Otherwise a line is an event exactly when the event test holds, and is echoed when it does not. An event's offset and length are slots 7 and 9 in bytes, and it is a flush exactly when slot 6 starts with 'F' |
| Trace.FlushEventIsIndexFlush | src/inspector/standalone.cc:195-197 | a flush event is always an index record: only the 'I'/'F' branch admits an action starting with 'F' |
| Trace.ShortEventIsIndexFlush | src/inspector/standalone.cc:195-197 | an event with `idx` at most 10 is an index flush: the field count guards only the data branch |
| BlockRange.ScanOffsetsClosedForm | src/inspector/standalone.cc:204-254 | an event of L bytes visits exactly ⌊L/B⌋ blocks (at most one for a flush), the i-th at offset + i·B modulo 2^64 |
| BlockRange.ScanLength | src/inspector/standalone.cc:204-254 | the number of blocks visited is ⌊L/B⌋, capped at one for a flush |
| BlockRange.ScanOffsetAt | src/inspector/standalone.cc:240-242 | the i-th block visited is at offset + i·B modulo 2^64 |
| BlockRange.ShortRangeReadsNothing | src/inspector/standalone.cc:204 | a range shorter than one block reads no block |
| BlockRange.PrintedFieldsAreSlots | src/inspector/standalone.cc:243-248 | a string is printed exactly when it is not "00" and is held by a slot below `idx`; at most `idx` fields are printed |
| BlockRange.PrintedSlotsFilter | src/inspector/standalone.cc:243-246 | the slots the print loop writes are strictly increasing, and are exactly the slots below `idx` that do not hold "00" |
| BlockRange.PrintedFieldsInSlotOrder | src/inspector/standalone.cc:243-248 | the printed fields are the contents of those slots, all below `idx`, one each and in slot order |
| BlockRange.WriteBlockLine | src/inspector/standalone.cc:243-249 | the print loop as written, followed by the tag and the newline, produces the annotated line |
| BlockRange.CountsOfConcat | src/inspector/standalone.cc:249 | per-kind and total line counts of concatenated output add up |
| BlockRange.KindCountsSum | src/inspector/standalone.cc:212-234 | every annotated line has exactly one kind, so the per-kind line counts sum to the number of annotated lines |
| BlockRange.GrowthKeepsConsistent | src/inspector/standalone.cc:212-234 | counters that grew by exactly what some output tagged keep the kind counters summing to the total |
| BlockRange.EmitCounts | src/inspector/standalone.cc:204-249 | inspecting n blocks prints n annotated lines; each kind's counter grows by the number of lines tagged with it and the total by n |
| BlockRange.EmitLine | src/inspector/standalone.cc:237-249 | the i-th line describes the i-th block: the buffer with slot 7 set to that block's offset in decimal, tagged with the kind of that block's marker |
| BlockRange.EmitBuffer | src/inspector/standalone.cc:237-238 | after an event slot 7 holds the offset of the last block read, and every other slot is unchanged |
| BlockRange.InspectRange | src/inspector/standalone.cc:204-255 | the block loop as written produces the reference buffer, output and counters, and keeps the counters consistent |
| BlockRange.BlockLoop | src/inspector/standalone.cc:204-255 | the same, for the loop given the emission it is to produce |
| BlockRange.LoopStep | src/inspector/standalone.cc:205-254 | one turn of the loop moves the current block's line to the printed part; the scan then continues one block on with one block less, or ends after a flush |
| BlockRange.LoopAdvance | src/inspector/standalone.cc:205-254 | the same turn, stated for the values before the turn |
| BlockRange.EventBlockCount | src/inspector/standalone.cc:204-254 | an event prints ⌊L/B⌋ lines, and at most one for a flush |
| BlockRange.BlockLineFields | src/inspector/standalone.cc:243-249 | re-tokenizing an annotated line gives the non-empty printed fields followed by the block's tag |
| Inspector.EventCounts | src/inspector/standalone.cc:199-254 | an event prints ⌊L/B⌋ annotated lines (at most one for a flush) and nothing else; the counters grow by the lines per kind and in total |
| Inspector.EventLine | src/inspector/standalone.cc:202-249 | the i-th line of an event has slot 9 replaced by "8" and slot 7 by the decimal byte offset off + i·B (mod 2^64), and carries the tag of that block's marker |
| Inspector.EventLineReadsBack | src/inspector/standalone.cc:237-249 | an annotated line re-tokenizes to its non-empty printed fields and tag. When the line has a start-sector field, the block offset is among those fields, and it reads back with `atoll` as that offset whenever it fits a `long long` |
| Inspector.EventKeepsClean | src/inspector/standalone.cc:202-238 | an event leaves every slot a single whitespace-free field |
| Inspector.TokenizeKeepsClean | src/inspector/standalone.cc:189 | tokenizing leaves every slot a single whitespace-free field |
| Inspector.StepCounters | src/inspector/standalone.cc:182-258 | one line changes each kind's counter by the number of its lines tagged with that kind and the total by the number of its annotated lines |
| Inspector.StepKeepsClean | src/inspector/standalone.cc:182-258 | no line puts whitespace into a slot |
| Inspector.SelfIoIsDropped | src/inspector/standalone.cc:191-194 | every line taken for the inspector's own read prints nothing and leaves the counters unchanged; only the buffer takes the line's fields |
| Inspector.NamedLineIsSelfIo | src/inspector/standalone.cc:191 | a line of 11 or 12 fields whose eleventh field, past its first character, starts with the program name is taken for the inspector's own read |
| Inspector.TenFieldLineMatchingStaleSlotIsSelfIo | src/inspector/standalone.cc:189-191 | a line of exactly ten fields is taken for the inspector's own read when slot 10, left by an earlier line, matches the program name |
| Inspector.EchoedExactlyWhenPassThrough | src/inspector/standalone.cc:195-197 | a line is echoed verbatim exactly when it is neither self-I/O nor an event nor an exception; an echoed line changes no counter |
| Inspector.ShortIndexFlushReadsStaleSlots | src/inspector/standalone.cc:195-200 | an index-flush record of 7 to 9 fields is an event; its length comes from slot 9 as an earlier line left it, and with 7 fields so does its offset |
| Inspector.ShortIndexFlushVanishes | src/inspector/standalone.cc:195-204 | such a record on a buffer whose slot 9 is empty prints nothing (not even the echo) and counts nothing |
| Inspector.TenFieldLineOnEmptySlotTerminates | src/inspector/standalone.cc:189-191 | a line of exactly ten fields while slot 10 has never been filled ends the program with the `substr` exception |
| Inspector.RunCounters | src/inspector/standalone.cc:182-259 | over a whole trace each kind's counter grows by the number of lines tagged with it, and the total by the number of annotated lines |
| Inspector.RunKeepsConsistent | src/inspector/standalone.cc:182-259 | consistent counters stay consistent over a whole trace |
| Inspector.RunKeepsClean | src/inspector/standalone.cc:182-259 | no slot ever holds whitespace |
| Inspector.Inspect | src/inspector/standalone.cc:173-176 | the run ends as "not opened" exactly when the device does not open, and then prints nothing |
| Inspector.InspectReport | src/inspector/standalone.cc:178-261 | at the report each kind's row holds the number of lines tagged with it, the total row the number of annotated lines, and the FDB total the annotated lines not tagged "not FDB" |
| Inspector.ReportAccountsFor | src/inspector/standalone.cc:141-153 | counters that account for the output give report rows equal to the output's per-kind line counts, total and FDB total |
| Inspector.ProcessLine | src/inspector/standalone.cc:182-258 | one turn of the `fgets` loop as written, with the extraction and block loops, has the reference effect of a line |
| Inspector.InspectStream | src/inspector/standalone.cc:173-261 | `do_inspect` as a loop over the input has the reference output and ending |

## Left out

- `parse_opt`, `print_usage`, `main`, `init_config`, `destroy_config`: option parsing and process plumbing. The configuration is an input to `Settings.VerifyConfig`.
- The `fprintf` of the configuration in `verify_config` and of the error in `do_inspect`: diagnostics only.
- The text layout of the statistics report that `print_count` writes to standard error. The report's rows, counts, total and FDB total are modelled (`Marker.MakeReport`, `Marker.PrintCount`).
- `handle_signal` and `set_signal`: asynchronous signal handling. The handler prints only a message; its call of `print_count` is commented out.
- `open`, `pread`, `fgets` and `cout` are I/O and are not modelled as calls. Whether the device opens is a boolean parameter. `pread` is taken to fill the whole block from the `Device` function, since its return value is ignored. The input is the sequence of lines `fgets` delivers. That leaves out how `fgets` cuts a line longer than 126 characters into pieces and how `string(tline)` stops at a NUL.
- Loss of buffered standard output when the `substr` exception ends the program: the model keeps everything printed before the throwing line.
- Marker mode 1 is excluded by a precondition: its branch is empty and leaves `blk_type` uninitialised or stale.
- Block sizes above `INT_MAX` are excluded by a precondition: the source truncates the `uint64_t` block size to `int`.
- The `long double` percentages of `print_count`: floating point, dividing by zero when no block was counted. The report models the row names, the counts, the total and the FDB total.
- `uint64_t` overflow of the counters, which would take 2^64 blocks: counters are unbounded naturals.
- Inspector.Inspect: its own contract states only the device-open case. The output and the report are characterised by Inspector.InspectReport, and Inspector.InspectStream is proved equal to it.
- Text.Atoll: its own contract states only the `long long` range. Its value is characterised for digit strings (Text.AtollOfDigits) and printed offsets (Text.AtollOfDecimal), not for inputs with leading whitespace or a sign.
- The `long long` product `atoll(...) * 512` overflows, which is undefined behaviour in C++. It is modelled as the wrap-around modulo 2^64 that the assignment to `uint64_t` would give.

## Behaviour as written

The model follows these quirks of the code as written:

- The self-I/O test compares `substr(1, name.size())` with the program name,
  so a field that merely starts with the name matches
  (`Text.SubstrMatchIsPrefix`, `Trace.DecideCases`).
- `&&` binds tighter than `||` in the event test. The test that the line has
  more than ten fields therefore guards only the data read/write branch, and
  an index-flush record is an event whatever its field count
  (`Trace.ShortEventIsIndexFlush`).
- The extraction loop increments `idx` on the failing extraction too, so
  `idx` is one more than the number of fields while there are fewer than
  sixteen (`Trace.ExtractTokens`).
- The field buffer is never cleared. A short index-flush record takes its
  length, and possibly its offset, from an earlier line
  (`Inspector.ShortIndexFlushReadsStaleSlots`). On a fresh buffer it prints
  nothing at all rather than being echoed
  (`Inspector.ShortIndexFlushVanishes`).
- An event whose range is shorter than one block prints nothing; it is not
  echoed (`BlockRange.ShortRangeReadsNothing`).
- A line of exactly ten fields before any line has filled slot 10 makes
  `substr` throw, which ends the program without a report
  (`Inspector.TenFieldLineOnEmptySlotTerminates`).
- Once an earlier line has filled slot 10, a line of exactly ten fields is
  tested against that stale slot, and is dropped as the inspector's own read
  when it matches (`Inspector.TenFieldLineMatchingStaleSlotIsSelfIo`).
