/**
 * The text conversions the inspector relies on: splitting a trace line into
 * fields as `istringstream >> string` does, reading a decimal field as
 * `atoll` does, printing an offset as `sprintf("%" PRIu64)` does, and the
 * `std::string` accessors used on fields.
 */
module Text {
  import opened Machine

  /** The characters `isspace` accepts in the "C" locale. */
  predicate IsSpace(c: char)
  {
    c == ' ' || c == '\t' || c == '\n' || c == '\U{000B}' || c == '\U{000C}' || c == '\r'
  }

  predicate IsDigit(c: char)
  {
    '0' <= c <= '9'
  }

  predicate NoSpace(w: string)
  {
    forall i :: 0 <= i < |w| ==> !IsSpace(w[i])
  }

  predicate AllDigits(s: string)
  {
    forall i :: 0 <= i < |s| ==> IsDigit(s[i])
  }

  /** A field as `operator>>` extracts it: non-empty and free of white space. */
  predicate IsWord(w: string)
  {
    |w| > 0 && NoSpace(w)
  }

  /** `s[0]` on a `std::string`: reading position `size()` yields the NUL character. */
  function Head(s: string): char
  {
    if |s| > 0 then s[0] else '\0'
  }

  // ---------------------------------------------------------------------
  // Tokenizing

  /** The longest white-space-free prefix of `s`. */
  function WordPrefix(s: string): (w: string)
    ensures w <= s
    ensures NoSpace(w)
    ensures |w| < |s| ==> IsSpace(s[|w|])
  {
    if |s| == 0 || IsSpace(s[0]) then [] else [s[0]] + WordPrefix(s[1..])
  }

  /**
   * The fields of `s` in order: what successive `is >> field` extract from an
   * `istringstream` over `s` until extraction fails.
   */
  function Words(s: string): (ws: seq<string>)
    ensures forall i :: 0 <= i < |ws| ==> IsWord(ws[i])
    decreases |s|
  {
    if |s| == 0 then []
    else if IsSpace(s[0]) then Words(s[1..])
    else
      var w := WordPrefix(s);
      [w] + Words(s[|w|..])
  }

  /** Every field followed by one blank: how the inspector prints a field list. */
  function Spaced(ws: seq<string>): string
  {
    if ws == [] then [] else ws[0] + " " + Spaced(ws[1..])
  }

  /** Printing one more field at the end appends it and its blank. */
  lemma {:induction false} SpacedSnoc(ws: seq<string>, w: string)
    ensures Spaced(ws + [w]) == Spaced(ws) + w + " "
    decreases |ws|
  {
    if ws == [] {
      assert ws + [w] == [w];
      assert Spaced([w]) == w + " " + Spaced([]);
    } else {
      var v := ws + [w];
      assert v[0] == ws[0] && v[1..] == ws[1..] + [w];
      SpacedSnoc(ws[1..], w);
      ConcatAssoc(ws[0] + " ", Spaced(ws[1..]) + w, " ");
      ConcatAssoc(ws[0] + " ", Spaced(ws[1..]), w);
    }
  }

  /** The fields that are not empty strings. */
  function NonEmpty(ws: seq<string>): (r: seq<string>)
    ensures |r| <= |ws|
    ensures forall i :: 0 <= i < |r| ==> r[i] != [] && r[i] in ws
  {
    if ws == [] then []
    else if ws[0] == [] then NonEmpty(ws[1..])
    else [ws[0]] + NonEmpty(ws[1..])
  }

  /** Dropping empty strings from fields that are all non-empty changes nothing. */
  lemma {:induction false} NonEmptyOfFields(ws: seq<string>)
    requires forall i :: 0 <= i < |ws| ==> IsWord(ws[i])
    ensures NonEmpty(ws) == ws
    decreases |ws|
  {
    if ws != [] {
      assert IsWord(ws[0]);
      forall i | 0 <= i < |ws[1..]|
        ensures IsWord(ws[1..][i])
      {
        assert ws[1..][i] == ws[i + 1];
      }
      NonEmptyOfFields(ws[1..]);
    }
  }

  lemma {:induction false} WordPrefixOfSeparated(w: string, sep: char, t: string)
    requires NoSpace(w) && IsSpace(sep)
    ensures WordPrefix(w + [sep] + t) == w
    decreases |w|
  {
    if w != [] {
      assert (w + [sep] + t)[1..] == w[1..] + [sep] + t;
      WordPrefixOfSeparated(w[1..], sep, t);
    }
  }

  /**
   * Tokenizing printed fields gives back the non-empty ones: the round trip
   * between `Spaced` and `Words`.
   */
  lemma {:induction false} WordsOfSpaced(ws: seq<string>, rest: string)
    requires forall i :: 0 <= i < |ws| ==> NoSpace(ws[i])
    ensures Words(Spaced(ws) + rest) == NonEmpty(ws) + Words(rest)
    decreases |ws|
  {
    if ws != [] {
      var tail := ws[1..];
      forall i | 0 <= i < |tail|
        ensures NoSpace(tail[i])
      {
        assert tail[i] == ws[i + 1];
      }
      WordsOfSpaced(tail, rest);
      WordsOfSpacedStep(ws, rest);
    } else {
      assert Spaced(ws) + rest == rest;
    }
  }

  /** Printing one more field in front adds it (if not empty) in front of the tokens. */
  lemma {:induction false} WordsOfSpacedStep(ws: seq<string>, rest: string)
    requires ws != [] && NoSpace(ws[0])
    requires Words(Spaced(ws[1..]) + rest) == NonEmpty(ws[1..]) + Words(rest)
    ensures Words(Spaced(ws) + rest) == NonEmpty(ws) + Words(rest)
  {
    var w := ws[0];
    var t := Spaced(ws[1..]) + rest;
    SpacedCons(ws, rest);
    WordsOfSpacedField(w, t);
    NonEmptyCons(ws);
    var head := if w == [] then [] else [w];
    ConcatAssoc(head, NonEmpty(ws[1..]), Words(rest));
  }

  lemma {:induction false} SpacedCons(ws: seq<string>, rest: string)
    requires ws != []
    ensures Spaced(ws) + rest == ws[0] + " " + (Spaced(ws[1..]) + rest)
  {
  }

  lemma {:induction false} NonEmptyCons(ws: seq<string>)
    requires ws != []
    ensures NonEmpty(ws) == (if ws[0] == [] then [] else [ws[0]]) + NonEmpty(ws[1..])
  {
  }

  /** One printed field followed by the rest of the line. */
  lemma {:induction false} WordsOfSpacedField(w: string, t: string)
    requires NoSpace(w)
    ensures Words(w + " " + t) == (if w == [] then [] else [w]) + Words(t)
  {
    assert w + " " + t == w + [' '] + t;
    WordsOfSeparated(w, ' ', t);
  }

  /** A field, one white-space character, and the rest. */
  lemma {:induction false} WordsOfSeparated(w: string, sep: char, t: string)
    requires NoSpace(w) && IsSpace(sep)
    ensures Words(w + [sep] + t) == (if w == [] then [] else [w]) + Words(t)
  {
    var s := w + [sep] + t;
    assert ([sep] + t)[1..] == t;
    if w == [] {
      assert s == [sep] + t;
    } else {
      WordPrefixOfSeparated(w, sep, t);
      assert s[|w|..] == [sep] + t;
    }
  }

  // ---------------------------------------------------------------------
  // std::string::substr

  /**
   * `s.substr(pos, n)` for a position inside the string: at most `n`
   * characters starting at `pos`. (A position past the end throws.)
   */
  function Substr(s: string, pos: nat, n: nat): (r: string)
    requires pos <= |s|
    ensures |r| == Min(n, |s| - pos)
    ensures r <= s[pos..]
  {
    s[pos..pos + Min(n, |s| - pos)]
  }

  /** Comparing `substr(pos, |p|)` with `p` is a prefix test, not an equality test. */
  lemma {:induction false} SubstrMatchIsPrefix(s: string, pos: nat, p: string)
    requires pos <= |s|
    ensures Substr(s, pos, |p|) == p <==> p <= s[pos..]
  {
  }

  // ---------------------------------------------------------------------
  // Decimal numbers

  function DigitValue(c: char): nat
    requires IsDigit(c)
  {
    (c as int) - ('0' as int)
  }

  function DigitChar(d: nat): (c: char)
    requires d < 10
    ensures IsDigit(c) && DigitValue(c) == d
  {
    (('0' as int) + d) as char
  }

  /** The number a string of decimal digits denotes. */
  function DigitsValue(ds: string): nat
    requires AllDigits(ds)
  {
    if ds == [] then 0 else DigitsValue(ds[..|ds| - 1]) * 10 + DigitValue(ds[|ds| - 1])
  }

  /** The longest prefix of `s` made of decimal digits. */
  function DigitPrefix(s: string): (ds: string)
    ensures ds <= s && AllDigits(ds)
    ensures |ds| < |s| ==> !IsDigit(s[|ds|])
  {
    if |s| == 0 || !IsDigit(s[0]) then [] else [s[0]] + DigitPrefix(s[1..])
  }

  /** `s` with its leading white space removed. */
  function DropSpace(s: string): (t: string)
    ensures |t| <= |s| && t == s[|s| - |t|..]
    ensures |t| > 0 ==> !IsSpace(t[0])
  {
    if |s| > 0 && IsSpace(s[0]) then DropSpace(s[1..]) else s
  }

  /** The saturation `strtoll` applies to a magnitude out of the `long long` range. */
  function Saturate(negative: bool, m: nat): (v: int)
    ensures LLONG_MIN <= v <= LLONG_MAX
    ensures !negative && m <= LLONG_MAX ==> v == m
    ensures negative && m <= -LLONG_MIN ==> v == -(m as int)
  {
    if negative then (if m > -LLONG_MIN then LLONG_MIN else -(m as int))
    else (if m > LLONG_MAX then LLONG_MAX else m)
  }

  /**
   * `atoll(s)`: skip leading white space, accept one optional sign, read the
   * longest run of digits (none reads as 0), saturating to `long long`.
   */
  function Atoll(s: string): (v: int)
    ensures LLONG_MIN <= v <= LLONG_MAX
  {
    var t := DropSpace(s);
    if |t| > 0 && t[0] == '-' then Saturate(true, DigitsValue(DigitPrefix(t[1..])))
    else if |t| > 0 && t[0] == '+' then Saturate(false, DigitsValue(DigitPrefix(t[1..])))
    else Saturate(false, DigitsValue(DigitPrefix(t)))
  }

  /** `sprintf(buf, "%" PRIu64, n)`: the decimal numeral of `n`. */
  function DecimalOf(n: nat): string
    decreases n
  {
    if n < 10 then [DigitChar(n)] else DecimalOf(n / 10) + [DigitChar(n % 10)]
  }

  /** The printed numeral is the shortest one: all digits, denoting `n`, without a leading zero. */
  lemma {:induction false} DecimalOfDenotes(n: nat)
    ensures var s := DecimalOf(n);
      && |s| > 0 && AllDigits(s)
      && DigitsValue(s) == n
      && (|s| > 1 ==> s[0] != '0')
    decreases n
  {
    if n >= 10 {
      DecimalOfDenotes(n / 10);
      var s := DecimalOf(n);
      assert s[..|s| - 1] == DecimalOf(n / 10);
    }
  }

  /** Reading back a printed offset: `atoll` inverts `sprintf("%" PRIu64)` on the `long long` range. */
  lemma {:induction false} AtollOfDecimal(n: nat)
    requires n <= LLONG_MAX
    ensures Atoll(DecimalOf(n)) == n
  {
    var s := DecimalOf(n);
    DecimalOfDenotes(n);
    AtollOfDigits(s);
  }

  lemma {:induction false} AtollOfDigits(s: string)
    requires |s| > 0 && AllDigits(s)
    ensures Atoll(s) == Saturate(false, DigitsValue(s))
  {
    assert IsDigit(s[0]);
    assert DropSpace(s) == s;
    DigitPrefixOfDigits(s);
  }

  lemma {:induction false} DigitPrefixOfDigits(s: string)
    requires AllDigits(s)
    ensures DigitPrefix(s) == s
    decreases |s|
  {
    if |s| > 0 {
      DigitPrefixOfDigits(s[1..]);
    }
  }

  /** A printed offset is one white-space-free field and never the placeholder "00". */
  lemma {:induction false} DecimalIsField(n: nat)
    ensures IsWord(DecimalOf(n))
    ensures DecimalOf(n) != "00"
  {
    var s := DecimalOf(n);
    DecimalOfDenotes(n);
    assert forall i :: 0 <= i < |s| ==> IsDigit(s[i]);
  }
}
