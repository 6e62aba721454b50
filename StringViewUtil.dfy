/**
 * String-view helpers: case-insensitive comparison, prefix removal, the strict
 * integer parser used for token parameters, and the quote-aware splitter.
 */
module StringViewUtil {
  import opened Types
  import opened Wrappers
  import opened SeqUtil
  import opened Printf

  // ---------------------------------------------------------------------------
  // Case-insensitive comparison (boost::iequals / boost::istarts_with in the
  // default "C" locale, which folds only the ASCII letters)
  // ---------------------------------------------------------------------------

  function ToLower(c: char): char
  {
    if 'A' <= c <= 'Z' then (c as int - 'A' as int + 'a' as int) as char else c
  }

  /** Reference meaning of a case-insensitive match: same length, equal after case folding. */
  ghost predicate SameIgnoringCase(lhs: string, rhs: string)
  {
    |lhs| == |rhs| && forall i :: 0 <= i < |lhs| ==> ToLower(lhs[i]) == ToLower(rhs[i])
  }

  /** boost::iequals: walks both ranges together and fails at the first difference. */
  function IEquals(lhs: string, rhs: string): (r: bool)
    ensures r <==> SameIgnoringCase(lhs, rhs)
  {
    if lhs == [] || rhs == [] then lhs == [] && rhs == []
    else ToLower(lhs[0]) == ToLower(rhs[0]) && IEquals(lhs[1..], rhs[1..])
  }

  /** boost::istarts_with: walks `test` against the front of `input`. */
  function IStartsWith(input: string, test: string): (r: bool)
    ensures r <==> |test| <= |input| && SameIgnoringCase(input[..|test|], test)
  {
    if test == [] then true
    else if input == [] then false
    else ToLower(input[0]) == ToLower(test[0]) && IStartsWith(input[1..], test[1..])
  }

  function EqualsIgnoreCase(lhs: string, rhs: string): (r: bool)
    ensures r <==> SameIgnoringCase(lhs, rhs)
  {
    |lhs| == |rhs| && IEquals(lhs, rhs)
  }

  function StartsWithIgnoreCase(lhs: string, rhs: string): (r: bool)
    ensures r <==> |rhs| <= |lhs| && SameIgnoringCase(lhs[..|rhs|], rhs)
  {
    |lhs| >= |rhs| && IStartsWith(lhs, rhs)
  }

  // ---------------------------------------------------------------------------
  // RemoveLeft
  // ---------------------------------------------------------------------------

  /** Drops the first `prefixLength` characters; the result is empty unless something is left over. */
  function RemoveLeft(input: string, prefixLength: nat): (r: string)
    ensures |r| == if |input| > prefixLength then |input| - prefixLength else 0
    ensures |input| > prefixLength ==> input == input[..prefixLength] + r
  {
    if |input| > prefixLength then input[prefixLength..] else []
  }

  /** Removing a prefix by its length gives back what followed it. */
  lemma RemoveLeftOfConcat(prefix: string, rest: string)
    ensures RemoveLeft(prefix + rest, |prefix|) == rest
  {
    if rest != [] {
      assert (prefix + rest)[|prefix|..] == rest;
    }
  }

  // ---------------------------------------------------------------------------
  // TryParse: std::from_chars after an optional case-insensitive "0x" prefix
  // ---------------------------------------------------------------------------

  /** A parse result and the value written to the out-parameter. */
  datatype Parsed<T> = Parsed(ok: bool, value: T)

  /** The value std::from_chars gives a digit or letter: '0'-'9' are 0-9, letters of either case 10-35; -1 otherwise. */
  function DigitValue(c: char): (v: int)
    ensures -1 <= v < 36
  {
    if '0' <= c <= '9' then c as int - '0' as int
    else if 'a' <= c <= 'z' then c as int - 'a' as int + 10
    else if 'A' <= c <= 'Z' then c as int - 'A' as int + 10
    else -1
  }

  predicate IsDigit(c: char, base: nat)
  {
    0 <= DigitValue(c) < base
  }

  predicate AllDigits(s: string, base: nat)
  {
    forall i :: 0 <= i < |s| ==> IsDigit(s[i], base)
  }

  /** The value of a run of digits, most significant first. */
  function DigitsValue(s: string, base: nat): nat
    requires AllDigits(s, base)
  {
    if s == [] then 0 else DigitsValue(s[..|s| - 1], base) * base + DigitValue(s[|s| - 1])
  }

  /** The base and the characters handed to std::from_chars: a leading "0x" in either case selects base 16 and is skipped. */
  function RadixAndDigits(input: string): (nat, string)
  {
    if StartsWithIgnoreCase(input, "0x") then (16, input[2..]) else (10, input)
  }

  /**
   * std::from_chars into a uint32_t, counted as a success only when no error was
   * reported and every character was consumed: at least one digit, nothing else,
   * and a value that fits.
   */
  function FromCharsUInt32(digits: string, base: nat): Option<uint32>
  {
    if digits != [] && AllDigits(digits, base) && DigitsValue(digits, base) < UINT32_LIMIT
    then Some(DigitsValue(digits, base)) else None
  }

  /**
   * The same for a `long`, which is 32 bits wide on the plug-in's platform: an
   * optional '-' may precede the digits (after the "0x" prefix, if any).
   */
  function FromCharsInt32(digits: string, base: nat): Option<int32>
  {
    if digits != [] && digits[0] == '-' then
      var magnitude := digits[1..];
      if magnitude != [] && AllDigits(magnitude, base) && DigitsValue(magnitude, base) <= 0x8000_0000
      then Some(0 - DigitsValue(magnitude, base)) else None
    else
      if digits != [] && AllDigits(digits, base) && DigitsValue(digits, base) < 0x8000_0000
      then Some(DigitsValue(digits, base)) else None
  }

  /** TryParse(string_view, uint32_t&): on failure the out value is reset to 0. */
  function TryParseUInt32(input: string): (r: Parsed<uint32>)
    ensures !r.ok ==> r.value == 0
    ensures r.ok ==> input != [] && input != "0x" && input != "0X"
  {
    var (base, digits) := RadixAndDigits(input);
    match FromCharsUInt32(digits, base)
    case Some(v) => Parsed(true, v)
    case None => Parsed(false, 0)
  }

  /** TryParse(string_view, long&): on failure the out value is reset to 0. */
  function TryParseInt32(input: string): (r: Parsed<int32>)
    ensures !r.ok ==> r.value == 0
    ensures r.ok ==> input != [] && input != "0x" && input != "0X"
  {
    var (base, digits) := RadixAndDigits(input);
    match FromCharsInt32(digits, base)
    case Some(v) => Parsed(true, v)
    case None => Parsed(false, 0)
  }

  // --- the parser reads back what printf writes ---

  lemma DigitCharValue(d: nat)
    requires d < 16
    ensures DigitValue(DigitChar(d)) == d
    ensures d < 10 ==> '0' <= DigitChar(d) <= '9'
  {
  }

  lemma AppendDigit(front: string, c: char, base: nat)
    requires AllDigits(front, base) && IsDigit(c, base)
    ensures AllDigits(front + [c], base)
    ensures DigitsValue(front + [c], base) == DigitsValue(front, base) * base + DigitValue(c)
  {
    assert (front + [c])[..|front|] == front;
  }

  lemma {:induction false} NumeralDigits(n: nat, base: nat)
    requires 2 <= base <= 16
    ensures AllDigits(Numeral(n, base), base)
    ensures DigitsValue(Numeral(n, base), base) == n
    decreases n
  {
    if n < base {
      DigitCharValue(n);
      AppendDigit([], DigitChar(n), base);
      assert [] + [DigitChar(n)] == Numeral(n, base);
    } else {
      NumeralStep(n, base);
      NumeralDigits(n / base, base);
      NumeralDigitsStep(n, base);
    }
  }

  lemma NumeralDigitsStep(n: nat, base: nat)
    requires 2 <= base <= 16 && n >= base
    requires AllDigits(Numeral(n / base, base), base)
    requires DigitsValue(Numeral(n / base, base), base) == n / base
    ensures AllDigits(Numeral(n, base), base)
    ensures DigitsValue(Numeral(n, base), base) == n
  {
    var q, d := n / base, n % base;
    var front, c := Numeral(q, base), DigitChar(d);
    NumeralStep(n, base);
    DigitCharValue(d);
    AppendDigit(front, c, base);
    DivMod(n, base);
  }

  lemma DivMod(n: nat, base: nat)
    requires base > 0
    ensures (n / base) * base + n % base == n
  {
  }

  /** Every character of a decimal numeral is one of '0'-'9', so it never starts with "0x". */
  lemma DecimalHasNoHexPrefix(n: nat)
    ensures !StartsWithIgnoreCase(Decimal(n), "0x")
  {
    var s := Decimal(n);
    NumeralDigits(n, 10);
    if |s| >= 2 {
      assert IsDigit(s[1], 10);
      assert ToLower(s[1]) != ToLower("0x"[1]);
      assert s[..2][1] == s[1];
    }
  }

  /** A uint32 written with `%u` parses back to itself. */
  lemma ParseDecimalRoundTrip(n: uint32)
    ensures TryParseUInt32(Decimal(n)) == Parsed(true, n)
  {
    DecimalHasNoHexPrefix(n);
    NumeralDigits(n, 10);
  }

  /** A uint32 written with `0x%x` or `0X%x` parses back to itself. */
  lemma ParseHexRoundTrip(n: uint32)
    ensures TryParseUInt32("0x" + Hex(n)) == Parsed(true, n)
    ensures TryParseUInt32("0X" + Hex(n)) == Parsed(true, n)
  {
    NumeralDigits(n, 16);
    assert ("0x" + Hex(n))[2..] == Hex(n);
    assert ("0X" + Hex(n))[2..] == Hex(n);
    assert ("0x" + Hex(n))[..2] == "0x";
    assert ("0X" + Hex(n))[..2] == "0X";
  }

  /** A decimal numeral too large for 32 bits is rejected (and the out value is 0). */
  lemma ParseDecimalOverflow(n: nat)
    requires n >= UINT32_LIMIT
    ensures TryParseUInt32(Decimal(n)) == Parsed(false, 0)
  {
    DecimalHasNoHexPrefix(n);
    NumeralDigits(n, 10);
  }

  /** An int32 written with `%d` parses back to itself through the `long` overload. */
  lemma ParseSignedRoundTrip(i: int32)
    ensures TryParseInt32(SignedDecimal(i)) == Parsed(true, i)
  {
    var s := SignedDecimal(i);
    if i < 0 {
      var m := Decimal(-(i as int));
      NumeralDigits(-(i as int), 10);
      assert s == "-" + m && s[1..] == m;
      assert !StartsWithIgnoreCase(s, "0x") by {
        assert ToLower(s[0]) != ToLower('0');
        if |s| >= 2 { assert s[..2][0] == s[0]; }
      }
    } else {
      DecimalHasNoHexPrefix(i);
      NumeralDigits(i, 10);
      assert s[0] != '-' by { assert IsDigit(s[0], 10); }
    }
  }

  /** Concrete cases: "42" and "0x2A" both read as 42. */
  lemma ParseAcceptsExamples()
    ensures TryParseUInt32("42") == Parsed(true, 42)
    ensures TryParseUInt32("0x2A") == Parsed(true, 42)
  {
    assert "42"[..1] == "4" && "4"[..0] == "";
    assert DigitsValue("42", 10) == 42;
    assert "2A"[..1] == "2" && "2"[..0] == "";
    assert "0x2A"[2..] == "2A";
    assert DigitsValue("2A", 16) == 42;
  }

  /** Concrete cases: trailing garbage, the empty string, a bare "0x" and a minus sign are rejected by the unsigned overload. */
  lemma ParseRejectsExamples()
    ensures TryParseUInt32("12abc") == Parsed(false, 0)
    ensures TryParseUInt32("") == Parsed(false, 0)
    ensures TryParseUInt32("0x") == Parsed(false, 0)
    ensures TryParseUInt32("-1") == Parsed(false, 0)
  {
    assert !IsDigit("12abc"[2], 10);
    assert "0x"[2..] == "";
    assert !IsDigit("-1"[0], 10);
  }

  /** Concrete cases for the signed overload: "-1", and a minus sign after the "0x" prefix. */
  lemma ParseSignedExamples()
    ensures TryParseInt32("-1") == Parsed(true, -1)
    ensures TryParseInt32("0x-5") == Parsed(true, -5)
  {
    assert "0x-5"[2..] == "-5" && "-5"[1..] == "5";
    assert "-1"[1..] == "1";
  }

  // ---------------------------------------------------------------------------
  // Split
  // ---------------------------------------------------------------------------

  predicate IsQuote(c: char)
  {
    c == '"' || c == '\''
  }

  /** The index of the first `c` in `s` at or after `from`, or |s| when there is none (see FindFromSpec). */
  function FindFrom(s: string, from: nat, c: char): (k: nat)
    requires from <= |s|
    ensures from <= k <= |s|
    decreases |s| - from
  {
    if from == |s| || s[from] == c then from else FindFrom(s, from + 1, c)
  }

  lemma {:induction false} FindFromSpec(s: string, from: nat, c: char)
    requires from <= |s|
    ensures FindFrom(s, from, c) < |s| ==> s[FindFrom(s, from, c)] == c
    ensures forall j :: from <= j < FindFrom(s, from, c) ==> s[j] != c
    decreases |s| - from
  {
    if from < |s| && s[from] != c {
      FindFromSpec(s, from + 1, c);
    }
  }

  /** Any index before which `c` does not occur, and at which `c` occurs or the input ends, is FindFrom's answer. */
  lemma {:induction false} FindFromIs(s: string, from: nat, c: char, k: nat)
    requires from <= k <= |s| && (k < |s| ==> s[k] == c)
    requires forall j :: from <= j < k ==> s[j] != c
    ensures FindFrom(s, from, c) == k
    decreases k - from
  {
    if from < k {
      FindFromIs(s, from + 1, c, k);
    }
  }

  /** Searching from `n + k` in `s` is searching from `k` in the rest `t == s[n..]`, shifted by `n`. */
  lemma {:induction false} FindFromShift(s: string, n: nat, t: string, k: nat, c: char)
    requires n <= |s| && s[n..] == t && k <= |t|
    ensures FindFrom(s, n + k, c) == n + FindFrom(t, k, c)
    decreases |t| - k
  {
    if k < |t| {
      assert s[n + k] == t[k];
      if t[k] != c {
        FindFromShift(s, n, t, k + 1, c);
      }
    }
  }

  /** A piece is pushed only when it is non-empty. */
  function Keep(piece: string): seq<string>
  {
    if piece == [] then [] else [piece]
  }

  /** Where the piece read at index `i` ends: the closing quote or the next delimiter (or the end of the input). */
  function PieceEnd(s: string, delim: char, i: nat): (e: nat)
    requires i < |s|
    ensures IsQuote(s[i]) ==> i + 1 <= e <= |s|
    ensures !IsQuote(s[i]) ==> i <= e <= |s|
  {
    if IsQuote(s[i]) then FindFrom(s, i + 1, s[i]) else FindFrom(s, i, delim)
  }

  /** The piece read at index `i`: without its quotes when it opens with one. */
  function PieceAt(s: string, delim: char, i: nat): string
    requires i < |s|
  {
    if IsQuote(s[i]) then s[i + 1..PieceEnd(s, delim, i)] else s[i..PieceEnd(s, delim, i)]
  }

  /** Where the turn after the one at `i` starts: past the closing quote and the character after it, or past the delimiter. */
  function NextTurn(s: string, delim: char, i: nat): (next: nat)
    requires i < |s|
    ensures i < next <= |s| + 2
  {
    if IsQuote(s[i]) then PieceEnd(s, delim, i) + 2 else PieceEnd(s, delim, i) + 1
  }

  /**
   * The pieces Split pushes for the part of `s` from index `i` on: one turn of its
   * loop per call. A piece that opens with a quote runs to the matching quote (or
   * to the end), excludes both quotes, and the character after the closing quote
   * is skipped; any other piece runs to the next delimiter, which is skipped.
   */
  function PiecesFrom(s: string, delim: char, i: nat): seq<string>
    requires i <= |s| + 2
    decreases |s| + 2 - i
  {
    if i >= |s| then [] else Keep(PieceAt(s, delim, i)) + PiecesFrom(s, delim, NextTurn(s, delim, i))
  }

  function Pieces(s: string, delim: char): seq<string>
  {
    PiecesFrom(s, delim, 0)
  }

  /** The inner scanning loops of Split: the first `c` at or after `from`, or the end of the input. */
  method ScanTo(input: string, from: nat, c: char) returns (i: nat)
    requires from <= |input|
    ensures i == FindFrom(input, from, c)
  {
    i := from;
    while i < |input| && input[i] != c
      invariant from <= i <= |input|
      invariant FindFrom(input, i, c) == FindFrom(input, from, c)
    {
      i := i + 1;
    }
  }


  /** Split pushes the pieces of `input` after whatever `results` already held. */
  method Split(input: string, delim: char, results: seq<string>) returns (pieces: seq<string>)
    ensures pieces == results + Pieces(input, delim)
  {
    pieces := results;
    var foundDoubleQuote, foundSingleQuote := false, false;
    var argumentLength := 0;
    var i := 0;
    ghost var whole := Pieces(input, delim);
    while i < |input|
      invariant i <= |input| + 2
      invariant (foundDoubleQuote || foundSingleQuote) ==> i > |input|
      invariant results + whole == pieces + PiecesFrom(input, delim, i)
      decreases |input| + 2 - i
    {
      ghost var before, from := pieces, i;
      var start := i;
      if input[i] == '"' {
        foundDoubleQuote := true;
      } else if input[i] == '\'' {
        foundSingleQuote := true;
      }

      if foundDoubleQuote || foundSingleQuote {
        var quote := input[i];
        i := i + 1;
        start := start + 1;
        i := ScanTo(input, i, quote);
        if i < |input| {
          foundDoubleQuote, foundSingleQuote := false, false;
        }
        argumentLength := i - start;
        i := i + 1;
      } else {
        i := ScanTo(input, i, delim);
        argumentLength := i - start;
      }

      ghost var piece := input[start..start + argumentLength];
      if argumentLength > 0 {
        pieces := pieces + [input[start..start + argumentLength]];
      }
      i := i + 1;
      SplitTurn(input, delim, from, start, argumentLength, i);
      SplitStep(input, delim, from, i, piece, results + whole, before, pieces);
    }
  }

  /** The piece one turn of Split reads, and where the next turn starts, are the ones PiecesFrom names. */
  lemma SplitTurn(s: string, delim: char, from: nat, start: nat, length: nat, next: nat)
    requires from < |s|
    requires IsQuote(s[from]) ==> start == from + 1 && start + length == FindFrom(s, start, s[from]) && next == start + length + 2
    requires !IsQuote(s[from]) ==> start == from && start + length == FindFrom(s, from, delim) && next == start + length + 1
    ensures start + length <= |s|
    ensures s[start..start + length] == PieceAt(s, delim, from) && next == NextTurn(s, delim, from)
  {
  }

  /** One turn of Split keeps its loop invariant: the pieces pushed so far, then those still to come, are all of them. */
  lemma SplitStep(s: string, delim: char, from: nat, next: nat, piece: string, all: seq<string>, before: seq<string>, after: seq<string>)
    requires from < |s| && next == NextTurn(s, delim, from) && piece == PieceAt(s, delim, from)
    requires all == before + PiecesFrom(s, delim, from) && after == before + Keep(piece)
    ensures all == after + PiecesFrom(s, delim, next)
  {
    UnfoldWith(s, delim, from, next, piece);
    ConcatAssoc(before, Keep(piece), PiecesFrom(s, delim, next));
  }

  /** The piece a turn reads is the same whether the rest `t == s[n..]` is read alone or after `n` characters. */
  lemma ShiftPiece(s: string, n: nat, t: string, first: nat, c: char)
    requires n <= |s| && s[n..] == t && first <= |t|
    ensures FindFrom(s, n + first, c) == n + FindFrom(t, first, c)
    ensures s[n + first..n + FindFrom(t, first, c)] == t[first..FindFrom(t, first, c)]
  {
    FindFromShift(s, n, t, first, c);
    var e := FindFrom(t, first, c);
    assert s[n + first..n + e] == t[first..e];
  }

  /** One turn of Split's loop: the piece read at `i`, then the pieces from the next turn on. */
  lemma Unfold(s: string, delim: char, i: nat, next: nat)
    requires i < |s| && next == NextTurn(s, delim, i)
    ensures PiecesFrom(s, delim, i) == Keep(PieceAt(s, delim, i)) + PiecesFrom(s, delim, next)
  {
  }

  /** A turn reads the same piece, and ends at the same place, whether the rest `t == s[n..]` is read alone or after `n` characters. */
  lemma TurnShift(s: string, n: nat, t: string, delim: char, k: nat)
    requires n <= |s| && s[n..] == t && k < |t|
    ensures NextTurn(s, delim, n + k) == n + NextTurn(t, delim, k)
    ensures PieceAt(s, delim, n + k) == PieceAt(t, delim, k)
  {
    assert s[n + k] == t[k];
    if IsQuote(t[k]) {
      ShiftPiece(s, n, t, k + 1, t[k]);
    } else {
      ShiftPiece(s, n, t, k, delim);
    }
  }

  /** One turn of Split's loop, with the piece it reads named. */
  lemma UnfoldWith(s: string, delim: char, i: nat, next: nat, piece: string)
    requires i < |s| && next == NextTurn(s, delim, i) && piece == PieceAt(s, delim, i)
    ensures PiecesFrom(s, delim, i) == Keep(piece) + PiecesFrom(s, delim, next)
  {
  }

  /** The turn at `n + k` in `s` reads the piece the turn at `k` reads in the rest `t == s[n..]`. */
  lemma UnfoldShifted(s: string, n: nat, t: string, delim: char, k: nat, next: nat)
    requires n <= |s| && s[n..] == t && k < |t| && next == NextTurn(t, delim, k)
    ensures n + next <= |s| + 2
    ensures PiecesFrom(s, delim, n + k) == Keep(PieceAt(t, delim, k)) + PiecesFrom(s, delim, n + next)
  {
    TurnShift(s, n, t, delim, k);
    UnfoldWith(s, delim, n + k, n + next, PieceAt(t, delim, k));
  }

  /** Splitting `s` after its first `n` characters is splitting the rest `t == s[n..]`. */
  lemma {:induction false} PiecesShift(s: string, n: nat, t: string, delim: char, k: nat)
    requires n <= |s| && s[n..] == t && k <= |t| + 2
    ensures PiecesFrom(s, delim, n + k) == PiecesFrom(t, delim, k)
    decreases |t| + 2 - k
  {
    if k < |t| {
      var next := NextTurn(t, delim, k);
      UnfoldShifted(s, n, t, delim, k, next);
      UnfoldWith(t, delim, k, next, PieceAt(t, delim, k));
      PiecesShift(s, n, t, delim, next);
    }
  }

  /** Every pushed piece is non-empty. */
  lemma {:induction false} PiecesNonEmpty(s: string, delim: char, i: nat)
    requires i <= |s| + 2
    ensures forall k :: 0 <= k < |PiecesFrom(s, delim, i)| ==> PiecesFrom(s, delim, i)[k] != []
    decreases |s| + 2 - i
  {
    if i < |s| {
      PiecesNonEmpty(s, delim, NextTurn(s, delim, i));
    }
  }

  /** Without quote characters in the input, no piece contains the delimiter. */
  lemma {:induction false} UnquotedPiecesExcludeDelimiter(s: string, delim: char, i: nat)
    requires i <= |s| + 2
    requires forall j :: 0 <= j < |s| ==> !IsQuote(s[j])
    ensures forall k :: 0 <= k < |PiecesFrom(s, delim, i)| ==> delim !in PiecesFrom(s, delim, i)[k]
    decreases |s| + 2 - i
  {
    if i < |s| {
      assert !IsQuote(s[i]);
      FindFromSpec(s, i, delim);
      assert delim !in PieceAt(s, delim, i);
      UnquotedPiecesExcludeDelimiter(s, delim, NextTurn(s, delim, i));
    }
  }

  /** A non-empty input with no delimiter and no leading quote is one piece: the input itself. */
  lemma SinglePiece(s: string, delim: char)
    requires s != [] && !IsQuote(s[0]) && delim !in s
    ensures Pieces(s, delim) == [s]
  {
    FindFromIs(s, 0, delim, |s|);
    assert s[0..|s|] == s;
    Unfold(s, delim, 0, |s| + 1);
  }

  /** A quoted piece keeps the delimiter, drops its quotes, and the character after the closing quote is skipped. */
  lemma QuotedPiece(quote: char, body: string, skipped: char, rest: string, delim: char)
    requires IsQuote(quote) && quote !in body && body != []
    ensures Pieces([quote] + body + [quote, skipped] + rest, delim) == [body] + Pieces(rest, delim)
  {
    var prefix := [quote] + body + [quote, skipped];
    var s := prefix + rest;
    assert s[0] == quote && s[|body| + 1] == quote;
    assert forall j :: 1 <= j < |body| + 1 ==> s[j] == body[j - 1];
    FindFromIs(s, 1, quote, |body| + 1);
    assert s[1..|body| + 1] == body;
    assert s[|prefix|..] == rest;
    PiecesShift(s, |prefix|, rest, delim, 0);
    UnfoldWith(s, delim, 0, |prefix|, body);
    assert [quote] + body + [quote, skipped] + rest == s;
  }

  /** An unterminated quote runs to the end of the input. */
  lemma UnterminatedQuote(quote: char, body: string, delim: char)
    requires IsQuote(quote) && quote !in body && body != []
    ensures Pieces([quote] + body, delim) == [body]
  {
    var s := [quote] + body;
    assert forall j :: 1 <= j < |s| ==> s[j] == body[j - 1];
    FindFromIs(s, 1, quote, |s|);
    assert s[1..|s|] == body;
    Unfold(s, delim, 0, |s| + 2);
  }

  /** Pieces joined with the delimiter. */
  function Join(pieces: seq<string>, delim: char): string
  {
    if pieces == [] then []
    else if |pieces| == 1 then pieces[0]
    else pieces[0] + [delim] + Join(pieces[1..], delim)
  }

  /** Splitting undoes joining for non-empty pieces that hold no delimiter and do not open with a quote. */
  lemma {:induction false} SplitJoinRoundTrip(pieces: seq<string>, delim: char)
    requires forall k :: 0 <= k < |pieces| ==> pieces[k] != [] && !IsQuote(pieces[k][0]) && delim !in pieces[k]
    ensures Pieces(Join(pieces, delim), delim) == pieces
    decreases |pieces|
  {
    if |pieces| == 1 {
      SinglePiece(pieces[0], delim);
    } else if |pieces| > 1 {
      DelimitedHead(pieces[0], delim, Join(pieces[1..], delim));
      SplitJoinRoundTrip(pieces[1..], delim);
      assert pieces == [pieces[0]] + pieces[1..];
    }
  }

  /** A piece with no delimiter and no leading quote, then the delimiter, is read as that piece; reading goes on after the delimiter. */
  lemma DelimitedHead(p: string, delim: char, tail: string)
    requires p != [] && !IsQuote(p[0]) && delim !in p
    ensures Pieces(p + [delim] + tail, delim) == [p] + Pieces(tail, delim)
  {
    var prefix := p + [delim];
    var s := prefix + tail;
    assert s[0] == p[0] && s[|p|] == delim;
    assert forall j :: 0 <= j < |p| ==> s[j] == p[j];
    FindFromIs(s, 0, delim, |p|);
    assert s[0..|p|] == p;
    assert s[|prefix|..] == tail;
    PiecesShift(s, |prefix|, tail, delim, 0);
    UnfoldWith(s, delim, 0, |prefix|, p);
  }
}
