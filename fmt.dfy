/**
  The report formatter of lerror/src/fmt.rs: `impl Debug for Error` and the `Indented` writer.

  A destination is a `Sink`. So that write errors can be observed, a sink has a capacity: a
  write that would take it past its capacity fails and appends nothing (a `String` is a sink
  whose capacity is never reached). The contract of every formatting step is `Wrote`: either
  the whole text was written and the step succeeded, or the step failed, part of the text
  was written, and the whole text would not have fit.
*/
module Fmt {
  import opened Wrappers
  import opened ErrorChain

  /** A `fmt::Write` destination. */
  class Sink {
    var out: string
    const capacity: nat

    ghost predicate Valid()
      reads this
    {
      |out| <= capacity
    }

    constructor (capacity: nat)
      ensures Valid() && out == [] && this.capacity == capacity
    {
      out := [];
      this.capacity := capacity;
    }

    /** `write_str`: appends all of `s`, or fails and appends nothing. */
    method WriteStr(s: string) returns (ok: bool)
      requires Valid()
      modifies this
      ensures Valid()
      ensures ok <==> |old(out)| + |s| <= capacity
      ensures out == if ok then old(out) + s else old(out)
      ensures Wrote(old(out), out, capacity, s, ok)
    {
      ok := |out| + |s| <= capacity;
      if ok {
        out := out + s;
      }
    }

    /** `write_char`. */
    method WriteChar(c: char) returns (ok: bool)
      requires Valid()
      modifies this
      ensures Valid()
      ensures ok <==> |old(out)| + 1 <= capacity
      ensures out == if ok then old(out) + [c] else old(out)
      ensures Wrote(old(out), out, capacity, [c], ok)
    {
      ok := WriteStr([c]);
    }
  }

  /**
    A sink that held `before` and now holds `after`, after a step that was to write `text` and
    reported `ok`: on success it holds exactly `before + text`; on failure it holds `before`
    followed by part of `text`, and all of `text` would not have fit.
  */
  predicate Wrote(before: string, after: string, capacity: nat, text: string, ok: bool) {
    if ok then after == before + text && |after| <= capacity
    else before <= after && after <= before + text && |before| + |text| > capacity
  }

  /** Errors are propagated, not swallowed: a step reports success exactly when its whole text fits. */
  lemma WroteReportsOverflow(before: string, after: string, capacity: nat, text: string, ok: bool)
    requires Wrote(before, after, capacity, text, ok)
    ensures ok <==> |before| + |text| <= capacity
  {
  }

  /** A successful step followed by another is one step writing both texts. */
  lemma WroteThen(before: string, middle: string, after: string, capacity: nat, first: string, second: string, ok: bool)
    requires Wrote(before, middle, capacity, first, true)
    requires Wrote(middle, after, capacity, second, ok)
    ensures Wrote(before, after, capacity, first + second, ok)
  {
    assert before + (first + second) == (before + first) + second;
    if !ok {
      assert after <= before + (first + second) by {
        assert after == (middle + second)[..|after|];
      }
      assert before <= after by {
        assert before == middle[..|before|];
      }
    }
  }

  /** A failed step is also a failed step of any longer text it begins. */
  lemma WroteStops(before: string, after: string, capacity: nat, text: string, rest: string)
    requires Wrote(before, after, capacity, text, false)
    ensures Wrote(before, after, capacity, text + rest, false)
  {
    assert before + (text + rest) == (before + text) + rest;
    assert after <= before + (text + rest) by {
      assert after == (before + text)[..|after|];
    }
  }

  // ----- Numbers -----

  /** The decimal digit for `d`. */
  function Digit(d: nat): (c: char)
    requires d < 10
    ensures '0' <= c <= '9'
  {
    ('0' as int + d) as char
  }

  /** Display of an unsigned integer: its decimal digits, without leading zeros. */
  function NatToString(n: nat): (s: string)
    ensures |s| >= 1
    ensures forall i :: 0 <= i < |s| ==> '0' <= s[i] <= '9'
    ensures n > 0 ==> s[0] != '0'
    decreases n
  {
    if n < 10 then [Digit(n)] else NatToString(n / 10) + [Digit(n % 10)]
  }

  /** The value of a string of decimal digits. */
  function ParseDecimal(s: string): int
    decreases |s|
  {
    if s == [] then 0 else ParseDecimal(s[..|s| - 1]) * 10 + (s[|s| - 1] as int - '0' as int)
  }

  /** The digits `NatToString` writes read back as the number. */
  lemma {:induction false} NatToStringRoundTrip(n: nat)
    ensures ParseDecimal(NatToString(n)) == n
    decreases n
  {
    var s := NatToString(n);
    if n >= 10 {
      NatToStringRoundTrip(n / 10);
      assert s[..|s| - 1] == NatToString(n / 10);
    } else {
      assert s[..|s| - 1] == [];
    }
  }

  function Pow10(k: nat): (p: nat)
    ensures p >= 1
  {
    if k == 0 then 1 else 10 * Pow10(k - 1)
  }

  /** A number below 10^k has at most k digits. */
  lemma {:induction false} NatToStringWidth(n: nat, k: nat)
    requires 1 <= k && n < Pow10(k)
    ensures |NatToString(n)| <= k
    decreases n
  {
    if n >= 10 {
      assert k >= 2;
      NatToStringWidth(n / 10, k - 1);
    }
  }

  /** `n` spaces. */
  function Spaces(n: nat): (s: string)
    ensures |s| == n && forall i :: 0 <= i < n ==> s[i] == ' '
  {
    if n == 0 then "" else " " + Spaces(n - 1)
  }

  /** `{: >width}`: `s` right-aligned in a field of `width` characters, never truncated. */
  function PadLeft(s: string, width: nat): (r: string)
    ensures |r| == if |s| < width then width else |s|
    ensures r[|r| - |s|..] == s
    ensures forall i :: 0 <= i < |r| - |s| ==> r[i] == ' '
  {
    if |s| < width then Spaces(width - |s|) + s else s
  }

  // ----- Lines -----

  /** `str::split(sep)`: the pieces between the occurrences of `sep`; there is always at least one. */
  function Split(s: string, sep: char): (parts: seq<string>)
    ensures |parts| >= 1
    ensures forall i :: 0 <= i < |parts| ==> sep !in parts[i]
    decreases |s|
  {
    if s == [] then [[]]
    else
      var rest := Split(s[1..], sep);
      if s[0] == sep then [[]] + rest
      else [[s[0]] + rest[0]] + rest[1..]
  }

  /** The parts, `glue` between each two. */
  function JoinWith(parts: seq<string>, glue: string): string
    requires |parts| >= 1
  {
    parts[0] + Glued(parts[1..], glue)
  }

  /** Each part preceded by `glue`. */
  function Glued(parts: seq<string>, glue: string): string
    decreases |parts|
  {
    if parts == [] then "" else glue + parts[0] + Glued(parts[1..], glue)
  }

  /** Gluing distributes over concatenation of the pieces. */
  lemma {:induction false} GluedAppend(a: seq<string>, b: seq<string>, glue: string)
    ensures Glued(a + b, glue) == Glued(a, glue) + Glued(b, glue)
    decreases |a|
  {
    if a == [] {
      assert a + b == b;
    } else {
      GluedAppend(a[1..], b, glue);
      assert (a + b)[1..] == a[1..] + b;
      assert (a + b)[0] == a[0];
    }
  }

  /** Joining splits at any piece: the first `k` pieces joined, then the rest each after `glue`. */
  lemma JoinWithSplit(parts: seq<string>, k: nat, glue: string)
    requires 1 <= k <= |parts|
    ensures JoinWith(parts, glue) == JoinWith(parts[..k], glue) + Glued(parts[k..], glue)
  {
    GluedAppend(parts[1..k], parts[k..], glue);
    assert parts[1..] == parts[1..k] + parts[k..];
    assert parts[..k][0] == parts[0] && parts[..k][1..] == parts[1..k];
    Regroup(parts[0], Glued(parts[1..k], glue), Glued(parts[k..], glue));
  }

  /** Joining one more piece appends `glue` and that piece. */
  lemma JoinWithSnoc(parts: seq<string>, i: nat, glue: string)
    requires 1 <= i < |parts|
    ensures JoinWith(parts[..i + 1], glue) == JoinWith(parts[..i], glue) + (glue + parts[i])
  {
    JoinWithSplit(parts[..i + 1], i, glue);
    assert parts[..i + 1][..i] == parts[..i];
    assert parts[..i + 1][i..] == [parts[i]];
    assert Glued([parts[i]], glue) == glue + parts[i] + Glued([], glue);
  }

  /** Joining after a lead: one piece more, and the whole as the pieces so far followed by the rest. */
  lemma LinesStep(lead: string, parts: seq<string>, i: nat, glue: string)
    requires i < |parts|
    ensures i == 0 ==> lead + JoinWith(parts[..1], glue) == lead + parts[0]
    ensures i > 0 ==> lead + JoinWith(parts[..i], glue) + (glue + parts[i]) == lead + JoinWith(parts[..i + 1], glue)
    ensures lead + JoinWith(parts, glue) == lead + JoinWith(parts[..i + 1], glue) + Glued(parts[i + 1..], glue)
  {
    if i == 0 {
      assert parts[..1] == [parts[0]];
    } else {
      JoinWithSnoc(parts, i, glue);
      Regroup(lead, JoinWith(parts[..i], glue), glue + parts[i]);
    }
    JoinWithSplit(parts, i + 1, glue);
    Regroup(lead, JoinWith(parts[..i + 1], glue), Glued(parts[i + 1..], glue));
  }

  /** `s` with every `sep` replaced by `glue`. */
  function Replace(s: string, sep: char, glue: string): string
    decreases |s|
  {
    if s == [] then [] else (if s[0] == sep then glue else [s[0]]) + Replace(s[1..], sep, glue)
  }

  /** Splitting at `sep` and joining with `glue` replaces each `sep` by `glue`. */
  lemma {:induction false} JoinSplit(s: string, sep: char, glue: string)
    ensures JoinWith(Split(s, sep), glue) == Replace(s, sep, glue)
    decreases |s|
  {
    if s != [] {
      JoinSplit(s[1..], sep, glue);
      var rest := Split(s[1..], sep);
      if s[0] == sep {
        assert ([[]] + rest)[1..] == rest;
        assert Glued(rest, glue) == glue + JoinWith(rest, glue);
      } else {
        assert ([[s[0]] + rest[0]] + rest[1..])[1..] == rest[1..];
      }
    }
  }

  /** Replacing `sep` by itself changes nothing. */
  lemma {:induction false} ReplaceSelf(s: string, sep: char)
    ensures Replace(s, sep, [sep]) == s
    decreases |s|
  {
    if s != [] {
      ReplaceSelf(s[1..], sep);
      assert s == [s[0]] + s[1..];
    }
  }

  /** `split` loses nothing: joining its pieces with the separator gives the input back. */
  lemma SplitRoundTrip(s: string, sep: char)
    ensures JoinWith(Split(s, sep), [sep]) == s
  {
    JoinSplit(s, sep, [sep]);
    ReplaceSelf(s, sep);
  }

  /** Replacement works character by character, so it distributes over concatenation. */
  lemma {:induction false} ReplaceConcat(a: string, b: string, sep: char, glue: string)
    ensures Replace(a + b, sep, glue) == Replace(a, sep, glue) + Replace(b, sep, glue)
    decreases |a|
  {
    if a != [] {
      ReplaceConcat(a[1..], b, sep, glue);
      assert (a + b)[1..] == a[1..] + b;
    } else {
      assert a + b == b;
    }
  }

  /** Text without `sep` is left as it is. */
  lemma {:induction false} ReplaceAbsent(s: string, sep: char, glue: string)
    requires sep !in s
    ensures Replace(s, sep, glue) == s
    decreases |s|
  {
    if s != [] {
      ReplaceAbsent(s[1..], sep, glue);
      assert s == [s[0]] + s[1..];
    }
  }

  // ----- The Indented writer -----

  /** The prefix of a frame's first line: the index right-aligned in 5 columns and ": ", or 4 spaces. */
  function Prefix(number: Option<nat>): string {
    match number
    case Some(n) => PadLeft(NatToString(n), 5) + ": "
    case None => "    "
  }

  /** What follows each line break: 7 spaces when numbered, 4 otherwise. */
  function Continuation(number: Option<nat>): string {
    if number.Some? then "       " else "    "
  }

  /** Continuation lines sit exactly under the first line's text for every index below 100000. */
  lemma PrefixAligned(number: Option<nat>)
    requires number.Some? ==> number.value < 100000
    ensures |Prefix(number)| == |Continuation(number)|
    ensures number.Some? ==> Prefix(number) == Spaces(5 - |NatToString(number.value)|) + NatToString(number.value) + ": "
  {
    if number.Some? {
      var digits := NatToString(number.value);
      assert Pow10(5) == 100000;
      NatToStringWidth(number.value, 5);
      if |digits| == 5 {
        assert Spaces(0) == "";
        assert PadLeft(digits, 5) == digits;
      } else {
        assert PadLeft(digits, 5) == Spaces(5 - |digits|) + digits;
      }
    }
  }

  /**
    What `Indented::write_str(s)` writes: the prefix if the writer has not started yet, then
    `s` with every line break followed by the continuation indent.
  */
  function IndentedText(number: Option<nat>, started: bool, s: string): string {
    (if started then "" else Prefix(number)) + Replace(s, '\n', "\n" + Continuation(number))
  }

  /**
    The prefix is written once per writer, so writing `a` and then `b` gives the same text as
    writing `a + b` in one call.
  */
  lemma IndentedSplitInvariant(number: Option<nat>, started: bool, a: string, b: string)
    ensures IndentedText(number, started, a) + IndentedText(number, true, b) == IndentedText(number, started, a + b)
  {
    ReplaceConcat(a, b, '\n', "\n" + Continuation(number));
  }

  /** Two lines given to a fresh writer: the prefix, the first line, a line break, the continuation indent, the second line. */
  lemma IndentedTwoLines(number: Option<nat>, first: string, second: string)
    requires '\n' !in first && '\n' !in second
    ensures IndentedText(number, false, first + "\n" + second) ==
      Prefix(number) + first + "\n" + Continuation(number) + second
  {
    var indent := Continuation(number);
    var glue := "\n" + indent;
    ReplaceConcat(first + "\n", second, '\n', glue);
    ReplaceConcat(first, "\n", '\n', glue);
    ReplaceAbsent(first, '\n', glue);
    ReplaceAbsent(second, '\n', glue);
    ReplaceLineBreak(glue);
    assert Replace(first + "\n" + second, '\n', glue) == first + glue + second;
    TwoLinesRegroup(Prefix(number), first, indent, second);
  }

  /** A lone line break is replaced by `glue`. */
  lemma ReplaceLineBreak(glue: string)
    ensures Replace("\n", '\n', glue) == glue
  {
    assert Replace("\n", '\n', glue) == glue + Replace([], '\n', glue);
  }

  /**
    The regrouping of a prefix, a line, a line break with its indent, and the next line.
    Kept apart, on plain strings, so that no definition around them is unfolded.
  */
  lemma TwoLinesRegroup(prefix: string, first: string, indent: string, second: string)
    ensures prefix + (first + ("\n" + indent) + second) == prefix + first + "\n" + indent + second
  {
  }

  /** Index 2 is padded to the right of four spaces. */
  lemma PrefixOfTwo(n: nat)
    requires n == 2
    ensures Prefix(Some(n)) == "    2: "
  {
    assert NatToString(n) == "2";
    assert Spaces(4) == "    ";
  }

  /** Index 12 is padded to the right of three spaces. */
  lemma PrefixOfTwelve(n: nat)
    requires n == 12
    ensures Prefix(Some(n)) == "   12: "
  {
    assert NatToString(n / 10) == "1";
    assert NatToString(n) == NatToString(n / 10) + "2";
    assert Spaces(3) == "   ";
  }

  /** The input of the unit tests of fmt.rs, split at its line break. */
  lemma VerifyThis(number: Option<nat>, input: string)
    requires input == "verify\nthis"
    ensures IndentedText(number, false, input) == Prefix(number) + "verify" + "\n" + Continuation(number) + "this"
  {
    var first, second := input[..6], input[7..];
    assert first == "verify" && second == "this";
    assert input == first + "\n" + second;
    IndentedTwoLines(number, first, second);
  }

  /** The unit test of fmt.rs with index 2. */
  lemma IndentedIndexTwo(n: nat, input: string)
    requires n == 2 && input == "verify\nthis"
    ensures IndentedText(Some(n), false, input) == "    2: verify\n       this"
  {
    VerifyThis(Some(n), input);
    PrefixOfTwo(n);
  }

  /** The unit test of fmt.rs with index 12. */
  lemma IndentedIndexTwelve(n: nat, input: string)
    requires n == 12 && input == "verify\nthis"
    ensures IndentedText(Some(n), false, input) == "   12: verify\n       this"
  {
    VerifyThis(Some(n), input);
    PrefixOfTwelve(n);
  }

  /** The unit test of fmt.rs without an index. */
  lemma IndentedNoIndex(input: string)
    requires input == "verify\nthis"
    ensures IndentedText(None, false, input) == "    verify\n    this"
  {
    VerifyThis(None, input);
  }

  /**
    Concatenation of three strings regroups.
    Kept apart, on plain strings, so that no definition around them is unfolded.
  */
  lemma Regroup(a: string, b: string, c: string)
    ensures a + (b + c) == a + b + c
  {
  }

  /** `Indented`: writes through to `inner`, numbering or indenting the lines it is given. */
  class Indented {
    const inner: Sink
    const number: Option<nat>
    var started: bool

    constructor (inner: Sink, number: Option<nat>)
      ensures this.inner == inner && this.number == number && !started
    {
      this.inner := inner;
      this.number := number;
      started := false;
    }

    /** `Indented::write_str`: writes `IndentedText` of `s`, stopping at the first failed write. */
    method WriteStr(s: string) returns (ok: bool)
      requires inner.Valid()
      modifies this, inner
      ensures inner.Valid() && started
      ensures Wrote(old(inner.out), inner.out, inner.capacity, IndentedText(number, old(started), s), ok)
    {
      JoinSplit(s, '\n', "\n" + Continuation(number));
      ok := WriteLines(Split(s, '\n'));
    }

    /**
      The loop of `write_str` over the pieces of its argument split at line breaks: the prefix
      before the first piece if the writer has not started, a line break and the continuation
      indent before every later piece.
    */
    method WriteLines(lines: seq<string>) returns (ok: bool)
      requires |lines| >= 1 && inner.Valid()
      modifies this, inner
      ensures inner.Valid() && started
      ensures Wrote(old(inner.out), inner.out, inner.capacity,
        (if old(started) then "" else Prefix(number)) + JoinWith(lines, "\n" + Continuation(number)), ok)
    {
      ghost var before := inner.out;
      ghost var glue := "\n" + Continuation(number);
      ghost var lead := if started then "" else Prefix(number);
      var i := 0;
      while i < |lines|
        invariant 0 <= i <= |lines|
        invariant inner.Valid()
        invariant i == 0 ==> inner.out == before && started == old(started)
        invariant i > 0 ==> started && Wrote(before, inner.out, inner.capacity, lead + JoinWith(lines[..i], glue), true)
      {
        ghost var middle := inner.out;
        ok := WriteLine(i > 0, lines[i]);
        LinesStep(lead, lines, i, glue);
        if i > 0 {
          WroteThen(before, middle, inner.out, inner.capacity, lead + JoinWith(lines[..i], glue), glue + lines[i], ok);
        }
        if !ok {
          WroteStops(before, inner.out, inner.capacity, lead + JoinWith(lines[..i + 1], glue), Glued(lines[i + 1..], glue));
          return;
        }
        i := i + 1;
      }
      assert lines[..i] == lines;
      ok := true;
    }

    /**
      One turn of the loop of `write_str`: the prefix if the writer has not started, otherwise a
      line break and the continuation indent if this is not the first piece, and then the piece.
    */
    method WriteLine(later: bool, line: string) returns (ok: bool)
      requires inner.Valid()
      modifies this, inner
      ensures inner.Valid() && started
      ensures Wrote(old(inner.out), inner.out, inner.capacity, LineLead(number, old(started), later) + line, ok)
    {
      ghost var before := inner.out;
      ghost var lead := LineLead(number, started, later);
      if !started {
        assert lead == Prefix(number);
        started := true;
        ok := inner.WriteStr(Prefix(number));
        if !ok {
          WroteStops(before, inner.out, inner.capacity, lead, line);
          return;
        }
      } else if later {
        assert lead == "\n" + Continuation(number);
        ok := inner.WriteChar('\n');
        if !ok {
          WroteStops(before, inner.out, inner.capacity, "\n", Continuation(number) + line);
          Regroup("\n", Continuation(number), line);
          return;
        }
        ghost var middle := inner.out;
        ok := inner.WriteStr(Continuation(number));
        WroteThen(before, middle, inner.out, inner.capacity, "\n", Continuation(number), ok);
        if !ok {
          WroteStops(before, inner.out, inner.capacity, lead, line);
          return;
        }
      } else {
        assert lead == "";
        assert inner.out == before + lead;
      }
      ghost var middle := inner.out;
      ok := inner.WriteStr(line);
      WroteThen(before, middle, inner.out, inner.capacity, lead, line, ok);
    }
  }

  /** What one turn of the loop of `write_str` writes before its piece. */
  function LineLead(number: Option<nat>, started: bool, later: bool): string {
    if !started then Prefix(number) else if later then "\n" + Continuation(number) else ""
  }

  // ----- Debug for Error -----

  /** The first line of every report. */
  const Header := "lerror::Error\n\n"

  /** `{file}:{line}:{column}`. */
  function LocationText(frame: ContextError): string {
    frame.file + ":" + NatToString(frame.line as nat) + ":" + NatToString(frame.column as nat)
  }

  /** What is written to a frame's `Indented`: the location, then the message on the next line if there is one. */
  function FrameBody(frame: ContextError): string {
    if frame.context == [] then LocationText(frame) else LocationText(frame) + "\n" + frame.context
  }

  /** The rendering of frame `i`: its body, numbered `i`, then the `writeln!` line break. */
  function FrameText(i: nat, frame: ContextError): string {
    IndentedText(Some(i), false, FrameBody(frame)) + "\n"
  }

  /** The rendering of every frame, numbered by its index. */
  function FrameTexts(frames: seq<ContextError>): seq<string> {
    seq(|frames|, k requires 0 <= k < |frames| => FrameText(k, frames[k]))
  }

  /** Parts `lo` up to `hi` (exclusive), one after the other. */
  function Concat(parts: seq<string>, lo: nat, hi: nat): string
    requires lo <= hi <= |parts|
    decreases hi - lo
  {
    if lo == hi then "" else parts[lo] + Concat(parts, lo + 1, hi)
  }

  /** The whole report: the header, then every frame in stored order. */
  function Render(frames: seq<ContextError>): string {
    Header + Concat(FrameTexts(frames), 0, |frames|)
  }

  /** A range of parts is its first part followed by its second. */
  lemma {:induction false} ConcatSplit(parts: seq<string>, lo: nat, mid: nat, hi: nat)
    requires lo <= mid <= hi <= |parts|
    ensures Concat(parts, lo, hi) == Concat(parts, lo, mid) + Concat(parts, mid, hi)
    decreases mid - lo
  {
    if lo < mid {
      ConcatSplit(parts, lo + 1, mid, hi);
      Regroup(parts[lo], Concat(parts, lo + 1, mid), Concat(parts, mid, hi));
    }
  }

  /** One part more appends that part. */
  lemma ConcatSnoc(parts: seq<string>, lo: nat, hi: nat)
    requires lo <= hi < |parts|
    ensures Concat(parts, lo, hi + 1) == Concat(parts, lo, hi) + parts[hi]
  {
    ConcatSplit(parts, lo, hi, hi + 1);
    assert Concat(parts, hi, hi + 1) == parts[hi] + "";
  }

  /** When every part ends in a line break, so does a nonempty range of them. */
  lemma {:induction false} ConcatEndsWithNewline(parts: seq<string>, lo: nat, hi: nat)
    requires lo < hi <= |parts|
    requires forall k :: lo <= k < hi ==> |parts[k]| > 0 && parts[k][|parts[k]| - 1] == '\n'
    ensures |Concat(parts, lo, hi)| > 0 && Concat(parts, lo, hi)[|Concat(parts, lo, hi)| - 1] == '\n'
    decreases hi - lo
  {
    if lo + 1 == hi {
      assert Concat(parts, lo, hi) == parts[lo] + "";
    } else {
      ConcatEndsWithNewline(parts, lo + 1, hi);
    }
  }

  /** A report always begins with the header and, when the chain has frames, ends in a line break. */
  lemma RenderShape(frames: seq<ContextError>)
    ensures Render(frames)[..|Header|] == Header
    ensures frames != [] ==> Render(frames)[|Render(frames)| - 1] == '\n'
  {
    if frames != [] {
      var texts := FrameTexts(frames);
      forall k | 0 <= k < |frames|
        ensures |texts[k]| > 0 && texts[k][|texts[k]| - 1] == '\n'
      {
        assert texts[k] == IndentedText(Some(k), false, FrameBody(frames[k])) + "\n";
      }
      ConcatEndsWithNewline(texts, 0, |frames|);
    }
  }

  /** Frames appear in stored order, and frame i is the i-th, numbered i. */
  lemma RenderOrder(frames: seq<ContextError>, i: nat)
    requires i < |frames|
    ensures Render(frames) == Header + Concat(FrameTexts(frames), 0, i) + FrameText(i, frames[i]) + Concat(FrameTexts(frames), i + 1, |frames|)
  {
    var texts := FrameTexts(frames);
    ConcatSplit(texts, 0, i, |frames|);
    ConcatAssociative(Header, Concat(texts, 0, i), texts[i], Concat(texts, i + 1, |frames|));
  }

  /** Concatenation regroups freely; stated on plain strings so that no definition gets unfolded. */
  lemma ConcatAssociative(a: string, b: string, c: string, d: string)
    ensures a + (b + (c + d)) == a + b + c + d
  {
  }

  /** Location text has no line break when the file name has none. */
  lemma LocationTextSingleLine(frame: ContextError)
    requires '\n' !in frame.file
    ensures '\n' !in LocationText(frame)
  {
    var line := NatToString(frame.line as nat);
    var column := NatToString(frame.column as nat);
    assert '\n' !in line && '\n' !in column;
  }

  /** When the file name has no line break, a frame with an empty message renders only its location line. */
  lemma FrameWithoutMessage(i: nat, frame: ContextError)
    requires frame.context == [] && '\n' !in frame.file
    ensures FrameText(i, frame) == Prefix(Some(i)) + LocationText(frame) + "\n"
  {
    LocationTextSingleLine(frame);
    ReplaceAbsent(LocationText(frame), '\n', "\n" + Continuation(Some(i)));
  }

  /**
    When the file name has no line break, a frame with a message renders its location line, then
    the message on the next line under the index column, every further message line indented by
    7 spaces.
  */
  lemma FrameWithMessage(i: nat, frame: ContextError)
    requires frame.context != [] && '\n' !in frame.file
    ensures FrameText(i, frame) ==
      Prefix(Some(i)) + LocationText(frame) + "\n" + Continuation(Some(i)) +
      Replace(frame.context, '\n', "\n" + Continuation(Some(i))) + "\n"
  {
    var indent := Continuation(Some(i));
    var glue := "\n" + indent;
    var loc := LocationText(frame);
    LocationTextSingleLine(frame);
    ReplaceAbsent(loc, '\n', glue);
    ReplaceConcat(loc + "\n", frame.context, '\n', glue);
    ReplaceConcat(loc, "\n", '\n', glue);
    ReplaceLineBreak(glue);
    var message := Replace(frame.context, '\n', glue);
    assert FrameBody(frame) == loc + "\n" + frame.context;
    assert Replace(FrameBody(frame), '\n', glue) == loc + glue + message;
    TwoLinesRegroup(Prefix(Some(i)), loc, indent, message);
    Regroup(Prefix(Some(i)), loc + glue + message, "\n");
  }

  /**
    `Debug::fmt`: the header, then for each frame a fresh numbered `Indented` that writes the
    frame's body, then a line break; the first failed write ends formatting with an error.
  */
  method DebugFmt(e: Error, f: Sink) returns (ok: bool)
    requires f.Valid()
    modifies f
    ensures f.Valid()
    ensures Wrote(old(f.out), f.out, f.capacity, Render(e.inner), ok)
  {
    var frames := e.inner;
    ghost var texts := FrameTexts(frames);
    ghost var before := f.out;
    ok := f.WriteStr(Header);
    if !ok {
      WroteStops(before, f.out, f.capacity, Header, Concat(texts, 0, |texts|));
      return;
    }
    var i := 0;
    while i < |frames|
      invariant 0 <= i <= |frames|
      invariant f.Valid()
      invariant Wrote(before, f.out, f.capacity, Header + Concat(texts, 0, i), true)
    {
      ghost var middle := f.out;
      ok := WriteFrame(f, i, frames[i]);
      WroteThen(before, middle, f.out, f.capacity, Header + Concat(texts, 0, i), texts[i], ok);
      RenderStep(texts, i);
      if !ok {
        WroteStops(before, f.out, f.capacity, Header + Concat(texts, 0, i + 1), Concat(texts, i + 1, |texts|));
        return;
      }
      i := i + 1;
    }
  }

  /** One turn of the loop of `Debug::fmt`: frame `i` through a fresh numbered `Indented`, then `writeln!`. */
  method WriteFrame(f: Sink, i: nat, frame: ContextError) returns (ok: bool)
    requires f.Valid()
    modifies f
    ensures f.Valid()
    ensures Wrote(old(f.out), f.out, f.capacity, FrameText(i, frame), ok)
  {
    ghost var before := f.out;
    var indented := new Indented(f, Some(i));
    if frame.context == [] {
      ok := indented.WriteStr(LocationText(frame));
    } else {
      ok := indented.WriteStr(LocationText(frame) + "\n" + frame.context);
    }
    ghost var body := IndentedText(Some(i), false, FrameBody(frame));
    if !ok {
      WroteStops(before, f.out, f.capacity, body, "\n");
      return;
    }
    ghost var middle := f.out;
    ok := f.WriteStr("\n");
    WroteThen(before, middle, f.out, f.capacity, body, "\n", ok);
  }

  /**
    The report after frame `i`: what was written before it and frame `i`'s own text, then the
    frames after it.
  */
  lemma RenderStep(texts: seq<string>, i: nat)
    requires i < |texts|
    ensures Header + Concat(texts, 0, i) + texts[i] == Header + Concat(texts, 0, i + 1)
    ensures Header + Concat(texts, 0, |texts|) == Header + Concat(texts, 0, i + 1) + Concat(texts, i + 1, |texts|)
  {
    ConcatSnoc(texts, 0, i);
    Regroup(Header, Concat(texts, 0, i), texts[i]);
    ConcatSplit(texts, 0, i + 1, |texts|);
    Regroup(Header, Concat(texts, 0, i + 1), Concat(texts, i + 1, |texts|));
  }
}
