/** The range notation of jobs: parsing, printing, and that they undo each other. Characters are ASCII. */
module Ranges {
  import opened Rows

  datatype Parsed = Range(start: int, end: Option<int>) | Malformed

  // ---- Text --------------------------------------------------------------------------------------

  predicate IsSpace(c: char) {
    c == ' ' || 9 <= c as int <= 13 || 28 <= c as int <= 31
  }

  predicate AllSpace(s: string) {
    forall i :: 0 <= i < |s| ==> IsSpace(s[i])
  }

  function StripLeft(s: string): string {
    if s != "" && IsSpace(s[0]) then StripLeft(s[1..]) else s
  }

  function StripRight(s: string): string {
    if s != "" && IsSpace(s[|s| - 1]) then StripRight(s[..|s| - 1]) else s
  }

  function Strip(s: string): string {
    StripRight(StripLeft(s))
  }

  /** The pieces between separators; there is always at least one. */
  function Split(s: string, sep: char): (parts: seq<string>)
    ensures |parts| >= 1
  {
    if s == "" then [""]
    else
      var rest := Split(s[1..], sep);
      if s[0] == sep then [""] + rest else [[s[0]] + rest[0]] + rest[1..]
  }

  predicate IsDigit(c: char) {
    '0' <= c <= '9'
  }

  predicate AllDigits(s: string) {
    forall i :: 0 <= i < |s| ==> IsDigit(s[i])
  }

  function DigitValue(c: char): nat
    requires IsDigit(c)
  {
    c as int - '0' as int
  }

  function NatValue(s: string): nat
    requires AllDigits(s)
  {
    if s == "" then 0 else NatValue(s[..|s| - 1]) * 10 + DigitValue(s[|s| - 1])
  }

  /** An optionally signed decimal number. */
  function ParseInt(s: string): Option<int> {
    if s != "" && AllDigits(s) then Some(NatValue(s))
    else if |s| >= 2 && s[0] == '+' && AllDigits(s[1..]) then Some(NatValue(s[1..]))
    else if |s| >= 2 && s[0] == '-' && AllDigits(s[1..]) then
      var value: int := NatValue(s[1..]);
      Some(-value)
    else None
  }

  /** A non-negative integer, or None where the source raises. */
  function ToInt(text: string): Option<int> {
    match ParseInt(Strip(text))
    case None => None
    case Some(value) => if value < 0 then None else Some(value)
  }

  function Validated(start: Option<int>, end: Option<Option<int>>): Parsed {
    if start.None? || end.None? then Malformed
    else if end.value.Some? && end.value.value < start.value then Malformed
    else Range(start.value, end.value)
  }

  /** One end of a bracketed range, stripped; an empty end is left open (an empty start is zero). */
  function Start(left: string): Option<int> {
    if left == "" then Some(0) else ToInt(left)
  }

  function End(right: string): Option<Option<int>> {
    if right == "" then Some(None)
    else match ToInt(right)
      case None => None
      case Some(value) => Some(Some(value))
  }

  /** Every range accepted has 0 <= start, and start <= end unless it is open-ended. */
  function ParseRange(spec: Option<string>): (r: Parsed)
    ensures r.Range? ==> 0 <= r.start && (r.end.Some? ==> r.start <= r.end.value)
  {
    if spec.None? then Range(0, None)
    else
      var s := Strip(spec.value);
      if s == "" then Range(0, None)
      else if |s| >= 2 && s[0] == '[' && s[|s| - 1] == ']' then
        var parts := Split(s[1..|s| - 1], ',');
        if |parts| != 2 then Malformed
        else Validated(Start(Strip(parts[0])), End(Strip(parts[1])))
      else
        match ToInt(s)
        case None => Malformed
        case Some(value) => Validated(Some(0), Some(Some(value)))
  }

  // ---- Printing ----------------------------------------------------------------------------------

  function DigitOf(d: nat): char
    requires d < 10
  {
    ('0' as int + d) as char
  }

  function Digits(n: nat): string {
    if n < 10 then [DigitOf(n)] else Digits(n / 10) + [DigitOf(n % 10)]
  }

  function FormatRange(start: nat, end: Option<nat>): string {
    "[" + Digits(start) + "," + (if end.Some? then Digits(end.value) else "") + "]"
  }

  // ---- What printing and parsing do to each other ------------------------------------------------

  lemma {:induction false} DigitsValue(n: nat)
    ensures AllDigits(Digits(n)) && Digits(n) != "" && NatValue(Digits(n)) == n
  {
    if n < 10 {
      assert [DigitOf(n)][..0] == "";
    } else {
      var init := Digits(n / 10);
      DigitsValue(n / 10);
      assert (init + [DigitOf(n % 10)])[..|init|] == init;
    }
  }

  lemma NothingToStrip(s: string)
    requires s != "" ==> !IsSpace(s[0]) && !IsSpace(s[|s| - 1])
    ensures Strip(s) == s
  {
  }

  lemma {:induction false} DigitsParse(n: nat)
    ensures Strip(Digits(n)) == Digits(n) && ToInt(Digits(n)) == Some(n)
  {
    DigitsValue(n);
    NothingToStrip(Digits(n));
  }

  /** A text without separators is one piece; a separator cuts it in two. */
  lemma {:induction false} SplitPlain(s: string, sep: char)
    requires forall i :: 0 <= i < |s| ==> s[i] != sep
    ensures Split(s, sep) == [s]
  {
    if s != "" {
      SplitPlain(s[1..], sep);
      assert [s[0]] + s[1..] == s;
    }
  }

  lemma {:induction false} SplitOnce(a: string, b: string, sep: char)
    requires forall i :: 0 <= i < |a| ==> a[i] != sep
    requires forall i :: 0 <= i < |b| ==> b[i] != sep
    ensures Split(a + [sep] + b, sep) == [a, b]
  {
    var s := a + [sep] + b;
    if a == "" {
      assert s[1..] == b;
      SplitPlain(b, sep);
    } else {
      assert s[1..] == a[1..] + [sep] + b;
      SplitOnce(a[1..], b, sep);
      assert [a[0]] + a[1..] == a;
    }
  }

  lemma {:induction false} FormatShape(start: nat, end: Option<nat>)
    ensures var s, right := FormatRange(start, end), if end.Some? then Digits(end.value) else "";
            && |s| >= 2 && s[0] == '[' && s[|s| - 1] == ']' && Strip(s) == s
            && Split(s[1..|s| - 1], ',') == [Digits(start), right]
  {
    var s, right := FormatRange(start, end), if end.Some? then Digits(end.value) else "";
    DigitsValue(start);
    if end.Some? { DigitsValue(end.value); }
    NothingToStrip(s);
    assert s[1..|s| - 1] == Digits(start) + [','] + right;
    SplitOnce(Digits(start), right, ',');
  }

  /** Parsing what was printed gives the range back exactly when it is one: open-ended, or not reversed. */
  lemma ParseUndoesFormat(start: nat, end: Option<nat>)
    ensures (end.None? || start <= end.value) <==> ParseRange(Some(FormatRange(start, end))) == Range(start, end)
    ensures end.Some? && end.value < start ==> ParseRange(Some(FormatRange(start, end))).Malformed?
  {
    FormatShape(start, end);
    DigitsParse(start);
    DigitsValue(start);
    if end.Some? {
      DigitsParse(end.value);
      DigitsValue(end.value);
    }
  }

  /** Whatever was accepted, printing the result gives a text that means the same. */
  lemma FormatIsCanonical(spec: Option<string>)
    requires ParseRange(spec).Range?
    ensures var r := ParseRange(spec);
            ParseRange(Some(FormatRange(r.start, if r.end.Some? then Some(r.end.value as nat) else None))) == r
  {
    var r := ParseRange(spec);
    ParseUndoesFormat(r.start, if r.end.Some? then Some(r.end.value as nat) else None);
  }

  /** A bare number is the range from zero. */
  lemma {:induction false} BareNumber(n: nat)
    ensures ParseRange(Some(Digits(n))) == Range(0, Some(n))
  {
    DigitsParse(n);
    DigitsValue(n);
  }

  lemma {:induction false} StripLeftPad(pad: string, s: string)
    requires AllSpace(pad)
    ensures StripLeft(pad + s) == StripLeft(s)
  {
    if pad == "" {
      assert pad + s == s;
    } else {
      StripLeftPad(pad[1..], s);
      assert (pad + s)[1..] == pad[1..] + s;
    }
  }

  lemma {:induction false} StripRightPad(s: string, pad: string)
    requires AllSpace(pad)
    ensures StripRight(s + pad) == StripRight(s)
  {
    if pad == "" {
      assert s + pad == s;
    } else {
      var n := |pad| - 1;
      StripRightPad(s, pad[..n]);
      assert (s + pad)[..|s + pad| - 1] == s + pad[..n];
    }
  }

  lemma {:induction false} StripLeftKeeps(s: string, pad: string)
    requires AllSpace(pad)
    ensures StripRight(StripLeft(s + pad)) == StripRight(StripLeft(s))
  {
    if s == "" {
      assert s + pad == pad + "";
      StripLeftPad(pad, "");
    } else if IsSpace(s[0]) {
      assert (s + pad)[1..] == s[1..] + pad;
      StripLeftKeeps(s[1..], pad);
    } else {
      StripRightPad(s, pad);
    }
  }

  /** Surrounding spaces never matter. */
  lemma PaddingIgnored(left: string, s: string, right: string)
    requires AllSpace(left) && AllSpace(right)
    ensures ParseRange(Some(left + s + right)) == ParseRange(Some(s))
  {
    assert left + s + right == left + (s + right);
    StripLeftPad(left, s + right);
    StripLeftKeeps(s, right);
  }

  /** Blanks, tabs and line ends are such spaces. */
  lemma BlanksIgnored(c: char, s: string, d: char)
    requires c in " \t\r\n" && d in " \t\r\n"
    ensures ParseRange(Some([c] + s + [d])) == ParseRange(Some(s))
  {
    PaddingIgnored([c], s, [d]);
  }

  /** The notation is decimal: a further digit counts one, what stands before it ten times as much. */
  lemma DigitsAreDecimal(s: string, c: char, d: nat)
    requires AllDigits(s) && d < 10 && c as int == '0' as int + d
    ensures ParseInt(s + [c]) == Some(10 * (if s == "" then 0 else ParseInt(s).value) + d)
  {
    var longer := s + [c];
    assert longer[..|s|] == s && longer[|s|] == c;
    assert IsDigit(c) && DigitValue(c) == d;
    forall i | 0 <= i < |longer| ensures IsDigit(longer[i]) {
      if i < |s| { assert longer[i] == s[i]; }
    }
    assert NatValue(longer) == NatValue(s) * 10 + d;
  }

  // ---- What is accepted --------------------------------------------------------------------------

  /** No specification, or an empty one, means everything from zero on. */
  lemma EmptyMeansEverything()
    ensures ParseRange(None) == ParseRange(Some("")) == Range(0, None)
  {
  }

  /** A missing start means zero. */
  lemma {:induction false} MissingStart(n: nat)
    ensures ParseRange(Some("[," + Digits(n) + "]")) == Range(0, Some(n))
  {
    var s := "[," + Digits(n) + "]";
    DigitsParse(n);
    DigitsValue(n);
    NothingToStrip(s);
    assert s[1..|s| - 1] == "" + [','] + Digits(n);
    SplitOnce("", Digits(n), ',');
    NothingToStrip("");
  }

  /** A number may carry a sign, but not a negative value. */
  lemma {:induction false} Signs(n: nat)
    ensures ParseRange(Some("+" + Digits(n))) == Range(0, Some(n))
    ensures ParseRange(Some("-" + Digits(n))) == if n == 0 then Range(0, Some(0)) else Malformed
  {
    DigitsValue(n);
    var plus, minus := "+" + Digits(n), "-" + Digits(n);
    NothingToStrip(plus);
    NothingToStrip(minus);
    assert plus[1..] == Digits(n) && minus[1..] == Digits(n);
    assert !IsDigit(plus[0]) && !IsDigit(minus[0]);
  }

  /** A character that can stand in an accepted specification. */
  predicate Legible(c: char) {
    c in " \t\n\r0123456789+-[]," || c as int in {11, 12, 28, 29, 30, 31}
  }

  ghost predicate AllLegible(s: string) {
    forall i :: 0 <= i < |s| ==> Legible(s[i])
  }

  lemma {:induction false} StripLeftLegible(s: string)
    requires AllLegible(StripLeft(s))
    ensures AllLegible(s)
  {
    if s != "" && IsSpace(s[0]) {
      StripLeftLegible(s[1..]);
      assert s == [s[0]] + s[1..];
    }
  }

  lemma {:induction false} StripRightLegible(s: string)
    requires AllLegible(StripRight(s))
    ensures AllLegible(s)
  {
    if s != "" && IsSpace(s[|s| - 1]) {
      var n := |s| - 1;
      StripRightLegible(s[..n]);
      assert s == s[..n] + [s[n]];
    }
  }

  lemma StripLegible(s: string)
    requires AllLegible(Strip(s))
    ensures AllLegible(s)
  {
    StripRightLegible(StripLeft(s));
    StripLeftLegible(s);
  }

  lemma NumberLegible(s: string)
    requires ToInt(s).Some?
    ensures AllLegible(s)
  {
    var t := Strip(s);
    assert t == [t[0]] + t[1..];
    StripLegible(s);
  }

  ghost predicate PartsLegible(parts: seq<string>) {
    forall i :: 0 <= i < |parts| ==> AllLegible(parts[i])
  }

  lemma {:induction false} SplitLegible(s: string, sep: char)
    requires Legible(sep) && PartsLegible(Split(s, sep))
    ensures AllLegible(s)
  {
    if s != "" {
      var parts, rest := Split(s, sep), Split(s[1..], sep);
      assert AllLegible(parts[0]);
      if s[0] == sep {
        assert parts[1..] == rest;
        TailLegible(parts);
      } else {
        assert parts[0] == [s[0]] + rest[0] && parts[1..] == rest[1..];
        assert parts[0][0] == s[0] && parts[0][1..] == rest[0];
        TailLegible(parts);
        assert rest == [rest[0]] + rest[1..];
      }
      SplitLegible(s[1..], sep);
      assert s == [s[0]] + s[1..];
    }
  }

  lemma TailLegible(parts: seq<string>)
    requires parts != [] && PartsLegible(parts)
    ensures PartsLegible(parts[1..])
    ensures parts[0] != "" ==> Legible(parts[0][0]) && AllLegible(parts[0][1..])
  {
    assert AllLegible(parts[0]);
  }

  /** A specification with any other character is refused. */
  lemma AcceptedIsLegible(s: string)
    requires ParseRange(Some(s)).Range?
    ensures AllLegible(s)
  {
    hide ToInt, StripRight, StripLeft, Split;
    var t := Strip(s);
    if t != "" {
      if |t| >= 2 && t[0] == '[' && t[|t| - 1] == ']' {
        var inner := t[1..|t| - 1];
        var parts := Split(inner, ',');
        forall i | 0 <= i < |parts| ensures AllLegible(parts[i]) {
          var part := Strip(parts[i]);
          if part != "" { NumberLegible(part); }
          StripLegible(parts[i]);
        }
        SplitLegible(inner, ',');
        assert t == [t[0]] + inner + [t[|t| - 1]];
      } else {
        NumberLegible(t);
      }
    }
    StripLegible(s);
  }
}
