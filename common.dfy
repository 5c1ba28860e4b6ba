/** Values and string operations shared by every service of the model:
    JavaScript's optional values and thrown errors, the rendering and parsing
    of integers, and the `String.prototype` methods the services call
    (`split`, `trim`, `startsWith`, `includes`, `slice`). */
module Common {

  datatype Option<+T> = None | Some(value: T) {
    /** `x ?? d` and the destructuring default `{ x = d }` */
    function GetOr(default: T): T {
      if Some? then value else default
    }
  }

  datatype Result<+T, +E> = Success(value: T) | Failure(error: E)

  /** A thrown JavaScript error: its `name`, its `message`, and the HTTP
      status of the response when an HTTP client raised it (`error.response.status`). */
  datatype Error = Error(name: string, message: string, status: Option<int>)

  /** `new Error(message)` */
  function Raise(message: string): (e: Error)
    ensures e.name == "Error" && e.message == message && e.status == None
  {
    Error("Error", message, None)
  }

  /** `value || null` on a string: the empty string is falsy and becomes null. */
  function OrNull(s: Option<string>): (r: Option<string>)
    ensures r.Some? <==> s.Some? && s.value != ""
    ensures r.Some? ==> r.value == s.value
  {
    if s.Some? && s.value != "" then s else None
  }

  /** Whether a string is truthy in JavaScript (`!s` is false). */
  predicate Present(s: Option<string>) {
    s.Some? && s.value != ""
  }

  // ---------------------------------------------------------------------
  // Decimal digits

  predicate IsDigit(c: char) {
    '0' <= c <= '9'
  }

  predicate AllDigits(s: string) {
    forall i :: 0 <= i < |s| ==> IsDigit(s[i])
  }

  function DigitChar(d: nat): (c: char)
    requires d < 10
    ensures IsDigit(c)
  {
    (48 + d) as char
  }

  function DigitValue(c: char): (d: nat)
    requires IsDigit(c)
    ensures d < 10
  {
    (c as int) - 48
  }

  /** `String(n)` for a non-negative integer: decimal, no leading zeros. */
  function NatToString(n: nat): (s: string)
    ensures 1 <= |s|
    decreases n
  {
    if n < 10 then [DigitChar(n)] else NatToString(n / 10) + [DigitChar(n % 10)]
  }

  /** `String(i)` for an integer. */
  function IntToString(i: int): (s: string)
    ensures 1 <= |s|
  {
    if i < 0 then "-" + NatToString(-i) else NatToString(i)
  }

  /** The number a string of decimal digits denotes. */
  function DecimalValue(s: string): nat
    requires AllDigits(s)
  {
    if s == [] then 0 else 10 * DecimalValue(s[..|s| - 1]) + DigitValue(s[|s| - 1])
  }

  /** Rendering a number and reading it back gives the number. */
  lemma {:induction false} DecimalRoundTrip(n: nat)
    ensures AllDigits(NatToString(n))
    ensures DecimalValue(NatToString(n)) == n
    decreases n
  {
    if n >= 10 {
      DecimalRoundTrip(n / 10);
      var s := NatToString(n);
      assert s[..|s| - 1] == NatToString(n / 10);
    }
  }

  /** Rendering is injective: different numbers never print alike. */
  lemma NatToStringInjective(a: nat, b: nat)
    requires NatToString(a) == NatToString(b)
    ensures a == b
  {
    DecimalRoundTrip(a);
    DecimalRoundTrip(b);
  }

  /** Only zero is rendered with a leading `0`. */
  lemma {:induction false} NatToStringNoLeadingZero(n: nat)
    ensures NatToString(n)[0] == '0' <==> n == 0
    decreases n
  {
    if n >= 10 {
      NatToStringNoLeadingZero(n / 10);
    }
  }

  /** The array index a property key denotes: a canonical decimal numeral. */
  function CanonicalIndex(k: string): (r: Option<nat>)
    ensures r.Some? ==> AllDigits(k) && k != []
  {
    if k != [] && AllDigits(k) && (k == "0" || k[0] != '0') then Some(DecimalValue(k)) else None
  }

  lemma CanonicalIndexOfNatToString(n: nat)
    ensures CanonicalIndex(NatToString(n)) == Some(n)
  {
    DecimalRoundTrip(n);
    NatToStringNoLeadingZero(n);
    if n == 0 {
      assert NatToString(0) == "0";
    }
  }

  // ---------------------------------------------------------------------
  // Whitespace and `trim`

  /** The characters `String.prototype.trim` removes: WhiteSpace and LineTerminator. */
  predicate IsJsWhitespace(c: char) {
    ('\t' <= c <= '\r') || c == ' ' || c == '\U{00A0}' || c == '\U{1680}'
    || ('\U{2000}' <= c <= '\U{200A}') || c == '\U{2028}' || c == '\U{2029}'
    || c == '\U{202F}' || c == '\U{205F}' || c == '\U{3000}' || c == '\U{FEFF}'
  }

  function TrimStart(s: string): (r: string)
    ensures |r| <= |s| && r == s[|s| - |r|..]
    ensures r == [] || !IsJsWhitespace(r[0])
    ensures forall i :: 0 <= i < |s| - |r| ==> IsJsWhitespace(s[i])
  {
    if s != [] && IsJsWhitespace(s[0]) then TrimStart(s[1..]) else s
  }

  function TrimEnd(s: string): (r: string)
    ensures |r| <= |s| && r == s[..|r|]
    ensures r == [] || !IsJsWhitespace(r[|r| - 1])
    ensures forall i :: |r| <= i < |s| ==> IsJsWhitespace(s[i])
  {
    if s != [] && IsJsWhitespace(s[|s| - 1]) then TrimEnd(s[..|s| - 1]) else s
  }

  /** `s.trim()` */
  function Trim(s: string): string {
    TrimEnd(TrimStart(s))
  }

  predicate IsTrimmed(s: string) {
    s == [] || (!IsJsWhitespace(s[0]) && !IsJsWhitespace(s[|s| - 1]))
  }

  lemma TrimIsTrimmed(s: string)
    ensures IsTrimmed(Trim(s))
  {
    var t := TrimStart(s);
    var r := TrimEnd(t);
    if r != [] {
      assert r[0] == t[0];
    }
  }

  lemma TrimOfTrimmed(s: string)
    requires IsTrimmed(s)
    ensures Trim(s) == s
  {
  }

  lemma TrimKeepsOut(s: string, c: char)
    requires c !in s
    ensures c !in Trim(s)
  {
    var t := TrimStart(s);
    assert forall x :: x in t ==> x in s;
    var r := TrimEnd(t);
    assert forall x :: x in r ==> x in t;
  }

  // ---------------------------------------------------------------------
  // `split` and its inverse

  /** `s.split(sep)` for a one-character separator. */
  function Split(s: string, sep: char): (parts: seq<string>)
    ensures |parts| >= 1
  {
    if s == [] then [""]
    else
      var rest := Split(s[1..], sep);
      if s[0] == sep then [""] + rest else [[s[0]] + rest[0]] + rest[1..]
  }

  /** `parts.join(sep)` */
  function Join(parts: seq<string>, sep: char): string {
    if |parts| == 0 then ""
    else if |parts| == 1 then parts[0]
    else parts[0] + [sep] + Join(parts[1..], sep)
  }

  /** A leading separator followed by three parts. */
  lemma ThreeSegments(a: string, b: string, c: string)
    ensures Join(["", a, b, c], '/') == "/" + a + "/" + b + "/" + c
  {
    assert Join([c], '/') == c;
    assert [b, c][1..] == [c];
    assert Join([b, c], '/') == b + "/" + c;
    assert [a, b, c][1..] == [b, c];
    assert Join([a, b, c], '/') == a + "/" + (b + "/" + c);
    assert ["", a, b, c][1..] == [a, b, c];
    assert Join(["", a, b, c], '/') == "" + "/" + (a + "/" + (b + "/" + c));
  }

  /** No piece of a split contains the separator, and joining the pieces
      with the separator gives back the original string. */
  lemma {:induction false} SplitJoin(s: string, sep: char)
    ensures forall i :: 0 <= i < |Split(s, sep)| ==> sep !in Split(s, sep)[i]
    ensures Join(Split(s, sep), sep) == s
  {
    if s != [] {
      SplitJoin(s[1..], sep);
      var rest := Split(s[1..], sep);
      if s[0] == sep {
        assert Split(s, sep) == [""] + rest;
        assert ([""] + rest)[1..] == rest;
      } else {
        var parts := Split(s, sep);
        assert parts[0] == [s[0]] + rest[0];
        if |rest| == 1 {
          assert parts == [[s[0]] + rest[0]];
        } else {
          assert parts[1..] == rest[1..];
          assert Join(rest, sep) == rest[0] + [sep] + Join(rest[1..], sep);
        }
        forall i | 0 <= i < |parts|
          ensures sep !in parts[i]
        {
          if i > 0 {
            assert parts[i] == rest[i];
          }
        }
      }
    }
  }

  /** Splitting a join of separator-free pieces gives back the pieces. */
  lemma {:induction false} JoinSplit(parts: seq<string>, sep: char)
    requires |parts| >= 1
    requires forall i :: 0 <= i < |parts| ==> sep !in parts[i]
    ensures Split(Join(parts, sep), sep) == parts
    decreases parts
  {
    if |parts| == 1 {
      SplitOfSeparatorFree(parts[0], sep);
    } else {
      JoinSplit(parts[1..], sep);
      SplitPrefix(parts[0], Join(parts[1..], sep), sep);
      assert [parts[0]] + parts[1..] == parts;
    }
  }

  lemma {:induction false} SplitOfSeparatorFree(s: string, sep: char)
    requires sep !in s
    ensures Split(s, sep) == [s]
  {
    if s != [] {
      SplitOfSeparatorFree(s[1..], sep);
      assert [s[0]] + s[1..] == s;
    }
  }

  lemma {:induction false} SplitPrefix(a: string, b: string, sep: char)
    requires sep !in a
    ensures Split(a + [sep] + b, sep) == [a] + Split(b, sep)
    decreases a
  {
    if a == [] {
      assert a + [sep] + b == [sep] + b;
      assert ([sep] + b)[1..] == b;
    } else {
      SplitPrefix(a[1..], b, sep);
      assert (a + [sep] + b)[1..] == a[1..] + [sep] + b;
      assert [a[0]] + a[1..] == a;
    }
  }

  /** `s.split(sep).map(x => x.trim()).filter(Boolean)`: the comma-list
      parse of configuration values. */
  function SplitTrimmed(s: string, sep: char): (items: seq<string>) {
    NonEmpty(TrimEach(Split(s, sep)))
  }

  function TrimEach(parts: seq<string>): (r: seq<string>)
    ensures |r| == |parts|
    ensures forall i :: 0 <= i < |r| ==> r[i] == Trim(parts[i])
  {
    seq(|parts|, i requires 0 <= i < |parts| => Trim(parts[i]))
  }

  function NonEmpty(parts: seq<string>): (r: seq<string>)
    ensures forall x :: x in r <==> x in parts && x != ""
  {
    if parts == [] then []
    else if parts[0] == "" then NonEmpty(parts[1..])
    else [parts[0]] + NonEmpty(parts[1..])
  }

  /** Every entry of a parsed list is non-empty, trimmed and free of the separator. */
  lemma SplitTrimmedEntries(s: string, sep: char)
    ensures forall x :: x in SplitTrimmed(s, sep) ==> x != "" && IsTrimmed(x) && sep !in x
  {
    SplitJoin(s, sep);
    var parts := Split(s, sep);
    forall x | x in SplitTrimmed(s, sep)
      ensures x != "" && IsTrimmed(x) && sep !in x
    {
      assert x in TrimEach(parts);
      var i :| 0 <= i < |parts| && x == Trim(parts[i]);
      TrimIsTrimmed(parts[i]);
      TrimKeepsOut(parts[i], sep);
    }
  }

  /** Joining non-empty, trimmed, separator-free entries and parsing the
      result gives back the same entries, in order. */
  lemma SplitTrimmedOfJoin(items: seq<string>, sep: char)
    requires |items| >= 1
    requires forall i :: 0 <= i < |items| ==> items[i] != "" && IsTrimmed(items[i]) && sep !in items[i]
    ensures SplitTrimmed(Join(items, sep), sep) == items
  {
    JoinSplit(items, sep);
    TrimEachOfTrimmed(items);
    NonEmptyOfNonEmpty(items);
  }

  lemma TrimEachOfTrimmed(items: seq<string>)
    requires forall i :: 0 <= i < |items| ==> IsTrimmed(items[i])
    ensures TrimEach(items) == items
  {
    forall i | 0 <= i < |items|
      ensures TrimEach(items)[i] == items[i]
    {
      TrimOfTrimmed(items[i]);
    }
  }

  lemma {:induction false} NonEmptyOfNonEmpty(items: seq<string>)
    requires forall i :: 0 <= i < |items| ==> items[i] != ""
    ensures NonEmpty(items) == items
  {
    if items != [] {
      NonEmptyOfNonEmpty(items[1..]);
      assert [items[0]] + items[1..] == items;
    }
  }

  // ---------------------------------------------------------------------
  // Prefixes, substrings, case

  predicate StartsWith(s: string, prefix: string) {
    |prefix| <= |s| && s[..|prefix|] == prefix
  }

  /** `s.includes(sub)` */
  predicate Contains(s: string, sub: string)
    decreases |s|
  {
    StartsWith(s, sub) || (s != [] && Contains(s[1..], sub))
  }

  lemma {:induction false} ContainsAt(s: string, sub: string, i: nat)
    requires i + |sub| <= |s| && s[i..i + |sub|] == sub
    ensures Contains(s, sub)
    decreases i
  {
    if i > 0 {
      ContainsAt(s[1..], sub, i - 1);
      assert s[1..][i - 1..i - 1 + |sub|] == s[i..i + |sub|];
    }
  }

  /** `toLowerCase` on the ASCII letters. */
  function ToLowerAscii(s: string): (r: string)
    ensures |r| == |s|
    ensures forall i :: 0 <= i < |s| ==> r[i] == (if 'A' <= s[i] <= 'Z' then (s[i] as int + 32) as char else s[i])
  {
    if s == [] then [] else [if 'A' <= s[0] <= 'Z' then (s[0] as int + 32) as char else s[0]] + ToLowerAscii(s[1..])
  }

  // ---------------------------------------------------------------------
  // `parseInt`

  function DigitRun(s: string): (r: string)
    ensures AllDigits(r) && |r| <= |s| && r == s[..|r|]
    ensures |r| < |s| ==> !IsDigit(s[|r|])
  {
    if s != [] && IsDigit(s[0]) then [s[0]] + DigitRun(s[1..]) else []
  }

  predicate IsHexDigit(c: char) {
    IsDigit(c) || ('a' <= c <= 'f') || ('A' <= c <= 'F')
  }

  function HexDigitValue(c: char): (d: nat)
    requires IsHexDigit(c)
    ensures d < 16
  {
    if IsDigit(c) then DigitValue(c) else if 'a' <= c <= 'f' then (c as int) - 87 else (c as int) - 55
  }

  function HexRun(s: string): (r: string)
    ensures |r| <= |s| && r == s[..|r|]
    ensures forall i :: 0 <= i < |r| ==> IsHexDigit(r[i])
  {
    if s != [] && IsHexDigit(s[0]) then [s[0]] + HexRun(s[1..]) else []
  }

  function HexValue(s: string): nat
    requires forall i :: 0 <= i < |s| ==> IsHexDigit(s[i])
  {
    if s == [] then 0 else 16 * HexValue(s[..|s| - 1]) + HexDigitValue(s[|s| - 1])
  }

  /** `parseInt(s)` (radix10 == false: a `0x` prefix selects base 16) and
      `parseInt(s, 10)` (radix10 == true). None stands for NaN. */
  function ParseInt(s: string, radix10: bool): Option<int> {
    var t := TrimStart(s);
    var negative := t != [] && t[0] == '-';
    var u := if t != [] && (t[0] == '-' || t[0] == '+') then t[1..] else t;
    var hex := !radix10 && |u| >= 2 && u[0] == '0' && (u[1] == 'x' || u[1] == 'X');
    var run := if hex then HexRun(u[2..]) else DigitRun(u);
    if run == [] then None
    else
      var v := if hex then HexValue(run) else DecimalValue(run);
      Some(if negative then -v else v)
  }

  /** `parseInt(q) || d`: NaN, an absent query value and 0 all give the default. */
  function ParseIntOr(q: Option<string>, radix10: bool, default: int): (r: int)
    ensures default != 0 ==> r != 0
    ensures q.None? ==> r == default
  {
    if q.None? then default
    else
      match ParseInt(q.value, radix10)
      case None => default
      case Some(v) => if v == 0 then default else v
  }

  lemma {:induction false} DigitRunOfDigits(s: string)
    requires AllDigits(s)
    ensures DigitRun(s) == s
  {
    if s != [] {
      DigitRunOfDigits(s[1..]);
      assert [s[0]] + s[1..] == s;
    }
  }

  /** `parseInt` reads back what `String(n)` printed, in either radix mode. */
  lemma ParseIntOfNatToString(n: nat, radix10: bool)
    ensures ParseInt(NatToString(n), radix10) == Some(n)
  {
    var s := NatToString(n);
    DecimalRoundTrip(n);
    DigitRunOfDigits(s);
    assert IsDigit(s[0]);
    assert !IsJsWhitespace(s[0]);
    assert TrimStart(s) == s;
    assert !(s[0] == '-' || s[0] == '+');
    var hex := !radix10 && |s| >= 2 && s[0] == '0' && (s[1] == 'x' || s[1] == 'X');
    assert !hex by {
      if |s| >= 2 {
        assert IsDigit(s[1]);
      }
    }
  }

  /** `parseInt(String(n)) || d` is `n` for every positive `n`. */
  lemma ParseIntOrOfNatToString(n: nat, radix10: bool, default: int)
    requires n > 0
    ensures ParseIntOr(Some(NatToString(n)), radix10, default) == n
  {
    ParseIntOfNatToString(n, radix10);
  }

  // ---------------------------------------------------------------------
  // `Array.prototype.slice`

  /** How `slice` normalises an index: negative counts from the end, and
      the result is clamped to [0, len]. */
  function SliceIndex(i: int, len: nat): (r: nat)
    ensures r <= len
    ensures 0 <= i <= len ==> r == i
    ensures i > len ==> r == len
    ensures i < 0 ==> r == (if len + i < 0 then 0 else len + i)
  {
    if i < 0 then (if len + i < 0 then 0 else len + i) else if i > len then len else i
  }

  /** `s.slice(start, end)` */
  function JsSlice<T>(s: seq<T>, start: int, end: int): (r: seq<T>)
    ensures |r| <= |s|
  {
    var a := SliceIndex(start, |s|);
    var b := SliceIndex(end, |s|);
    if a < b then s[a..b] else []
  }
}
