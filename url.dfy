/** URL building shared by the web client, the ingestion proxy and the Riot
    clients: `encodeURIComponent` (section 2.1 of RFC 3986 percent-encoding
    of the UTF-8 bytes), the `URLSearchParams` serialiser, and the
    slash-trimming join `${base.replace(/\/+$/, '')}/${path.replace(/^\/+/, '')}`. */
module Url {
  import opened Common

  type Byte = x: int | 0 <= x < 256

  // ---------------------------------------------------------------------
  // UTF-8

  /** The UTF-8 bytes of one Unicode scalar value. */
  function Utf8Char(c: char): (bs: seq<Byte>)
    ensures 1 <= |bs| <= 4
    ensures (|bs| == 1) == (c as int < 0x80)
    ensures |bs| == 1 ==> bs[0] == c as int
    ensures |bs| > 1 ==> forall i :: 0 <= i < |bs| ==> bs[i] >= 0x80
  {
    var cp := c as int;
    if cp < 0x80 then [cp]
    else if cp < 0x800 then [0xC0 + cp / 64, 0x80 + cp % 64]
    else if cp < 0x10000 then [0xE0 + cp / 4096, 0x80 + (cp / 64) % 64, 0x80 + cp % 64]
    else [0xF0 + cp / 262144, 0x80 + (cp / 4096) % 64, 0x80 + (cp / 64) % 64, 0x80 + cp % 64]
  }

  function Utf8(s: string): seq<Byte> {
    if s == [] then [] else Utf8Char(s[0]) + Utf8(s[1..])
  }

  predicate IsContinuation(b: Byte) {
    0x80 <= b < 0xC0
  }

  predicate IsScalar(cp: int) {
    (0 <= cp < 0xD800) || (0xE000 <= cp < 0x11_0000)
  }

  /** The first character of a UTF-8 byte sequence and how many bytes it takes. */
  function DecodeFirst(bs: seq<Byte>): (r: Option<(char, nat)>)
    requires bs != []
    ensures r.Some? ==> 1 <= r.value.1 <= |bs|
  {
    var b0: int := bs[0];
    var b1: int := if |bs| >= 2 then bs[1] else 0;
    var b2: int := if |bs| >= 3 then bs[2] else 0;
    var b3: int := if |bs| >= 4 then bs[3] else 0;
    if b0 < 0x80 then Some((b0 as char, 1))
    else if 0xC0 <= b0 < 0xE0 && |bs| >= 2 && IsContinuation(bs[1]) then
      var cp := (b0 - 0xC0) * 64 + (b1 - 0x80);
      if IsScalar(cp) then Some((cp as char, 2)) else None
    else if 0xE0 <= b0 < 0xF0 && |bs| >= 3 && IsContinuation(bs[1]) && IsContinuation(bs[2]) then
      var cp := (b0 - 0xE0) * 4096 + (b1 - 0x80) * 64 + (b2 - 0x80);
      if IsScalar(cp) then Some((cp as char, 3)) else None
    else if 0xF0 <= b0 < 0xF8 && |bs| >= 4 && IsContinuation(bs[1]) && IsContinuation(bs[2]) && IsContinuation(bs[3]) then
      var cp := (b0 - 0xF0) * 262144 + (b1 - 0x80) * 4096 + (b2 - 0x80) * 64 + (b3 - 0x80);
      if IsScalar(cp) then Some((cp as char, 4)) else None
    else None
  }

  function Utf8Decode(bs: seq<Byte>): Option<string>
    decreases |bs|
  {
    if bs == [] then Some([])
    else
      match DecodeFirst(bs)
      case None => None
      case Some(first) =>
        match Utf8Decode(bs[first.1..])
        case None => None
        case Some(rest) => Some([first.0] + rest)
  }

  lemma DecodeFirstOfChar(c: char, rest: seq<Byte>)
    ensures DecodeFirst(Utf8Char(c) + rest) == Some((c, |Utf8Char(c)|))
  {
    var cp := c as int;
    var bs := Utf8Char(c) + rest;
    if cp < 0x80 {
    } else if cp < 0x800 {
      assert (cp / 64) * 64 + cp % 64 == cp;
    } else if cp < 0x10000 {
      assert cp / 64 == (cp / 4096) * 64 + (cp / 64) % 64;
      assert (cp / 4096) * 4096 + ((cp / 64) % 64) * 64 + cp % 64 == cp;
    } else {
      assert cp / 4096 == (cp / 262144) * 64 + (cp / 4096) % 64;
      assert cp / 64 == (cp / 4096) * 64 + (cp / 64) % 64;
      assert (cp / 262144) * 262144 + ((cp / 4096) % 64) * 4096 + ((cp / 64) % 64) * 64 + cp % 64 == cp;
    }
  }

  /** UTF-8 decoding undoes UTF-8 encoding. */
  lemma {:induction false} Utf8RoundTrip(s: string)
    ensures Utf8Decode(Utf8(s)) == Some(s)
  {
    if s != [] {
      var head := Utf8Char(s[0]);
      DecodeFirstOfChar(s[0], Utf8(s[1..]));
      Utf8RoundTrip(s[1..]);
      assert (head + Utf8(s[1..]))[|head|..] == Utf8(s[1..]);
      assert [s[0]] + s[1..] == s;
    }
  }

  // ---------------------------------------------------------------------
  // Percent-encoding

  /** The upper-case hex digit of a value below 16. */
  function HexDigit(v: nat): (c: char)
    requires v < 16
    ensures IsDigit(c) || 'A' <= c <= 'F'
  {
    if v < 10 then (48 + v) as char else (55 + v) as char
  }

  /** `%XX` with upper-case hex digits. */
  function PercentByte(b: Byte): (t: string)
    ensures |t| == 3 && t[0] == '%'
  {
    ['%', HexDigit(b / 16), HexDigit(b % 16)]
  }

  /** The characters `encodeURIComponent` leaves alone. */
  predicate IsUnreservedComponentChar(c: char) {
    ('A' <= c <= 'Z') || ('a' <= c <= 'z') || IsDigit(c)
    || c == '-' || c == '_' || c == '.' || c == '!' || c == '~' || c == '*' || c == '\'' || c == '(' || c == ')'
  }

  /** The characters the `URLSearchParams` serialiser leaves alone. */
  predicate IsFormSafeChar(c: char) {
    ('A' <= c <= 'Z') || ('a' <= c <= 'z') || IsDigit(c) || c == '*' || c == '-' || c == '.' || c == '_'
  }

  /** Percent-encodes UTF-8 bytes, leaving the bytes of ASCII characters
      that `keep` accepts as themselves; with `plus`, a space becomes `+`. */
  function PercentEncodeBytes(bs: seq<Byte>, keep: char -> bool, plus: bool): string {
    if bs == [] then ""
    else
      var b := bs[0];
      var unit := if b < 0x80 && keep(b as char) then [b as char]
                  else if plus && b == 0x20 then "+"
                  else PercentByte(b);
      unit + PercentEncodeBytes(bs[1..], keep, plus)
  }

  /** `encodeURIComponent(s)` */
  function EncodeUriComponent(s: string): string {
    PercentEncodeBytes(Utf8(s), IsUnreservedComponentChar, false)
  }

  /** One name or value as `URLSearchParams.toString()` writes it. */
  function FormEncode(s: string): string {
    PercentEncodeBytes(Utf8(s), IsFormSafeChar, true)
  }

  function HexCharValue(c: char): Option<Byte> {
    if IsDigit(c) then Some(DigitValue(c))
    else if 'A' <= c <= 'F' then Some((c as int) - 55)
    else if 'a' <= c <= 'f' then Some((c as int) - 87)
    else None
  }

  /** The bytes a percent-encoded component stands for (`%XX` is byte XX,
      any other ASCII character is itself). */
  function PercentDecodeBytes(t: string): Option<seq<Byte>>
    decreases |t|
  {
    if t == [] then Some([])
    else if t[0] == '%' then
      if |t| >= 3 && HexCharValue(t[1]).Some? && HexCharValue(t[2]).Some? then
        var b := HexCharValue(t[1]).value * 16 + HexCharValue(t[2]).value;
        match PercentDecodeBytes(t[3..])
        case None => None
        case Some(rest) => Some([b] + rest)
      else None
    else if (t[0] as int) < 0x80 then
      match PercentDecodeBytes(t[1..])
      case None => None
      case Some(rest) => Some([t[0] as int] + rest)
    else None
  }

  /** `decodeURIComponent(t)`: what the receiving server reads out of a path segment. */
  function DecodeUriComponent(t: string): Option<string> {
    match PercentDecodeBytes(t)
    case None => None
    case Some(bs) => Utf8Decode(bs)
  }

  lemma {:induction false} PercentBytesRoundTrip(bs: seq<Byte>, keep: char -> bool)
    requires !keep('%')
    ensures PercentDecodeBytes(PercentEncodeBytes(bs, keep, false)) == Some(bs)
  {
    if bs != [] {
      var b := bs[0];
      var rest := PercentEncodeBytes(bs[1..], keep, false);
      PercentBytesRoundTrip(bs[1..], keep);
      if b < 0x80 && keep(b as char) {
        DecodeKeptByte(b, rest);
      } else {
        DecodePercentByte(b, rest);
      }
      assert [b] + bs[1..] == bs;
    }
  }

  /** An ASCII character other than `%` decodes to its own byte. */
  lemma DecodeKeptByte(b: Byte, rest: string)
    requires b < 0x80 && b as char != '%'
    requires PercentDecodeBytes(rest).Some?
    ensures PercentDecodeBytes([b as char] + rest) == Some([b] + PercentDecodeBytes(rest).value)
  {
    var t := [b as char] + rest;
    assert t[1..] == rest;
  }

  /** A hex digit reads back as its value. */
  lemma HexDigitValue(v: nat)
    requires v < 16
    ensures HexCharValue(HexDigit(v)) == Some(v)
  {
  }

  /** `%XX` decodes to byte XX. */
  lemma DecodePercentByte(b: Byte, rest: string)
    requires PercentDecodeBytes(rest).Some?
    ensures PercentDecodeBytes(PercentByte(b) + rest) == Some([b] + PercentDecodeBytes(rest).value)
  {
    var unit := PercentByte(b);
    assert (unit + rest)[3..] == rest;
    HexDigitValue(b / 16);
    HexDigitValue(b % 16);
  }

  /** A percent-encoded id is read back unchanged by the server: the
      encoding is injective and `decodeURIComponent` inverts it. */
  lemma EncodeUriComponentRoundTrip(s: string)
    ensures DecodeUriComponent(EncodeUriComponent(s)) == Some(s)
  {
    PercentBytesRoundTrip(Utf8(s), IsUnreservedComponentChar);
    Utf8RoundTrip(s);
  }

  lemma {:induction false} PercentEncodeChars(bs: seq<Byte>, keep: char -> bool, plus: bool)
    ensures forall c :: c in PercentEncodeBytes(bs, keep, plus) ==>
      (keep(c) && (c as int) < 0x80) || c == '%' || IsDigit(c) || ('A' <= c <= 'F') || (plus && c == '+')
  {
    if bs != [] {
      PercentEncodeChars(bs[1..], keep, plus);
    }
  }

  /** An encoded component never contains a path, query or fragment
      delimiter, so it stays one path segment. */
  lemma EncodedComponentIsOneSegment(s: string)
    ensures '/' !in EncodeUriComponent(s) && '?' !in EncodeUriComponent(s)
    ensures '#' !in EncodeUriComponent(s) && '&' !in EncodeUriComponent(s)
  {
    PercentEncodeChars(Utf8(s), IsUnreservedComponentChar, false);
  }

  /** A form-encoded name or value never contains `&`, `=`, `?` or `#`,
      so the pairs of a query string stay apart. */
  lemma FormEncodedHasNoDelimiter(s: string)
    ensures '&' !in FormEncode(s) && '=' !in FormEncode(s)
    ensures '?' !in FormEncode(s) && '#' !in FormEncode(s)
  {
    PercentEncodeChars(Utf8(s), IsFormSafeChar, true);
  }

  lemma {:induction false} EncodeUnreserved(s: string)
    requires forall i :: 0 <= i < |s| ==> IsUnreservedComponentChar(s[i])
    ensures EncodeUriComponent(s) == s
  {
    if s != [] {
      EncodeUnreserved(s[1..]);
      assert Utf8(s) == [s[0] as int] + Utf8(s[1..]);
      assert [s[0]] + s[1..] == s;
    }
  }

  // ---------------------------------------------------------------------
  // Slash trimming and joining

  /** `s.replace(/\/+$/, '')` */
  function StripTrailingSlashes(s: string): (r: string)
    ensures |r| <= |s| && r == s[..|r|]
    ensures r == [] || r[|r| - 1] != '/'
    ensures forall i :: |r| <= i < |s| ==> s[i] == '/'
  {
    if s != [] && s[|s| - 1] == '/' then StripTrailingSlashes(s[..|s| - 1]) else s
  }

  /** `s.replace(/^\/+/, '')` */
  function StripLeadingSlashes(s: string): (r: string)
    ensures |r| <= |s| && r == s[|s| - |r|..]
    ensures r == [] || r[0] != '/'
    ensures forall i :: 0 <= i < |s| - |r| ==> s[i] == '/'
  {
    if s != [] && s[0] == '/' then StripLeadingSlashes(s[1..]) else s
  }

  /** `${base.replace(/\/+$/, '')}/${String(path).replace(/^\/+/, '')}` */
  function JoinUrl(base: string, path: string): (url: string)
    ensures var b := StripTrailingSlashes(base);
            var p := StripLeadingSlashes(path);
            && |url| == |b| + 1 + |p| && url[..|b|] == b && url[|b|] == '/' && url[|b| + 1..] == p
            && (b == [] || url[|b| - 1] != '/') && (p == [] || url[|b| + 1] != '/')
  {
    StripTrailingSlashes(base) + "/" + StripLeadingSlashes(path)
  }

  /** Exactly one `/` separates base and path, whatever slashes either brought. */
  lemma JoinUrlSingleSlash(base: string, path: string)
    ensures var b := StripTrailingSlashes(base);
            var url := JoinUrl(base, path);
            url[|b|] == '/'
            && (|b| == 0 || url[|b| - 1] != '/')
            && (|b| + 1 == |url| || url[|b| + 1] != '/')
  {
  }

  lemma {:induction false} StripTrailingOfSlash(s: string)
    ensures StripTrailingSlashes(s + "/") == StripTrailingSlashes(s)
  {
    assert (s + "/")[..|s|] == s;
  }

  lemma {:induction false} StripLeadingOfSlash(s: string)
    ensures StripLeadingSlashes("/" + s) == StripLeadingSlashes(s)
  {
    assert ("/" + s)[1..] == s;
  }

  /** Trimming is idempotent. */
  lemma {:induction false} StripTrailingIdempotent(s: string)
    ensures StripTrailingSlashes(StripTrailingSlashes(s)) == StripTrailingSlashes(s)
  {
  }

  /** Extra slashes on either side of the join change nothing. */
  lemma JoinUrlIgnoresExtraSlashes(base: string, path: string)
    ensures JoinUrl(base + "/", path) == JoinUrl(base, path)
    ensures JoinUrl(base, "/" + path) == JoinUrl(base, path)
  {
    StripTrailingOfSlash(base);
    StripLeadingOfSlash(path);
  }
}
