/** Base64 as used through the browser's `btoa` and `atob`: the alphabet and
    padding of section 4 of RFC 4648, with `atob`'s forgiving decoder (it
    skips ASCII whitespace, accepts missing padding and ignores the unused
    low bits of the last character). Strings handed to `btoa` and returned
    by `atob` are "binary strings": one character per byte. */
module Base64 {
  import opened Wrappers

  type Byte = x: int | 0 <= x < 256
  type Sextet = x: int | 0 <= x < 64

  /** The DOMException `InvalidCharacterError` that `btoa` and `atob` throw. */
  datatype DomError = InvalidCharacterError

  /** The character for a 6-bit value (Table 1 of RFC 4648). */
  function CharOf(v: Sextet): (c: char)
    ensures IsAlphabet(c) && ValueOf(c) == v
  {
    if v < 26 then ('A' as int + v) as char
    else if v < 52 then ('a' as int + v - 26) as char
    else if v < 62 then ('0' as int + v - 52) as char
    else if v == 62 then '+'
    else '/'
  }

  predicate IsAlphabet(c: char) {
    ('A' <= c <= 'Z') || ('a' <= c <= 'z') || ('0' <= c <= '9') || c == '+' || c == '/'
  }

  function ValueOf(c: char): Sextet
    requires IsAlphabet(c)
  {
    if 'A' <= c <= 'Z' then c as int - 'A' as int
    else if 'a' <= c <= 'z' then c as int - 'a' as int + 26
    else if '0' <= c <= '9' then c as int - '0' as int + 52
    else if c == '+' then 62
    else 63
  }

  /** The 6-bit groups of the input, three bytes to four groups; a final
      group of one or two bytes gives two or three groups, zero-filled. */
  function Sextets(b: seq<Byte>): (r: seq<Sextet>)
    ensures |r| % 4 != 1
  {
    if |b| == 0 then []
    else if |b| == 1 then [b[0] / 4, (b[0] % 4) * 16]
    else if |b| == 2 then [b[0] / 4, (b[0] % 4) * 16 + b[1] / 16, (b[1] % 16) * 4]
    else [b[0] / 4, (b[0] % 4) * 16 + b[1] / 16, (b[1] % 16) * 4 + b[2] / 64, b[2] % 64] + Sextets(b[3..])
  }

  /** Reassembles bytes from 6-bit groups; a trailing group of two or three
      gives one or two bytes and its unused low bits are dropped. */
  function BytesOf(v: seq<Sextet>): (r: seq<Byte>)
    requires |v| % 4 != 1
  {
    if |v| == 0 then []
    else
      var a: int, b: int := v[0], v[1];
      if |v| == 2 then [a * 4 + b / 16]
      else
        var c: int := v[2];
        if |v| == 3 then [a * 4 + b / 16, (b % 16) * 16 + c / 4]
        else
          var d: int := v[3];
          [a * 4 + b / 16, (b % 16) * 16 + c / 4, (c % 4) * 64 + d] + BytesOf(v[4..])
  }

  function Chars(v: seq<Sextet>): (r: string)
    ensures |r| == |v|
    ensures forall i :: 0 <= i < |v| ==> r[i] == CharOf(v[i])
  {
    seq(|v|, i requires 0 <= i < |v| => CharOf(v[i]))
  }

  function Values(s: string): (r: seq<Sextet>)
    requires forall i :: 0 <= i < |s| ==> IsAlphabet(s[i])
    ensures |r| == |s|
    ensures forall i :: 0 <= i < |s| ==> r[i] == ValueOf(s[i])
  {
    seq(|s|, i requires 0 <= i < |s| => ValueOf(s[i]))
  }

  /** The `=` characters that complete the last group of four. */
  function Padding(b: seq<Byte>): string {
    if |b| == 1 then "==" else if |b| == 2 then "=" else if |b| < 3 then "" else Padding(b[3..])
  }

  /** The padded encoding of section 4 of RFC 4648. */
  function Encode(b: seq<Byte>): string {
    Chars(Sextets(b)) + Padding(b)
  }

  lemma {:induction false} EncodingShape(b: seq<Byte>)
    ensures var n := |Sextets(b)|; n % 4 != 1 && (n + |Padding(b)|) % 4 == 0
    ensures Padding(b) == "" ==> |Sextets(b)| % 4 == 0
    ensures Padding(b) == "" || Padding(b) == "=" || Padding(b) == "=="
  {
    if |b| >= 3 {
      EncodingShape(b[3..]);
      var k := |Sextets(b[3..])|;
      assert |Sextets(b)| == 4 + k;
      assert (4 + k) % 4 == k % 4;
      assert (4 + k + |Padding(b)|) % 4 == (k + |Padding(b)|) % 4;
    }
  }

  /** One character per byte, as `String.fromCharCode` builds it. */
  function BinaryString(b: seq<Byte>): (r: string)
    ensures |r| == |b|
    ensures forall i :: 0 <= i < |b| ==> r[i] as int == b[i]
  {
    seq(|b|, i requires 0 <= i < |b| => b[i] as char)
  }

  function CharCodes(s: string): (r: seq<Byte>)
    requires forall i :: 0 <= i < |s| ==> s[i] as int < 256
    ensures |r| == |s|
    ensures forall i :: 0 <= i < |s| ==> r[i] == s[i] as int
  {
    seq(|s|, i requires 0 <= i < |s| => s[i] as int)
  }

  /** `btoa`: fails on a character outside Latin-1. */
  function Btoa(s: string): (r: Result<string, DomError>)
    ensures r.Ok? <==> forall i :: 0 <= i < |s| ==> s[i] as int < 256
  {
    if forall i :: 0 <= i < |s| ==> s[i] as int < 256 then Ok(Encode(CharCodes(s)))
    else Err(InvalidCharacterError)
  }

  predicate IsAsciiWhitespace(c: char) {
    c == '\t' || c == '\n' || c == '\U{000C}' || c == '\r' || c == ' '
  }

  function StripAsciiWhitespace(s: string): (r: string)
    ensures |r| <= |s|
    ensures forall i :: 0 <= i < |r| ==> !IsAsciiWhitespace(r[i])
  {
    if s == [] then []
    else if IsAsciiWhitespace(s[0]) then StripAsciiWhitespace(s[1..])
    else [s[0]] + StripAsciiWhitespace(s[1..])
  }

  /** Step 2 of the forgiving decoder: a length divisible by four loses one or two trailing `=`. */
  function DropPadding(s: string): (r: string)
    ensures |r| <= |s|
  {
    if |s| % 4 == 0 && |s| >= 2 && s[|s| - 2..] == "==" then s[..|s| - 2]
    else if |s| % 4 == 0 && |s| >= 1 && s[|s| - 1] == '=' then s[..|s| - 1]
    else s
  }

  /** `atob`: the binary string of the decoded bytes, or InvalidCharacterError. */
  function Atob(s: string): (r: Result<string, DomError>)
    ensures r.Ok? ==> forall i :: 0 <= i < |r.value| ==> r.value[i] as int < 256
  {
    var t := DropPadding(StripAsciiWhitespace(s));
    if |t| % 4 == 1 then Err(InvalidCharacterError)
    else if exists i :: 0 <= i < |t| && !IsAlphabet(t[i]) then Err(InvalidCharacterError)
    else Ok(BinaryString(BytesOf(Values(t))))
  }

  lemma {:induction false} BytesOfSextets(b: seq<Byte>)
    ensures BytesOf(Sextets(b)) == b
  {
    if |b| >= 3 {
      BytesOfSextets(b[3..]);
      var v := Sextets(b);
      assert v[4..] == Sextets(b[3..]);
      assert b == [b[0], b[1], b[2]] + b[3..];
    }
  }

  lemma NoWhitespaceInEncoding(b: seq<Byte>)
    ensures StripAsciiWhitespace(Encode(b)) == Encode(b)
  {
    var e := Encode(b);
    var body := Chars(Sextets(b));
    EncodingShape(b);
    assert forall i :: 0 <= i < |body| ==> IsAlphabet(body[i]);
    assert forall i :: 0 <= i < |e| ==> !IsAsciiWhitespace(e[i]) by {
      forall i | 0 <= i < |e| ensures !IsAsciiWhitespace(e[i]) {
        if i >= |body| {
          assert e[i] == Padding(b)[i - |body|];
        } else {
          assert e[i] == body[i];
        }
      }
    }
    StripNothing(e);
  }

  lemma {:induction false} StripNothing(s: string)
    requires forall i :: 0 <= i < |s| ==> !IsAsciiWhitespace(s[i])
    ensures StripAsciiWhitespace(s) == s
  {
    if s != [] {
      StripNothing(s[1..]);
    }
  }

  lemma DropPaddingOfEncoding(b: seq<Byte>)
    ensures DropPadding(Encode(b)) == Chars(Sextets(b))
  {
    var e := Encode(b);
    var body := Chars(Sextets(b));
    var pad := Padding(b);
    EncodingShape(b);
    assert |e| % 4 == 0;
    assert body != [] ==> body[|body| - 1] != '=' by {
      if body != [] {
        assert body[|body| - 1] == CharOf(Sextets(b)[|body| - 1]);
      }
    }
    if pad == "==" {
      assert e[..|e| - 2] == body;
    } else if pad == "=" {
      assert e[..|e| - 1] == body;
      assert |body| >= 2;
      assert e[|e| - 2] == body[|body| - 1];
    } else {
      assert e == body;
    }
  }

  /** Decoding the encoding gives back the original bytes: RFC 4648 round trip through `btoa`/`atob`. */
  lemma EncodeDecode(b: seq<Byte>)
    ensures Btoa(BinaryString(b)) == Ok(Encode(b))
    ensures Atob(Encode(b)) == Ok(BinaryString(b))
  {
    assert CharCodes(BinaryString(b)) == b;
    var body := Chars(Sextets(b));
    NoWhitespaceInEncoding(b);
    DropPaddingOfEncoding(b);
    assert DropPadding(StripAsciiWhitespace(Encode(b))) == body;
    assert forall i :: 0 <= i < |body| ==> IsAlphabet(body[i]);
    assert Values(body) == Sextets(b);
    BytesOfSextets(b);
  }
}
