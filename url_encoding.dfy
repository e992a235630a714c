/** The query strings the mobile client builds with `URLSearchParams`: its
    `toString()` is the application/x-www-form-urlencoded serializer of the
    WHATWG URL Standard, which writes each name and value as the UTF-8
    bytes of the text (section 3 of RFC 3629), keeps the bytes `*-._`,
    digits and ASCII letters, writes a space as '+' and any other byte as
    '%' with two upper-case hexadecimal digits, and joins the `name=value`
    pairs with '&'.

    The partner of the encoder is the server's decoding: '+' back to a
    space, '%XX' back to its byte, and the bytes back to code points. */
module UrlEncoding {
  import opened Common

  type Byte = x: int | 0 <= x < 256

  type Bytes = seq<Byte>

  /** The UTF-8 bytes of one character. */
  function CharUtf8(ch: char): (r: Bytes)
    ensures 1 <= |r| <= 4
    ensures ch as int < 0x80 ==> r == [ch as int]
  {
    var n := ch as int;
    if n < 0x80 then [n]
    else if n < 0x800 then [0xC0 + n / 64, 0x80 + n % 64]
    else if n < 0x10000 then [0xE0 + n / 4096, 0x80 + n / 64 % 64, 0x80 + n % 64]
    else [0xF0 + n / 262144, 0x80 + n / 4096 % 64, 0x80 + n / 64 % 64, 0x80 + n % 64]
  }

  /** The UTF-8 bytes of a text. */
  function Utf8(s: string): Bytes
  {
    if s == [] then [] else CharUtf8(s[0]) + Utf8(s[1..])
  }

  /** The code points of a text. */
  function Codes(s: string): (r: seq<int>)
    ensures |r| == |s| && forall i :: 0 <= i < |s| ==> r[i] == s[i] as int
  {
    seq(|s|, i requires 0 <= i < |s| => s[i] as int)
  }

  /** How many bytes the character that starts with `lead` takes. */
  function LeadLength(lead: Byte): (n: nat)
    ensures 1 <= n <= 4
  {
    if lead < 0x80 then 1 else if lead < 0xE0 then 2 else if lead < 0xF0 then 3 else 4
  }

  /** The code point of the bytes of one character. */
  function CodeOf(b: Bytes): int
    requires 1 <= |b| <= 4
  {
    var b0, b1, b2, b3 := b[0] as int, if |b| > 1 then b[1] as int else 0, if |b| > 2 then b[2] as int else 0,
                          if |b| > 3 then b[3] as int else 0;
    if |b| == 1 then b0
    else if |b| == 2 then (b0 - 0xC0) * 64 + (b1 - 0x80)
    else if |b| == 3 then (b0 - 0xE0) * 4096 + (b1 - 0x80) * 64 + (b2 - 0x80)
    else (b0 - 0xF0) * 262144 + (b1 - 0x80) * 4096 + (b2 - 0x80) * 64 + (b3 - 0x80)
  }

  /** The code points UTF-8 bytes stand for; a truncated last character
      ends the text. */
  function Utf8Codes(b: Bytes): seq<int>
    decreases |b|
  {
    if b == [] then []
    else
      var n := LeadLength(b[0]);
      if |b| < n then [] else [CodeOf(b[..n])] + Utf8Codes(b[n..])
  }

  /** The bytes of one character announce their own length and give back
      its code point. */
  lemma CharUtf8Decodes(ch: char)
    ensures LeadLength(CharUtf8(ch)[0]) == |CharUtf8(ch)|
    ensures CodeOf(CharUtf8(ch)) == ch as int
  {
    var n := ch as int;
    if 0x80 <= n < 0x800 {
      DivMod64(n);
    } else if 0x800 <= n < 0x10000 {
      ThreeBytes(n);
    } else if 0x10000 <= n {
      FourBytes(n);
    }
  }

  lemma DivMod64(n: nat)
    ensures n == n / 64 * 64 + n % 64 && 0 <= n % 64 < 64
  {
  }

  /** The three bytes of a code point below 0x10000 give it back. */
  lemma ThreeBytes(n: nat)
    requires 0x800 <= n < 0x10000
    ensures (n / 4096) * 4096 + (n / 64 % 64) * 64 + n % 64 == n
    ensures 0xE0 <= 0xE0 + n / 4096 < 0xF0
  {
    var a := n / 64;
    DivMod64(n);
    DivMod64(a);
    assert n == (a / 64) * 4096 + (a % 64) * 64 + n % 64;
    assert n / 4096 == a / 64;
  }

  /** The four bytes of a code point from 0x10000 on give it back. */
  lemma FourBytes(n: nat)
    requires 0x10000 <= n < 0x110000
    ensures (n / 262144) * 262144 + (n / 4096 % 64) * 4096 + (n / 64 % 64) * 64 + n % 64 == n
    ensures 0xF0 <= 0xF0 + n / 262144 < 0x100
  {
    var a := n / 64;
    var b := a / 64;
    DivMod64(n);
    DivMod64(a);
    DivMod64(b);
    assert n == (b / 64) * 262144 + (b % 64) * 4096 + (a % 64) * 64 + n % 64;
    assert n / 4096 == b;
    assert n / 262144 == b / 64;
  }

  /** Decoding the UTF-8 of a text gives back its code points. */
  lemma {:induction false} Utf8RoundTrip(s: string)
    ensures Utf8Codes(Utf8(s)) == Codes(s)
  {
    if s != [] {
      var head := CharUtf8(s[0]);
      var b := Utf8(s);
      assert b == head + Utf8(s[1..]);
      CharUtf8Decodes(s[0]);
      assert b[0] == head[0];
      assert b[..|head|] == head && b[|head|..] == Utf8(s[1..]);
      Utf8RoundTrip(s[1..]);
      assert Codes(s) == [s[0] as int] + Codes(s[1..]);
    }
  }

  /** The bytes the serializer writes as themselves. */
  predicate Unreserved(x: Byte)
  {
    x == 0x2A || x == 0x2D || x == 0x2E || 0x30 <= x <= 0x39 || 0x41 <= x <= 0x5A || x == 0x5F || 0x61 <= x <= 0x7A
  }

  /** An upper-case hexadecimal digit. */
  function HexDigit(v: int): (c: char)
    requires 0 <= v < 16
    ensures '0' <= c <= '9' || 'A' <= c <= 'F'
  {
    if v < 10 then ('0' as int + v) as char else ('A' as int + v - 10) as char
  }

  /** The value of a hexadecimal digit, either case; -1 for any other character. */
  function HexValue(c: char): (v: int)
    ensures -1 <= v < 16
  {
    if '0' <= c <= '9' then c as int - '0' as int
    else if 'A' <= c <= 'F' then c as int - 'A' as int + 10
    else if 'a' <= c <= 'f' then c as int - 'a' as int + 10
    else -1
  }

  /** One byte as the serializer writes it. */
  function ByteForm(x: Byte): (r: string)
  {
    if Unreserved(x) then [x as char]
    else if x == 0x20 then "+"
    else ['%', HexDigit(x / 16), HexDigit(x % 16)]
  }

  function FormBytes(b: Bytes): string
  {
    if b == [] then "" else ByteForm(b[0]) + FormBytes(b[1..])
  }

  /** A name or value as `URLSearchParams` serializes it. */
  function FormEncode(s: string): string
  {
    FormBytes(Utf8(s))
  }

  /** The characters an encoded text is made of. */
  predicate FormChar(c: char)
  {
    c == '*' || c == '-' || c == '.' || '0' <= c <= '9' || 'A' <= c <= 'Z' || c == '_' || 'a' <= c <= 'z' ||
    c == '+' || c == '%'
  }

  /** Text made of ASCII characters only. */
  predicate Ascii(t: string)
  {
    forall i :: 0 <= i < |t| ==> t[i] as int < 0x80
  }

  /** The bytes an encoded text stands for: the server's decoding. */
  function FormDecode(t: string): Bytes
    requires Ascii(t)
    decreases |t|
  {
    if t == [] then []
    else if t[0] == '+' then [0x20] + FormDecode(t[1..])
    else if t[0] == '%' && |t| >= 3 && HexValue(t[1]) >= 0 && HexValue(t[2]) >= 0 then
      [HexValue(t[1]) * 16 + HexValue(t[2])] + FormDecode(t[3..])
    else [t[0] as int] + FormDecode(t[1..])
  }

  /** Every character of an encoded byte is a plain ASCII form character. */
  lemma ByteFormChars(x: Byte)
    ensures forall i :: 0 <= i < |ByteForm(x)| ==> FormChar(ByteForm(x)[i]) && ByteForm(x)[i] as int < 0x80
  {
  }

  /** Every character of an encoded text is a form character; in
      particular none is '&', '=' or a space. */
  lemma {:induction false} FormBytesChars(b: Bytes)
    ensures forall i :: 0 <= i < |FormBytes(b)| ==> FormChar(FormBytes(b)[i]) && FormBytes(b)[i] as int < 0x80
    ensures '&' !in FormBytes(b) && '=' !in FormBytes(b) && ' ' !in FormBytes(b)
  {
    if b != [] {
      ByteFormChars(b[0]);
      FormBytesChars(b[1..]);
      var t := FormBytes(b);
      assert t == ByteForm(b[0]) + FormBytes(b[1..]);
      forall i | 0 <= i < |t|
        ensures FormChar(t[i]) && t[i] as int < 0x80
      {
        if i >= |ByteForm(b[0])| {
          assert t[i] == FormBytes(b[1..])[i - |ByteForm(b[0])|];
        }
      }
    }
  }

  /** A decoder reads one encoded byte back off the front of the text. */
  lemma ByteFormDecodes(x: Byte, rest: string)
    requires Ascii(rest)
    ensures Ascii(ByteForm(x) + rest)
    ensures FormDecode(ByteForm(x) + rest) == [x] + FormDecode(rest)
  {
    ByteFormChars(x);
    var t := ByteForm(x) + rest;
    if Unreserved(x) {
      assert t[0] == x as char && t[1..] == rest;
    } else if x == 0x20 {
      assert t[0] == '+' && t[1..] == rest;
    } else {
      var hi, lo := x / 16, x % 16;
      assert t[0] == '%' && t[1] == HexDigit(hi) && t[2] == HexDigit(lo) && t[3..] == rest;
      assert HexValue(HexDigit(hi)) == hi && HexValue(HexDigit(lo)) == lo;
    }
  }

  /** Decoding the serialized bytes gives them back. */
  lemma {:induction false} FormBytesRoundTrip(b: Bytes)
    ensures Ascii(FormBytes(b)) && FormDecode(FormBytes(b)) == b
  {
    FormBytesChars(b);
    if b != [] {
      FormBytesRoundTrip(b[1..]);
      ByteFormDecodes(b[0], FormBytes(b[1..]));
      assert FormBytes(b) == ByteForm(b[0]) + FormBytes(b[1..]);
    }
  }

  /** The server gets back exactly the text that was encoded. */
  lemma FormRoundTrip(s: string)
    ensures Ascii(FormEncode(s)) && Utf8Codes(FormDecode(FormEncode(s))) == Codes(s)
  {
    FormBytesRoundTrip(Utf8(s));
    Utf8RoundTrip(s);
  }

  /** The `name=value` pieces of a parameter list. */
  function QueryPairs(ps: seq<(string, string)>): (r: seq<string>)
    ensures |r| == |ps|
    ensures forall i :: 0 <= i < |ps| ==> r[i] == FormEncode(ps[i].0) + "=" + FormEncode(ps[i].1)
  {
    if ps == [] then [] else [FormEncode(ps[0].0) + "=" + FormEncode(ps[0].1)] + QueryPairs(ps[1..])
  }

  /** `params.toString()`. */
  function Query(ps: seq<(string, string)>): string
  {
    Join(QueryPairs(ps), "&")
  }

  /** The server splits the query back into the parameters, in order:
      at '&' into the pieces, each at '=' into the encoded name and value,
      and those decode to the texts that were appended. */
  lemma QuerySplits(ps: seq<(string, string)>)
    requires ps != []
    ensures var pieces := Split(Query(ps), '&');
            |pieces| == |ps| &&
            forall i :: 0 <= i < |ps| ==>
              Split(pieces[i], '=') == [FormEncode(ps[i].0), FormEncode(ps[i].1)] &&
              Ascii(FormEncode(ps[i].0)) && Utf8Codes(FormDecode(FormEncode(ps[i].0))) == Codes(ps[i].0) &&
              Ascii(FormEncode(ps[i].1)) && Utf8Codes(FormDecode(FormEncode(ps[i].1))) == Codes(ps[i].1)
  {
    var pieces := QueryPairs(ps);
    forall i | 0 <= i < |ps|
      ensures '&' !in pieces[i]
      ensures Split(pieces[i], '=') == [FormEncode(ps[i].0), FormEncode(ps[i].1)]
      ensures Ascii(FormEncode(ps[i].0)) && Utf8Codes(FormDecode(FormEncode(ps[i].0))) == Codes(ps[i].0)
      ensures Ascii(FormEncode(ps[i].1)) && Utf8Codes(FormDecode(FormEncode(ps[i].1))) == Codes(ps[i].1)
    {
      var k, v := FormEncode(ps[i].0), FormEncode(ps[i].1);
      FormBytesChars(Utf8(ps[i].0));
      FormBytesChars(Utf8(ps[i].1));
      FormRoundTrip(ps[i].0);
      FormRoundTrip(ps[i].1);
      assert pieces[i] == k + ['='] + v;
      SplitCons(k, '=', v);
      assert BeforeFirst(v, '=') == v;
    }
    SplitJoin(pieces, '&');
  }
}
