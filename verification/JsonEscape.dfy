/**
 * Escaping of log messages for JSON (libcontainer/nsenter/escape.c) against an independent
 * decoder for JSON strings, section 2.5 of RFC 4627.
 *
 * A C string is the sequence of its bytes before the final NUL.
 */
module JsonEscape {

  import opened Text
  import opened Wrappers

  const QUOTE: Byte := 0x22
  const BACKSLASH: Byte := 0x5C
  const SPACE: Byte := 0x20
  const DEL: Byte := 0x7F

  predicate NulFree(s: seq<Byte>) {
    forall i :: 0 <= i < |s| ==> s[i] != 0
  }

  // ---------------------------------------------------------------- the two passes

  /** need_escape: how many characters more than one the escaped form has. */
  function Extra(c: Byte): nat {
    if c == BACKSLASH || c == QUOTE || c == 8 || c == 10 || c == 13 || c == 9 || c == 12 then 1
    else if c == DEL then 5
    else if 0 < c < SPACE then 5
    else 0
  }

  function Hex(n: nat): Byte
    requires n < 16
  {
    if n < 10 then 0x30 + n else 0x61 + n - 10
  }

  /** What the second pass writes for one character. */
  function EscapeByte(c: Byte): seq<Byte> {
    if c == QUOTE || c == BACKSLASH then [BACKSLASH, c]
    else if c >= SPACE && c != DEL then [c]
    else if c == 8 then [BACKSLASH, 0x62]
    else if c == 10 then [BACKSLASH, 0x6E]
    else if c == 13 then [BACKSLASH, 0x72]
    else if c == 9 then [BACKSLASH, 0x74]
    else if c == 12 then [BACKSLASH, 0x66]
    else [BACKSLASH, 0x75, 0x30, 0x30, Hex(c / 16), Hex(c % 16)]
  }

  function Escape(s: seq<Byte>): seq<Byte> {
    if s == [] then [] else Escape(s[..|s| - 1]) + EscapeByte(s[|s| - 1])
  }

  function Count(s: seq<Byte>): nat {
    if s == [] then 0 else Count(s[..|s| - 1]) + Extra(s[|s| - 1])
  }

  /** The passes agree on every character. */
  lemma PassesAgree(c: Byte)
    requires c != 0
    ensures |EscapeByte(c)| == 1 + Extra(c)
  {
  }

  /** The second pass writes exactly what the first one counted. */
  lemma {:induction false} LengthIsCounted(s: seq<Byte>)
    requires NulFree(s)
    ensures |Escape(s)| == |s| + Count(s)
  {
    if s != [] {
      LengthIsCounted(s[..|s| - 1]);
      PassesAgree(s[|s| - 1]);
    }
  }

  lemma {:induction false} CountGrows(s: seq<Byte>, i: nat)
    requires NulFree(s) && i <= |s|
    ensures |Escape(s[..i])| + (|s| - i) <= |Escape(s)|
    ensures Count(s[..i]) <= Count(s)
    decreases |s| - i
  {
    if i == |s| {
      assert s[..i] == s;
    } else {
      assert s[..i + 1][..i] == s[..i];
      PassesAgree(s[i]);
      CountGrows(s, i + 1);
    }
  }

  lemma {:induction false} NothingToEscape(s: seq<Byte>)
    requires NulFree(s) && Count(s) == 0
    ensures Escape(s) == s
  {
    if s != [] {
      NothingToEscape(s[..|s| - 1]);
      assert EscapeByte(s[|s| - 1]) == [s[|s| - 1]];
    }
  }

  /** Room for one more escaped character is left in a buffer of the counted size. */
  lemma RoomForNext(s: seq<Byte>, i: nat)
    requires NulFree(s) && i < |s|
    ensures Escape(s[..i + 1]) == Escape(s[..i]) + EscapeByte(s[i])
    ensures |Escape(s[..i])| + |EscapeByte(s[i])| <= |s| + Count(s)
  {
    assert s[..i + 1][..i] == s[..i];
    CountGrows(s, i + 1);
    LengthIsCounted(s);
  }

  /** Writes one escaped character at `j`. */
  method Emit(out: array<Byte>, j: nat, c: Byte) returns (k: nat)
    requires j + |EscapeByte(c)| < out.Length
    modifies out
    ensures k == j + |EscapeByte(c)|
    ensures out[..k] == old(out[..j]) + EscapeByte(c)
  {
    k := j;
    if c == QUOTE || c == BACKSLASH {
      out[k], out[k + 1] := BACKSLASH, c;
      return k + 2;
    }
    if c >= SPACE && c != DEL {
      out[k] := c;
      return k + 1;
    }
    out[k] := BACKSLASH;
    k := k + 1;
    if c == 8 {
      out[k] := 0x62;
    } else if c == 10 {
      out[k] := 0x6E;
    } else if c == 13 {
      out[k] := 0x72;
    } else if c == 9 {
      out[k] := 0x74;
    } else if c == 12 {
      out[k] := 0x66;
    } else {
      out[k], out[k + 1], out[k + 2], out[k + 3], out[k + 4] := 0x75, 0x30, 0x30, Hex(c / 16), Hex(c % 16);
      k := k + 4;
    }
    k := k + 1;
  }

  /**
   * escape_json_string. No buffer means that the argument is returned as it is; otherwise the
   * buffer is filled to its last byte with the escaped string and its NUL.
   */
  method EscapeJsonString(s: seq<Byte>) returns (out: array?<Byte>)
    requires NulFree(s)
    ensures out == null <==> Count(s) == 0
    ensures out == null ==> Escape(s) == s
    ensures out != null ==> out.Length == |s| + Count(s) + 1 && out[..] == Escape(s) + [0]
  {
    var extra, i := 0, 0;
    while i < |s|
      invariant 0 <= i <= |s| && extra == Count(s[..i])
    {
      assert s[..i + 1][..i] == s[..i];
      extra := extra + Extra(s[i]);
      i := i + 1;
    }
    assert s[..i] == s;
    if extra == 0 {
      NothingToEscape(s);
      return null;
    }
    var buf := new Byte[i + extra + 1];
    var j, c := 0, 0;
    while c < |s|
      invariant 0 <= c <= |s| && buf.Length == |s| + Count(s) + 1
      invariant j == |Escape(s[..c])| < buf.Length
      invariant buf[..j] == Escape(s[..c])
    {
      RoomForNext(s, c);
      j := Emit(buf, j, s[c]);
      c := c + 1;
    }
    assert s[..c] == s;
    LengthIsCounted(s);
    buf[j] := 0;
    assert buf[..] == buf[..j] + [0];
    out := buf;
  }

  // ---------------------------------------------------------------- decoding

  function HexValue(c: Byte): Option<nat> {
    if 0x30 <= c <= 0x39 then Some(c - 0x30)
    else if 0x61 <= c <= 0x66 then Some(c - 0x61 + 10)
    else if 0x41 <= c <= 0x46 then Some(c - 0x41 + 10)
    else None
  }

  /** The code that four hexadecimal digits stand for. */
  function Hex4(s: seq<Byte>): Option<nat>
    requires |s| >= 4
  {
    var a, b, c, d := HexValue(s[0]), HexValue(s[1]), HexValue(s[2]), HexValue(s[3]);
    if a.None? || b.None? || c.None? || d.None? then None
    else Some(0x1000 * a.value + 0x100 * b.value + 0x10 * c.value + d.value)
  }

  /** UTF-8 of a code in the basic plane; surrogates have none of their own. */
  function Utf8(code: nat): Option<seq<Byte>> {
    if code < 0x80 then Some([code])
    else if code < 0x800 then Some([0xC0 + code / 0x40, 0x80 + code % 0x40])
    else if 0xD800 <= code < 0xE000 || code >= 0x1_0000 then None
    else Some([0xE0 + code / 0x1000, 0x80 + code / 0x40 % 0x40, 0x80 + code % 0x40])
  }

  function ShortEscape(c: Byte): Option<Byte> {
    if c == QUOTE || c == BACKSLASH || c == 0x2F then Some(c)
    else if c == 0x62 then Some(8)
    else if c == 0x66 then Some(12)
    else if c == 0x6E then Some(10)
    else if c == 0x72 then Some(13)
    else if c == 0x74 then Some(9)
    else None
  }

  /** The first character of the inside of a JSON string: its bytes and its length. */
  function DecodeOne(s: seq<Byte>): Option<(seq<Byte>, nat)>
    requires s != []
  {
    if s[0] < SPACE || s[0] == QUOTE then None
    else if s[0] != BACKSLASH then Some(([s[0]], 1))
    else if |s| == 1 then None
    else if s[1] == 0x75 then
      if |s| < 6 || Hex4(s[2..]).None? then None
      else
        var text := Utf8(Hex4(s[2..]).value);
        if text.None? then None else Some((text.value, 6))
    else if ShortEscape(s[1]).None? then None
    else Some(([ShortEscape(s[1]).value], 2))
  }

  function Decode(s: seq<Byte>): Option<seq<Byte>>
    decreases |s|
  {
    if s == [] then Some([])
    else
      var first := DecodeOne(s);
      if first.None? || first.value.1 == 0 || first.value.1 > |s| then None
      else
        var rest := Decode(s[first.value.1..]);
        if rest.None? then None else Some(first.value.0 + rest.value)
  }

  lemma HexDigits(n: nat)
    requires n < 16
    ensures HexValue(Hex(n)) == Some(n)
  {
  }

  lemma DecodeEscapedByte(c: Byte, rest: seq<Byte>)
    requires c != 0
    ensures DecodeOne(EscapeByte(c) + rest) == Some(([c], |EscapeByte(c)|))
  {
    var s := EscapeByte(c) + rest;
    if (c < SPACE || c == DEL) && Extra(c) == 5 {
      HexDigits(c / 16);
      HexDigits(c % 16);
      assert s[2..] == [0x30, 0x30, Hex(c / 16), Hex(c % 16)] + rest;
      assert Hex4(s[2..]) == Some(16 * (c / 16) + c % 16);
    }
  }

  lemma DecodeThen(c: Byte, rest: seq<Byte>)
    requires c != 0 && Decode(rest).Some?
    ensures Decode(EscapeByte(c) + rest) == Some([c] + Decode(rest).value)
  {
    DecodeEscapedByte(c, rest);
    PassesAgree(c);
    assert (EscapeByte(c) + rest)[|EscapeByte(c)|..] == rest;
  }

  lemma Associative(a: seq<Byte>, b: seq<Byte>, c: seq<Byte>)
    ensures a + b + c == a + (b + c)
  {
  }

  lemma {:induction false} EscapeFromTheLeft(s: seq<Byte>)
    requires s != []
    ensures Escape(s) == EscapeByte(s[0]) + Escape(s[1..])
    decreases |s|
  {
    var n := |s| - 1;
    if n == 0 {
      assert s[1..] == [] && s[..n] == [];
    } else {
      EscapeFromTheLeft(s[..n]);
      assert s[1..][..n - 1] == s[..n][1..];
      Associative(EscapeByte(s[0]), Escape(s[1..][..n - 1]), EscapeByte(s[n]));
    }
  }

  /** Decoding an escaped string gives back every byte of it. */
  lemma {:induction false} EscapeRoundTrip(s: seq<Byte>)
    requires NulFree(s)
    ensures Decode(Escape(s)) == Some(s)
    decreases |s|
  {
    if s != [] {
      EscapeRoundTrip(s[1..]);
      EscapeFromTheLeft(s);
      DecodeThen(s[0], Escape(s[1..]));
      assert [s[0]] + s[1..] == s;
    }
  }
}
