/**
 * Text encodings, as far as needed to explain the notification marks: a
 * text's UTF-8 bytes, and bytes read back as Windows-1252 (cp1252), the
 * usual way UTF-8 text turns into "mojibake".
 */
module Encoding {
  import opened Common

  /** The UTF-8 bytes of one code point. */
  function Utf8Char(c: char): (bs: seq<int>)
    ensures 1 <= |bs| <= 4
    ensures forall i :: 0 <= i < |bs| ==> 0 <= bs[i] < 256
    ensures (c as int < 0x80) <==> |bs| == 1
  {
    var n := c as int;
    if n < 0x80 then [n]
    else if n < 0x800 then [0xC0 + n / 64, 0x80 + n % 64]
    else if n < 0x1_0000 then [0xE0 + n / 4096, 0x80 + (n / 64) % 64, 0x80 + n % 64]
    else [0xF0 + n / 262144, 0x80 + (n / 4096) % 64, 0x80 + (n / 64) % 64, 0x80 + n % 64]
  }

  /** `s.encode("utf-8")` */
  function Utf8(s: string): (bs: seq<int>)
    ensures |bs| >= |s|
    ensures forall i :: 0 <= i < |bs| ==> 0 <= bs[i] < 256
    ensures |bs| == |s| <==> forall i :: 0 <= i < |s| ==> s[i] as int < 0x80
  {
    if s == [] then [] else Utf8Char(s[0]) + Utf8(s[1..])
  }

  /** One byte read as Windows-1252; the five bytes the code page leaves undefined have no character. */
  function Cp1252Char(b: int): (c: Option<char>)
    requires 0 <= b < 256
    ensures (b < 0x80 || b >= 0xA0) ==> c == Some(b as char)
    ensures c.None? <==> b in {0x81, 0x8D, 0x8F, 0x90, 0x9D}
  {
    if b < 0x80 || b >= 0xA0 then Some(b as char)
    else match b
      case 0x80 => Some('\U{20AC}')
      case 0x82 => Some('\U{201A}')
      case 0x83 => Some('\U{0192}')
      case 0x84 => Some('\U{201E}')
      case 0x85 => Some('\U{2026}')
      case 0x86 => Some('\U{2020}')
      case 0x87 => Some('\U{2021}')
      case 0x88 => Some('\U{02C6}')
      case 0x89 => Some('\U{2030}')
      case 0x8A => Some('\U{0160}')
      case 0x8B => Some('\U{2039}')
      case 0x8C => Some('\U{0152}')
      case 0x8E => Some('\U{017D}')
      case 0x91 => Some('\U{2018}')
      case 0x92 => Some('\U{2019}')
      case 0x93 => Some('\U{201C}')
      case 0x94 => Some('\U{201D}')
      case 0x95 => Some('\U{2022}')
      case 0x96 => Some('\U{2013}')
      case 0x97 => Some('\U{2014}')
      case 0x98 => Some('\U{02DC}')
      case 0x99 => Some('\U{2122}')
      case 0x9A => Some('\U{0161}')
      case 0x9B => Some('\U{203A}')
      case 0x9C => Some('\U{0153}')
      case 0x9E => Some('\U{017E}')
      case 0x9F => Some('\U{0178}')
      case _ => None
  }

  lemma Utf8One(c: char)
    ensures Utf8([c]) == Utf8Char(c)
  {
    assert [c][1..] == [];
  }

  /** `bytes.decode("cp1252")`, None where it would raise. */
  function Cp1252(bs: seq<int>): (r: Option<string>)
    requires forall i :: 0 <= i < |bs| ==> 0 <= bs[i] < 256
    ensures r.Some? <==> forall i :: 0 <= i < |bs| ==> Cp1252Char(bs[i]).Some?
    ensures r.Some? ==> |r.value| == |bs| && forall i :: 0 <= i < |bs| ==> Some(r.value[i]) == Cp1252Char(bs[i])
  {
    if forall i :: 0 <= i < |bs| ==> Cp1252Char(bs[i]).Some? then
      Some(seq(|bs|, i requires 0 <= i < |bs| => Cp1252Char(bs[i]).value))
    else None
  }

  /** ASCII text survives the round trip through UTF-8 and Windows-1252 unchanged. */
  lemma {:induction false} AsciiUnchanged(s: string)
    requires forall i :: 0 <= i < |s| ==> s[i] as int < 0x80
    ensures Utf8(s) == seq(|s|, i requires 0 <= i < |s| => s[i] as int)
    ensures Cp1252(Utf8(s)) == Some(s)
  {
    if s != [] {
      AsciiUnchanged(s[1..]);
    }
    var bs := Utf8(s);
    forall i | 0 <= i < |s| ensures Cp1252Char(bs[i]) == Some(s[i]) {
      assert bs[i] == s[i] as int;
    }
    assert |bs| == |s|;
    assert Cp1252(bs).Some?;
    var r := Cp1252(bs).value;
    assert forall i :: 0 <= i < |s| ==> r[i] == s[i];
    assert r == s;
  }

  /** Reading three bytes that all have characters. */
  lemma Decode3(a: int, b: int, c: int)
    requires 0 <= a < 256 && 0 <= b < 256 && 0 <= c < 256
    requires Cp1252Char(a).Some? && Cp1252Char(b).Some? && Cp1252Char(c).Some?
    ensures Cp1252([a, b, c]) == Some([Cp1252Char(a).value, Cp1252Char(b).value, Cp1252Char(c).value])
  {
    var bs := [a, b, c];
    assert forall i :: 0 <= i < 3 ==> bs[i] == a || bs[i] == b || bs[i] == c;
    var r := Cp1252(bs).value;
    assert Some(r[0]) == Cp1252Char(a) && Some(r[1]) == Cp1252Char(b) && Some(r[2]) == Cp1252Char(c);
    assert r == [Cp1252Char(a).value, Cp1252Char(b).value, Cp1252Char(c).value];
  }

  /** Reading four bytes that all have characters. */
  lemma Decode4(a: int, b: int, c: int, d: int)
    requires 0 <= a < 256 && 0 <= b < 256 && 0 <= c < 256 && 0 <= d < 256
    requires Cp1252Char(a).Some? && Cp1252Char(b).Some? && Cp1252Char(c).Some? && Cp1252Char(d).Some?
    ensures Cp1252([a, b, c, d])
      == Some([Cp1252Char(a).value, Cp1252Char(b).value, Cp1252Char(c).value, Cp1252Char(d).value])
  {
    var bs := [a, b, c, d];
    assert forall i :: 0 <= i < 4 ==> bs[i] == a || bs[i] == b || bs[i] == c || bs[i] == d;
    var r := Cp1252(bs).value;
    assert Some(r[0]) == Cp1252Char(a) && Some(r[1]) == Cp1252Char(b);
    assert Some(r[2]) == Cp1252Char(c) && Some(r[3]) == Cp1252Char(d);
    assert r == [Cp1252Char(a).value, Cp1252Char(b).value, Cp1252Char(c).value, Cp1252Char(d).value];
  }

  /** A mark of three UTF-8 bytes read back as Windows-1252. */
  lemma Garbled3(mark: char, a: int, b: int, c: int)
    requires Utf8Char(mark) == [a, b, c]
    requires Cp1252Char(a).Some? && Cp1252Char(b).Some? && Cp1252Char(c).Some?
    ensures Cp1252(Utf8([mark])) == Some([Cp1252Char(a).value, Cp1252Char(b).value, Cp1252Char(c).value])
  {
    Utf8One(mark);
    Decode3(a, b, c);
  }

  /** A mark of four UTF-8 bytes read back as Windows-1252. */
  lemma Garbled4(mark: char, a: int, b: int, c: int, d: int)
    requires Utf8Char(mark) == [a, b, c, d]
    requires Cp1252Char(a).Some? && Cp1252Char(b).Some? && Cp1252Char(c).Some? && Cp1252Char(d).Some?
    ensures Cp1252(Utf8([mark]))
      == Some([Cp1252Char(a).value, Cp1252Char(b).value, Cp1252Char(c).value, Cp1252Char(d).value])
  {
    Utf8One(mark);
    Decode4(a, b, c, d);
  }
}
