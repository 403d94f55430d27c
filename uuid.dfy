/**
 * java.util.UUID as its 128 bits, written as 32 hexadecimal digits, and its canonical text:
 * the 8-4-4-4-12 grouping of section 3 of RFC 4122, in lower case (UUID.toString).
 */
module Uuid {

  import opened Outcomes
  import opened Text

  type Nibble = x: int | 0 <= x < 16

  /** The 32 hexadecimal digits of a UUID, most significant first. */
  type Uuid = s: seq<Nibble> | |s| == 32 witness seq(32, i => 0)

  function HexChar(n: Nibble): char {
    "0123456789abcdef"[n]
  }

  /** The value of one hexadecimal digit; UUID.fromString accepts both cases. */
  function HexValue(c: char): Option<Nibble> {
    if '0' <= c <= '9' then Some((c as int) - ('0' as int))
    else if 'a' <= c <= 'f' then Some((c as int) - ('a' as int) + 10)
    else if 'A' <= c <= 'F' then Some((c as int) - ('A' as int) + 10)
    else None
  }

  function Hex(ds: seq<Nibble>): (r: string)
    ensures |r| == |ds|
    ensures '-' !in r
  {
    seq(|ds|, i requires 0 <= i < |ds| => HexChar(ds[i]))
  }

  function ParseHex(s: string): (r: Option<seq<Nibble>>)
    ensures r.Some? ==> |r.value| == |s|
  {
    if s == [] then Some([])
    else match (HexValue(s[0]), ParseHex(s[1..]))
      case (Some(d), Some(ds)) => Some([d] + ds)
      case _ => None
  }

  /** The canonical text, e.g. d9556c14-97f1-40f6-9514-f6fb339474af. */
  function ToString(u: Uuid): (r: string)
    ensures |r| == 36
    ensures r[8] == '-' && r[13] == '-' && r[18] == '-' && r[23] == '-'
  {
    Hex(u[..8]) + "-" + (Hex(u[8..12]) + "-" + (Hex(u[12..16]) + "-" + (Hex(u[16..20]) + "-" + Hex(u[20..]))))
  }

  /** UUID.fromString, for canonical 8-4-4-4-12 text; anything else is refused. */
  function Parse(s: string): Option<Uuid> {
    if |s| == 36 && s[8] == '-' && s[13] == '-' && s[18] == '-' && s[23] == '-' then
      match ParseHex(s[..8] + s[9..13] + s[14..18] + s[19..23] + s[24..])
      case Some(ds) => Some(ds)
      case None => None
    else None
  }

  lemma HexValueOfHexChar(n: Nibble)
    ensures HexValue(HexChar(n)) == Some(n)
  {
  }

  lemma {:induction false} ParseHexOfHex(ds: seq<Nibble>)
    ensures ParseHex(Hex(ds)) == Some(ds)
    decreases |ds|
  {
    if ds != [] {
      assert Hex(ds)[1..] == Hex(ds[1..]);
      HexValueOfHexChar(ds[0]);
      ParseHexOfHex(ds[1..]);
      assert [ds[0]] + ds[1..] == ds;
    }
  }

  lemma HexAppend(a: seq<Nibble>, b: seq<Nibble>)
    ensures Hex(a + b) == Hex(a) + Hex(b)
  {
  }

  lemma HexGroups(u: Uuid)
    ensures Hex(u[..8]) + Hex(u[8..12]) + Hex(u[12..16]) + Hex(u[16..20]) + Hex(u[20..]) == Hex(u)
  {
    assert u == u[..8] + u[8..12] + u[12..16] + u[16..20] + u[20..];
    HexAppend(u[..8], u[8..12]);
    HexAppend(u[..8] + u[8..12], u[12..16]);
    HexAppend(u[..8] + u[8..12] + u[12..16], u[16..20]);
    HexAppend(u[..8] + u[8..12] + u[12..16] + u[16..20], u[20..]);
  }

  /** The digit groups of a UUID's text, read around the dashes, are the UUID's own digits. */
  lemma GroupsOfToString(u: Uuid)
    ensures var s := ToString(u); s[..8] + s[9..13] + s[14..18] + s[19..23] + s[24..] == Hex(u)
  {
    var s := ToString(u);
    assert s[..8] == Hex(u[..8]);
    assert s[9..13] == Hex(u[8..12]);
    assert s[14..18] == Hex(u[12..16]);
    assert s[19..23] == Hex(u[16..20]);
    assert s[24..] == Hex(u[20..]);
    HexGroups(u);
  }

  /** Deleting the dashes of a UUID's text leaves exactly its 32 digits. */
  lemma DigitsOfToString(u: Uuid)
    ensures Without('-', ToString(u)) == Hex(u)
  {
    var h1, h2, h3, h4, h5 := Hex(u[..8]), Hex(u[8..12]), Hex(u[12..16]), Hex(u[16..20]), Hex(u[20..]);
    var t4 := h4 + "-" + h5;
    var t3 := h3 + "-" + t4;
    var t2 := h2 + "-" + t3;
    assert ToString(u) == h1 + "-" + t2;
    WithoutAbsent('-', h5);
    WithoutAfterPiece('-', h4, h5);
    WithoutAfterPiece('-', h3, t4);
    WithoutAfterPiece('-', h2, t3);
    WithoutAfterPiece('-', h1, t2);
    LeftGroups(h1, h2, h3, h4, h5);
    HexGroups(u);
  }

  lemma LeftGroups<T>(a: seq<T>, b: seq<T>, c: seq<T>, d: seq<T>, e: seq<T>)
    ensures a + (b + (c + (d + e))) == a + b + c + d + e
  {
  }

  /** Reading back the canonical text of a UUID gives the UUID. */
  lemma ParseToString(u: Uuid)
    ensures Parse(ToString(u)) == Some(u)
  {
    GroupsOfToString(u);
    ParseHexOfHex(u);
  }

  /** Distinct UUIDs have distinct digit strings. */
  lemma HexInjective(u: Uuid, v: Uuid)
    requires Hex(u) == Hex(v)
    ensures u == v
  {
    ParseHexOfHex(u);
    ParseHexOfHex(v);
  }
}
