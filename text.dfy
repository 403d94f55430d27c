/**
 * Text building blocks shared by every generated R program: joining a list with a
 * separator (Guava's Joiner, or a StringBuilder loop), splitting it back, and the
 * decimal rendering of integers (Integer.toString).
 */
module Text {

  import opened Outcomes

  predicate IsDigit(c: char) {
    '0' <= c <= '9'
  }

  /** x0 + sep + x1 + sep + ... + x(n-1) + sep: what a loop appending "item, separator" builds. */
  function Terminated(sep: string, xs: seq<string>): string
    decreases |xs|
  {
    if xs == [] then "" else Terminated(sep, xs[..|xs| - 1]) + xs[|xs| - 1] + sep
  }

  /** x0 + sep + x1 + ... + x(n-1); the empty list joins to the empty string. */
  function Join(sep: string, xs: seq<string>): string {
    if xs == [] then "" else Terminated(sep, xs[..|xs| - 1]) + xs[|xs| - 1]
  }

  /** x0 + x1 + ... + x(n-1): what a loop appending each item builds. */
  function Concat(xs: seq<string>): string
    decreases |xs|
  {
    if xs == [] then "" else Concat(xs[..|xs| - 1]) + xs[|xs| - 1]
  }

  /** Appending the text of one more item extends the concatenation of a prefix. */
  lemma ConcatTake(pre: string, xs: seq<string>, k: nat)
    requires k < |xs|
    ensures pre + Concat(xs[..k + 1]) == pre + Concat(xs[..k]) + xs[k]
  {
    var ys := xs[..k + 1];
    assert ys[..k] == xs[..k];
    Assoc(pre, Concat(xs[..k]), xs[k]);
  }

  /** Every element with `pre` in front of it. */
  function Prefixed(pre: string, xs: seq<string>): (r: seq<string>)
    ensures |r| == |xs|
    ensures forall i :: 0 <= i < |xs| ==> r[i] == pre + xs[i]
  {
    seq(|xs|, i requires 0 <= i < |xs| => pre + xs[i])
  }

  /** Cuts `s` at every occurrence of `sep`, scanning left to right. */
  function Split(sep: string, s: string): (r: seq<string>)
    requires sep != []
    ensures r != []
    decreases |s|
  {
    if |s| < |sep| then [s]
    else if s[..|sep|] == sep then [""] + Split(sep, s[|sep|..])
    else
      var rest := Split(sep, s[1..]);
      [[s[0]] + rest[0]] + rest[1..]
  }

  /** No element of `xs` contains the character `c`. */
  predicate Avoids(xs: seq<string>, c: char) {
    forall i :: 0 <= i < |xs| ==> c !in xs[i]
  }

  lemma {:induction false} TerminatedCons(sep: string, x: string, xs: seq<string>)
    ensures Terminated(sep, [x] + xs) == x + sep + Terminated(sep, xs)
    decreases |xs|
  {
    if xs != [] {
      var ys := [x] + xs;
      assert ys[..|ys| - 1] == [x] + xs[..|xs| - 1];
      TerminatedCons(sep, x, xs[..|xs| - 1]);
    } else {
      assert ([x] + xs)[..0] == [];
    }
  }

  lemma JoinCons(sep: string, x: string, xs: seq<string>)
    requires xs != []
    ensures Join(sep, [x] + xs) == x + sep + Join(sep, xs)
  {
    var ys := [x] + xs;
    var init := xs[..|xs| - 1];
    var last := xs[|xs| - 1];
    assert ys[..|ys| - 1] == [x] + init;
    assert ys[|ys| - 1] == last;
    TerminatedCons(sep, x, init);
    Assoc(x + sep, Terminated(sep, init), last);
  }

  lemma Assoc<T>(a: seq<T>, b: seq<T>, c: seq<T>)
    ensures (a + b) + c == a + (b + c)
  {
  }

  /** Appending one more "item, separator" pair extends the terminated text. */
  lemma TerminatedSnoc(sep: string, xs: seq<string>, x: string)
    ensures Terminated(sep, xs + [x]) == Terminated(sep, xs) + x + sep
  {
    assert (xs + [x])[..|xs|] == xs;
  }

  lemma JoinSnoc(sep: string, xs: seq<string>, x: string)
    ensures Join(sep, xs + [x]) == Terminated(sep, xs) + x
  {
    assert (xs + [x])[..|xs|] == xs;
  }

  /** Joining prefixed items is the prefix followed by a join whose separator carries the prefix. */
  lemma {:induction false} JoinPrefixed(sep: string, pre: string, xs: seq<string>)
    requires xs != []
    ensures Join(sep, Prefixed(pre, xs)) == pre + Join(sep + pre, xs)
    decreases |xs|
  {
    if |xs| == 1 {
      assert Prefixed(pre, xs) == [pre + xs[0]];
      assert Join(sep, [pre + xs[0]]) == Terminated(sep, []) + (pre + xs[0]);
      assert Join(sep + pre, xs) == Terminated(sep + pre, []) + xs[0];
    } else {
      assert Prefixed(pre, xs) == [pre + xs[0]] + Prefixed(pre, xs[1..]);
      assert xs == [xs[0]] + xs[1..];
      JoinCons(sep, pre + xs[0], Prefixed(pre, xs[1..]));
      JoinPrefixed(sep, pre, xs[1..]);
      JoinCons(sep + pre, xs[0], xs[1..]);
      Regroup(pre, xs[0], sep, pre, Join(sep + pre, xs[1..]));
    }
  }

  lemma Regroup<T>(p: seq<T>, x: seq<T>, s: seq<T>, q: seq<T>, j: seq<T>)
    ensures ((p + x) + s) + (q + j) == p + ((x + (s + q)) + j)
  {
  }

  lemma {:induction false} SplitNoSeparator(sep: string, x: string)
    requires sep != [] && sep[0] !in x
    ensures Split(sep, x) == [x]
    decreases |x|
  {
    if |x| >= |sep| {
      assert x[..|sep|][0] == x[0];
      SplitNoSeparator(sep, x[1..]);
      assert [x[0]] + x[1..] == x;
    }
  }

  lemma {:induction false} SplitAfterItem(sep: string, x: string, rest: string)
    requires sep != [] && sep[0] !in x
    ensures Split(sep, x + sep + rest) == [x] + Split(sep, rest)
    decreases |x|
  {
    var s := x + sep + rest;
    if x == [] {
      assert s == sep + rest;
      assert s[..|sep|] == sep;
      assert s[|sep|..] == rest;
    } else {
      assert s[..|sep|][0] == x[0];
      assert s[1..] == x[1..] + sep + rest;
      SplitAfterItem(sep, x[1..], rest);
      assert [x[0]] + x[1..] == x;
    }
  }

  /** Splitting a joined list at its separator gives the list back, when no item contains the separator's first character. */
  lemma {:induction false} SplitJoin(sep: string, xs: seq<string>)
    requires sep != [] && xs != []
    requires Avoids(xs, sep[0])
    ensures Split(sep, Join(sep, xs)) == xs
    decreases |xs|
  {
    if |xs| == 1 {
      assert xs[..0] == [];
      assert Join(sep, xs) == xs[0];
      SplitNoSeparator(sep, xs[0]);
    } else {
      assert xs == [xs[0]] + xs[1..];
      JoinCons(sep, xs[0], xs[1..]);
      SplitAfterItem(sep, xs[0], Join(sep, xs[1..]));
      SplitJoin(sep, xs[1..]);
    }
  }

  function DigitChar(d: nat): (c: char)
    requires d < 10
    ensures IsDigit(c)
  {
    (('0' as int) + d) as char
  }

  function DigitValue(c: char): nat
    requires IsDigit(c)
  {
    (c as int) - ('0' as int)
  }

  /** The decimal text of a natural number, most significant digit first. */
  function NatToString(n: nat): (r: string)
    ensures r != []
    ensures forall i :: 0 <= i < |r| ==> IsDigit(r[i])
  {
    if n < 10 then [DigitChar(n)] else NatToString(n / 10) + [DigitChar(n % 10)]
  }

  /** Integer.toString: a minus sign before the digits of a negative number. */
  function IntToString(i: int): (r: string)
    ensures r != []
    ensures forall k :: 0 <= k < |r| ==> IsDigit(r[k]) || r[k] == '-'
  {
    if i < 0 then "-" + NatToString(-i) else NatToString(i)
  }

  predicate AllDigits(s: string) {
    forall i :: 0 <= i < |s| ==> IsDigit(s[i])
  }

  function ParseDigits(s: string): nat
    requires AllDigits(s)
  {
    if s == [] then 0 else ParseDigits(s[..|s| - 1]) * 10 + DigitValue(s[|s| - 1])
  }

  /** Integer.parseInt restricted to non-negative decimal text. */
  function ParseNat(s: string): Option<nat> {
    if s != [] && AllDigits(s) then Some(ParseDigits(s)) else None
  }

  /** Reading back the decimal text of a number gives the number. */
  lemma {:induction false} ParseNatToString(n: nat)
    ensures ParseNat(NatToString(n)) == Some(n)
  {
    var s := NatToString(n);
    if n >= 10 {
      ParseNatToString(n / 10);
      assert s[..|s| - 1] == NatToString(n / 10);
      assert DigitValue(s[|s| - 1]) == n % 10;
    } else {
      assert s == [DigitChar(n)];
      assert s[..0] == [];
      assert ParseDigits(s) == ParseDigits([]) * 10 + DigitValue(s[0]);
    }
  }

  /** `s` with every occurrence of `c` removed (String.replace of a one-character string by ""). */
  function Without(c: char, s: string): (r: string)
    ensures |r| <= |s|
    ensures c !in r
  {
    if s == [] then "" else (if s[0] == c then "" else [s[0]]) + Without(c, s[1..])
  }

  lemma {:induction false} WithoutAppend(c: char, a: string, b: string)
    ensures Without(c, a + b) == Without(c, a) + Without(c, b)
    decreases |a|
  {
    if a != [] {
      assert (a + b)[1..] == a[1..] + b;
      WithoutAppend(c, a[1..], b);
    } else {
      assert a + b == b;
    }
  }

  lemma {:induction false} WithoutAbsent(c: char, s: string)
    requires c !in s
    ensures Without(c, s) == s
    decreases |s|
  {
    if s != [] {
      WithoutAbsent(c, s[1..]);
      assert [s[0]] + s[1..] == s;
    }
  }

  /** Removing a separator character that follows a separator-free piece keeps the piece. */
  lemma WithoutAfterPiece(c: char, a: string, b: string)
    requires c !in a
    ensures Without(c, a + [c] + b) == a + Without(c, b)
  {
    Assoc(a, [c], b);
    WithoutAppend(c, a, [c] + b);
    WithoutAbsent(c, a);
    WithoutDrops(c, b);
  }

  lemma WithoutDrops(c: char, b: string)
    ensures Without(c, [c] + b) == Without(c, b)
  {
    assert ([c] + b)[1..] == b;
    assert "" + Without(c, b) == Without(c, b);
  }

  /** The range of a Java int. */
  predicate IsInt32(i: int) {
    -0x8000_0000 <= i <= 0x7fff_ffff
  }

  /**
   * Integer.parseInt: an optional minus or plus sign followed by decimal digits, whose value
   * must fit a Java int.
   */
  function ParseInt(s: string): (r: Option<int>)
    ensures r.Some? ==> IsInt32(r.value)
  {
    var signed := |s| > 0 && (s[0] == '-' || s[0] == '+');
    match ParseNat(if signed then s[1..] else s)
    case None => None
    case Some(n) =>
      var v := if signed && s[0] == '-' then 0 - n as int else n as int;
      if IsInt32(v) then Some(v) else None
  }

  /** Reading back Integer.toString of any int gives the int. */
  lemma ParseIntToString(i: int)
    requires IsInt32(i)
    ensures ParseInt(IntToString(i)) == Some(i)
  {
    if i < 0 {
      ParseNatToString(-i);
      assert IntToString(i)[1..] == NatToString(-i);
    } else {
      ParseNatToString(i);
      assert IsDigit(NatToString(i)[0]);
    }
  }

  /** A leading plus sign is accepted and changes nothing. */
  lemma ParseIntPlus(n: nat)
    requires n <= 0x7fff_ffff
    ensures ParseInt("+" + NatToString(n)) == Some(n)
  {
    ParseNatToString(n);
    assert ("+" + NatToString(n))[1..] == NatToString(n);
  }

  /** Decimal text of a number past the int range does not parse. */
  lemma ParseIntOutOfRange(n: nat)
    requires n > 0x7fff_ffff
    ensures ParseInt(NatToString(n)) == None
    ensures n > 0x8000_0000 ==> ParseInt("-" + NatToString(n)) == None
  {
    ParseNatToString(n);
    assert IsDigit(NatToString(n)[0]);
    assert ("-" + NatToString(n))[1..] == NatToString(n);
  }

  /** Every element with `pre` in front of it and `post` behind it. */
  function Enclosed(pre: string, xs: seq<string>, post: string): (r: seq<string>)
    ensures |r| == |xs|
    ensures forall i :: 0 <= i < |xs| ==> r[i] == pre + xs[i] + post
  {
    seq(|xs|, i requires 0 <= i < |xs| => pre + xs[i] + post)
  }

  lemma EnclosedSnoc(pre: string, xs: seq<string>, x: string, post: string)
    ensures Enclosed(pre, xs + [x], post) == Enclosed(pre, xs, post) + [pre + x + post]
  {
  }

  lemma EnclosedPrefix(pre: string, xs: seq<string>, post: string, k: nat)
    requires k <= |xs|
    ensures Enclosed(pre, xs[..k], post) == Enclosed(pre, xs, post)[..k]
  {
  }

  /** The text of an enclosed element gives back the element. */
  lemma Unenclose(pre: string, x: string, post: string)
    ensures (pre + x + post)[|pre|..|pre| + |x|] == x
  {
  }

  /** One loop round of a builder that appends an item and then the separator. */
  lemma TerminatedStep(sep: string, head: string, items: seq<string>, i: nat)
    requires i < |items|
    ensures head + Terminated(sep, items[..i]) + items[i] + sep == head + Terminated(sep, items[..i + 1])
  {
    assert items[..i + 1][..i] == items[..i];
  }

  /** The last item appended without a separator completes the join. */
  lemma JoinClose(sep: string, head: string, items: seq<string>, tail: string)
    requires items != []
    ensures head + Terminated(sep, items[..|items| - 1]) + items[|items| - 1] + tail == head + Join(sep, items) + tail
  {
  }

  /** The list without its trailing empty strings. */
  function DropTrailingEmpty(xs: seq<string>): (r: seq<string>)
    ensures |r| <= |xs| && r == xs[..|r|]
    ensures r == [] || r[|r| - 1] != ""
  {
    if xs != [] && xs[|xs| - 1] == "" then DropTrailingEmpty(xs[..|xs| - 1]) else xs
  }

  /**
   * String.split with a literal separator: the empty string gives one empty piece;
   * otherwise trailing empty pieces are discarded.
   */
  function SplitDiscardingTrailing(sep: string, s: string): seq<string>
    requires sep != []
  {
    if s == [] then [""] else DropTrailingEmpty(Split(sep, s))
  }

  /** Splitting a joined list gives it back when no item holds the separator and the last item is not empty. */
  lemma SplitDiscardingTrailingJoin(sep: string, xs: seq<string>)
    requires sep != [] && xs != [] && xs[|xs| - 1] != ""
    requires Avoids(xs, sep[0])
    ensures SplitDiscardingTrailing(sep, Join(sep, xs)) == xs
  {
    SplitJoin(sep, xs);
    JoinSnoc(sep, xs[..|xs| - 1], xs[|xs| - 1]);
    assert xs[..|xs| - 1] + [xs[|xs| - 1]] == xs;
  }

  /** A format conversion %1s: the text, padded with one space if it is empty. */
  function Width1(s: string): (r: string)
    ensures |r| >= 1
    ensures s != [] ==> r == s
  {
    if s == [] then " " else s
  }
}
