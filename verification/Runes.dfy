/** UTF-8 rune boundaries and the rune-safe truncation used for reply quotes. */
module Runes {

  type Byte = b: int | 0 <= b < 256
  type Bytes = seq<Byte>

  /** U+2026, the mark appended to a truncated quote. */
  const ELLIPSIS: Bytes := [0xE2, 0x80, 0xA6]

  predicate IsTail(b: Byte) {
    0x80 <= b <= 0xBF
  }

  /** First two bytes of a three-byte sequence, section 4 of RFC 3629. */
  predicate Leads3(a: Byte, b: Byte) {
    || (a == 0xE0 && 0xA0 <= b <= 0xBF)
    || (0xE1 <= a <= 0xEC && IsTail(b))
    || (a == 0xED && 0x80 <= b <= 0x9F)
    || (0xEE <= a <= 0xEF && IsTail(b))
  }

  /** First two bytes of a four-byte sequence, section 4 of RFC 3629. */
  predicate Leads4(a: Byte, b: Byte) {
    || (a == 0xF0 && 0x90 <= b <= 0xBF)
    || (0xF1 <= a <= 0xF3 && IsTail(b))
    || (a == 0xF4 && 0x80 <= b <= 0x8F)
  }

  /** Bytes taken by the first rune; a byte that starts no valid sequence counts as one rune. */
  function Width(s: Bytes): (w: nat)
    requires s != []
    ensures 1 <= w <= |s|
  {
    if |s| >= 2 && 0xC2 <= s[0] <= 0xDF && IsTail(s[1]) then 2
    else if |s| >= 3 && Leads3(s[0], s[1]) && IsTail(s[2]) then 3
    else if |s| >= 4 && Leads4(s[0], s[1]) && IsTail(s[2]) && IsTail(s[3]) then 4
    else 1
  }

  /** The runes of a byte string, each as its own bytes. */
  function Split(s: Bytes): (rs: seq<Bytes>)
    ensures |rs| <= |s| && (s != [] ==> rs != [])
  {
    if s == [] then [] else [s[..Width(s)]] + Split(s[Width(s)..])
  }

  function Flatten(rs: seq<Bytes>): Bytes {
    if rs == [] then [] else rs[0] + Flatten(rs[1..])
  }

  /** What truncation promises: at most max runes, and a mark when something was cut. */
  function Truncated(s: Bytes, max: int): Bytes {
    if max <= 0 || |Split(s)| <= max then s else Flatten(Split(s)[..max]) + ELLIPSIS
  }

  // ---------- the algorithm ----------

  method RuneCount(s: Bytes) returns (n: nat)
    ensures n == |Split(s)|
  {
    n := 0;
    var i := 0;
    while i < |s|
      invariant 0 <= i <= |s|
      invariant n + |Split(s[i..])| == |Split(s)|
    {
      var w := Width(s[i..]);
      assert s[i..][w..] == s[i + w..];
      i := i + w;
      n := n + 1;
    }
  }

  method TruncateRunes(s: Bytes, max: int) returns (r: Bytes)
    ensures r == Truncated(s, max)
  {
    if max <= 0 || s == [] {
      return s;
    }
    var total := RuneCount(s);
    if total <= max {
      return s;
    }
    var n := 0;
    var i := 0;
    while i < |s|
      invariant 0 <= n <= max && i == Offset(s, n) <= |s|
    {
      if n >= max {
        CutAtOffset(s, n);
        return s[..i] + ELLIPSIS;
      }
      NextOffset(s, n);
      i := i + Width(s[i..]);
      n := n + 1;
    }
    OffsetInside(s, n);
    assert false;
    return s;
  }

  /** Where the loop stands after n runes. */
  function Offset(s: Bytes, n: nat): (i: nat)
    ensures i <= |s|
  {
    if n == 0 || s == [] then 0 else Width(s) + Offset(s[Width(s)..], n - 1)
  }

  lemma {:induction false} NextOffset(s: Bytes, n: nat)
    requires Offset(s, n) < |s|
    ensures Offset(s, n + 1) == Offset(s, n) + Width(s[Offset(s, n)..])
  {
    if n == 0 {
      assert s[0..] == s;
    } else {
      var rest := s[Width(s)..];
      NextOffset(rest, n - 1);
      assert rest[Offset(rest, n - 1)..] == s[Offset(s, n)..];
    }
  }

  /** Short of the last rune the loop has not reached the end. */
  lemma {:induction false} OffsetInside(s: Bytes, n: nat)
    requires n < |Split(s)|
    ensures Offset(s, n) < |s|
  {
    if n > 0 {
      OffsetInside(s[Width(s)..], n - 1);
    }
  }

  lemma {:induction false} RunesToOffset(s: Bytes, n: nat)
    requires n <= |Split(s)|
    ensures Flatten(Split(s)[..n]) == s[..Offset(s, n)]
  {
    if n > 0 {
      var w, rest := Width(s), s[Width(s)..];
      RunesToOffset(rest, n - 1);
      assert Split(s)[1..] == Split(rest);
      FirstRunes(Split(s), n);
      Longer(s, w, Offset(rest, n - 1));
    }
  }

  lemma CutAtOffset(s: Bytes, n: nat)
    requires 0 < n < |Split(s)|
    ensures Truncated(s, n) == s[..Offset(s, n)] + ELLIPSIS
  {
    RunesToOffset(s, n);
  }

  lemma Longer(s: Bytes, w: nat, k: nat)
    requires w + k <= |s|
    ensures s[..w] + s[w..][..k] == s[..w + k]
  {
  }

  lemma Regroup<T>(a: seq<T>, b: seq<T>, c: seq<T>)
    ensures a + (b + c) == a + b + c
  {
  }

  // ---------- what truncation keeps ----------

  /** Nothing is lost or reordered by cutting a string into runes. */
  lemma {:induction false} SplitKeepsBytes(s: Bytes)
    ensures Flatten(Split(s)) == s
  {
    if s != [] {
      SplitKeepsBytes(s[Width(s)..]);
      assert Split(s)[1..] == Split(s[Width(s)..]);
    }
  }

  /** The bytes of a rune do not depend on what follows it, once a mark or nothing follows the cut. */
  lemma WidthBeforeMark(s: Bytes, cut: nat)
    requires s != [] && Width(s) <= cut <= |s|
    ensures Width(s[..cut] + ELLIPSIS) == Width(s)
  {
    var t := s[..cut] + ELLIPSIS;
    assert forall k :: 0 <= k < cut ==> t[k] == s[k];
    assert t[cut] == 0xE2;
  }

  /** Splitting what was put together from a rune and a rest gives that rune and the rest. */
  lemma SplitCons(r: Bytes, rest: Bytes)
    requires r != [] && Width(r + rest) == |r|
    ensures Split(r + rest) == [r] + Split(rest)
  {
    var s := r + rest;
    assert s[..|r|] == r && s[|r|..] == rest;
  }

  lemma CutAfterRune(s: Bytes, head: seq<Bytes>)
    requires s != [] && Flatten(head) <= s[Width(s)..]
    requires Split(Flatten(head) + ELLIPSIS) == head + [ELLIPSIS]
    ensures Split(s[..Width(s)] + Flatten(head) + ELLIPSIS) == [s[..Width(s)]] + head + [ELLIPSIS]
    ensures s[..Width(s)] + Flatten(head) <= s
  {
    var w := Width(s);
    var cut := w + |Flatten(head)|;
    assert s[..cut] == s[..w] + Flatten(head);
    WidthBeforeMark(s, cut);
    assert s[..cut] + ELLIPSIS == s[..w] + (Flatten(head) + ELLIPSIS);
    SplitCons(s[..w], Flatten(head) + ELLIPSIS);
  }

  lemma {:induction false} SplitOfCut(s: Bytes, n: nat)
    requires n <= |Split(s)|
    ensures Split(Flatten(Split(s)[..n]) + ELLIPSIS) == Split(s)[..n] + [ELLIPSIS]
    ensures Flatten(Split(s)[..n]) <= s
  {
    if n == 0 {
      SplitCons(ELLIPSIS, []);
      assert [] + ELLIPSIS == ELLIPSIS + [] == ELLIPSIS;
      assert Split(s)[..0] + [ELLIPSIS] == [ELLIPSIS];
    } else {
      var rest := s[Width(s)..];
      SplitOfCut(rest, n - 1);
      var head := Split(rest)[..n - 1];
      CutAfterRune(s, head);
      FirstRunes([s[..Width(s)]] + Split(rest), n);
    }
  }

  lemma FirstRunes(rs: seq<Bytes>, n: nat)
    requires 0 < n <= |rs|
    ensures rs[..n] == [rs[0]] + rs[1..][..n - 1]
    ensures Flatten(rs[..n]) == rs[0] + Flatten(rs[1..][..n - 1])
  {
    assert rs[..n][1..] == rs[1..][..n - 1];
  }

  /** A cut string has exactly the first max runes followed by the mark: max + 1 runes in all. */
  lemma TruncationKeepsFirstRunes(s: Bytes, max: int)
    requires max >= 1
    ensures Split(Truncated(s, max)) ==
            if |Split(s)| <= max then Split(s) else Split(s)[..max] + [ELLIPSIS]
  {
    if |Split(s)| > max {
      SplitOfCut(s, max);
    }
  }

  // ---------- valid text, section 3 of RFC 3629 ----------

  predicate IsScalar(c: int) {
    0 <= c < 0xD800 || 0xDFFF < c <= 0x10FFFF
  }

  function Encode(c: int): (e: Bytes)
    requires IsScalar(c)
    ensures e != []
  {
    if c < 0x80 then [c]
    else if c < 0x800 then [0xC0 + c / 0x40, 0x80 + c % 0x40]
    else if c < 0x10000 then [0xE0 + c / 0x1000, 0x80 + c / 0x40 % 0x40, 0x80 + c % 0x40]
    else [0xF0 + c / 0x40000, 0x80 + c / 0x1000 % 0x40, 0x80 + c / 0x40 % 0x40, 0x80 + c % 0x40]
  }

  function EncodeAll(cs: seq<int>): Bytes
    requires forall c | c in cs :: IsScalar(c)
  {
    if cs == [] then [] else Encode(cs[0]) + EncodeAll(cs[1..])
  }

  function EncodeEach(cs: seq<int>): (rs: seq<Bytes>)
    requires forall c | c in cs :: IsScalar(c)
    ensures |rs| == |cs|
  {
    if cs == [] then [] else [Encode(cs[0])] + EncodeEach(cs[1..])
  }

  /** A scalar value read back from the bytes that Width accepted. */
  function Decode(s: Bytes): int
    requires s != []
  {
    var lead: int := s[0];
    var w := Width(s);
    if w == 2 then (lead - 0xC0) * 0x40 + Low6(s[1])
    else if w == 3 then (lead - 0xE0) * 0x1000 + Low6(s[1]) * 0x40 + Low6(s[2])
    else if w == 4 then (lead - 0xF0) * 0x40000 + Low6(s[1]) * 0x1000 + Low6(s[2]) * 0x40 + Low6(s[3])
    else lead
  }

  function Low6(b: Byte): int {
    b - 0x80
  }

  lemma WidthOfEncoding(c: int, rest: Bytes)
    requires IsScalar(c)
    ensures Width(Encode(c) + rest) == |Encode(c)|
  {
    var e, s := Encode(c), Encode(c) + rest;
    assert s[0] == e[0] && (|e| > 1 ==> s[1] == e[1]);
    if |e| == 3 {
      assert s[2] == e[2];
      LeadOf3(c);
    } else if |e| == 4 {
      assert s[2] == e[2] && s[3] == e[3];
      LeadOf4(c);
    }
  }

  lemma LeadOf3(c: int)
    requires IsScalar(c) && 0x800 <= c < 0x10000
    ensures Leads3(Encode(c)[0], Encode(c)[1]) && IsTail(Encode(c)[2])
  {
  }

  lemma LeadOf4(c: int)
    requires IsScalar(c) && 0x10000 <= c
    ensures Leads4(Encode(c)[0], Encode(c)[1]) && IsTail(Encode(c)[2]) && IsTail(Encode(c)[3])
  {
  }

  /** The base-64 digits of a code point, and back. */
  lemma Digits(h: int, l: int)
    requires 0 <= l < 0x40
    ensures (h * 0x40 + l) / 0x40 == h && (h * 0x40 + l) % 0x40 == l
    ensures (h * 0x40 + l) / 0x1000 == h / 0x40
    ensures (h * 0x40 + l) / 0x40000 == h / 0x1000
  {
  }

  lemma EncodingOf2(s: Bytes)
    requires |s| >= 2 && Width(s) == 2
    ensures IsScalar(Decode(s)) && Encode(Decode(s)) == [s[0], s[1]]
  {
    Digits(s[0] as int - 0xC0, Low6(s[1]));
  }

  lemma EncodingOf3(s: Bytes)
    requires |s| >= 3 && Width(s) == 3
    ensures IsScalar(Decode(s)) && Encode(Decode(s)) == [s[0], s[1], s[2]]
  {
    var h := s[0] as int - 0xE0;
    Digits(h, Low6(s[1]));
    Digits(h * 0x40 + Low6(s[1]), Low6(s[2]));
  }

  lemma EncodingOf4(s: Bytes)
    requires |s| >= 4 && Width(s) == 4
    ensures IsScalar(Decode(s)) && Encode(Decode(s)) == [s[0], s[1], s[2], s[3]]
  {
    var h := s[0] as int - 0xF0;
    Digits(h, Low6(s[1]));
    Digits(h * 0x40 + Low6(s[1]), Low6(s[2]));
    Digits((h * 0x40 + Low6(s[1])) * 0x40 + Low6(s[2]), Low6(s[3]));
  }

  lemma EncodingOfDecode(s: Bytes)
    requires s != [] && (Width(s) > 1 || s[0] < 0x80)
    ensures IsScalar(Decode(s)) && Encode(Decode(s)) == s[..Width(s)]
  {
    match Width(s) {
      case 2 => EncodingOf2(s);
      case 3 => EncodingOf3(s);
      case 4 => EncodingOf4(s);
      case _ =>
    }
  }

  /** The first rune is the encoding of a scalar value exactly when the byte patterns accept it. */
  lemma WidthMeetsStandard(s: Bytes)
    requires s != []
    ensures (Width(s) > 1 || s[0] < 0x80) <==> exists c :: IsScalar(c) && Encode(c) <= s
  {
    if Width(s) > 1 || s[0] < 0x80 {
      EncodingOfDecode(s);
      assert Encode(Decode(s)) <= s;
    }
    if c :| IsScalar(c) && Encode(c) <= s {
      assert s == Encode(c) + s[|Encode(c)|..];
      WidthOfEncoding(c, s[|Encode(c)|..]);
      assert s[0] == Encode(c)[0];
    }
  }

  lemma {:induction false} SplitOfEncoded(cs: seq<int>)
    requires forall c | c in cs :: IsScalar(c)
    ensures Split(EncodeAll(cs)) == EncodeEach(cs)
  {
    if cs != [] {
      var s := EncodeAll(cs);
      WidthOfEncoding(cs[0], EncodeAll(cs[1..]));
      assert s[..Width(s)] == Encode(cs[0]);
      assert s[Width(s)..] == EncodeAll(cs[1..]);
      SplitOfEncoded(cs[1..]);
    }
  }

  lemma {:induction false} EncodePrefix(cs: seq<int>, n: nat)
    requires forall c | c in cs :: IsScalar(c)
    requires n <= |cs|
    ensures Flatten(EncodeEach(cs)[..n]) + ELLIPSIS == EncodeAll(cs[..n] + [0x2026])
  {
    if n == 0 {
      assert cs[..0] + [0x2026] == [0x2026];
      MarkAlone();
    } else {
      EncodePrefix(cs[1..], n - 1);
      FirstRunes(EncodeEach(cs), n);
      assert cs[1..][..n - 1] == cs[1..n];
      assert (cs[..n] + [0x2026])[1..] == cs[1..n] + [0x2026];
      Regroup(Encode(cs[0]), Flatten(EncodeEach(cs[1..])[..n - 1]), ELLIPSIS);
    }
  }

  lemma MarkAlone()
    ensures EncodeAll([0x2026]) == ELLIPSIS
  {
    assert EncodeAll([0x2026]) == Encode(0x2026) + EncodeAll([]);
  }

  /** On valid text, truncation is truncation of the scalar values: the result is valid again. */
  lemma TruncationKeepsValidText(cs: seq<int>, max: int)
    requires forall c | c in cs :: IsScalar(c)
    requires max >= 1
    ensures Truncated(EncodeAll(cs), max) ==
            if |cs| <= max then EncodeAll(cs) else EncodeAll(cs[..max] + [0x2026])
  {
    SplitOfEncoded(cs);
    if |cs| > max {
      EncodePrefix(cs, max);
    }
  }
}
