/**
 UTF-8 as section 3 of RFC 3629 defines it, and decoding that ignores errors.

 A char is a Unicode scalar value.  Section 4 of the same document gives the
 sequences a decoder must accept.
 */
module Utf8 {

  type Byte = x: int | 0 <= x < 256

  function Bytes(c: char): (s: seq<Byte>)
    ensures 1 <= |s| <= 4
  {
    var n := c as int;
    if n < 0x80 then [n]
    else if n < 0x800 then [0xC0 + n / 64, 0x80 + n % 64]
    else if n < 0x10000 then [0xE0 + n / 4096, 0x80 + n / 64 % 64, 0x80 + n % 64]
    else [0xF0 + n / 262144, 0x80 + n / 4096 % 64, 0x80 + n / 64 % 64, 0x80 + n % 64]
  }

  function Encode(s: string): seq<Byte> {
    if s == "" then [] else Bytes(s[0]) + Encode(s[1..])
  }

  function Size(s: string): nat {
    |Encode(s)|
  }

  predicate IsTail(b: Byte) {
    0x80 <= b < 0xC0
  }

  function Scalar(n: int): (r: seq<char>) {
    if 0 <= n < 0xD800 || 0xE000 <= n < 0x110000 then [n as char] else []
  }

  // The character that the bytes start with, if they start with a valid sequence.
  function First(bs: seq<Byte>): (r: (seq<char>, nat))
    requires bs != []
    ensures r.0 != [] ==> 1 <= r.1 <= |bs|
  {
    if bs[0] < 0x80 then ([bs[0] as char], 1)
    else if 0xC2 <= bs[0] < 0xE0 && |bs| >= 2 && IsTail(bs[1]) then
      (Scalar((bs[0] as int - 0xC0) * 64 + (bs[1] as int - 0x80)), 2)
    else if 0xE0 <= bs[0] < 0xF0 && |bs| >= 3 && IsTail(bs[1]) && IsTail(bs[2]) then
      var n := (bs[0] as int - 0xE0) * 4096 + (bs[1] as int - 0x80) * 64 + (bs[2] as int - 0x80);
      (if n < 0x800 then [] else Scalar(n), 3)
    else if 0xF0 <= bs[0] < 0xF5 && |bs| >= 4 && IsTail(bs[1]) && IsTail(bs[2]) && IsTail(bs[3]) then
      var n := (bs[0] as int - 0xF0) * 262144 + (bs[1] as int - 0x80) * 4096 + (bs[2] as int - 0x80) * 64 + (bs[3] as int - 0x80);
      (if n < 0x10000 then [] else Scalar(n), 4)
    else ([], 0)
  }

  // A byte that starts no valid sequence is dropped.
  function DecodeIgnoring(bs: seq<Byte>): string {
    if bs == [] then ""
    else
      var (c, k) := First(bs);
      if c != [] then c + DecodeIgnoring(bs[k..]) else DecodeIgnoring(bs[1..])
  }

  lemma First1(c: char, rest: seq<Byte>)
    requires c as int < 0x80
    ensures First(Bytes(c) + rest) == ([c], 1)
  {
  }

  lemma First2(c: char, rest: seq<Byte>)
    requires 0x80 <= c as int < 0x800
    ensures First(Bytes(c) + rest) == ([c], 2)
  {
    var n := c as int;
    assert n == n / 64 * 64 + n % 64;
  }

  lemma First3(c: char, rest: seq<Byte>)
    requires 0x800 <= c as int < 0x10000
    ensures First(Bytes(c) + rest) == ([c], 3)
  {
    var n := c as int;
    assert n == n / 4096 * 4096 + n / 64 % 64 * 64 + n % 64;
  }

  lemma Digits(n: nat)
    ensures n == n / 262144 * 262144 + n / 4096 % 64 * 4096 + n / 64 % 64 * 64 + n % 64
  {
    Digit(n, 1);
    Digit(n, 64);
    Digit(n, 4096);
  }

  lemma Digit(n: nat, unit: nat)
    requires unit == 1 || unit == 64 || unit == 4096
    ensures n / unit == n / (64 * unit) * 64 + n / unit % 64
  {
  }

  lemma Four(c: char, rest: seq<Byte>)
    requires 0x10000 <= c as int
    ensures var bs, n := Bytes(c) + rest, c as int;
            && |bs| == 4 + |rest| && bs[0] == 0xF0 + n / 262144 && bs[1] == 0x80 + n / 4096 % 64
            && bs[2] == 0x80 + n / 64 % 64 && bs[3] == 0x80 + n % 64 && 0xF0 <= bs[0] < 0xF5
  {
  }

  lemma First4(c: char, rest: seq<Byte>)
    requires 0x10000 <= c as int
    ensures First(Bytes(c) + rest) == ([c], 4)
  {
    Digits(c as int);
    Four(c, rest);
  }

  lemma FirstOf(c: char, rest: seq<Byte>)
    ensures First(Bytes(c) + rest) == ([c], |Bytes(c)|)
  {
    if c as int < 0x80 {
      First1(c, rest);
    } else if c as int < 0x800 {
      First2(c, rest);
    } else if c as int < 0x10000 {
      First3(c, rest);
    } else {
      First4(c, rest);
    }
  }

  lemma Split(n: nat, high: nat, low: nat)
    requires n == high * 64 + low && low < 64
    ensures n / 64 == high && n % 64 == low
  {
  }

  lemma Only2(bs: seq<Byte>, c: char)
    requires |bs| >= 2 && 0xC0 <= bs[0] && First(bs) == ([c], 2)
    ensures Bytes(c) == bs[..2]
  {
    Split(c as int, bs[0] - 0xC0, bs[1] - 0x80);
  }

  lemma Only3(bs: seq<Byte>, c: char)
    requires |bs| >= 3 && 0xE0 <= bs[0] && First(bs) == ([c], 3)
    ensures Bytes(c) == bs[..3]
  {
    var high: nat := (bs[0] as int - 0xE0) * 64 + (bs[1] - 0x80);
    Split(c as int, high, bs[2] - 0x80);
    Split(high, bs[0] - 0xE0, bs[1] - 0x80);
    assert c as int / 4096 == c as int / 64 / 64;
  }

  lemma Only4(bs: seq<Byte>, c: char)
    requires |bs| >= 4 && 0xF0 <= bs[0] && First(bs) == ([c], 4)
    ensures Bytes(c) == bs[..4]
  {
    var n := c as int;
    var top: nat := (bs[0] as int - 0xF0) * 64 + (bs[1] - 0x80);
    var high: nat := top * 64 + (bs[2] - 0x80);
    Split(n, high, bs[3] - 0x80);
    Split(high, top, bs[2] - 0x80);
    Split(top, bs[0] - 0xF0, bs[1] - 0x80);
    assert n / 4096 == n / 64 / 64;
    assert n / 262144 == n / 4096 / 64;
  }

  // A byte sequence is accepted exactly when it starts with the bytes of a character,
  // which is then the one that is read.
  lemma AcceptedIff(bs: seq<Byte>)
    requires bs != []
    ensures First(bs).0 != [] <==> exists c :: Bytes(c) <= bs
    ensures forall c :: Bytes(c) <= bs ==> First(bs) == ([c], |Bytes(c)|)
  {
    forall c | Bytes(c) <= bs ensures First(bs) == ([c], |Bytes(c)|) {
      assert bs == Bytes(c) + bs[|Bytes(c)|..];
      FirstOf(c, bs[|Bytes(c)|..]);
    }
    if First(bs).0 != [] {
      var c := First(bs).0[0];
      if First(bs).1 == 2 {
        Only2(bs, c);
      } else if First(bs).1 == 3 {
        Only3(bs, c);
      } else if First(bs).1 == 4 {
        Only4(bs, c);
      }
      assert Bytes(c) <= bs;
    }
  }

  // Decoding undoes encoding.
  lemma {:induction false} RoundTrip(s: string)
    ensures DecodeIgnoring(Encode(s)) == s
  {
    if s != "" {
      FirstOf(s[0], Encode(s[1..]));
      RoundTrip(s[1..]);
      assert Encode(s)[|Bytes(s[0])|..] == Encode(s[1..]);
    }
  }

  lemma EncodeStep(c: char, a: string, b: string)
    requires Encode(a + b) == Encode(a) + Encode(b)
    ensures Encode([c] + (a + b)) == Encode([c] + a) + Encode(b)
  {
    EncodeCons(c, a + b);
    EncodeCons(c, a);
    Regroup(Bytes(c), Encode(a), Encode(b));
  }

  lemma Regroup(a: seq<Byte>, b: seq<Byte>, c: seq<Byte>)
    ensures a + (b + c) == (a + b) + c
  {
  }

  lemma {:induction false} EncodeConcat(a: string, b: string)
    ensures Encode(a + b) == Encode(a) + Encode(b) && Size(a + b) == Size(a) + Size(b)
  {
    if a == "" {
      assert a + b == b;
    } else {
      EncodeConcat(a[1..], b);
      EncodeStep(a[0], a[1..], b);
      assert a + b == [a[0]] + (a[1..] + b) && a == [a[0]] + a[1..];
    }
  }

  lemma EncodeCons(c: char, s: string)
    ensures Encode([c] + s) == Bytes(c) + Encode(s)
  {
    assert ([c] + s)[1..] == s;
  }

  lemma TailsOf(c: char, k: nat)
    requires 0 < k < |Bytes(c)|
    ensures IsTail(Bytes(c)[k])
  {
  }

  lemma {:induction false} SkipTails(tails: seq<Byte>, rest: seq<Byte>)
    requires forall k :: 0 <= k < |tails| ==> IsTail(tails[k])
    ensures DecodeIgnoring(tails + rest) == DecodeIgnoring(rest)
  {
    if tails == [] {
      assert tails + rest == rest;
    } else {
      SkipTails(tails[1..], rest);
      assert (tails + rest)[1..] == tails[1..] + rest;
    }
  }

  // The longest suffix of a text whose encoding fits.
  function Fitting(s: string, budget: nat): string {
    if Size(s) <= budget then s else Fitting(s[1..], budget)
  }

  lemma {:induction false} FittingIsLongest(s: string, budget: nat, k: nat)
    requires k <= |s| && Size(s[k..]) <= budget
    ensures Size(Fitting(s, budget)) <= budget && |s[k..]| <= |Fitting(s, budget)| <= |s|
    ensures Fitting(s, budget) == s[|s| - |Fitting(s, budget)|..]
    decreases |s|
  {
    if Size(s) > budget {
      assert k > 0 by {
        assert s[0..] == s;
      }
      assert s[1..][k - 1..] == s[k..];
      FittingIsLongest(s[1..], budget, k - 1);
      var f := Fitting(s[1..], budget);
      assert s[1..][|s| - 1 - |f|..] == s[|s| - |f|..];
    }
  }

  function LastBytes(bs: seq<Byte>, n: nat): seq<Byte> {
    if |bs| <= n then bs else bs[|bs| - n..]
  }

  lemma TailsFrom(c: char, k: nat)
    requires 0 < k <= |Bytes(c)|
    ensures forall i :: 0 <= i < |Bytes(c)[k..]| ==> IsTail(Bytes(c)[k..][i])
  {
    forall i | 0 <= i < |Bytes(c)[k..]| ensures IsTail(Bytes(c)[k..][i]) {
      TailsOf(c, k + i);
    }
  }

  lemma LastOfTwo(head: seq<Byte>, rest: seq<Byte>, budget: nat)
    requires |rest| < budget < |head| + |rest|
    ensures LastBytes(head + rest, budget) == head[|head| + |rest| - budget..] + rest
  {
  }

  lemma CutInside(c: char, rest: seq<Byte>, budget: nat)
    requires |rest| < budget < |Bytes(c)| + |rest|
    ensures DecodeIgnoring(LastBytes(Bytes(c) + rest, budget)) == DecodeIgnoring(rest)
  {
    var k := |Bytes(c)| + |rest| - budget;
    LastOfTwo(Bytes(c), rest, budget);
    TailsFrom(c, k);
    SkipTails(Bytes(c)[k..], rest);
  }

  lemma CutAfter(head: seq<Byte>, rest: seq<Byte>, budget: nat)
    requires budget <= |rest| && head != []
    ensures LastBytes(head + rest, budget) == LastBytes(rest, budget)
  {
  }

  // Decoding the last bytes of a text gives the longest suffix of it that fits: only
  // the remains of a character that was cut are dropped.
  lemma {:induction false} TailIsLongestSuffix(s: string, budget: nat)
    ensures DecodeIgnoring(LastBytes(Encode(s), budget)) == Fitting(s, budget)
  {
    if Size(s) <= budget {
      RoundTrip(s);
    } else {
      var rest := Encode(s[1..]);
      TailIsLongestSuffix(s[1..], budget);
      if |rest| < budget {
        CutInside(s[0], rest, budget);
      } else {
        CutAfter(Bytes(s[0]), rest, budget);
      }
    }
  }
}
