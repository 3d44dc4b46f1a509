/** The bytes of a text and what reading a line back makes of a prefix of them (`BufRead::lines`). */
module Utf8 {
  newtype Byte = x: int | 0 <= x < 256 witness 0

  function Cont(n: nat): Byte {
    (0x80 + n % 64) as Byte
  }

  function EncodeChar(c: char): (b: seq<Byte>)
    ensures 1 <= |b| <= 4
    ensures |b| == 1 <==> c as int < 0x80
  {
    var n := c as int;
    if n < 0x80 then [n as Byte]
    else if n < 0x800 then [(0xC0 + n / 64) as Byte, Cont(n)]
    else if n < 0x1_0000 then [(0xE0 + n / 4096) as Byte, Cont(n / 64), Cont(n)]
    else [(0xF0 + n / 262144) as Byte, Cont(n / 4096), Cont(n / 64), Cont(n)]
  }

  function Encode(s: string): seq<Byte> {
    if s == "" then [] else EncodeChar(s[0]) + Encode(s[1..])
  }

  predicate IsCont(b: Byte) {
    0x80 <= b < 0xC0
  }

  /** The number of bytes the lead byte announces, 0 if no character starts with it. */
  function Announced(lead: Byte): nat {
    if lead < 0x80 then 1
    else if lead < 0xC2 then 0
    else if lead < 0xE0 then 2
    else if lead < 0xF0 then 3
    else if lead < 0xF5 then 4
    else 0
  }

  /** Overlong forms, surrogates and numbers above 0x10FFFF are ruled out by the second byte. */
  predicate SecondFits(lead: Byte, second: Byte) {
    && IsCont(second)
    && (lead == 0xE0 ==> second >= 0xA0)
    && (lead == 0xED ==> second < 0xA0)
    && (lead == 0xF0 ==> second >= 0x90)
    && (lead == 0xF4 ==> second < 0x90)
  }

  /** The bytes are well-formed; a line that is not makes the whole read fail. */
  predicate Valid(b: seq<Byte>) {
    b == [] ||
    var n := Announced(b[0]);
    && 1 <= n <= |b|
    && (n >= 2 ==> SecondFits(b[0], b[1]))
    && (forall i :: 2 <= i < n ==> IsCont(b[i]))
    && Valid(b[n..])
  }

  /** After `k` bytes the text stands between two characters. */
  predicate AtBoundary(s: string, k: nat) {
    k == 0 ||
    (&& s != "" && |EncodeChar(s[0])| <= k
     && AtBoundary(s[1..], k - |EncodeChar(s[0])|))
  }

  /** The bytes form one character: a lead, a second byte that fits it, and further continuation bytes. */
  predicate OneChar(b: seq<Byte>) {
    && b != [] && Announced(b[0]) == |b|
    && (|b| >= 2 ==> SecondFits(b[0], b[1]))
    && forall i :: 2 <= i < |b| ==> IsCont(b[i])
  }

  lemma TwoBytes(n: nat)
    requires 0x80 <= n < 0x800
    ensures OneChar([(0xC0 + n / 64) as Byte, Cont(n)])
  {
    assert 2 <= n / 64 < 0x20;
  }

  lemma ThreeBytes(n: nat)
    requires 0x800 <= n < 0xD800 || 0xE000 <= n < 0x1_0000
    ensures OneChar([(0xE0 + n / 4096) as Byte, Cont(n / 64), Cont(n)])
  {
    var high := n / 4096;
    assert n / 64 == 64 * high + n / 64 % 64;
    assert high < 0x10;
  }

  lemma FourBytes(n: nat)
    requires 0x1_0000 <= n < 0x11_0000
    ensures OneChar([(0xF0 + n / 262144) as Byte, Cont(n / 4096), Cont(n / 64), Cont(n)])
  {
    var high := n / 262144;
    assert n / 4096 == 64 * high + n / 4096 % 64;
    assert high <= 4;
  }

  lemma CharValid(c: char)
    ensures OneChar(EncodeChar(c))
  {
    var n := c as int;
    if n >= 0x1_0000 {
      FourBytes(n);
    } else if n >= 0x800 {
      ThreeBytes(n);
    } else if n >= 0x80 {
      TwoBytes(n);
    }
  }

  lemma TakeBeyond(b: seq<Byte>, rest: seq<Byte>, k: nat)
    requires |b| <= k <= |b| + |rest|
    ensures (b + rest)[..k][..|b|] == b && (b + rest)[..k][|b|..] == rest[..k - |b|]
  {
  }

  /** A prefix of the bytes of a text reads back if and only if it does not end inside a character. */
  lemma {:induction false} PrefixValid(s: string, k: nat)
    requires k <= |Encode(s)|
    ensures Valid(Encode(s)[..k]) <==> AtBoundary(s, k)
  {
    if k > 0 {
      var b := EncodeChar(s[0]);
      var p := Encode(s)[..k];
      CharValid(s[0]);
      assert p[0] == b[0];
      if |b| <= k {
        TakeBeyond(b, Encode(s[1..]), k);
        assert forall i :: 0 <= i < |b| ==> p[i] == b[i];
        PrefixValid(s[1..], k - |b|);
      }
    }
  }

  lemma {:induction false} EncodeValid(s: string)
    ensures Valid(Encode(s)) && AtBoundary(s, |Encode(s)|)
  {
    if s != "" {
      var b := EncodeChar(s[0]);
      CharValid(s[0]);
      assert Encode(s)[..|b|] == b && Encode(s)[|b|..] == Encode(s[1..]);
      assert forall i :: 0 <= i < |b| ==> Encode(s)[i] == b[i];
      EncodeValid(s[1..]);
    }
  }

  /** Every position of a text is between two characters if and only if all its characters take one byte. */
  lemma {:induction false} AsciiBoundary(s: string, k: nat)
    requires k <= |Encode(s)| && forall c :: c in s ==> c as int < 0x80
    ensures AtBoundary(s, k)
  {
    if k > 0 {
      assert s[0] in s;
      assert |EncodeChar(s[0])| == 1;
      assert forall c :: c in s[1..] ==> c in s;
      AsciiBoundary(s[1..], k - 1);
    }
  }

  lemma {:induction false} InsideChar(s: string, c: char) returns (k: nat)
    requires c in s && c as int >= 0x80
    ensures 0 < k < |Encode(s)| && !AtBoundary(s, k) && !Valid(Encode(s)[..k])
  {
    var first := |EncodeChar(s[0])|;
    assert |Encode(s)| == first + |Encode(s[1..])|;
    if s[0] == c {
      k := 1;
    } else {
      assert c in s[1..];
      var rest := InsideChar(s[1..], c);
      k := rest + first;
    }
    PrefixValid(s, k);
  }
}
