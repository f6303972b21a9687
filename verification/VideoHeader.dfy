/**
 The 8-byte header of a video stream: the letters "jsmp" and two sizes, each the
 minimal big-endian digits of the number, copied to the front of its place.
 */
module VideoHeader {
  newtype byte = x: int | 0 <= x < 256

  /** The bytes of a number, most significant first and without leading zeros. */
  function Digits(n: nat): (ds: seq<byte>)
    ensures ds == [] <==> n == 0
  {
    if n == 0 then [] else Digits(n / 256) + [(n % 256) as byte]
  }

  function Abs(x: int): nat {
    if x < 0 then -x else x
  }

  /** `src` copied over `buf` from `at` on, as far as there is room. */
  function Overlay(buf: seq<byte>, at: nat, src: seq<byte>): seq<byte> {
    seq(|buf|, i requires 0 <= i < |buf| => if at <= i < at + |src| then src[i - at] else buf[i])
  }

  const TAG: seq<byte> := [0x6a, 0x73, 0x6d, 0x70]

  function Header(w: int, h: int): seq<byte> {
    Overlay(Overlay(TAG + [0, 0, 0, 0], 4, Digits(Abs(w))), 6, Digits(Abs(h)))
  }

  method CopyInto(buf: array<byte>, at: nat, src: seq<byte>)
    requires at <= buf.Length
    modifies buf
    ensures buf[..] == Overlay(old(buf[..]), at, src)
  {
    var n := if |src| < buf.Length - at then |src| else buf.Length - at;
    for i := 0 to n
      invariant forall j | 0 <= j < buf.Length ::
                  buf[j] == if at <= j < at + i then src[j - at] else old(buf[j])
    {
      buf[at + i] := src[i];
    }
  }

  method MakeMagicBytes(w: int, h: int) returns (buf: array<byte>)
    ensures fresh(buf) && buf[..] == Header(w, h)
  {
    buf := new byte[8](_ => 0);
    buf[0] := 0x6a;
    buf[1] := 0x73;
    buf[2] := 0x6d;
    buf[3] := 0x70;
    assert buf[..] == TAG + [0, 0, 0, 0];
    CopyInto(buf, 4, Digits(Abs(w)));
    CopyInto(buf, 6, Digits(Abs(h)));
  }

  /** How a player reads a size. */
  function Read16(buf: seq<byte>, at: nat): int
    requires at + 1 < |buf|
  {
    buf[at] as int * 256 + buf[at + 1] as int
  }

  /** The sizes that the header can carry. */
  predicate Fits(n: int) {
    n == 0 || 256 <= n <= 65535
  }

  function Value(ds: seq<byte>): nat {
    if ds == [] then 0 else Value(ds[..|ds| - 1]) * 256 + ds[|ds| - 1] as int
  }

  /** The digits stand for the number, and there are no fewer that do. */
  lemma {:induction false} DigitsAreMinimal(n: nat)
    ensures Value(Digits(n)) == n
    ensures n > 0 ==> Digits(n)[0] != 0
  {
    if n > 0 {
      DigitsAreMinimal(n / 256);
      var front, last := Digits(n / 256), (n % 256) as byte;
      assert (front + [last])[..|front|] == front;
    }
  }

  lemma DigitsOfByte(n: nat)
    requires 0 < n < 256
    ensures Digits(n) == [n as byte]
  {
    assert Digits(n / 256) == [];
  }

  lemma DigitsOfWord(n: nat)
    requires 256 <= n <= 65535
    ensures Digits(n) == [(n / 256) as byte, (n % 256) as byte]
  {
    DigitsOfByte(n / 256);
  }

  lemma {:induction false} DigitsOfMore(n: nat)
    requires 65536 <= n
    ensures |Digits(n)| >= 3
  {
    if n / 256 < 65536 {
      DigitsOfWord(n / 256);
    } else {
      DigitsOfMore(n / 256);
    }
  }

  /** Two zero bytes, overlaid with a number and read back, give the number exactly when it fits. */
  lemma PlaceRoundTrip(buf: seq<byte>, at: nat, n: int)
    requires at + 1 < |buf| && buf[at] == 0 && buf[at + 1] == 0
    ensures Read16(Overlay(buf, at, Digits(Abs(n))), at) == n <==> Fits(n)
  {
    if 0 < Abs(n) < 256 {
      DigitsOfByte(Abs(n));
    } else if 256 <= Abs(n) <= 65535 {
      DigitsOfWord(Abs(n));
    } else if Abs(n) > 65535 {
      DigitsOfMore(Abs(n));
    }
  }

  lemma FitsIsShort(n: int)
    requires Fits(n)
    ensures |Digits(Abs(n))| <= 2
  {
    if n != 0 {
      DigitsOfWord(n);
    }
  }

  /** For all sizes, negative ones included: reading the header back gives the sizes it was made
      from if and only if each of them is 0 or between 256 and 65535. */
  lemma HeaderRoundTrip(w: int, h: int)
    ensures |Header(w, h)| == 8 && Header(w, h)[..4] == [0x6a, 0x73, 0x6d, 0x70]
    ensures Read16(Header(w, h), 4) == w && Read16(Header(w, h), 6) == h <==> Fits(w) && Fits(h)
  {
    var blank := TAG + [0, 0, 0, 0];
    var wide := Overlay(blank, 4, Digits(Abs(w)));
    PlaceRoundTrip(blank, 4, w);
    assert Read16(Header(w, h), 4) == Read16(wide, 4);
    if Fits(w) {
      FitsIsShort(w);
      PlaceRoundTrip(wide, 6, h);
    }
  }
}
