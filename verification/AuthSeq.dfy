/** Sequence numbers of authentication: a counter in the low bits, a hash-and-time stamp above it. Shifts on
    fixed-width words are multiplications that wrap; joining parts that share no bit is addition. */
module AuthSeq {
  const TWO64 := 0x1_0000_0000_0000_0000
  const TWO63 := 0x8000_0000_0000_0000
  const TWO40 := 0x100_0000_0000
  const TWO32 := 0x1_0000_0000
  const TWO31 := 0x8000_0000
  const TWO25 := 0x200_0000
  const TWO24 := 0x100_0000
  const SEQ_INTERVAL := 2
  const SEQ_INTEGER_MAX := 0xFF_FFFF
  const AUTH_ID_SEQ_INTEGER_MAX := 0x7F

  /** Calls between two refreshes. */
  const EPOCH := 0x80_0000
  const AUTH_ID_EPOCH := 127

  type Byte = x: int | 0 <= x < 256
  type Hash = s: seq<Byte> | |s| == 32 witness seq(32, _ => 0)

  /** What asking for a new stamp gives: no network id or no hash, or the hash and the clock. */
  datatype Refresh = Failed | Fresh(hash: Hash, time: nat)

  datatype Gen = Gen(uniqueId: nat, counter: nat)

  datatype Call = Call(isServer: bool, refresh: Refresh)

  /** Append bytes at the low end of a word of modulus `m`. */
  function Absorb(u: nat, bytes: seq<Byte>, m: nat): nat
    requires m > 0
  {
    if bytes == [] then u
    else Absorb(u, bytes[..|bytes| - 1], m) * 256 % m + bytes[|bytes| - 1]
  }

  function StampBytes(f: Refresh, n: nat): (s: seq<Byte>)
    requires f.Fresh? && n <= 32
    ensures |s| == n + 1
  {
    f.hash[..n] + [f.time % 256]
  }

  /** A stamp as a number: hash bytes first, time stamp last. */
  function BigEndian(bytes: seq<Byte>): nat {
    if bytes == [] then 0 else BigEndian(bytes[..|bytes| - 1]) * 256 + bytes[|bytes| - 1]
  }

  // ---------- GenSeq ----------

  function Next(g: Gen, f: Refresh): Gen {
    var c := if g.counter >= SEQ_INTEGER_MAX then 0 else g.counter;
    var u := if c == 0 && f.Fresh? then Absorb(g.uniqueId, StampBytes(f, 4), TWO64) else g.uniqueId;
    Gen(u, c + SEQ_INTERVAL)
  }

  function Value(g: Gen, isServer: bool): nat {
    g.uniqueId * TWO24 % TWO64 + (if isServer then g.counter + 1 else g.counter) % TWO24
  }

  /** A uint64 returned as int64. */
  function Signed(x: nat): int {
    if x < TWO63 then x else x - TWO64
  }

  function After(calls: seq<Call>, k: nat): Gen
    requires k <= |calls|
  {
    if k == 0 then Gen(0, 0) else Next(After(calls, k - 1), calls[k - 1].refresh)
  }

  /** What call number `k` returns. */
  function Out(calls: seq<Call>, k: nat): int
    requires k < |calls|
  {
    Signed(Value(After(calls, k + 1), calls[k].isServer))
  }

  /** The stamp of the latest refresh that succeeded, among those that call numbers 0, EPOCH, 2 * EPOCH, ...
      ask for. */
  function LatestStamp(calls: seq<Call>, k: nat): nat
    requires k <= |calls|
  {
    if k == 0 then 0
    else if (k - 1) % EPOCH == 0 && calls[k - 1].refresh.Fresh? then BigEndian(StampBytes(calls[k - 1].refresh, 4))
    else LatestStamp(calls, k - 1)
  }

  // ---------- words ----------

  /** The remainder is unique. */
  lemma ModIs(x: int, m: int, q: int, r: int)
    requires 0 <= r < m && x == q * m + r
    ensures x % m == r && x / m == q
  {
    var d := x / m - q;
    assert d * m == r - x % m;
    Multiples(d, m);
  }

  lemma Multiples(d: int, m: int)
    requires m > 0
    ensures d >= 1 ==> d * m >= m
    ensures d <= -1 ==> d * m <= -m
  {
  }

  lemma Shift64(x: nat)
    ensures x * 256 % TWO64 == x % 0x100_0000_0000_0000 * 256
  {
    ModIs(x * 256, TWO64, x / 0x100_0000_0000_0000, x % 0x100_0000_0000_0000 * 256);
  }

  lemma Shift32(x: nat)
    ensures x * 256 % TWO32 == x % TWO24 * 256
  {
    ModIs(x * 256, TWO32, x / TWO24, x % TWO24 * 256);
  }

  /** The low part of a low part. */
  lemma ModMod(x: nat, m: nat, c: nat)
    requires m > 0 && c > 0
    ensures x % (c * m) % m == x % m
  {
    var n := c * m;
    var y := x % n;
    assert x == x / n * n + y;
    assert x / n * n == (x / n * c) * m by {
      assert x / n * (c * m) == (x / n * c) * m;
    }
    ModIs(x, m, x / n * c + y / m, y % m);
  }

  lemma Keep64(x: nat)
    ensures x % 0x100_0000_0000_0000 % 0x100 == x % 0x100
    ensures x % 0x100_0000_0000_0000 % 0x1_0000 == x % 0x1_0000
    ensures x % 0x100_0000_0000_0000 % TWO24 == x % TWO24
    ensures x % 0x100_0000_0000_0000 % TWO32 == x % TWO32
  {
    ModMod(x, 0x100, 0x1_0000_0000_0000);
    ModMod(x, 0x1_0000, 0x100_0000_0000);
    ModMod(x, TWO24, 0x1_0000_0000);
    ModMod(x, TWO32, 0x100_0000);
  }

  lemma Keep32(x: nat)
    ensures x % TWO24 % 2 == x % 2
    ensures x % TWO24 % 0x200 == x % 0x200
    ensures x % TWO24 % 0x2_0000 == x % 0x2_0000
  {
    ModMod(x, 2, 0x80_0000);
    ModMod(x, 0x200, 0x8000);
    ModMod(x, 0x2_0000, 0x80);
  }

  /** Appending a byte to a number appends it to the low part. */
  lemma Append(y: nat, b: Byte, m: nat)
    requires m > 0
    ensures (y * 256 + b) % (m * 256) == y % m * 256 + b
  {
    assert y == y / m * m + y % m;
    assert y * 256 + b == y / m * (m * 256) + (y % m * 256 + b);
    ModIs(y * 256 + b, m * 256, y / m, y % m * 256 + b);
  }

  lemma AbsorbOne(u: nat, bytes: seq<Byte>, b: Byte, m: nat)
    requires m > 0
    ensures Absorb(u, bytes + [b], m) == Absorb(u, bytes, m) * 256 % m + b
    ensures BigEndian(bytes + [b]) == BigEndian(bytes) * 256 + b
  {
    assert (bytes + [b])[..|bytes|] == bytes;
  }

  lemma Push64(x: nat, b: Byte)
    ensures var y := x * 256 % TWO64 + b;
            && y < TWO64 && y % 0x100 == b
            && y % 0x1_0000 == x % 0x100 * 256 + b
            && y % TWO24 == x % 0x1_0000 * 256 + b
            && y % TWO32 == x % TWO24 * 256 + b
            && y % TWO40 == x % TWO32 * 256 + b
  {
    var z := x % 0x100_0000_0000_0000;
    Shift64(x);
    Keep64(x);
    Append(z, b, 1);
    Append(z, b, 0x100);
    Append(z, b, 0x1_0000);
    Append(z, b, TWO24);
    Append(z, b, TWO32);
  }

  lemma Push32(x: nat, b: Byte)
    ensures var y := x * 256 % TWO32 + b;
            && y < TWO32
            && y % 0x200 == x % 2 * 256 + b
            && y % 0x2_0000 == x % 0x200 * 256 + b
            && y % TWO25 == x % 0x2_0000 * 256 + b
  {
    var z := x % TWO24;
    Shift32(x);
    Keep32(x);
    Append(z, b, 2);
    Append(z, b, 0x200);
    Append(z, b, 0x2_0000);
  }

  function Push(u: nat, b: Byte): nat {
    u * 256 % TWO64 + b
  }

  lemma PushFour(u: nat, a: Byte, b: Byte, c: Byte, d: Byte)
    ensures Push(Push(Push(Push(u, a), b), c), d) % TWO32 == ((a * 256 + b) * 256 + c) * 256 + d
  {
    var u1 := Push(u, a);
    var u2 := Push(u1, b);
    var u3 := Push(u2, c);
    assert u1 % 0x100 == a by { Push64(u, a); }
    assert u2 % 0x1_0000 == a * 256 + b by { Push64(u1, b); }
    assert u3 % TWO24 == (a * 256 + b) * 256 + c by { Push64(u2, c); }
    Push64(u3, d);
  }

  lemma AbsorbThree(u: nat, a: Byte, b: Byte, c: Byte, m: nat)
    requires m > 0
    ensures Absorb(u, [a, b, c], m) == ((u * 256 % m + a) * 256 % m + b) * 256 % m + c
    ensures BigEndian([a, b, c]) == (a * 256 + b) * 256 + c
  {
    AbsorbOne(u, [], a, m);
    AbsorbOne(u, [a], b, m);
    AbsorbOne(u, [a, b], c, m);
    assert [] + [a] == [a] && [a] + [b] == [a, b] && [a, b] + [c] == [a, b, c];
  }

  /** Five bytes push everything older out of the low 40 bits. */
  lemma AbsorbFive(u: nat, a: Byte, b: Byte, c: Byte, d: Byte, e: Byte)
    requires u < TWO64
    ensures var x := Absorb(u, [a, b, c] + [d] + [e], TWO64);
            x < TWO64 && x % TWO40 == BigEndian([a, b, c] + [d] + [e])
  {
    hide Absorb, BigEndian;
    AbsorbThree(u, a, b, c, TWO64);
    AbsorbOne(u, [a, b, c], d, TWO64);
    AbsorbOne(u, [a, b, c] + [d], e, TWO64);
    PushFour(u, a, b, c, d);
    Push64(Push(Push(Push(Push(u, a), b), c), d), e);
  }

  lemma AbsorbStamp(u: nat, f: Refresh)
    requires f.Fresh? && u < TWO64
    ensures var x := Absorb(u, StampBytes(f, 4), TWO64);
            x < TWO64 && x % TWO40 == BigEndian(StampBytes(f, 4))
  {
    hide Absorb, BigEndian;
    var h := f.hash;
    assert StampBytes(f, 4) == [h[0], h[1], h[2]] + [h[3]] + [f.time % 256];
    AbsorbFive(u, h[0], h[1], h[2], h[3], f.time % 256);
  }

  // ---------- GenSeq over whole runs ----------

  lemma {:induction false} CounterAfter(calls: seq<Call>, k: nat)
    requires 0 < k <= |calls|
    ensures After(calls, k).counter == 2 * ((k - 1) % EPOCH + 1)
  {
    if k > 1 {
      CounterAfter(calls, k - 1);
      assert (k - 1) % EPOCH == if (k - 2) % EPOCH == EPOCH - 1 then 0 else (k - 2) % EPOCH + 1;
    }
  }

  lemma {:induction false} StampAfter(calls: seq<Call>, k: nat)
    requires k <= |calls|
    ensures After(calls, k).uniqueId < TWO64
    ensures After(calls, k).uniqueId % TWO40 == LatestStamp(calls, k)
  {
    if k > 0 {
      hide Absorb, BigEndian;
      StampAfter(calls, k - 1);
      var g, f := After(calls, k - 1), calls[k - 1].refresh;
      if k > 1 {
        CounterAfter(calls, k - 1);
        assert (k - 1) % EPOCH == if (k - 2) % EPOCH == EPOCH - 1 then 0 else (k - 2) % EPOCH + 1;
      }
      assert (k - 1) % EPOCH == 0 <==> g.counter == 0 || g.counter >= SEQ_INTEGER_MAX;
      if f.Fresh? {
        AbsorbStamp(g.uniqueId, f);
      }
    }
  }

  /** The 24 low bits of call number `k`: twice its place in the epoch, counted from one, plus the side. */
  function Low24(calls: seq<Call>, k: nat): nat
    requires k < |calls|
  {
    (2 * (k % EPOCH + 1) + (if calls[k].isServer then 1 else 0)) % TWO24
  }

  /** The layout of every value ever returned. */
  lemma SeqLayout(calls: seq<Call>, k: nat)
    requires k < |calls|
    ensures Out(calls, k) == Signed(LatestStamp(calls, k + 1) * TWO24 + Low24(calls, k))
    ensures LatestStamp(calls, k + 1) < TWO40
  {
    hide Absorb, BigEndian, LatestStamp, After;
    CounterAfter(calls, k + 1);
    StampAfter(calls, k + 1);
    var u := After(calls, k + 1).uniqueId;
    ModIs(u * TWO24, TWO64, u / TWO40, u % TWO40 * TWO24);
  }

  /** Read as an int64: the stamp shifted by 24 bits and the low part, less 2^64 if the top bit is set. */
  lemma SeqIsInt64(calls: seq<Call>, k: nat)
    requires k < |calls|
    ensures var v := LatestStamp(calls, k + 1) * 0x100_0000 + Low24(calls, k);
            && Out(calls, k) == (if v < 0x8000_0000_0000_0000 then v else v - 0x1_0000_0000_0000_0000)
            && -0x8000_0000_0000_0000 <= Out(calls, k) < 0x8000_0000_0000_0000
  {
    hide Out, LatestStamp;
    SeqLayout(calls, k);
    LowBound(calls, k);
  }

  lemma LowDistinct(calls: seq<Call>, i: nat, j: nat)
    requires i < |calls| && j < |calls|
    ensures Low24(calls, i) == Low24(calls, j) <==> i % EPOCH == j % EPOCH && calls[i].isServer == calls[j].isServer
  {
    var a, b := i % EPOCH, j % EPOCH;
    assert Low24(calls, i) == (if a == EPOCH - 1 then 0 else 2 * (a + 1)) + (if calls[i].isServer then 1 else 0);
    assert Low24(calls, j) == (if b == EPOCH - 1 then 0 else 2 * (b + 1)) + (if calls[j].isServer then 1 else 0);
  }

  lemma SignedJoin(s: nat, t: nat, x: nat, y: nat)
    requires s < TWO40 && t < TWO40 && x < TWO24 && y < TWO24
    ensures Signed(s * TWO24 + x) == Signed(t * TWO24 + y) <==> s == t && x == y
  {
  }

  /** Exactly when two calls return the same value: same place in the epoch, same side, same stamp. */
  lemma SeqEqualIff(calls: seq<Call>, i: nat, j: nat)
    requires i < |calls| && j < |calls|
    ensures Out(calls, i) == Out(calls, j) <==>
              && LatestStamp(calls, i + 1) == LatestStamp(calls, j + 1)
              && i % EPOCH == j % EPOCH && calls[i].isServer == calls[j].isServer
  {
    hide Out, LatestStamp, Low24, Signed;
    SeqLayout(calls, i);
    SeqLayout(calls, j);
    LowDistinct(calls, i, j);
    assert Low24(calls, i) < TWO24 && Low24(calls, j) < TWO24 by { LowBound(calls, i); LowBound(calls, j); }
    SignedJoin(LatestStamp(calls, i + 1), LatestStamp(calls, j + 1), Low24(calls, i), Low24(calls, j));
  }

  lemma LowBound(calls: seq<Call>, k: nat)
    requires k < |calls|
    ensures Low24(calls, k) < TWO24
  {
  }

  /** Within an epoch of 2^23 calls no value repeats, whatever the sides and including the masked wrap. */
  lemma SeqDistinctInEpoch(calls: seq<Call>, i: nat, j: nat)
    requires i < j < |calls| && i / EPOCH == j / EPOCH
    ensures Out(calls, i) != Out(calls, j)
  {
    hide Out, LatestStamp;
    SeqEqualIff(calls, i, j);
  }

  /** C's remainder, which takes the sign of the dividend. */
  function CRem(x: int, m: nat): int
    requires m > 0
  {
    if x < 0 then -((-x) % m) else x % m
  }

  /** By two it leaves nothing of an even number and a unit with the sign of an odd one. */
  lemma CRemMeans(x: int)
    ensures CRem(x, 2) == if x % 2 == 0 then 0 else if x > 0 then 1 else -1
  {
  }

  /** The receiver's remainder test recovers the sender's side, also for values that came out negative. */
  lemma SideRecovered(calls: seq<Call>, k: nat)
    requires k < |calls|
    ensures CRem(Out(calls, k), SEQ_INTERVAL) != 0 <==> calls[k].isServer
  {
    hide Out, LatestStamp;
    SeqLayout(calls, k);
    var s, x := LatestStamp(calls, k + 1), Low24(calls, k);
    var side := if calls[k].isServer then 1 else 0;
    assert x % 2 == side by {
      var y := 2 * (k % EPOCH + 1) + side;
      ModMod(y, 2, 0x80_0000);
      ModIs(y, 2, k % EPOCH + 1, side);
    }
    LowBound(calls, k);
    Parity(s, x);
  }

  lemma Parity(s: nat, x: nat)
    requires s < TWO40 && x < TWO24
    ensures CRem(Signed(s * TWO24 + x), SEQ_INTERVAL) != 0 <==> x % 2 == 1
  {
    var v := s * TWO24 + x;
    ModIs(v, 2, s * 0x80_0000 + x / 2, x % 2);
    if v >= TWO63 {
      ModIs(TWO64 - v, 2, TWO63 - s * 0x80_0000 - x / 2 - x % 2, x % 2);
    }
  }

  // ---------- GenAuthIdSeq ----------

  function NextAuthId(g: Gen, f: Refresh): Gen {
    var c := if g.counter >= AUTH_ID_SEQ_INTEGER_MAX then 0 else g.counter;
    var u := if c == 0 && f.Fresh? then Absorb(g.uniqueId, StampBytes(f, 2), TWO32) else g.uniqueId;
    Gen(u, c + 1)
  }

  function AuthIdValue(g: Gen): nat {
    g.uniqueId * 128 % TWO32 + g.counter % 128
  }

  function AuthIdAfter(fs: seq<Refresh>, k: nat): Gen
    requires k <= |fs|
  {
    if k == 0 then Gen(0, 0) else NextAuthId(AuthIdAfter(fs, k - 1), fs[k - 1])
  }

  /** What call number `k` returns. */
  function AuthId(fs: seq<Refresh>, k: nat): nat
    requires k < |fs|
  {
    AuthIdValue(AuthIdAfter(fs, k + 1))
  }

  /** The latest stamp, and the low bit of the one before it. */
  function LatestTwo(fs: seq<Refresh>, k: nat): (nat, nat)
    requires k <= |fs|
  {
    if k == 0 then (0, 0)
    else if (k - 1) % AUTH_ID_EPOCH == 0 && fs[k - 1].Fresh? then
      (BigEndian(StampBytes(fs[k - 1], 2)), LatestTwo(fs, k - 1).0 % 2)
    else LatestTwo(fs, k - 1)
  }

  /** Three bytes leave one older bit below bit 25. */
  lemma AbsorbShort(u: nat, f: Refresh)
    requires f.Fresh? && u < TWO32
    ensures var x, s := Absorb(u, StampBytes(f, 2), TWO32), BigEndian(StampBytes(f, 2));
            x < TWO32 && x % TWO25 == u % 2 * TWO24 + s && s < TWO24 && s % 2 == f.time % 2
  {
    var a, b, c := f.hash[0], f.hash[1], f.time % 256;
    assert StampBytes(f, 2) == [a, b, c];
    AbsorbThree(u, a, b, c, TWO32);
    hide Absorb, BigEndian;
    PushThree(u, a, b, c);
    assert c % 2 == f.time % 2 by { ModMod(f.time, 2, 128); }
    ModIs((a * 256 + b) * 256 + c, 2, (a * 256 + b) * 128 + c / 2, c % 2);
  }

  lemma PushThree(u: nat, a: Byte, b: Byte, c: Byte)
    ensures var x := ((u * 256 % TWO32 + a) * 256 % TWO32 + b) * 256 % TWO32 + c;
            x < TWO32 && x % TWO25 == u % 2 * TWO24 + ((a * 256 + b) * 256 + c)
  {
    var u1 := u * 256 % TWO32 + a;
    var u2 := u1 * 256 % TWO32 + b;
    assert u1 % 0x200 == u % 2 * 256 + a by { Push32(u, a); }
    assert u2 % 0x2_0000 == (u % 2 * 256 + a) * 256 + b by { Push32(u1, b); }
    Push32(u2, c);
  }

  lemma {:induction false} AuthIdCounter(fs: seq<Refresh>, k: nat)
    requires 0 < k <= |fs|
    ensures AuthIdAfter(fs, k).counter == (k - 1) % AUTH_ID_EPOCH + 1
  {
    if k > 1 {
      AuthIdCounter(fs, k - 1);
      PlaceAfter(k - 2);
    }
  }

  lemma PlaceAfter(k: nat)
    ensures (k + 1) % AUTH_ID_EPOCH == if k % AUTH_ID_EPOCH == 126 then 0 else k % AUTH_ID_EPOCH + 1
  {
    var q, r := k / 127, k % 127;
    assert k + 1 == if r == 126 then (q + 1) * 127 else q * 127 + (r + 1);
    ModIs(k + 1, 127, if r == 126 then q + 1 else q, if r == 126 then 0 else r + 1);
  }

  lemma {:induction false} AuthIdStamp(fs: seq<Refresh>, k: nat)
    requires k <= |fs|
    ensures var u := AuthIdAfter(fs, k).uniqueId;
            var (stamp, bit) := LatestTwo(fs, k);
            u < TWO32 && stamp < TWO24 && bit < 2 && u % TWO25 == bit * TWO24 + stamp
  {
    if k > 0 {
      hide Absorb, BigEndian;
      AuthIdStamp(fs, k - 1);
      var g, f := AuthIdAfter(fs, k - 1), fs[k - 1];
      if k > 1 {
        AuthIdCounter(fs, k - 1);
        PlaceAfter(k - 2);
      }
      assert (k - 1) % AUTH_ID_EPOCH == 0 <==> g.counter == 0 || g.counter >= AUTH_ID_SEQ_INTEGER_MAX;
      LowBit(g.uniqueId, LatestTwo(fs, k - 1).1, LatestTwo(fs, k - 1).0);
      if f.Fresh? {
        AbsorbShort(g.uniqueId, f);
      }
    }
  }

  lemma LowBit(u: nat, bit: nat, stamp: nat)
    requires u % TWO25 == bit * TWO24 + stamp
    ensures u % 2 == stamp % 2
  {
    assert u == u / TWO25 * TWO25 + bit * TWO24 + stamp;
  }

  /** The layout of every auth id: a bit left over from the previous stamp, the stamp, and the place in the
      epoch counted from one. In particular none is zero. */
  lemma AuthIdLayout(fs: seq<Refresh>, k: nat)
    requires k < |fs|
    ensures var (stamp, bit) := LatestTwo(fs, k + 1);
            AuthId(fs, k) == bit * TWO31 + stamp * 128 + (k % AUTH_ID_EPOCH + 1) && stamp < TWO24 && bit < 2
    ensures 0 < AuthId(fs, k) < TWO32
  {
    hide LatestTwo, AuthIdAfter;
    AuthIdCounter(fs, k + 1);
    AuthIdStamp(fs, k + 1);
    var u := AuthIdAfter(fs, k + 1).uniqueId;
    ModIs(u * 128, TWO32, u / TWO25, u % TWO25 * 128);
  }

  /** Exactly when two calls return the same id. */
  lemma AuthIdEqualIff(fs: seq<Refresh>, i: nat, j: nat)
    requires i < |fs| && j < |fs|
    ensures AuthId(fs, i) == AuthId(fs, j) <==>
              i % AUTH_ID_EPOCH == j % AUTH_ID_EPOCH && LatestTwo(fs, i + 1) == LatestTwo(fs, j + 1)
  {
    hide AuthId, LatestTwo;
    AuthIdLayout(fs, i);
    AuthIdLayout(fs, j);
    var (s, x) := LatestTwo(fs, i + 1);
    var (t, y) := LatestTwo(fs, j + 1);
    var a, b := i % AUTH_ID_EPOCH + 1, j % AUTH_ID_EPOCH + 1;
    assert x * TWO31 + s * 128 + a == y * TWO31 + t * 128 + b ==> a == b && s == t && x == y;
  }

  /** The stamp of an epoch is the one its first call asked for, and stays for the whole epoch. */
  lemma {:induction false} EpochStamp(fs: seq<Refresh>, k: nat)
    requires k < |fs| && fs[k / AUTH_ID_EPOCH * AUTH_ID_EPOCH].Fresh?
    ensures var e := k / AUTH_ID_EPOCH * AUTH_ID_EPOCH;
            LatestTwo(fs, k + 1) == (BigEndian(StampBytes(fs[e], 2)), LatestTwo(fs, e).0 % 2)
  {
    hide BigEndian;
    if k % AUTH_ID_EPOCH != 0 {
      assert (k - 1) / AUTH_ID_EPOCH == k / AUTH_ID_EPOCH;
      EpochStamp(fs, k - 1);
    }
  }

  /** Bits 7 to 30 are this epoch's hash and time, whenever its refresh succeeded. Bit 31: clear in the first epoch;
      in a later one, when this epoch's and the previous epoch's refresh succeeded, the low bit of the previous time
      stamp. */
  lemma AuthIdTopBit(fs: seq<Refresh>, k: nat)
    requires k < |fs|
    ensures k < AUTH_ID_EPOCH ==> AuthId(fs, k) < TWO31
    ensures var e := k / AUTH_ID_EPOCH * AUTH_ID_EPOCH;
            && (fs[e].Fresh? ==> AuthId(fs, k) % TWO31 / 128 == BigEndian(StampBytes(fs[e], 2)))
            && (e > 0 && fs[e].Fresh? && fs[e - AUTH_ID_EPOCH].Fresh? ==>
                  AuthId(fs, k) / TWO31 == fs[e - AUTH_ID_EPOCH].time % 2)
  {
    hide AuthId, BigEndian, LatestTwo, StampBytes;
    AuthIdLayout(fs, k);
    var (stamp, bit) := LatestTwo(fs, k + 1);
    TopAndRest(bit, stamp, k % AUTH_ID_EPOCH + 1);
    var e := k / AUTH_ID_EPOCH * AUTH_ID_EPOCH;
    if k < AUTH_ID_EPOCH {
      FirstEpochBit(fs, k + 1);
    }
    if fs[e].Fresh? {
      EpochStamp(fs, k);
      if e > 0 && fs[e - AUTH_ID_EPOCH].Fresh? {
        EpochBit(fs, e);
      }
    }
  }

  lemma TopAndRest(bit: nat, stamp: nat, place: nat)
    requires bit < 2 && stamp < TWO24 && 0 < place < 128
    ensures var a := bit * TWO31 + stamp * 128 + place; a / TWO31 == bit && a % TWO31 / 128 == stamp
  {
  }

  /** The stamp an epoch leaves behind ends in the low bit of its time. */
  lemma EpochBit(fs: seq<Refresh>, e: nat)
    requires 0 < e < |fs| && e % AUTH_ID_EPOCH == 0 && fs[e - AUTH_ID_EPOCH].Fresh?
    ensures LatestTwo(fs, e).0 % 2 == fs[e - AUTH_ID_EPOCH].time % 2
  {
    hide LatestTwo, BigEndian;
    assert (e - 1) / AUTH_ID_EPOCH * AUTH_ID_EPOCH == e - AUTH_ID_EPOCH;
    EpochStamp(fs, e - 1);
    AbsorbShort(0, fs[e - AUTH_ID_EPOCH]);
  }

  lemma {:induction false} FirstEpochBit(fs: seq<Refresh>, k: nat)
    requires k <= |fs| && k <= AUTH_ID_EPOCH
    ensures LatestTwo(fs, k).1 == 0
  {
    if k > 0 {
      FirstEpochBit(fs, k - 1);
    }
  }

  // ---------- as it runs ----------

  class SeqSource {
    var uniqueId: nat
    var seqInteger: nat
    var authIdUniqueId: nat
    var authIdSeqInteger: nat

    constructor ()
      ensures uniqueId == seqInteger == authIdUniqueId == authIdSeqInteger == 0
    {
      uniqueId, seqInteger, authIdUniqueId, authIdSeqInteger := 0, 0, 0, 0;
    }

    method UpdateUniqueId(f: Refresh)
      modifies this`uniqueId
      ensures uniqueId == if f.Fresh? then Absorb(old(uniqueId), StampBytes(f, 4), TWO64) else old(uniqueId)
    {
      if f.Failed? {
        return;
      }
      hide BigEndian;
      assert f.hash[..0] == [];
      var i := 0;
      while i < 4
        invariant 0 <= i <= 4
        invariant uniqueId == Absorb(old(uniqueId), f.hash[..i], TWO64)
      {
        AbsorbOne(old(uniqueId), f.hash[..i], f.hash[i], TWO64);
        assert f.hash[..i + 1] == f.hash[..i] + [f.hash[i]];
        uniqueId := uniqueId * 256 % TWO64 + f.hash[i];
        i := i + 1;
      }
      AbsorbOne(old(uniqueId), f.hash[..4], f.time % 256, TWO64);
      uniqueId := uniqueId * 256 % TWO64 + f.time % 256;
    }

    method GenSeq(isServer: bool, f: Refresh) returns (r: int)
      modifies this`uniqueId, this`seqInteger
      ensures Gen(uniqueId, seqInteger) == Next(Gen(old(uniqueId), old(seqInteger)), f)
      ensures r == Signed(Value(Gen(uniqueId, seqInteger), isServer))
    {
      if seqInteger >= SEQ_INTEGER_MAX {
        seqInteger := 0;
      }
      if seqInteger == 0 {
        UpdateUniqueId(f);
      }
      seqInteger := seqInteger + SEQ_INTERVAL;
      var low := if isServer then seqInteger + 1 else seqInteger;
      var v := uniqueId * TWO24 % TWO64 + low % TWO24;
      r := if v < TWO63 then v else v - TWO64;
    }

    method UpdateAuthIdUniqueId(f: Refresh)
      modifies this`authIdUniqueId
      ensures authIdUniqueId == if f.Fresh? then Absorb(old(authIdUniqueId), StampBytes(f, 2), TWO32)
                                else old(authIdUniqueId)
    {
      if f.Failed? {
        return;
      }
      hide BigEndian;
      assert f.hash[..0] == [];
      var i := 0;
      while i < 2
        invariant 0 <= i <= 2
        invariant authIdUniqueId == Absorb(old(authIdUniqueId), f.hash[..i], TWO32)
      {
        AbsorbOne(old(authIdUniqueId), f.hash[..i], f.hash[i], TWO32);
        assert f.hash[..i + 1] == f.hash[..i] + [f.hash[i]];
        authIdUniqueId := authIdUniqueId * 256 % TWO32 + f.hash[i];
        i := i + 1;
      }
      AbsorbOne(old(authIdUniqueId), f.hash[..2], f.time % 256, TWO32);
      authIdUniqueId := authIdUniqueId * 256 % TWO32 + f.time % 256;
    }

    method GenAuthIdSeq(f: Refresh) returns (r: nat)
      modifies this`authIdUniqueId, this`authIdSeqInteger
      ensures Gen(authIdUniqueId, authIdSeqInteger) == NextAuthId(Gen(old(authIdUniqueId), old(authIdSeqInteger)), f)
      ensures r == AuthIdValue(Gen(authIdUniqueId, authIdSeqInteger))
    {
      if authIdSeqInteger >= AUTH_ID_SEQ_INTEGER_MAX {
        authIdSeqInteger := 0;
      }
      if authIdSeqInteger == 0 {
        UpdateAuthIdUniqueId(f);
      }
      authIdSeqInteger := authIdSeqInteger + 1;
      r := authIdUniqueId * 128 % TWO32 + authIdSeqInteger % 128;
    }
  }
}
