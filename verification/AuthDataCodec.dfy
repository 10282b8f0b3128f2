/** The wire form of authentication data and the 64-bit connection ids. Machine words are integers with the
    widths written out; joining the two halves of an id, which share no bit, is addition. */
module AuthDataCodec {
  const TWO32 := 0x1_0000_0000
  const TWO64 := 0x1_0000_0000_0000_0000
  const HEAD_SIZE := 24

  type U32 = x: int | 0 <= x < 0x1_0000_0000
  type U64 = x: int | 0 <= x < 0x1_0000_0000_0000_0000
  type I32 = x: int | -0x8000_0000 <= x < 0x8000_0000
  type I64 = x: int | -0x8000_0000_0000_0000 <= x < 0x8000_0000_0000_0000
  type Byte = x: int | 0 <= x < 256

  function AsI32(x: U32): I32 {
    if x < 0x8000_0000 then x else x - TWO32
  }

  function AsI64(x: U64): I64 {
    if x < 0x8000_0000_0000_0000 then x else x - TWO64
  }

  // ---------- connection ids ----------

  /** `(x << 32) & MASK_UINT64_H32` on uint64. */
  function ToHighHalf(x: U64): U64 {
    x * TWO32 % TWO64 / TWO32 * TWO32
  }

  function GenConnId(connType: I32, id: I32): U64 {
    JoinFits(connType % TWO64, id % TWO64);
    ToHighHalf(connType % TWO64) + id % TWO64 % TWO32
  }

  function GetConnType(connId: U64): I32 {
    AsI32(connId / TWO32 % TWO32)
  }

  function GetConnId(connId: U64): U32 {
    connId % TWO32
  }

  function GetFd(connId: U64): I32 {
    AsI32(connId % TWO32)
  }

  function UpdateFd(connId: U64, id: I32): U64 {
    connId / TWO32 * TWO32 + id % TWO64 % TWO32
  }

  lemma JoinFits(x: U64, y: U64)
    ensures ToHighHalf(x) + y % TWO32 < TWO64
    ensures ToHighHalf(x) % TWO32 == 0
  {
  }

  /** The type lands in the upper half whatever its sign. */
  lemma HighHalf(t: I32)
    ensures ToHighHalf(t % TWO64) == t % TWO32 * TWO32
  {
    var x, y := t % TWO64, t % TWO32;
    assert x == (if t < 0 then t + TWO64 else t) && y == (if t < 0 then t + TWO32 else t);
    var c := if t < 0 then TWO32 - 1 else 0;
    assert x * TWO32 == c * TWO64 + y * TWO32;
    assert 0 <= y * TWO32 < TWO64;
    assert x * TWO32 % TWO64 == y * TWO32;
  }

  /** The id in numbers: the type as a uint32 above the socket as a uint32. */
  lemma ConnIdLayout(connType: I32, id: I32)
    ensures GenConnId(connType, id) ==
              (if connType < 0 then connType + 0x1_0000_0000 else connType) * 0x1_0000_0000
              + (if id < 0 then id + 0x1_0000_0000 else id)
  {
    HighHalf(connType);
    assert connType % TWO32 == if connType < 0 then connType + TWO32 else connType;
    assert id % TWO64 % TWO32 == if id < 0 then id + TWO32 else id;
  }

  /** Both halves come back, for every pair of int32 values. */
  lemma ConnIdRoundTrip(connType: I32, id: I32)
    ensures GetConnType(GenConnId(connType, id)) == connType
    ensures GetFd(GenConnId(connType, id)) == id
    ensures AsI32(GetConnId(GenConnId(connType, id))) == id
  {
    HighHalf(connType);
    var y := id % TWO64 % TWO32;
    assert y == (if id < 0 then id + TWO32 else id);
    var c, t := GenConnId(connType, id), connType % TWO32;
    assert c == t * TWO32 + y;
    Halves(t, y);
  }

  lemma Halves(t: U32, y: U32)
    ensures (t * TWO32 + y) / TWO32 == t && (t * TWO32 + y) % TWO32 == y
  {
  }

  /** And every 64-bit id is the id of its halves. */
  lemma ConnIdFromHalves(connId: U64)
    ensures GenConnId(GetConnType(connId), GetFd(connId)) == connId
  {
    var t, f := GetConnType(connId), GetFd(connId);
    HighHalf(t);
    assert t % TWO32 == connId / TWO32;
    assert f % TWO64 % TWO32 == connId % TWO32;
  }

  /** Changing the socket of an id keeps its type and is the id generated afresh. */
  lemma UpdateFdIsRegenerate(connType: I32, id: I32, fd: I32)
    ensures UpdateFd(GenConnId(connType, id), fd) == GenConnId(connType, fd)
  {
    HighHalf(connType);
    var c := GenConnId(connType, id);
    assert c / TWO32 == connType % TWO32;
  }

  // ---------- little-endian words ----------

  function Pow256(n: nat): (p: nat)
    ensures p > 0
  {
    if n == 0 then 1 else 256 * Pow256(n - 1)
  }

  function Le(x: nat, n: nat): (s: seq<Byte>)
    ensures |s| == n
  {
    if n == 0 then [] else [x % 256] + Le(x / 256, n - 1)
  }

  function FromLe(s: seq<Byte>): nat {
    if s == [] then 0 else s[0] + 256 * FromLe(s[1..])
  }

  lemma {:induction false} FromLeInvertsLe(x: nat, n: nat)
    requires x < Pow256(n)
    ensures FromLe(Le(x, n)) == x
  {
    if n > 0 {
      FromLeInvertsLe(x / 256, n - 1);
    }
  }

  lemma {:induction false} LeInvertsFromLe(s: seq<Byte>)
    ensures Le(FromLe(s), |s|) == s && FromLe(s) < Pow256(|s|)
  {
    if s != [] {
      LeInvertsFromLe(s[1..]);
    }
  }

  /** The lowest byte comes first. */
  lemma {:induction false} LeByte(x: nat, n: nat, i: nat)
    requires i < n
    ensures Le(x, n)[i] == x / Pow256(i) % 256
  {
    if i > 0 {
      LeByte(x / 256, n - 1, i - 1);
      DivTwice(x, Pow256(i - 1));
    }
  }

  lemma DivTwice(x: nat, b: nat)
    requires b > 0
    ensures x / 256 / b == x / (256 * b)
  {
    var q, r := x / 256 / b, x / 256 % b;
    assert x / 256 == b * q + r;
    assert 256 * b * q == 256 * (b * q);
    QuotientIs(x, 256 * b, q, 256 * r + x % 256);
  }

  lemma QuotientIs(x: int, m: int, q: int, r: int)
    requires 0 <= r < m && x == m * q + r
    ensures x / m == q
  {
    var d := x / m - q;
    assert m * d == m * (x / m) - m * q;
    Multiples(d, m);
  }

  lemma Multiples(d: int, m: int)
    requires m > 0
    ensures d >= 1 ==> m * d >= m
    ensures d <= -1 ==> m * d <= -m
  {
  }

  lemma WordSizes()
    ensures Pow256(4) == TWO32 && Pow256(8) == TWO64
  {
    assert Pow256(2) == 65536;
    assert Pow256(4) == 65536 * Pow256(2);
    assert Pow256(6) == 65536 * Pow256(4);
  }

  // ---------- the head ----------

  datatype Head = Head(dataType: U32, mod: I32, seqNo: I64, flag: I32, len: U32)

  function EncodeHead(h: Head): (s: seq<Byte>)
    ensures |s| == HEAD_SIZE
  {
    Le(h.dataType, 4) + Le(h.mod % TWO32, 4) + Le(h.seqNo % TWO64, 8) + Le(h.flag % TWO32, 4) + Le(h.len, 4)
  }

  function Word32(s: seq<Byte>, i: nat): U32
    requires i + 4 <= |s|
  {
    WordSizes();
    LeInvertsFromLe(s[i..i + 4]);
    FromLe(s[i..i + 4])
  }

  function Word64(s: seq<Byte>, i: nat): U64
    requires i + 8 <= |s|
  {
    WordSizes();
    LeInvertsFromLe(s[i..i + 8]);
    FromLe(s[i..i + 8])
  }

  function DecodeHead(s: seq<Byte>): Head
    requires |s| >= HEAD_SIZE
  {
    Head(Word32(s, 0), AsI32(Word32(s, 4)), AsI64(Word64(s, 8)), AsI32(Word32(s, 16)), Word32(s, 20))
  }

  lemma HeadWords(h: Head)
    ensures var s := EncodeHead(h);
            && s[0..4] == Le(h.dataType, 4) && s[4..8] == Le(h.mod % TWO32, 4) && s[8..16] == Le(h.seqNo % TWO64, 8)
            && s[16..20] == Le(h.flag % TWO32, 4) && s[20..24] == Le(h.len, 4)
  {
    hide Le;
    Slices(Le(h.dataType, 4), Le(h.mod % TWO32, 4), Le(h.seqNo % TWO64, 8), Le(h.flag % TWO32, 4), Le(h.len, 4));
  }

  lemma Slices(a: seq<Byte>, b: seq<Byte>, c: seq<Byte>, d: seq<Byte>, e: seq<Byte>)
    requires |a| == |b| == |d| == |e| == 4 && |c| == 8
    ensures var s := a + b + c + d + e;
            s[0..4] == a && s[4..8] == b && s[8..16] == c && s[16..20] == d && s[20..24] == e
  {
    var s := a + b + c + d + e;
    assert s[0..4] == a;
    assert s[4..8] == b;
    assert s[8..16] == c;
    assert s[16..20] == d;
    assert s[20..24] == e;
  }

  lemma TwosComplement(x: I32, y: I64)
    ensures x % TWO32 == if x < 0 then x + 0x1_0000_0000 else x
    ensures y % TWO64 == if y < 0 then y + 0x1_0000_0000_0000_0000 else y
  {
  }

  lemma ByteOf(s: seq<Byte>, i: nat, n: nat, x: nat, k: nat)
    requires i <= k < i + n <= |s| && s[i..i + n] == Le(x, n)
    ensures s[k] == x / Pow256(k - i) % 256
  {
    hide Le, Pow256;
    LeByte(x, n, k - i);
    assert s[k] == s[i..i + n][k - i];
  }

  /** The 24 bytes of a head, one by one: type, module, sequence number, flag and length in this order, each with its
      lowest byte first, negative ones in two's complement. */
  lemma HeadLayout(h: Head, k: nat)
    requires k < 24
    ensures EncodeHead(h)[k] ==
              (if k < 4 then h.dataType / Pow256(k)
               else if k < 8 then (if h.mod < 0 then h.mod + 0x1_0000_0000 else h.mod) / Pow256(k - 4)
               else if k < 16 then
                 (if h.seqNo < 0 then h.seqNo + 0x1_0000_0000_0000_0000 else h.seqNo) / Pow256(k - 8)
               else if k < 20 then (if h.flag < 0 then h.flag + 0x1_0000_0000 else h.flag) / Pow256(k - 16)
               else h.len / Pow256(k - 20)) % 256
  {
    hide Le, Pow256, EncodeHead;
    HeadWords(h);
    var s := EncodeHead(h);
    if k < 4 {
      ByteOf(s, 0, 4, h.dataType, k);
    } else if k < 8 {
      TwosComplement(h.mod, 0);
      ByteOf(s, 4, 4, h.mod % TWO32, k);
    } else if k < 16 {
      TwosComplement(0, h.seqNo);
      ByteOf(s, 8, 8, h.seqNo % TWO64, k);
    } else if k < 20 {
      TwosComplement(h.flag, 0);
      ByteOf(s, 16, 4, h.flag % TWO32, k);
    } else {
      ByteOf(s, 20, 4, h.len, k);
    }
  }

  lemma DecodeInvertsEncode(h: Head, rest: seq<Byte>)
    ensures DecodeHead(EncodeHead(h) + rest) == h
  {
    hide Le, FromLe, Pow256, EncodeHead;
    var e := EncodeHead(h);
    var s := e + rest;
    WordSizes();
    HeadWords(h);
    assert s[0..4] == e[0..4] && s[4..8] == e[4..8] && s[8..16] == e[8..16];
    assert s[16..20] == e[16..20] && s[20..24] == e[20..24];
    FromLeInvertsLe(h.dataType, 4);
    FromLeInvertsLe(h.mod % TWO32, 4);
    FromLeInvertsLe(h.seqNo % TWO64, 8);
    FromLeInvertsLe(h.flag % TWO32, 4);
    FromLeInvertsLe(h.len, 4);
  }

  lemma EncodeInvertsDecode(s: seq<Byte>)
    requires |s| >= HEAD_SIZE
    ensures EncodeHead(DecodeHead(s)) == s[..HEAD_SIZE]
  {
    hide Le, FromLe, Pow256;
    LeInvertsFromLe(s[0..4]);
    LeInvertsFromLe(s[4..8]);
    LeInvertsFromLe(s[8..16]);
    LeInvertsFromLe(s[16..20]);
    LeInvertsFromLe(s[20..24]);
    assert s[..HEAD_SIZE] == s[0..4] + s[4..8] + s[8..16] + s[16..20] + s[20..24];
  }

  // ---------- packing and unpacking ----------

  /** GetAuthDataSize: the sum is a uint32 and wraps. */
  function AuthDataSize(len: U32): U32 {
    (HEAD_SIZE + len) % TWO32
  }

  datatype Ret = OK | INVALID_PARAM | NO_ENOUGH_DATA | MEM_ERR

  /** The bounded copy fails on an empty destination and on a source longer than the destination. */
  predicate CopyFits(destMax: nat, count: nat) {
    0 < destMax && count <= destMax
  }

  /** What packing answers. The size check compares with the wrapped sum, and what is left for the data is a
      uint32 difference, which wraps too. */
  function PackResult(len: U32, size: U32): Ret {
    if size < AuthDataSize(len) then NO_ENOUGH_DATA
    else if CopyFits((size - HEAD_SIZE) % TWO32, len) then OK
    else MEM_ERR
  }

  /** How far behind the start of the buffer packing may write. */
  function Reach(len: U32, size: U32): nat {
    match PackResult(len, size)
    case OK => HEAD_SIZE + len
    case MEM_ERR => if size < HEAD_SIZE then HEAD_SIZE else size
    case _ => 0
  }

  lemma WrappedSize(len: U32)
    ensures AuthDataSize(len) == if len < TWO32 - HEAD_SIZE then HEAD_SIZE + len else HEAD_SIZE + len - TWO32
  {
    assert HEAD_SIZE + len < 2 * TWO32;
  }

  lemma WrappedRoom(size: U32)
    ensures (size - HEAD_SIZE) % TWO32 == if size >= HEAD_SIZE then size - HEAD_SIZE else size - HEAD_SIZE + TWO32
  {
  }

  /** Exactly when packing succeeds: head and data fit and there is a byte behind the head, or the sum wrapped
      and the buffer is shorter than a head. */
  lemma PackSucceedsIff(len: U32, size: U32)
    ensures PackResult(len, size) == OK <==>
              || (size > HEAD_SIZE && size >= HEAD_SIZE + len)
              || (size < HEAD_SIZE && HEAD_SIZE + len - TWO32 <= size && len >= TWO32 - HEAD_SIZE)
    ensures len < TWO32 - HEAD_SIZE ==>
              (PackResult(len, size) == OK <==> size > HEAD_SIZE && size >= HEAD_SIZE + len)
  {
    WrappedSize(len);
    WrappedRoom(size);
  }

  ghost predicate StaysInBuffer(len: U32) {
    forall size: U32 :: Reach(len, size) <= size
  }

  /** The size check keeps packing inside the buffer, for every size of it, if and only if the announced length
      leaves room for a head below 2^32, which a caller can check. */
  lemma PackStaysInBufferIff(len: U32)
    ensures StaysInBuffer(len) <==> len < TWO32 - HEAD_SIZE
  {
    WrappedSize(len);
    if len < TWO32 - HEAD_SIZE {
      forall size: U32 ensures Reach(len, size) <= size {
        WrappedRoom(size);
      }
    } else {
      var size: U32 := HEAD_SIZE - 1;
      WrappedRoom(size);
      assert Reach(len, size) > size;
    }
  }

  /** The first such length with a buffer one byte short of a head: accepted, and written past its end. */
  lemma WrapIsAccepted()
    ensures PackResult(0xFFFF_FFE8, 23) == OK && Reach(0xFFFF_FFE8, 23) > 23
  {
  }

  /** The wrap check of unpacking, as it is written. */
  predicate BodyFits(h: Head, len: U32) {
    AuthDataSize(h.len) <= len && AuthDataSize(0) <= AuthDataSize(h.len)
  }

  /** It accepts exactly the buffers that hold the head and the announced data, computed without wrap. */
  lemma BodyFitsIff(h: Head, len: U32)
    ensures BodyFits(h, len) <==> HEAD_SIZE + h.len <= len
  {
    assert HEAD_SIZE + h.len < 2 * TWO32;
    assert AuthDataSize(h.len) == if HEAD_SIZE + h.len < TWO32 then HEAD_SIZE + h.len else HEAD_SIZE + h.len - TWO32;
    assert AuthDataSize(0) == HEAD_SIZE;
  }

  ghost predicate Accepts(s: seq<Byte>) {
    |s| >= HEAD_SIZE && HEAD_SIZE + DecodeHead(s).len <= |s|
  }

  ghost function Unpacked(s: seq<Byte>): (Head, seq<Byte>)
    requires Accepts(s)
  {
    (DecodeHead(s), s[HEAD_SIZE..HEAD_SIZE + DecodeHead(s).len])
  }

  /** What was packed is unpacked, wherever it is followed by other bytes. */
  lemma UnpackInvertsPack(h: Head, data: seq<Byte>, rest: seq<Byte>)
    requires |data| == h.len
    ensures Accepts(EncodeHead(h) + data + rest) && Unpacked(EncodeHead(h) + data + rest) == (h, data)
  {
    hide EncodeHead, DecodeHead;
    DecodeInvertsEncode(h, data + rest);
    assert EncodeHead(h) + (data + rest) == EncodeHead(h) + data + rest;
  }

  /** An accepted buffer starts with the packing of what it unpacks to. */
  lemma PackInvertsUnpack(s: seq<Byte>)
    requires Accepts(s)
    ensures var (h, data) := Unpacked(s); EncodeHead(h) + data + s[HEAD_SIZE + h.len..] == s
  {
    hide EncodeHead, DecodeHead;
    EncodeInvertsDecode(s);
    var n := HEAD_SIZE + DecodeHead(s).len;
    assert s == s[..HEAD_SIZE] + s[HEAD_SIZE..n] + s[n..];
  }

  /** Store an n-byte word at an offset. */
  method StoreLe(buf: array<Byte>, offset: nat, x: nat, n: nat)
    requires offset + n <= buf.Length
    modifies buf
    ensures buf[..offset] == old(buf[..offset]) && buf[offset + n..] == old(buf[offset + n..])
    ensures buf[offset..offset + n] == Le(x, n)
  {
    var i, y := 0, x;
    while i < n
      invariant 0 <= i <= n
      invariant Le(x, n) == buf[offset..offset + i] + Le(y, n - i)
      invariant buf[..offset] == old(buf[..offset]) && buf[offset + i..] == old(buf[offset + i..])
    {
      buf[offset + i] := y % 256;
      i, y := i + 1, y / 256;
    }
  }

  /** `memory` is the memory from the first byte of the buffer on; only its first `size` bytes are the buffer. */
  method PackAuthData(h: Head, data: array?<Byte>, memory: array?<Byte>, size: U32) returns (ret: Ret)
    requires data != null && memory != null ==>
               && size <= memory.Length && Reach(h.len, size) <= memory.Length
               && (PackResult(h.len, size) == OK ==> data != memory && h.len <= data.Length)
    modifies memory
    ensures data == null || memory == null ==>
              ret == INVALID_PARAM && (memory != null ==> memory[..] == old(memory[..]))
    ensures data != null && memory != null ==>
              && ret == PackResult(h.len, size)
              && memory[Reach(h.len, size)..] == old(memory[Reach(h.len, size)..])
              && (ret == MEM_ERR || ret == OK ==> memory[..HEAD_SIZE] == EncodeHead(h))
              && (ret == OK ==> memory[HEAD_SIZE..HEAD_SIZE + h.len] == data[..h.len])
  {
    if data == null || memory == null {
      return INVALID_PARAM;
    }
    if size < AuthDataSize(h.len) {
      return NO_ENOUGH_DATA;
    }
    PackHead(h, memory);
    hide EncodeHead;
    if !CopyFits((size - HEAD_SIZE) % TWO32, h.len) {
      return MEM_ERR;
    }
    var i := 0;
    while i < h.len
      invariant 0 <= i <= h.len
      invariant memory[..HEAD_SIZE + i] == EncodeHead(h) + data[..i]
      invariant memory[HEAD_SIZE + i..] == old(memory[HEAD_SIZE + i..])
      invariant data[..] == old(data[..])
    {
      memory[HEAD_SIZE + i] := data[i];
      i := i + 1;
    }
    ret := OK;
    assert memory[..HEAD_SIZE + h.len] == EncodeHead(h) + data[..h.len];
    assert memory[..HEAD_SIZE] == memory[..HEAD_SIZE + h.len][..HEAD_SIZE];
    assert memory[HEAD_SIZE..HEAD_SIZE + h.len] == memory[..HEAD_SIZE + h.len][HEAD_SIZE..];
  }

  method PackHead(h: Head, buf: array<Byte>)
    requires HEAD_SIZE <= buf.Length
    modifies buf
    ensures buf[..] == EncodeHead(h) + old(buf[HEAD_SIZE..])
  {
    hide Le;
    ghost var rest := buf[24..];
    StoreLe(buf, 0, h.dataType, 4);
    assert buf[24..] == buf[4..][20..] == rest;
    StoreLe(buf, 4, h.mod % TWO32, 4);
    assert buf[..8] == buf[..4] + buf[4..8] && buf[24..] == buf[8..][16..] == rest;
    StoreLe(buf, 8, h.seqNo % TWO64, 8);
    assert buf[..16] == buf[..8] + buf[8..16] && buf[24..] == buf[16..][8..] == rest;
    StoreLe(buf, 16, h.flag % TWO32, 4);
    assert buf[..20] == buf[..16] + buf[16..20] && buf[24..] == buf[20..][4..] == rest;
    StoreLe(buf, 20, h.len, 4);
    assert buf[..24] == buf[..20] + buf[20..24];
    assert buf[..] == buf[..24] + buf[24..];
  }

  datatype Unpack = Rejected | Body(offset: nat)

  method UnpackAuthData(data: array<Byte>, len: U32) returns (r: Unpack, h: Head)
    requires len <= data.Length
    ensures r.Body? <==> Accepts(data[..len])
    ensures r.Body? ==> r.offset + h.len <= len && (h, data[r.offset..r.offset + h.len]) == Unpacked(data[..len])
  {
    hide DecodeHead;
    h := Head(0, 0, 0, 0, 0);
    if len < AuthDataSize(0) {
      return Rejected, h;
    }
    h := DecodeHead(data[..len]);
    BodyFitsIff(h, len);
    if !BodyFits(h, len) {
      return Rejected, h;
    }
    r := Body(HEAD_SIZE);
    assert data[..len][HEAD_SIZE..HEAD_SIZE + h.len] == data[HEAD_SIZE..HEAD_SIZE + h.len];
  }
}
