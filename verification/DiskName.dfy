/** Device names derived from volume ids: driver/encoding.go, genDiskID, and driver/node.go, getDeviceByIDPath. */
module DiskName {
  import opened Bits
  import opened GoStrings

  type Byte = x: int | 0 <= x < 256

  /** The bytes of a volume id. */
  type VolumeId = seq<Byte>

  // FNV-1a, 32 bits: section 2 of draft-eastlake-fnv
  const WORD := 0x1_0000_0000
  const FNV_OFFSET_BASIS := 2166136261
  const FNV_PRIME := 16777619
  const FNV_PRIME_INVERSE := 899433627

  /** A uint32. */
  type Word = x: int | 0 <= x < WORD

  function TimesPrime(x: Word): Word {
    x * FNV_PRIME % WORD
  }

  function DividedByPrime(x: Word): Word {
    x * FNV_PRIME_INVERSE % WORD
  }

  function Mixed(h: Word, b: Byte): Word {
    assert Pow2(8) == 256 && Pow2(16) == 65536 && Pow2(24) == 0x100_0000 && Pow2(32) == WORD;
    XorFits(h, b, 32);
    Xor(h, b)
  }

  function HashStep(h: Word, b: Byte): Word {
    TimesPrime(Mixed(h, b))
  }

  function HashFrom(h: Word, data: seq<Byte>): Word
    decreases |data|
  {
    if data == [] then h else HashFrom(HashStep(h, data[0]), data[1..])
  }

  function Sum32(data: seq<Byte>): Word {
    HashFrom(FNV_OFFSET_BASIS, data)
  }

  /** driver/encoding.go, genDiskID */
  function GenDiskId(id: VolumeId): string {
    "csi-" + Itoa(Sum32(id))
  }

  // ---------- the hash is FNV-1a ----------

  lemma {:induction false} HashOfConcat(h: Word, a: seq<Byte>, b: seq<Byte>)
    ensures HashFrom(h, a + b) == HashFrom(HashFrom(h, a), b)
    decreases |a|
  {
    if a == [] {
      assert a + b == b;
    } else {
      assert (a + b)[1..] == a[1..] + b;
      HashOfConcat(HashStep(h, a[0]), a[1..], b);
    }
  }

  /** FNV-1a: from the 32-bit offset basis, each byte is first xored in and then multiplied by the 32-bit prime. */
  lemma HashIsFnv1a(data: seq<Byte>, b: Byte)
    ensures Sum32([]) == 2166136261
    ensures Sum32(data + [b]) == Xor(Sum32(data), b) * 16777619 % 0x1_0000_0000
  {
    HashOfConcat(FNV_OFFSET_BASIS, data, [b]);
  }

  /** A byte changes the low byte only. */
  lemma XorByte(h: nat, low: nat, b: Byte, mixed: nat)
    requires low < 256 && h >= low && (h - low) % 256 == 0 && Xor(low, b) == mixed
    ensures Xor(h, b) == h - low + mixed
  {
    assert Pow2(8) == 256;
    hide Xor;
    var high := (h - low) / 256;
    ByteShift(high);
    XorLow(high, low, b, 8);
  }

  lemma ByteShift(a: nat)
    ensures Shifted(a, 8) == 256 * a
  {
    assert Shifted(a, 1) == 2 * a;
    assert Shifted(a, 2) == 4 * a;
    assert Shifted(a, 3) == 8 * a;
    assert Shifted(a, 4) == 16 * a;
    assert Shifted(a, 5) == 32 * a;
    assert Shifted(a, 6) == 64 * a;
    assert Shifted(a, 7) == 128 * a;
  }

  lemma LowByteOfA()
    ensures Xor(197, 97) == 164
  {
    assert Xor(0, 0) == 0;
    hide Xor;
    XorBit(0, 0, 1, 0);
    XorBit(1, 0, 1, 1);
    XorBit(3, 1, 0, 1);
    XorBit(6, 3, 0, 0);
    XorBit(12, 6, 0, 0);
    XorBit(24, 12, 1, 0);
    XorBit(49, 24, 0, 0);
    XorBit(98, 48, 1, 1);
  }

  /** The published value for the text "a". */
  lemma HashOfA()
    ensures Sum32([97]) == 3826002220 && GenDiskId([97]) == "csi-3826002220"
    ensures ByIdPath([97]) == "/dev/disk/by-id/virtio-csi-3826002220"
  {
    hide Sum32, HashFrom, Xor, Itoa;
    HashIsFnv1a([], 97);
    assert [] + [97] == [97];
    LowByteOfA();
    XorByte(2166136261, 197, 97, 164);
    ItoaOfA();
  }

  lemma ItoaStep(n: nat, d: nat)
    requires n > 0 && d < 10
    ensures Itoa(10 * n + d) == Itoa(n) + [DigitChar(d)]
  {
  }

  lemma ItoaOfA()
    ensures Itoa(3826002220) == "3826002220"
  {
    hide Itoa, DigitChar;
    ItoaStep(382600222, 0);
    ItoaStep(38260022, 2);
    ItoaStep(3826002, 2);
    ItoaStep(382600, 2);
    ItoaStep(38260, 0);
    ItoaStep(3826, 0);
    ItoaStep(382, 6);
    ItoaStep(38, 2);
    ItoaStep(3, 8);
    Digits();
  }

  lemma Digits()
    ensures Itoa(3) == "3" && DigitChar(0) == '0' && DigitChar(2) == '2' && DigitChar(6) == '6' && DigitChar(8) == '8'
  {
  }

  /** The prime is odd, so multiplying by it modulo 2^32 can be undone. */
  lemma PrimeCancels(x: Word)
    ensures DividedByPrime(TimesPrime(x)) == x
    ensures TimesPrime(DividedByPrime(x)) == x
  {
    ProductUndone(x, FNV_PRIME, FNV_PRIME_INVERSE);
    ProductUndone(x, FNV_PRIME_INVERSE, FNV_PRIME);
  }

  lemma ProductUndone(x: Word, p: nat, q: nat)
    requires p * q == 1 + 3513497 * WORD
    ensures (x * p % WORD) * q % WORD == x
  {
    var r, d := x * p % WORD, x * p / WORD;
    assert r == x * p - d * WORD;
    calc {
      r * q;
      (x * p - d * WORD) * q;
      x * (p * q) - d * WORD * q;
      x * (1 + 3513497 * WORD) - d * WORD * q;
      x + (3513497 * x - d * q) * WORD;
    }
    WholeWordsVanish(x, 3513497 * x - d * q);
  }

  lemma WholeWordsVanish(x: Word, m: int)
    ensures (x + m * WORD) % WORD == x
  {
  }

  /** The state before a step, recovered from the state after it. */
  function UndoStep(h: Word, b: Byte): Word {
    Mixed(DividedByPrime(h), b)
  }

  /** For a fixed byte, a step is a bijection of the 32-bit state. */
  lemma StepIsBijective(h: Word, b: Byte)
    ensures UndoStep(HashStep(h, b), b) == h
    ensures HashStep(UndoStep(h, b), b) == h
  {
    PrimeCancels(Mixed(h, b));
    XorCancels(h, b);
    PrimeCancels(h);
    XorCancels(DividedByPrime(h), b);
  }

  /** For a fixed state, different bytes lead to different states. */
  lemma StepSeparatesBytes(h: Word, b: Byte, c: Byte)
    ensures HashStep(h, b) == HashStep(h, c) <==> b == c
  {
    PrimeCancels(Mixed(h, b));
    PrimeCancels(Mixed(h, c));
    XorCommutes(h, b);
    XorCommutes(h, c);
    XorCancels(b, h);
    XorCancels(c, h);
  }

  lemma {:induction false} HashFromInjective(g: Word, h: Word, data: seq<Byte>)
    ensures HashFrom(g, data) == HashFrom(h, data) <==> g == h
    decreases |data|
  {
    if data != [] {
      StepIsBijective(g, data[0]);
      StepIsBijective(h, data[0]);
      HashFromInjective(HashStep(g, data[0]), HashStep(h, data[0]), data[1..]);
    }
  }

  lemma {:induction false} OneByteApart(h: Word, a: seq<Byte>, b: seq<Byte>, k: nat)
    requires |a| == |b| && k < |a| && a[k] != b[k]
    requires forall i :: 0 <= i < |a| && i != k ==> a[i] == b[i]
    ensures HashFrom(h, a) != HashFrom(h, b)
    decreases k
  {
    if k == 0 {
      assert a[1..] == b[1..];
      StepSeparatesBytes(h, a[0], b[0]);
      HashFromInjective(HashStep(h, a[0]), HashStep(h, b[0]), a[1..]);
    } else {
      OneByteApart(HashStep(h, a[0]), a[1..], b[1..], k - 1);
    }
  }

  /** Device names are equal exactly when the hashes are. */
  lemma NameIdentifiesHash(a: VolumeId, b: VolumeId)
    ensures GenDiskId(a) == GenDiskId(b) <==> Sum32(a) == Sum32(b)
  {
    if GenDiskId(a) == GenDiskId(b) {
      assert GenDiskId(a)[4..] == Itoa(Sum32(a));
      assert GenDiskId(b)[4..] == Itoa(Sum32(b));
      ItoaInjective(Sum32(a), Sum32(b));
    }
  }

  /** Two ids of equal length that differ in exactly one byte never share a device name. */
  lemma NearIdsGetDifferentNames(a: VolumeId, b: VolumeId, k: nat)
    requires |a| == |b| && k < |a| && a[k] != b[k]
    requires forall i :: 0 <= i < |a| && i != k ==> a[i] == b[i]
    ensures GenDiskId(a) != GenDiskId(b)
  {
    OneByteApart(FNV_OFFSET_BASIS, a, b, k);
    NameIdentifiesHash(a, b);
  }

  /** driver/node.go, getDeviceByIDPath */
  function ByIdPath(id: VolumeId): string {
    LinkOfName(GenDiskId(id))
  }

  /** The link udev makes for a virtio disk attached under the given device name. */
  function LinkOfName(deviceName: string): string {
    "/dev/disk/by-id/virtio-" + deviceName
  }

  lemma LinkIdentifiesName(a: string, b: string)
    ensures LinkOfName(a) == LinkOfName(b) <==> a == b
  {
    var n := |"/dev/disk/by-id/virtio-"|;
    assert LinkOfName(a)[n..] == a && LinkOfName(b)[n..] == b;
  }
}
