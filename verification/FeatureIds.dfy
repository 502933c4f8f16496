/** Feature ids: a slot id above a hash, packed into 64 bits by Python and unpacked by the C++ kernels. */
module FeatureIds {

  const TWO_64: int := 0x1_0000_0000_0000_0000
  const TWO_63: int := 0x8000_0000_0000_0000

  /** Bits 0..53 (0..47 in the second format) hold the hash; the slot sits above them. */
  const FEATURE_SPAN: int := 0x40_0000_0000_0000
  const FEATURE_SPAN_V2: int := 0x1_0000_0000_0000

  function FeatureSpan(useFidV2: bool): int {
    if useFidV2 then FEATURE_SPAN_V2 else FEATURE_SPAN
  }

  function MaxSlots(useFidV2: bool): int {
    if useFidV2 then 32768 else 1024
  }

  /** `np.int64(np.uint64(x))`: the bits of an unsigned word read as a signed one. */
  function ToInt64(u: int): int {
    if u >= TWO_63 then u - TWO_64 else u
  }

  /** `static_cast<uint64>` of a signed word. */
  function ToUint64(x: int): int {
    if x < 0 then x + TWO_64 else x
  }

  /** `make_fid` and `make_fid_v2`: masking keeps the hash modulo the span, and the two parts share no bit. */
  function MakeFid(slotId: int, hash: int, useFidV2: bool): int {
    ToInt64(hash % FeatureSpan(useFidV2) + slotId * FeatureSpan(useFidV2))
  }

  /** `get_slot`: a right shift of the unsigned word. */
  function GetSlot(fid: int, useFidV2: bool): int {
    fid / FeatureSpan(useFidV2)
  }

  /** `hash_fid`: the masked low bits modulo the slot's hash size. */
  function HashFid(fid: int, hashSize: int, useFidV2: bool): int
    requires hashSize > 0
  {
    (fid % FeatureSpan(useFidV2)) % hashSize
  }

  /** `to_fid_v2`: re-packs an id of the first format. */
  function ToFidV2(fid: int): int {
    GetSlot(fid, false) * FEATURE_SPAN_V2 + fid % FEATURE_SPAN_V2
  }

  /** Packing loses neither the slot nor the hash, for any Python hash value, negative ones included. */
  lemma FidRoundTrip(slotId: int, hash: int, hashSize: int, useFidV2: bool)
    requires 0 <= slotId < MaxSlots(useFidV2) && hashSize > 0
    ensures var fid := MakeFid(slotId, hash, useFidV2);
            && -TWO_63 <= fid < TWO_63 && (useFidV2 ==> 0 <= fid)
            && GetSlot(ToUint64(fid), useFidV2) == slotId
            && HashFid(ToUint64(fid), hashSize, useFidV2) == (hash % FeatureSpan(useFidV2)) % hashSize
  {
    if useFidV2 {
      Unpack(hash % FEATURE_SPAN_V2, slotId, FEATURE_SPAN_V2);
    } else {
      Unpack(hash % FEATURE_SPAN, slotId, FEATURE_SPAN);
    }
  }

  /** The formats use their bits up: every 64-bit word is the id of its slot and low bits in the first format, and so is
      every word without a sign bit in the second, whose ids are never negative. */
  lemma FormatsFillTheWord(word: int, useFidV2: bool)
    requires 0 <= word < if useFidV2 then TWO_63 else TWO_64
    ensures 0 <= GetSlot(word, useFidV2) < MaxSlots(useFidV2)
    ensures MakeFid(GetSlot(word, useFidV2), word, useFidV2) == ToInt64(word)
    ensures useFidV2 ==> MakeFid(GetSlot(word, useFidV2), word, useFidV2) >= 0
  {
    if useFidV2 {
      assert word == word % FEATURE_SPAN_V2 + (word / FEATURE_SPAN_V2) * FEATURE_SPAN_V2;
    } else {
      assert word == word % FEATURE_SPAN + (word / FEATURE_SPAN) * FEATURE_SPAN;
    }
  }

  lemma Unpack(low: int, high: int, span: int)
    requires 0 <= low < span
    ensures (low + high * span) / span == high && (low + high * span) % span == low
  {
    var v := low + high * span;
    var q, r := v / span, v % span;
    QuotientIsUnique(q, r, high, low, span);
  }

  lemma QuotientIsUnique(q: int, r: int, q': int, r': int, d: int)
    requires 0 <= r < d && 0 <= r' < d && q * d + r == q' * d + r'
    ensures q == q' && r == r'
  {
    if q > q' {
      AtLeastOnce(q, q', d);
    } else if q < q' {
      AtLeastOnce(q', q, d);
    }
  }

  lemma {:induction false} AtLeastOnce(q: int, q': int, d: int)
    requires q > q' && d > 0
    ensures q * d >= q' * d + d
    decreases q - q'
  {
    assert q * d == (q - 1) * d + d;
    if q - 1 > q' {
      AtLeastOnce(q - 1, q', d);
    }
  }

  /** Re-packing keeps the slot and the low 48 bits of the hash. */
  lemma ToFidV2KeepsSlot(fid: int)
    requires 0 <= fid < TWO_64
    ensures GetSlot(ToFidV2(fid), true) == GetSlot(fid, false)
    ensures ToFidV2(fid) % FEATURE_SPAN_V2 == fid % FEATURE_SPAN_V2
  {
    Unpack(fid % FEATURE_SPAN_V2, GetSlot(fid, false), FEATURE_SPAN_V2);
  }
}
