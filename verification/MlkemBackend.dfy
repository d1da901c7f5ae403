/** Buffer handling of the three ML-KEM operations (benchmarking/firmware/src/pqm4_mlkem_backend.c).
    The primitives, the random generator and the key codec are uninterpreted: the environment
    picks their return codes and what they write. */
module MlkemBackend {
  import opened Allocator
  import opened Numbers

  datatype Level = NoLevel | Level(publicLen: Request, privateLen: Request, ciphertextLen: nat)

  datatype Code = Ok | Unavailable | BufferError | MemoryError | BadFuncArg | Foreign(code: int)

  const SHARED_SECRET_BYTES := 32

  /** Return codes of the foreign calls in the order an operation makes them, zero for success. */
  datatype Foreigners = Foreigners(haveRng: bool, rng: int, primitive: int, codec: int)

  function FromInt(code: int): Code { if code == 0 then Ok else Foreign(code) }

  function RngCode(f: Foreigners): Code { if f.haveRng then FromInt(f.rng) else BadFuncArg }

  function Then(first: Code, second: Code): Code { if first == Ok then second else first }

  const ZEROES: nat -> Byte := (i: nat) => 0

  predicate Wiped(data: seq<Byte>) {
    forall k :: 0 <= k < |data| ==> data[k] == 0
  }

  /** `after` extends `before` by wiped buffers only. */
  predicate OnlyWiped(before: seq<seq<Byte>>, after: seq<seq<Byte>>) {
    before <= after && forall k :: |before| <= k < |after| ==> Wiped(after[k])
  }

  /** What an operation may leave behind: the same live blocks and total it found, every buffer it
      gave back wiped first, and no earlier level forgotten. */
  twostate predicate LeavesNothing(h: WolfsslHeap)
    reads h
  {
    h.heap == old(h.heap) && h.inUse == old(h.inUse) && OnlyWiped(old(h.freed), h.freed) && old(h.levels) <= h.levels
  }

  /** Bytes of a buffer while it is held. */
  function Held(grant: nat, length: Request): nat { if grant == NULL then 0 else Max(1, length) }

  /** XMEMSET to zero, then XFREE, unless the buffer was never granted. */
  method Release(h: WolfsslHeap, p: nat)
    requires h.Valid() && (p == NULL || p in h.heap)
    modifies h
    ensures h.Valid() && h.heap == old(h.heap) - {p} && h.failures == old(h.failures)
    ensures OnlyWiped(old(h.freed), h.freed) && |h.freed| == |old(h.freed)| + if p == NULL then 0 else 1
    ensures old(h.levels) <= h.levels && h.maxInUse == old(h.maxInUse)
  {
    if p != NULL {
      h.Overwrite(p, ZEROES);
      assert h.heap - {p} == old(h.heap) - {p};
      h.XFree(p);
    } else {
      assert h.heap - {p} == h.heap;
    }
  }

  lemma RemoveBoth(heap: Heap, p: nat, q: nat)
    ensures heap - {p} - {q} == heap - {p, q}
  {}

  /** Both key buffers are asked for, even when the first is refused. */
  method AllocatePair(h: WolfsslHeap, level: Level, pkGrant: nat, skGrant: nat, junk: nat -> Byte) returns (pk: nat, sk: nat)
    requires h.Valid() && level.Level? && pkGrant !in h.heap && skGrant !in h.heap && (pkGrant == NULL || pkGrant != skGrant)
    modifies h
    ensures h.Valid() && pk == pkGrant && sk == skGrant && h.freed == old(h.freed)
    ensures h.heap - {pk, sk} == old(h.heap)
    ensures (pk == NULL || pk in h.heap) && (sk == NULL || sk in h.heap)
    ensures h.failures == old(h.failures) + (if pk == NULL then 1 else 0) + (if sk == NULL then 1 else 0)
    ensures h.inUse == old(h.inUse) + Held(pk, level.publicLen) + Held(sk, level.privateLen)
    ensures old(h.levels) <= h.levels && h.maxInUse == Max(old(h.maxInUse), h.inUse)
  {
    PeakIsMaximum(h.levels);
    pk := h.XMalloc(level.publicLen, pkGrant, junk);
    sk := h.XMalloc(level.privateLen, skGrant, junk);
  }

  /** Random coins, key pair, private-key decoding; each step only if the one before succeeded. */
  method GenerateInto(h: WolfsslHeap, pk: nat, sk: nat, f: Foreigners, written: nat -> Byte) returns (ret: Code)
    requires h.Valid() && pk in h.heap && sk in h.heap
    modifies h`heap
    ensures h.Valid() && h.heap.Keys == old(h.heap).Keys && h.heap - {pk, sk} == old(h.heap) - {pk, sk}
    ensures ret == Then(Then(RngCode(f), FromInt(f.primitive)), FromInt(f.codec))
  {
    ret := RngCode(f);
    if ret == Ok {
      h.Overwrite(pk, written);
      h.Overwrite(sk, written);
      ret := FromInt(f.primitive);
    }
    if ret == Ok {
      ret := FromInt(f.codec);
    }
  }

  method MakeKey(h: WolfsslHeap, level: Level, f: Foreigners, pkGrant: nat, skGrant: nat, junk: nat -> Byte, written: nat -> Byte)
    returns (ret: Code)
    requires h.Valid() && pkGrant !in h.heap && skGrant !in h.heap && (pkGrant == NULL || pkGrant != skGrant)
    modifies h
    ensures h.Valid() && LeavesNothing(h)
    ensures ret ==
      if level == NoLevel then Unavailable
      else if pkGrant == NULL || skGrant == NULL then MemoryError
      else if !f.haveRng then BadFuncArg
      else if f.rng != 0 then Foreign(f.rng)
      else if f.primitive != 0 then Foreign(f.primitive)
      else if f.codec != 0 then Foreign(f.codec)
      else Ok
    ensures h.failures == old(h.failures) +
      if level == NoLevel then 0 else (if pkGrant == NULL then 1 else 0) + (if skGrant == NULL then 1 else 0)
    ensures h.maxInUse ==
      if level == NoLevel then old(h.maxInUse)
      else Max(old(h.maxInUse), old(h.inUse) + Held(pkGrant, level.publicLen) + Held(skGrant, level.privateLen))
  {
    if level == NoLevel {
      return Unavailable;
    }
    var pk, sk := AllocatePair(h, level, pkGrant, skGrant, junk);
    if pk == NULL || sk == NULL {
      ret := MemoryError;
    } else {
      ret := GenerateInto(h, pk, sk, f, written);
    }
    RemoveBoth(h.heap, pk, sk);
    Release(h, pk);
    Release(h, sk);
  }

  predicate LengthsAgree(level: Level, haveBuffers: bool, ctLen: nat, ssLen: nat) {
    level.Level? && haveBuffers && ctLen == level.ciphertextLen && ssLen == SHARED_SECRET_BYTES
  }

  method Encapsulate(h: WolfsslHeap, level: Level, haveBuffers: bool, ctLen: nat, ssLen: nat,
                     f: Foreigners, pkGrant: nat, junk: nat -> Byte, written: nat -> Byte)
    returns (ret: Code)
    requires h.Valid() && pkGrant !in h.heap
    modifies h
    ensures h.Valid() && LeavesNothing(h)
    ensures ret ==
      if level == NoLevel then Unavailable
      else if !LengthsAgree(level, haveBuffers, ctLen, ssLen) then BufferError
      else if pkGrant == NULL then MemoryError
      else if f.codec != 0 then Foreign(f.codec)
      else if !f.haveRng then BadFuncArg
      else if f.rng != 0 then Foreign(f.rng)
      else if f.primitive != 0 then Foreign(f.primitive)
      else Ok
    ensures h.maxInUse ==
      if !LengthsAgree(level, haveBuffers, ctLen, ssLen) then old(h.maxInUse)
      else Max(old(h.maxInUse), old(h.inUse) + Held(pkGrant, level.publicLen))
    ensures h.failures == old(h.failures) +
      if LengthsAgree(level, haveBuffers, ctLen, ssLen) && pkGrant == NULL then 1 else 0
  {
    if level == NoLevel {
      return Unavailable;
    }
    if !haveBuffers || ctLen != level.ciphertextLen || ssLen != SHARED_SECRET_BYTES {
      return BufferError;
    }
    PeakIsMaximum(h.levels);
    var pk := h.XMalloc(level.publicLen, pkGrant, junk);
    if pk == NULL {
      return MemoryError;
    }
    h.Overwrite(pk, written);
    ret := FromInt(f.codec);
    if ret == Ok {
      ret := RngCode(f);
    }
    if ret == Ok {
      ret := FromInt(f.primitive);
    }
    Release(h, pk);
    assert h.heap == old(h.heap);
  }

  method Decapsulate(h: WolfsslHeap, level: Level, haveBuffers: bool, ctLen: nat, ssLen: nat,
                     f: Foreigners, skGrant: nat, junk: nat -> Byte, written: nat -> Byte)
    returns (ret: Code)
    requires h.Valid() && skGrant !in h.heap
    modifies h
    ensures h.Valid() && LeavesNothing(h)
    ensures ret ==
      if level == NoLevel then Unavailable
      else if !LengthsAgree(level, haveBuffers, ctLen, ssLen) then BufferError
      else if skGrant == NULL then MemoryError
      else if f.codec != 0 then Foreign(f.codec)
      else if f.primitive != 0 then Foreign(f.primitive)
      else Ok
    ensures h.maxInUse ==
      if !LengthsAgree(level, haveBuffers, ctLen, ssLen) then old(h.maxInUse)
      else Max(old(h.maxInUse), old(h.inUse) + Held(skGrant, level.privateLen))
    ensures h.failures == old(h.failures) +
      if LengthsAgree(level, haveBuffers, ctLen, ssLen) && skGrant == NULL then 1 else 0
  {
    if level == NoLevel {
      return Unavailable;
    }
    if !haveBuffers || ctLen != level.ciphertextLen || ssLen != SHARED_SECRET_BYTES {
      return BufferError;
    }
    PeakIsMaximum(h.levels);
    var sk := h.XMalloc(level.privateLen, skGrant, junk);
    if sk == NULL {
      return MemoryError;
    }
    h.Overwrite(sk, written);
    ret := FromInt(f.codec);
    if ret == Ok {
      ret := FromInt(f.primitive);
    }
    Release(h, sk);
    assert h.heap == old(h.heap);
  }
}
