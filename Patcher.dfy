/**
 * Patcher::InstallCallHook: overwrites five bytes of the game's code with a
 * near CALL (opcode E8 followed by a 32-bit little-endian displacement
 * relative to the next instruction), as the Intel 64 and IA-32 Architectures
 * Software Developer's Manual, Volume 2A, describes under "CALL - Call
 * Procedure". The game is a 32-bit process, so addresses and pointers are
 * 32 bits wide and wrap around.
 */
module Patcher {
  import opened Types

  const CALL_OPCODE: uint8 := 0xE8
  const CALL_LENGTH: nat := 5

  /** `a + k` as a 32-bit address. */
  function Offset(a: uint32, k: nat): uint32
  {
    (a + k) % UINT32_LIMIT
  }

  /** The rel32 operand: the target minus the address of the next instruction, modulo 2^32. */
  function CallDisplacement(address: uint32, target: uint32): (d: uint32)
    ensures (address + CALL_LENGTH + d) % UINT32_LIMIT == target
  {
    (target - address - CALL_LENGTH) % UINT32_LIMIT
  }

  /** Where a CALL at `address` with displacement `d` transfers control. */
  function CallTarget(address: uint32, d: uint32): uint32
  {
    (address + CALL_LENGTH + d) % UINT32_LIMIT
  }

  /** The displacement is the only one that reaches the target: encoding and decoding are inverse. */
  lemma CallDisplacementUnique(address: uint32, target: uint32, d: uint32)
    ensures CallTarget(address, d) == target <==> d == CallDisplacement(address, target)
  {
    var e := CallDisplacement(address, target);
    if CallTarget(address, d) == target {
      assert (address + CALL_LENGTH + d) % UINT32_LIMIT == (address + CALL_LENGTH + e) % UINT32_LIMIT;
      ModularCancel(address + CALL_LENGTH, d, e);
    }
  }

  lemma ModularCancel(base: int, d: uint32, e: uint32)
    requires (base + d) % UINT32_LIMIT == (base + e) % UINT32_LIMIT
    ensures d == e
  {
    var q1, q2 := (base + d) / UINT32_LIMIT, (base + e) / UINT32_LIMIT;
    assert d - e == (q1 - q2) * UINT32_LIMIT;
  }

  /** A uint32 as it is stored in memory on x86: least significant byte first. */
  function LittleEndian32(v: uint32): (b: seq<uint8>)
    ensures |b| == 4
  {
    [v % 0x100, v / 0x100 % 0x100, v / 0x1_0000 % 0x100, v / 0x100_0000]
  }

  function FromLittleEndian32(b: seq<uint8>): uint32
    requires |b| == 4
  {
    b[0] as int + b[1] as int * 0x100 + b[2] as int * 0x1_0000 + b[3] as int * 0x100_0000
  }

  /** Reading back a stored uint32 gives the value that was stored. */
  lemma LittleEndianRoundTrip(v: uint32)
    ensures FromLittleEndian32(LittleEndian32(v)) == v
  {
    var b := LittleEndian32(v);
    assert v / 0x100 == b[1] + v / 0x1_0000 * 0x100;
    assert v / 0x1_0000 == b[2] + v / 0x100_0000 * 0x100;
  }

  /** Storing the value read from four bytes writes the same four bytes. */
  lemma FromLittleEndianRoundTrip(b: seq<uint8>)
    requires |b| == 4
    ensures LittleEndian32(FromLittleEndian32(b)) == b
  {
    var v := FromLittleEndian32(b);
    assert v % 0x100 == b[0];
    assert v / 0x100 == b[1] as int + b[2] as int * 0x100 + b[3] as int * 0x1_0000;
    assert v / 0x1_0000 == b[2] as int + b[3] as int * 0x100;
    assert v / 0x100_0000 == b[3];
  }

  /** Memory after a 4-byte store of `v` at `address` (addresses wrap around). */
  function StoreWord(memory: map<uint32, uint8>, address: uint32, v: uint32): map<uint32, uint8>
  {
    var b := LittleEndian32(v);
    memory[address := b[0]][Offset(address, 1) := b[1]][Offset(address, 2) := b[2]][Offset(address, 3) := b[3]]
  }

  /** The memory a successful InstallCallHook leaves behind: the opcode, then the displacement. */
  function Patched(memory: map<uint32, uint8>, address: uint32, target: uint32): map<uint32, uint8>
  {
    StoreWord(memory[address := CALL_OPCODE], Offset(address, 1), CallDisplacement(address, target))
  }

  /** The five addresses of the instruction are distinct, so no store overwrites another. */
  lemma OffsetsDistinct(address: uint32, i: nat, j: nat)
    requires i < j < CALL_LENGTH
    ensures Offset(address, i) != Offset(address, j)
  {
  }

  lemma OffsetStep(address: uint32, k: nat)
    ensures Offset(Offset(address, 1), k) == Offset(address, k + 1)
  {
  }

  datatype Option32 = NotFound | Found(value: uint32)

  /** What a CALL at `address` in `memory` calls, if the five bytes there are a CALL at all. */
  function DecodeCall(memory: map<uint32, uint8>, address: uint32): (target: Option32)
  {
    var a1, a2, a3, a4 := Offset(address, 1), Offset(address, 2), Offset(address, 3), Offset(address, 4);
    if address in memory && a1 in memory && a2 in memory && a3 in memory && a4 in memory && memory[address] == CALL_OPCODE then
      Found(CallTarget(address, FromLittleEndian32([memory[a1], memory[a2], memory[a3], memory[a4]])))
    else NotFound
  }

  /** The patched instruction decodes as a CALL of the hook function. */
  lemma PatchedIsCall(memory: map<uint32, uint8>, address: uint32, target: uint32)
    ensures DecodeCall(Patched(memory, address, target), address) == Found(target)
  {
    var d := CallDisplacement(address, target);
    var m := Patched(memory, address, target);
    var b := LittleEndian32(d);
    OffsetStep(address, 1);
    OffsetStep(address, 2);
    OffsetStep(address, 3);
    OffsetsDistinct(address, 0, 1);
    OffsetsDistinct(address, 0, 2);
    OffsetsDistinct(address, 0, 3);
    OffsetsDistinct(address, 0, 4);
    OffsetsDistinct(address, 1, 2);
    OffsetsDistinct(address, 1, 3);
    OffsetsDistinct(address, 1, 4);
    OffsetsDistinct(address, 2, 3);
    OffsetsDistinct(address, 2, 4);
    OffsetsDistinct(address, 3, 4);
    assert Offset(address, 0) == address;
    assert [m[Offset(address, 1)], m[Offset(address, 2)], m[Offset(address, 3)], m[Offset(address, 4)]] == b;
    LittleEndianRoundTrip(d);
    CallDisplacementUnique(address, target, d);
  }

  /** Every address outside the five instruction bytes is left as it was. */
  lemma PatchedFrame(memory: map<uint32, uint8>, address: uint32, target: uint32, a: uint32)
    requires forall k :: 0 <= k < CALL_LENGTH ==> a != Offset(address, k)
    ensures a in Patched(memory, address, target) <==> a in memory
    ensures a in memory ==> Patched(memory, address, target)[a] == memory[a]
  {
    assert a != Offset(address, 0) && a != Offset(address, 1) && a != Offset(address, 2);
    assert a != Offset(address, 3) && a != Offset(address, 4);
    OffsetStep(address, 1);
    OffsetStep(address, 2);
    OffsetStep(address, 3);
  }

  /** `a` is not one of the five bytes of a CALL written at `address`. */
  predicate Outside(a: uint32, address: uint32)
  {
    forall k :: 0 <= k < CALL_LENGTH ==> a != Offset(address, k)
  }

  /** Two CALLs written at `a` and at `b` share no byte. */
  predicate Disjoint(a: uint32, b: uint32)
  {
    forall k :: 0 <= k < CALL_LENGTH ==> Outside(Offset(a, k), b)
  }

  /** A call site the plug-in patches and the address of the hook function it installs there. */
  datatype CallHook = CallHook(address: uint32, hook: uint32)

  /** Whether an installation threw, and the memory it left. */
  datatype Installation = Installation(thrown: bool, memory: map<uint32, uint8>)

  /**
   * Several InstallCallHook calls in a row, as an Install function makes
   * them: each site is patched in turn, and the first site whose bytes cannot
   * be made writable (`protect` is false) throws, so no later site is written.
   */
  function InstallAll(memory: map<uint32, uint8>, hooks: seq<CallHook>, protect: uint32 -> bool): (r: Installation)
    ensures r.thrown <==> exists i :: 0 <= i < |hooks| && !protect(hooks[i].address)
    decreases |hooks|
  {
    if hooks == [] then Installation(false, memory)
    else if !protect(hooks[0].address) then Installation(true, memory)
    else
      var r := InstallAll(Patched(memory, hooks[0].address, hooks[0].hook), hooks[1..], protect);
      assert forall i :: 0 < i < |hooks| ==> hooks[i] == hooks[1..][i - 1];
      r
  }

  /** Bytes outside every site are left as they were. */
  lemma {:induction false} InstallAllFrame(memory: map<uint32, uint8>, hooks: seq<CallHook>, protect: uint32 -> bool, a: uint32)
    requires forall i :: 0 <= i < |hooks| ==> Outside(a, hooks[i].address)
    ensures a in InstallAll(memory, hooks, protect).memory <==> a in memory
    ensures a in memory ==> InstallAll(memory, hooks, protect).memory[a] == memory[a]
    decreases |hooks|
  {
    if hooks != [] && protect(hooks[0].address) {
      PatchedFrame(memory, hooks[0].address, hooks[0].hook, a);
      InstallAllFrame(Patched(memory, hooks[0].address, hooks[0].hook), hooks[1..], protect, a);
    }
  }

  /** Decoding a CALL reads only its five bytes. */
  lemma DecodeCallFrame(m1: map<uint32, uint8>, m2: map<uint32, uint8>, address: uint32)
    requires forall k :: 0 <= k < CALL_LENGTH ==>
      (Offset(address, k) in m1 <==> Offset(address, k) in m2) &&
      (Offset(address, k) in m1 ==> m1[Offset(address, k)] == m2[Offset(address, k)])
    ensures DecodeCall(m1, address) == DecodeCall(m2, address)
  {
    assert Offset(address, 0) == address;
    assert Offset(address, 1) in m1 <==> Offset(address, 1) in m2;
    assert Offset(address, 2) in m1 <==> Offset(address, 2) in m2;
    assert Offset(address, 3) in m1 <==> Offset(address, 3) in m2;
    assert Offset(address, 4) in m1 <==> Offset(address, 4) in m2;
  }

  /**
   * When every site can be written and no two sites overlap, each site ends
   * up holding a CALL of its own hook: no later patch clobbers an earlier one.
   */
  lemma {:induction false} InstallAllDecodes(memory: map<uint32, uint8>, hooks: seq<CallHook>, protect: uint32 -> bool, i: nat)
    requires forall j :: 0 <= j < |hooks| ==> protect(hooks[j].address)
    requires forall j, l :: 0 <= j < l < |hooks| ==> Disjoint(hooks[j].address, hooks[l].address)
    requires i < |hooks|
    ensures DecodeCall(InstallAll(memory, hooks, protect).memory, hooks[i].address) == Found(hooks[i].hook)
    decreases |hooks|
  {
    var patched := Patched(memory, hooks[0].address, hooks[0].hook);
    var rest := hooks[1..];
    if i == 0 {
      PatchedIsCall(memory, hooks[0].address, hooks[0].hook);
      forall k | 0 <= k < CALL_LENGTH
        ensures Offset(hooks[0].address, k) in InstallAll(patched, rest, protect).memory <==> Offset(hooks[0].address, k) in patched
        ensures Offset(hooks[0].address, k) in patched ==>
          InstallAll(patched, rest, protect).memory[Offset(hooks[0].address, k)] == patched[Offset(hooks[0].address, k)]
      {
        forall j | 0 <= j < |rest|
          ensures Outside(Offset(hooks[0].address, k), rest[j].address)
        {
          assert rest[j] == hooks[j + 1];
          assert Disjoint(hooks[0].address, hooks[j + 1].address);
        }
        InstallAllFrame(patched, rest, protect, Offset(hooks[0].address, k));
      }
      DecodeCallFrame(InstallAll(patched, rest, protect).memory, patched, hooks[0].address);
    } else {
      assert rest[i - 1] == hooks[i];
      forall j, l | 0 <= j < l < |rest|
        ensures Disjoint(rest[j].address, rest[l].address)
      {
        assert rest[j] == hooks[j + 1] && rest[l] == hooks[l + 1];
      }
      forall j | 0 <= j < |rest|
        ensures protect(rest[j].address)
      {
        assert rest[j] == hooks[j + 1];
      }
      InstallAllDecodes(patched, rest, protect, i - 1);
    }
  }

  /** The process's memory, a byte per address, as far as the plug-in touches it. */
  class ProcessMemory {
    var bytes: map<uint32, uint8>

    constructor (initial: map<uint32, uint8>)
      ensures bytes == initial
    {
      bytes := initial;
    }

    /** A byte store through a `uint8_t*`. */
    method WriteByte(address: uint32, value: uint8)
      modifies this
      ensures bytes == old(bytes)[address := value]
    {
      bytes := bytes[address := value];
    }

    /** A 4-byte store through a `uintptr_t*`. */
    method WriteUInt32(address: uint32, value: uint32)
      modifies this
      ensures bytes == StoreWord(old(bytes), address, value)
    {
      var b := LittleEndian32(value);
      bytes := bytes[address := b[0]][Offset(address, 1) := b[1]][Offset(address, 2) := b[2]][Offset(address, 3) := b[3]];
    }

    /**
     * InstallCallHook. `protectSucceeds` is the outcome of making the five
     * bytes writable; when it fails an exception is thrown (`thrown`) before
     * anything is written.
     */
    method InstallCallHook(targetAddress: uint32, pfnFunc: uint32, protectSucceeds: bool) returns (thrown: bool)
      modifies this
      ensures thrown <==> !protectSucceeds
      ensures thrown ==> bytes == old(bytes)
      ensures !thrown ==> bytes == Patched(old(bytes), targetAddress, pfnFunc)
    {
      if !protectSucceeds {
        return true;
      }
      thrown := false;
      WriteByte(targetAddress, CALL_OPCODE);
      WriteUInt32(Offset(targetAddress, 1), CallDisplacement(targetAddress, pfnFunc));
    }
  }
}
