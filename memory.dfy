/** The 64 KiB memory block `Mem`. */
module Memory {
  import opened Types

  class Mem {
    /** The byte array; its identity never changes, its contents do. */
    const Data: array<u8>

    predicate Valid() { Data.Length == MAX_MEM }

    /** A fresh block; like a C++ `Mem` before `Initialise`, its contents
        are not specified. */
    constructor ()
      ensures Valid() && fresh(Data)
    {
      Data := new u8[MAX_MEM];
    }

    /** Zero-fills every byte, one index at a time. */
    method Initialise()
      requires Valid()
      modifies Data
      ensures Data[..] == Zeros()
    {
      for i := 0 to MAX_MEM
        invariant forall k :: 0 <= k < i ==> Data[k] == 0
      {
        Data[i] := 0;
      }
      assert forall k :: 0 <= k < MAX_MEM ==> Data[..][k] == Zeros()[k];
    }

    /** The reading subscript operator: the byte stored at `Address`. The
        source's assert becomes the precondition. */
    function Read(Address: u32): (b: u8)
      requires Valid() && Address < MAX_MEM
      reads Data
      ensures b == Data[..][Address]
    {
      Data[Address]
    }

    /** The writing subscript operator, used as `mem[Address] = Value`:
        exactly one byte changes. */
    method Write(Address: u32, Value: u8)
      requires Valid() && Address < MAX_MEM
      modifies Data
      ensures Data[..] == old(Data[..])[Address := Value]
    {
      Data[Address] := Value;
    }

    /** Stores `Value` little-endian at `Address` and `Address + 1` and debits
        two cycles. The source does no bounds check of its own; the second
        store is only defined when `Address + 1` is inside the array. */
    method WriteWord(Value: u16, Address: u32, Cycles: u32) returns (cycles': u32)
      requires Valid() && Address + 1 < MAX_MEM
      modifies Data
      ensures Data[..] == old(Data[..])[Address := Value % 0x100][Address + 1 := Value / 0x100]
      ensures cycles' == Sub32(Cycles, 2)
    {
      Data[Address] := Value % 0x100;
      Data[Address + 1] := Value / 0x100;
      cycles' := Sub32(Cycles, 2);
    }
  }
}
