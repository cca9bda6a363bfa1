/** The memory space of the CISC-16-A simulator, as a value.
    These functions say what a read, a write, a run of writes and an image load
    do to the 64 KiB of bytes and to the sequence of VGA reports; the methods of
    Machine.Simulator are proved to perform exactly these changes in place. */
module Memory {
  import opened Display

  const MEMORY_SIZE: int := 65536

  newtype byte = x: int | 0 <= x < 256

  /** An address the bounds check lets through. */
  predicate InMemory(address: int) {
    0 <= address < MEMORY_SIZE
  }

  /** `value & 0xFF` on an unbounded two's-complement integer: the residue of
      the value modulo 256, also for negative values (-1 becomes 255). */
  function Mask(value: int): (b: byte)
    ensures (value - b as int) % 256 == 0
    ensures 0 <= value < 256 ==> b as int == value
  {
    (value % 256) as byte
  }

  /** The bytes and the VGA reports emitted so far. */
  datatype MemorySpace = MemorySpace(bytes: seq<byte>, reports: seq<Report>)

  predicate Valid(m: MemorySpace) {
    |m.bytes| == MEMORY_SIZE
  }

  /** Every byte zero and nothing reported: the state at construction. */
  function PowerOn(): (m: MemorySpace)
    ensures Valid(m) && m.reports == []
    ensures forall a :: InMemory(a) ==> m.bytes[a] == 0
  {
    MemorySpace(seq(MEMORY_SIZE, _ => 0), [])
  }

  /** read_memory: the stored byte in range, 0 everywhere else. */
  function Read(m: MemorySpace, address: int): (b: byte)
    requires Valid(m)
    ensures InMemory(address) ==> b == m.bytes[address]
    ensures !InMemory(address) ==> b == 0
  {
    if 0 <= address < |m.bytes| then m.bytes[address] else 0
  }

  /** write_memory: store the masked value in range, then forward the raw
      value to the display when the address is in the VGA window. */
  function Write(m: MemorySpace, address: int, value: int): (r: MemorySpace)
    requires Valid(m)
    ensures Valid(r)
    ensures !InMemory(address) ==> r == m
    ensures InMemory(address) ==> Read(r, address) == Mask(value)
    ensures forall a :: a != address ==> Read(r, a) == Read(m, a)
    ensures InMemory(address) && InVga(address) ==>
      r.reports == m.reports + [VgaReport(address, value)]
    ensures !(InMemory(address) && InVga(address)) ==> r.reports == m.reports
  {
    if 0 <= address < |m.bytes| then
      var reports := if InVga(address) then m.reports + [VgaReport(address, value)] else m.reports;
      MemorySpace(m.bytes[address := Mask(value)], reports)
    else
      m
  }

  /** One call of write_memory. */
  datatype WriteOp = WriteOp(address: int, value: int)

  /** The writes of `ops`, performed first to last. */
  function WriteAll(m: MemorySpace, ops: seq<WriteOp>): (r: MemorySpace)
    requires Valid(m)
    ensures Valid(r)
    decreases |ops|
  {
    if ops == [] then m
    else
      var n := |ops| - 1;
      Write(WriteAll(m, ops[..n]), ops[n].address, ops[n].value)
  }

  /** An in-range write replaces exactly one byte. */
  lemma WriteStoresByte(m: MemorySpace, address: int, value: int)
    requires Valid(m) && InMemory(address)
    ensures Write(m, address, value).bytes == m.bytes[address := Mask(value)]
  {
  }

  /** Running a prefix of the writes one element longer is running the
      shorter prefix and then that element. */
  lemma WriteAllSnoc(m: MemorySpace, ops: seq<WriteOp>, k: nat)
    requires Valid(m)
    requires k < |ops|
    ensures WriteAll(m, ops[..k + 1]) == Write(WriteAll(m, ops[..k]), ops[k].address, ops[k].value)
  {
    assert ops[..k + 1][..k] == ops[..k];
  }

  /** Running two lists of writes one after the other is running their
      concatenation. */
  lemma {:induction false} WriteAllAppend(m: MemorySpace, first: seq<WriteOp>, second: seq<WriteOp>)
    requires Valid(m)
    ensures WriteAll(m, first + second) == WriteAll(WriteAll(m, first), second)
    decreases |second|
  {
    if second == [] {
      assert first + second == first;
    } else {
      var n := |second| - 1;
      assert (first + second)[..|first| + n] == first + second[..n];
      WriteAllAppend(m, first, second[..n]);
    }
  }

  /** The copy loop of load_os: byte i of the image goes to address i while
      i is below the memory size; the rest of the image is dropped. */
  function Load(m: MemorySpace, data: seq<byte>): (r: MemorySpace)
    requires Valid(m)
    ensures Valid(r) && r.reports == m.reports
    ensures forall a :: InMemory(a) ==> r.bytes[a] == if a < |data| then data[a] else m.bytes[a]
    decreases |data|
  {
    if data == [] then m
    else
      var n := |data| - 1;
      var r := Load(m, data[..n]);
      if n < |r.bytes| then MemorySpace(r.bytes[n := data[n]], r.reports) else r
  }

  /** An image longer than memory loads exactly like its first 64 KiB: the
      excess is dropped without any other effect. */
  lemma LoadDropsExcess(m: MemorySpace, data: seq<byte>)
    requires Valid(m)
    requires |data| > MEMORY_SIZE
    ensures Load(m, data) == Load(m, data[..MEMORY_SIZE])
  {
  }

  /** Loading [1, 2, 3] into fresh memory and reading addresses 0..3
      gives 1, 2, 3 and 0. */
  lemma LoadThreeBytes()
    ensures var m := Load(PowerOn(), [1, 2, 3]);
      Read(m, 0) == 1 && Read(m, 1) == 2 && Read(m, 2) == 3 && Read(m, 3) == 0
  {
  }

  /** write_memory forwards the value before masking: writing 0x141 to the
      first VGA cell stores 0x41 ('A') but reports '.' with value 0x141,
      whereas the masked value would have been reported as 'A'. */
  lemma ReportUsesUnmaskedValue()
    ensures var m := Write(PowerOn(), VGA_BASE, 0x141);
      Read(m, VGA_BASE) == 0x41 &&
      m.reports == [Report(VGA_BASE, '.', 0x141)] &&
      VgaChar(Mask(0x141) as int) == 'A'
  {
  }
}
