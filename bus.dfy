/**
 * The machine's bus: it splits the 64-bit address space into a device window
 * `[0, devicesLen)`, main memory `[devicesLen, devicesLen + memSize)` and the
 * rest, which is out of bounds, and routes each read or write to the one
 * component the address falls in, at the address local to that component.
 *
 * The devices and the main memory are modelled as `Store`s: a sequence of
 * cells, one per local address, that fails with `OutOfBounds` past its end.
 */
module Bus {
  import opened Word

  /** Bus address */
  type Address = u64

  /** An address is out of bounds. */
  datatype OutOfBounds = OutOfBounds

  datatype Result<T> = Ok(value: T) | Err(error: OutOfBounds)

  /** Address space identifier; `Unmapped` is the region the source calls `OutOfBounds`. */
  datatype AddressSpace = Devices | MainMemory | Unmapped

  /**
   * Which address space `addr` belongs to, with the address local to it;
   * `devicesLen` is the length of the device window and `memSize` that of
   * main memory.
   */
  function Locate(devicesLen: u64, memSize: u64, addr: Address): (r: (AddressSpace, Address))
    ensures r.0 == Devices <==> addr < devicesLen
    ensures r.0 == MainMemory <==> devicesLen <= addr < devicesLen + memSize
    ensures r.0 == Unmapped <==> devicesLen + memSize <= addr
    ensures r.0 == Devices ==> r.1 == addr
    ensures r.0 == MainMemory ==> r.1 + devicesLen == addr && r.1 < memSize
    ensures r.0 == Unmapped ==> r.1 == addr
  {
    if addr < devicesLen then (Devices, addr)
    else
      var memAddr := SaturatingSub(addr, devicesLen);
      if memAddr < memSize then (MainMemory, memAddr)
      else (Unmapped, addr)
  }

  /**
   * Every offset into main memory that has a bus address is reached from
   * exactly that address: locating `devicesLen + offset` gives back `offset`.
   */
  lemma LocateMainMemoryRoundTrip(devicesLen: u64, memSize: u64, offset: u64)
    requires offset < memSize && devicesLen + offset < TWO64
    ensures Locate(devicesLen, memSize, devicesLen + offset) == (MainMemory, offset)
  {
  }

  /** Two addresses that are in bounds never reach the same cell of the same component. */
  lemma LocateInjective(devicesLen: u64, memSize: u64, a: Address, b: Address)
    requires Locate(devicesLen, memSize, a).0 != Unmapped
    requires Locate(devicesLen, memSize, a) == Locate(devicesLen, memSize, b)
    ensures a == b
  {
  }

  /** A device or memory back-end: one cell per local address. */
  class Store<E> {
    var cells: seq<E>

    constructor (contents: seq<E>)
      ensures cells == contents
    {
      cells := contents;
    }

    /** Read the cell at `addr`, or fail when it is past the end. */
    function Read(addr: Address): (r: Result<E>)
      reads this
      ensures r.Ok? <==> addr < |cells|
      ensures r.Ok? ==> r.value == cells[addr]
    {
      if addr < |cells| then Ok(cells[addr]) else Err(OutOfBounds)
    }

    /** Write the cell at `addr`, or fail, changing nothing, when it is past the end. */
    method Write(addr: Address, value: E) returns (r: Result<()>)
      modifies this
      ensures r.Ok? <==> addr < |old(cells)|
      ensures cells == if r.Ok? then old(cells)[addr := value] else old(cells)
    {
      if addr < |cells| {
        cells := cells[addr := value];
        r := Ok(());
      } else {
        r := Err(OutOfBounds);
      }
    }
  }

  /** The bus connects the main memory and the other devices. */
  class Bus<E> {
    const devicesLen: u64
    const memSize: u64
    const devices: Store<E>
    const memory: Store<E>

    ghost predicate Valid()
      reads this
    {
      devices != memory
    }

    constructor (devicesLen: u64, memSize: u64, devices: Store<E>, memory: Store<E>)
      requires devices != memory
      ensures Valid()
      ensures this.devicesLen == devicesLen && this.memSize == memSize
      ensures this.devices == devices && this.memory == memory
    {
      this.devicesLen := devicesLen;
      this.memSize := memSize;
      this.devices := devices;
      this.memory := memory;
    }

    /** Read at a bus address from the component it belongs to. */
    function Read(addr: Address): (r: Result<E>)
      reads this, devices, memory
      ensures addr < devicesLen ==> r == devices.Read(addr)
      ensures devicesLen <= addr < devicesLen + memSize ==> r == memory.Read(addr - devicesLen)
      ensures devicesLen + memSize <= addr ==> r == Err(OutOfBounds)
    {
      var (space, local) := Locate(devicesLen, memSize, addr);
      match space
      case Devices => devices.Read(local)
      case MainMemory => memory.Read(local)
      case Unmapped => Err(OutOfBounds)
    }

    /**
     * Write at a bus address into the component it belongs to; the other
     * component is untouched, and an out-of-bounds write touches neither.
     */
    method Write(addr: Address, value: E) returns (r: Result<()>)
      requires Valid()
      modifies devices, memory
      ensures addr < devicesLen ==>
                memory.cells == old(memory.cells)
                && (r.Ok? <==> addr < |old(devices.cells)|)
                && devices.cells == (if r.Ok? then old(devices.cells)[addr := value] else old(devices.cells))
      ensures devicesLen <= addr < devicesLen + memSize ==>
                devices.cells == old(devices.cells)
                && (r.Ok? <==> addr - devicesLen < |old(memory.cells)|)
                && memory.cells == (if r.Ok? then old(memory.cells)[addr - devicesLen := value] else old(memory.cells))
      ensures devicesLen + memSize <= addr ==>
                r == Err(OutOfBounds)
                && devices.cells == old(devices.cells) && memory.cells == old(memory.cells)
    {
      var (space, local) := Locate(devicesLen, memSize, addr);
      match space
      case Devices =>
        r := devices.Write(local, value);
      case MainMemory =>
        r := memory.Write(local, value);
      case Unmapped =>
        r := Err(OutOfBounds);
    }
  }

  /**
   * A client of the bus: a write followed by a read at the same address. The
   * two fail at exactly the same addresses, and a read after a successful
   * write returns the value written, whichever component the address is in.
   */
  method WriteThenRead<E>(b: Bus<E>, addr: Address, value: E) returns (w: Result<()>, v: Result<E>)
    requires b.Valid()
    modifies b.devices, b.memory
    ensures w.Ok? <==> v.Ok?
    ensures w.Ok? ==> v == Ok(value)
  {
    w := b.Write(addr, value);
    v := b.Read(addr);
  }
}
