/** The CISC16A_Simulator object: 64 KiB of byte memory updated in place,
    six general registers, the stack pointer, the program counter and two
    flags. Each method is proved to change the memory and the report log
    exactly as the matching function of module Memory or Boot says. */
module Machine {
  import opened Display
  import opened Memory
  import opened Boot

  datatype Option<T> = None | Some(value: T)

  /** The register and flag values print_state shows. */
  datatype Context = Context(
    ax: int, bx: int, cx: int, dx: int, si: int, di: int,
    sp: int, pc: int, carry: bool, zero: bool)

  const RESET_SP: int := 0x7FFF
  /** The address execution starts from. */
  const RESET_PC: int := 0xFE00

  const RESET_CONTEXT: Context := Context(0, 0, 0, 0, 0, 0, RESET_SP, RESET_PC, false, false)

  class Simulator {
    var memory: array<byte>
    var ax: int
    var bx: int
    var cx: int
    var dx: int
    var si: int
    var di: int
    var sp: int
    var pc: int
    var carryFlag: bool
    var zeroFlag: bool
    /** Initialised and never used afterwards. */
    var vgaCursor: int
    /** The VGA reports emitted so far, oldest first. */
    var reports: seq<Report>

    ghost predicate Valid()
      reads this
    {
      memory.Length == MEMORY_SIZE
    }

    /** The memory and the report log as a value. */
    ghost function State(): (m: MemorySpace)
      reads this, memory
      requires Valid()
      ensures Memory.Valid(m)
    {
      MemorySpace(memory[..], reports)
    }

    function Snapshot(): Context
      reads this
    {
      Context(ax, bx, cx, dx, si, di, sp, pc, carryFlag, zeroFlag)
    }

    constructor ()
      ensures Valid() && fresh(memory)
      ensures State() == PowerOn()
      ensures Snapshot() == RESET_CONTEXT
      ensures vgaCursor == 0
    {
      var bytes := new byte[MEMORY_SIZE](_ => 0);
      assert bytes[..] == PowerOn().bytes;
      memory := bytes;
      ax, bx, cx, dx, si, di := 0, 0, 0, 0, 0, 0;
      sp := RESET_SP;
      pc := RESET_PC;
      carryFlag, zeroFlag := false, false;
      vgaCursor := 0;
      reports := [];
    }

    /** read_memory: the byte at an in-range address, 0 for any other. */
    function ReadMemory(address: int): (b: byte)
      reads this, memory
      requires Valid()
      ensures b == Read(State(), address)
    {
      if 0 <= address < memory.Length then memory[address] else 0
    }

    /** handle_vga_write: record the report the write produces. */
    method HandleVgaWrite(address: int, value: int)
      modifies this`reports
      ensures reports == old(reports) + [VgaReport(address, value)]
    {
      reports := reports + [VgaReport(address, value)];
    }

    /** write_memory: bounds check, masked store, then VGA forwarding. */
    method WriteMemory(address: int, value: int)
      requires Valid()
      modifies memory, this`reports
      ensures Valid()
      ensures State() == Write(old(State()), address, value)
      ensures Snapshot() == old(Snapshot())
    {
      if 0 <= address < memory.Length {
        memory[address] := Mask(value);
        if VGA_BASE <= address <= VGA_LAST {
          HandleVgaWrite(address, value);
        }
      }
    }

    /** load_os after the file has been read: None stands for a file that
        could not be found, which is reported as false with memory left
        alone. The copy stores bytes directly, so it produces no reports. */
    method LoadOs(image: Option<seq<byte>>) returns (loaded: bool)
      requires Valid()
      modifies memory
      ensures Valid()
      ensures loaded == image.Some?
      ensures State() == if image.Some? then Load(old(State()), image.value) else old(State())
    {
      match image
      case None =>
        loaded := false;
      case Some(data) =>
        for i := 0 to |data|
          invariant State() == Load(old(State()), data[..i])
        {
          if i < memory.Length {
            memory[i] := data[i];
          }
          assert data[..i + 1][..i] == data[..i];
        }
        assert data[..|data|] == data;
        loaded := true;
    }

    /** simulate_basic_execution: reset the stack pointer, clear the screen,
        write the welcome line and the prompt. */
    method SimulateBasicExecution()
      requires Valid()
      modifies memory, this`sp, this`reports
      ensures Valid()
      ensures State() == WriteAll(old(State()), BootWrites())
      ensures ShowsBootScreen(old(State()), State())
      ensures Snapshot() == old(Snapshot()).(sp := RESET_SP)
    {
      ghost var m0 := State();
      sp := RESET_SP;
      ghost var context := Snapshot();

      for addr := VGA_BASE to VGA_BASE + SCREEN_COLS * SCREEN_ROWS
        invariant Valid() && Snapshot() == context
        invariant State() == WriteAll(m0, ClearWrites()[..addr - VGA_BASE])
      {
        WriteAllSnoc(m0, ClearWrites(), addr - VGA_BASE);
        assert ClearWrites()[addr - VGA_BASE] == WriteOp(addr, ' ' as int);
        WriteMemory(addr, ' ' as int);
      }
      assert ClearWrites()[..SCREEN_COLS * SCREEN_ROWS] == ClearWrites();
      ghost var m1 := State();

      for i := 0 to |WELCOME|
        invariant Valid() && Snapshot() == context
        invariant State() == WriteAll(m1, WelcomeWrites()[..i])
      {
        WriteAllSnoc(m1, WelcomeWrites(), i);
        assert WelcomeWrites()[i] == WriteOp(VGA_BASE + i, WELCOME[i] as int);
        WriteMemory(VGA_BASE + i, WELCOME[i] as int);
      }
      assert WelcomeWrites()[..|WELCOME|] == WelcomeWrites();
      ghost var m2 := State();

      for i := 0 to |PROMPT|
        invariant Valid() && Snapshot() == context
        invariant State() == WriteAll(m2, PromptWrites()[..i])
      {
        WriteAllSnoc(m2, PromptWrites(), i);
        assert PromptWrites()[i] == WriteOp(PROMPT_BASE + i, PROMPT[i] as int);
        WriteMemory(PROMPT_BASE + i, PROMPT[i] as int);
      }
      assert PromptWrites()[..|PROMPT|] == PromptWrites();

      LoopsPerformBoot(m0, m1, m2, State());
    }
  }
}
