# CISC-16-A simulator state, in Dafny

A model of the `CISC16A_Simulator` object of the CISC-16-A OS simulator. The
object holds a 64 KiB byte memory, six general registers (`ax`, `bx`, `cx`,
`dx`, `si`, `di`), a stack pointer, a program counter and the carry and zero
flags. Writes to `0x8000..0x8FFF` (the VGA window) are also forwarded to a
display handler. The handler turns each value into a character: itself when
printable ASCII, `.` otherwise. The object also runs a scripted boot: it
clears an 80 x 30 screen, writes `"CISC-16-A OS"` on the first row and `"> "`
at the start of the second.

The model is in four modules:

- `Display` (display.dfy): the window bounds, the value-to-character mapping
  and the `Report` a forwarded write produces.
- `Memory` (memory.dfy): memory as a value, `MemorySpace`, made of the bytes
  and the reports emitted so far. `Read`, `Write`, `WriteAll` and `Load` say
  what each operation does to that value. The lemmas state read-after-write,
  the frame conditions, concatenation of write sequences and image truncation.
- `Boot` (boot.dfy): the boot script as a list of writes, and lemmas that say
  what memory and the report log hold after it.
- `Machine` (simulator.dfy): the class `Simulator`. It has an
  `array<byte>` memory, integer register fields, boolean flags and a
  `reports` sequence. Its methods update these in place.
  - `WriteMemory`, `LoadOs` and `SimulateBasicExecution` are each proved to
    leave `State()` (bytes and reports as a `MemorySpace`) equal to the
    matching function of `Memory` or `Boot` applied to the old state:
    `Write`, `Load` and `WriteAll` of `BootWrites` respectively.
  - `HandleVgaWrite` is proved to append exactly `VgaReport(address, value)`
    to `reports` and to change nothing else.
  - The constructor is proved to yield `State() == PowerOn()` (all bytes
    zero, no reports) and the reset register and flag values.

Points of the code's behaviour that the model keeps as written:

- `write_memory` forwards the unmasked `value` to `handle_vga_write`
  (simulator.py:64), not `value & 0xFF`. So the report's character and value
  come from the raw argument. Writing `0x141` stores `0x41` but reports `'.'`
  with value `0x141`; lemma `Memory.ReportUsesUnmaskedValue` exhibits this.
- The registers are plain Python integers with no 16-bit masking, so they are
  unbounded `int` fields here.
- `load_os` copies straight into the byte array and not through
  `write_memory`. An image that reaches `0x8000` therefore produces no VGA
  reports.

`value & 0xFF` on a Python integer is the non-negative residue modulo 256,
including for negative values. `Memory.Mask` writes it as Dafny's Euclidean
`%`.

## Model

| member | source | states |
|---|---|---|
| `Display.VgaChar` | simulator.py:68 | the shown character is always printable ASCII; a printable value is shown as itself, any other value as '.' |
| `Display.VgaCharShowsItselfIffPrintable` | simulator.py:68 | a value is shown as its own character exactly when it lies in 32..126 |
| `Memory.Mask` | simulator.py:60 | the stored byte is congruent to the value modulo 256 and equals it when the value already fits in a byte |
| `Memory.PowerOn` | simulator.py:14 | fresh memory has 65536 bytes, all zero, and no reports |
| `Memory.Read` | simulator.py:51-55 | an in-range address yields its stored byte; any other address, negative or too large, yields 0 |
| `Memory.Write` | simulator.py:57-64 | in range: reading the address back gives the masked value and every other address reads as before; out of range: nothing changes; exactly one report (address, VgaChar(raw value), raw value) is appended iff the address is in range and in 0x8000..0x8FFF |
| `Memory.WriteAll` | simulator.py:89-100 | a run of writes keeps memory at 65536 bytes |
| `Memory.WriteAllAppend` | simulator.py:89-100 | performing two runs of writes in turn equals performing their concatenation, so the effects of consecutive loops compose in write order |
| `Memory.Load` | simulator.py:40-42 | after loading, address i holds image byte i for every i below both the image length and 65536, every other address is unchanged, and no report is emitted |
| `Memory.LoadDropsExcess` | simulator.py:40-42 | an image longer than 65536 bytes loads exactly like its first 65536 bytes |
| `Memory.LoadThreeBytes` | simulator.py:40-55 | loading [1, 2, 3] into fresh memory makes addresses 0, 1, 2, 3 read 1, 2, 3, 0 |
| `Memory.ReportUsesUnmaskedValue` | simulator.py:60-68 | writing 0x141 to 0x8000 stores 0x41 but reports '.' with value 0x141, while the masked value would have been shown as 'A' |
| `Boot.TextWrites` | simulator.py:94-95 | the writes of a text from a base address: one per character, the i-th putting the code of character i at base + i |
| `Boot.BootWrites` | simulator.py:88-100 | the boot script: 2414 writes, first 0x20 at 0x8000 + k for k < 2400, then the codes of "CISC-16-A OS" from 0x8000, then the codes of "> " from 0x8050; every address lies in the VGA window |
| `Boot.TextWritesEffect` | simulator.py:94-95 | writing a text byte by byte inside the VGA window stores the masked code of each character at its address, leaves all other addresses unchanged and appends one report per character in order |
| `Boot.AsciiWritesEffect` | simulator.py:98-100 | for a text whose characters fit in a byte, the stored bytes are exactly the character codes |
| `Boot.ClearEffect` | simulator.py:89-90 | the clear loop sets 0x8000..0x895F to 0x20, leaves every other address unchanged and appends 2400 reports of ' ' in address order |
| `Boot.BootInStages` | simulator.py:88-100 | the boot script is the clear loop, then the welcome loop, then the prompt loop |
| `Boot.LoopsPerformBoot` | simulator.py:89-100 | the clear, welcome and prompt loops run in turn give the same state as the whole boot script, and that state shows the boot screen |
| `Boot.StagesShowBootScreen` | simulator.py:88-100 | the separately described effects of the three loops combine into the final boot screen |
| `Boot.BootEffect` | simulator.py:85-100 | after the script, 0x8000..0x800B hold "CISC-16-A OS" and 0x8050..0x8051 hold "> "; every other address in 0x8000..0x895F holds 0x20; addresses outside that range are unchanged; exactly 2400 + 12 + 2 reports are appended, in write order |
| `Machine.Simulator.constructor` | simulator.py:12-31 | all 65536 bytes are zero, no reports, general registers 0, sp 0x7FFF, pc 0xFE00, both flags false, VGA cursor 0 |
| `Machine.Simulator.ReadMemory` | simulator.py:51-55 | reading the array agrees with `Memory.Read` on the current state, and changes nothing |
| `Machine.Simulator.HandleVgaWrite` | simulator.py:66-69 | appends exactly one report, `VgaReport(address, value)` (the raw value and its mapped character), to the log and changes nothing else |
| `Machine.Simulator.WriteMemory` | simulator.py:57-64 | the in-place store and forwarding leave the memory and the log equal to `Memory.Write` of the old state; registers and flags are unchanged |
| `Machine.Simulator.LoadOs` | simulator.py:33-49 | returns true and leaves memory equal to `Memory.Load` of the old memory for an available image; for a missing image returns false and changes nothing |
| `Machine.Simulator.SimulateBasicExecution` | simulator.py:78-103 | sets sp to 0x7FFF and leaves every other register and flag unchanged; memory and log end equal to `WriteAll` of the boot script over the old state, and so show the boot screen of `Boot.BootEffect` |

## Left out

- File input in `load_os` (simulator.py:35-37, 47-49): opening and reading the file are not modelled. `LoadOs` takes `Option<seq<byte>>` instead, where `None` stands for a file that was not found.
- Console output: the `print` calls in `load_os`, `handle_vga_write` and `simulate_basic_execution`, and `print_state` (simulator.py:44, 48, 69, 71-76, 80-102). VGA output is kept as the `reports` sequence. The register dump is the `Snapshot()` value of the fields.
- `main`, with its argument check and exit codes (simulator.py:105-119): command-line plumbing.
- Other exceptions from `open` than a missing file (a permission error, say) propagate out of `load_os` in the source. The model has no counterpart for them.
- Non-integer addresses or values (a float or bool passed from Python) are outside the model. Addresses and values are `int`.
