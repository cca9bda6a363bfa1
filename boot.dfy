/** The scripted boot of simulate_basic_execution, as a list of writes:
    clear an 80 x 30 text screen to spaces, then write the welcome line at the
    top-left cell and the shell prompt at the start of the second row. */
module Boot {
  import opened Display
  import opened Memory

  const SCREEN_COLS: int := 80
  const SCREEN_ROWS: int := 30
  /** One past the last cell the clear loop writes. */
  const CLEAR_END: int := VGA_BASE + SCREEN_COLS * SCREEN_ROWS
  const PROMPT_BASE: int := VGA_BASE + SCREEN_COLS

  const WELCOME: string := "CISC-16-A OS"
  const PROMPT: string := "> "

  /** n spaces. */
  function Blank(n: nat): (s: string)
    ensures |s| == n
  {
    seq(n, _ => ' ')
  }

  /** Writing the codes of `text` one by one from `base` upwards: the i-th
      write puts the code of the i-th character at base + i. */
  function TextWrites(base: int, text: string): (ops: seq<WriteOp>)
    ensures |ops| == |text|
    ensures forall i :: 0 <= i < |ops| ==> ops[i].address == base + i && ops[i].value == text[i] as int
  {
    seq(|text|, i requires 0 <= i < |text| => WriteOp(base + i, text[i] as int))
  }

  /** The VGA reports those writes produce when they all land in the window. */
  function Echo(base: int, text: string): (rs: seq<Report>)
    ensures |rs| == |text|
  {
    seq(|text|, i requires 0 <= i < |text| => VgaReport(base + i, text[i] as int))
  }

  /** The reports of a text are those of all but its last character,
      followed by the report of the last one. */
  lemma EchoSnoc(base: int, text: string)
    requires text != []
    ensures Echo(base, text) ==
      Echo(base, text[..|text| - 1]) + [VgaReport(base + |text| - 1, text[|text| - 1] as int)]
  {
  }

  function ClearWrites(): seq<WriteOp> {
    TextWrites(VGA_BASE, Blank(SCREEN_COLS * SCREEN_ROWS))
  }

  function WelcomeWrites(): seq<WriteOp> {
    TextWrites(VGA_BASE, WELCOME)
  }

  function PromptWrites(): seq<WriteOp> {
    TextWrites(PROMPT_BASE, PROMPT)
  }

  /** The whole script, in the order the three loops run: 2400 spaces from
      0x8000 upwards, then the 12 welcome characters from 0x8000, then the 2
      prompt characters from 0x8050, every one of them inside the VGA window. */
  function BootWrites(): (ops: seq<WriteOp>)
    ensures |ops| == 2400 + 12 + 2
    ensures forall k :: 0 <= k < 2400 ==> ops[k] == WriteOp(VGA_BASE + k, 0x20)
    ensures forall k :: 0 <= k < |WELCOME| ==> ops[2400 + k] == WriteOp(VGA_BASE + k, WELCOME[k] as int)
    ensures forall k :: 0 <= k < |PROMPT| ==> ops[2412 + k] == WriteOp(PROMPT_BASE + k, PROMPT[k] as int)
    ensures forall k :: 0 <= k < |ops| ==> InVga(ops[k].address)
  {
    ClearWrites() + WelcomeWrites() + PromptWrites()
  }

  /** Writing a text inside the VGA window puts the masked codes at
      base..base+|text|, leaves every other byte alone and reports each
      character once, in order. */
  lemma {:induction false} TextWritesEffect(m: MemorySpace, base: int, text: string)
    requires Valid(m)
    requires VGA_BASE <= base && base + |text| <= VGA_LAST + 1
    ensures var r := WriteAll(m, TextWrites(base, text));
      (forall a :: base <= a < base + |text| ==> r.bytes[a] == Mask(text[a - base] as int)) &&
      (forall a :: InMemory(a) && !(base <= a < base + |text|) ==> r.bytes[a] == m.bytes[a]) &&
      r.reports == m.reports + Echo(base, text)
    decreases |text|
  {
    if text != [] {
      var n := |text| - 1;
      var prefix := text[..n];
      var ops := TextWrites(base, text);
      TextWritesEffect(m, base, prefix);
      var r0 := WriteAll(m, TextWrites(base, prefix));
      var r := WriteAll(m, ops);
      assert r == Write(r0, base + n, text[n] as int) by {
        assert ops[..n] == TextWrites(base, prefix);
      }
      WriteStoresByte(r0, base + n, text[n] as int);
      forall a | base <= a < base + n
        ensures r.bytes[a] == Mask(text[a - base] as int)
      {
        assert r.bytes[a] == r0.bytes[a];
        assert prefix[a - base] == text[a - base];
      }
      EchoSnoc(base, text);
    }
  }

  /** What the screen memory holds after the boot script, starting from m. */
  ghost predicate ShowsBootScreen(m: MemorySpace, r: MemorySpace)
    requires Valid(m) && Valid(r)
  {
    (forall i :: 0 <= i < |WELCOME| ==> r.bytes[VGA_BASE + i] as int == WELCOME[i] as int) &&
    (forall i :: 0 <= i < |PROMPT| ==> r.bytes[PROMPT_BASE + i] as int == PROMPT[i] as int) &&
    (forall a ::
       (VGA_BASE <= a < CLEAR_END && !(VGA_BASE <= a < VGA_BASE + |WELCOME|) &&
        !(PROMPT_BASE <= a < PROMPT_BASE + |PROMPT|)) ==> r.bytes[a] == 0x20) &&
    (forall a :: InMemory(a) && !(VGA_BASE <= a < CLEAR_END) ==> r.bytes[a] == m.bytes[a]) &&
    r.reports == m.reports + Echo(VGA_BASE, Blank(SCREEN_COLS * SCREEN_ROWS))
                           + Echo(VGA_BASE, WELCOME) + Echo(PROMPT_BASE, PROMPT) &&
    |r.reports| == |m.reports| + 2400 + 12 + 2
  }

  /** The clear loop fills the 2400 screen cells with spaces. */
  lemma ClearEffect(m: MemorySpace)
    requires Valid(m)
    ensures var r := WriteAll(m, ClearWrites());
      (forall a :: VGA_BASE <= a < CLEAR_END ==> r.bytes[a] == 0x20) &&
      (forall a :: InMemory(a) && !(VGA_BASE <= a < CLEAR_END) ==> r.bytes[a] == m.bytes[a]) &&
      r.reports == m.reports + Echo(VGA_BASE, Blank(SCREEN_COLS * SCREEN_ROWS))
  {
    var blank := Blank(SCREEN_COLS * SCREEN_ROWS);
    TextWritesEffect(m, VGA_BASE, blank);
    var r := WriteAll(m, ClearWrites());
    forall a | VGA_BASE <= a < CLEAR_END
      ensures r.bytes[a] == 0x20
    {
      assert blank[a - VGA_BASE] == ' ';
    }
  }

  /** Every character fits in a byte. */
  predicate Ascii(text: string) {
    forall i :: 0 <= i < |text| ==> text[i] as int < 256
  }

  lemma ScriptTextsAreAscii()
    ensures Ascii(WELCOME) && Ascii(PROMPT)
  {
  }

  /** Writing an ASCII text inside the window stores exactly its codes. */
  lemma AsciiWritesEffect(m: MemorySpace, base: int, text: string)
    requires Valid(m)
    requires VGA_BASE <= base && base + |text| <= VGA_LAST + 1
    requires Ascii(text)
    ensures var r := WriteAll(m, TextWrites(base, text));
      (forall i :: 0 <= i < |text| ==> r.bytes[base + i] as int == text[i] as int) &&
      (forall a :: InMemory(a) && !(base <= a < base + |text|) ==> r.bytes[a] == m.bytes[a]) &&
      r.reports == m.reports + Echo(base, text)
  {
    TextWritesEffect(m, base, text);
    var r := WriteAll(m, TextWrites(base, text));
    forall i | 0 <= i < |text|
      ensures r.bytes[base + i] as int == text[i] as int
    {
      assert r.bytes[base + i] == Mask(text[(base + i) - base] as int);
    }
  }

  /** The boot script is the clear, then the welcome line, then the prompt. */
  lemma BootInStages(m: MemorySpace)
    requires Valid(m)
    ensures WriteAll(m, BootWrites()) ==
      WriteAll(WriteAll(WriteAll(m, ClearWrites()), WelcomeWrites()), PromptWrites())
  {
    WriteAllAppend(m, ClearWrites(), WelcomeWrites());
    WriteAllAppend(m, ClearWrites() + WelcomeWrites(), PromptWrites());
  }

  /** The three stages of the script, each described on its own, add up
      to the boot screen. */
  lemma StagesShowBootScreen(m: MemorySpace, m1: MemorySpace, m2: MemorySpace, r: MemorySpace)
    requires Valid(m) && Valid(m1) && Valid(m2) && Valid(r)
    requires forall a :: VGA_BASE <= a < CLEAR_END ==> m1.bytes[a] == 0x20
    requires forall a :: InMemory(a) && !(VGA_BASE <= a < CLEAR_END) ==> m1.bytes[a] == m.bytes[a]
    requires m1.reports == m.reports + Echo(VGA_BASE, Blank(SCREEN_COLS * SCREEN_ROWS))
    requires forall i :: 0 <= i < |WELCOME| ==> m2.bytes[VGA_BASE + i] as int == WELCOME[i] as int
    requires forall a :: InMemory(a) && !(VGA_BASE <= a < VGA_BASE + |WELCOME|) ==> m2.bytes[a] == m1.bytes[a]
    requires m2.reports == m1.reports + Echo(VGA_BASE, WELCOME)
    requires forall i :: 0 <= i < |PROMPT| ==> r.bytes[PROMPT_BASE + i] as int == PROMPT[i] as int
    requires forall a :: InMemory(a) && !(PROMPT_BASE <= a < PROMPT_BASE + |PROMPT|) ==> r.bytes[a] == m2.bytes[a]
    requires r.reports == m2.reports + Echo(PROMPT_BASE, PROMPT)
    ensures ShowsBootScreen(m, r)
  {
  }

  /** The boot script leaves the welcome line and the prompt on a cleared
      screen, touches nothing outside the cleared cells and reports all
      2414 writes in the order they were made. */
  lemma BootEffect(m: MemorySpace)
    requires Valid(m)
    ensures ShowsBootScreen(m, WriteAll(m, BootWrites()))
  {
    var m1 := WriteAll(m, ClearWrites());
    var m2 := WriteAll(m1, WelcomeWrites());
    var r := WriteAll(m2, PromptWrites());
    BootInStages(m);
    ClearEffect(m);
    ScriptTextsAreAscii();
    AsciiWritesEffect(m1, VGA_BASE, WELCOME);
    AsciiWritesEffect(m2, PROMPT_BASE, PROMPT);
    StagesShowBootScreen(m, m1, m2, r);
  }

  /** The three loops of the boot, run one after the other, perform the
      whole script and so leave the boot screen. */
  lemma LoopsPerformBoot(m: MemorySpace, m1: MemorySpace, m2: MemorySpace, r: MemorySpace)
    requires Valid(m)
    requires m1 == WriteAll(m, ClearWrites())
    requires m2 == WriteAll(m1, WelcomeWrites())
    requires r == WriteAll(m2, PromptWrites())
    ensures r == WriteAll(m, BootWrites())
    ensures ShowsBootScreen(m, r)
  {
    BootInStages(m);
    BootEffect(m);
  }
}
