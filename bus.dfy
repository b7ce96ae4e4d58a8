/** The CPU's view of the NES address space (code/ch8/src/bus.rs): 2 KiB of RAM mirrored four
    times, the eight PPU registers mirrored up to 0x3FFF, the first controller at 0x4016, the
    sprite DMA port at 0x4014 and the cartridge's PRG ROM from 0x8000.

    The PPU itself is not part of this model. The bus hands it a sequence of calls (register
    writes and reads, a DMA page, clock ticks); what a PPU register read returns and whether an
    NMI is pending are caller-supplied functions of that sequence of calls, which is all the bus
    can observe of a deterministic PPU. */
module Bus {
  import opened Wrappers
  import Joypad

  /** A call the bus makes into the PPU. */
  datatype PpuEvent =
    | PpuWrite(register: bv16, data: bv8)  // write_to_ctrl, _mask, _oam_addr, _oam_data, _scroll, _ppu_addr, _data
    | PpuRead(register: bv16)              // read_status (0x2002), read_oam_data (0x2004), read_data (0x2007)
    | PpuOamDma(page: seq<bv8>)            // write_oam_dma
    | PpuTick(cycles: bv8)                 // tick

  /** What a PPU register read returns, given the calls made so far. */
  type PpuReply = (seq<PpuEvent>, bv16) -> bv8

  /** The game-loop callback receives the PPU and the controller; it reaches the controller only
      through its public methods, each of which keeps the register index at most 8. */
  type GameLoop = f: (seq<PpuEvent>, Joypad.PadState) -> Joypad.PadState
    | forall log, s :: Joypad.Wf(s) ==> Joypad.Wf(f(log, s))
    witness (log: seq<PpuEvent>, s: Joypad.PadState) => s

  /** The ranges of the CPU memory map. */
  const RamMirrorsEnd: bv16 := 0x1FFF
  const PpuRegisters: bv16 := 0x2000
  const PpuRegistersMirrorsEnd: bv16 := 0x3FFF

  /** The part of the bus state that memory accesses change: RAM, the calls made into the PPU
      and the controller. */
  datatype Mem = Mem(ram: seq<bv8>, ppu: seq<PpuEvent>, pad: Joypad.PadState)

  predicate MemOk(m: Mem) {
    |m.ram| == 0x800 && Joypad.Wf(m.pad)
  }

  /** The RAM cell behind a RAM address: the low 11 bits. */
  function RamIndex(addr: bv16): (i: nat)
    ensures i < 0x800
  {
    (addr & 0x7FF) as nat
  }

  /** The PPU register behind an address of 0x2000-0x3FFF: the low three bits. */
  function PpuMirror(addr: bv16): (r: bv16)
    requires PpuRegisters <= addr <= PpuRegistersMirrorsEnd
    ensures PpuRegisters <= r <= 0x2007
  {
    addr & 0x2007
  }

  /** `read_prg_rom`: the offset from 0x8000, folded onto the first 16 KiB when the ROM is only
      that long; an offset past the end of the ROM is an indexing panic. */
  function ReadPrgRom(prg: seq<bv8>, addr: bv16): Outcome<bv8>
    requires addr >= 0x8000
  {
    var offset := addr - 0x8000;
    var index := if |prg| == 0x4000 && offset >= 0x4000 then offset % 0x4000 else offset;
    if (index as nat) < |prg| then Ok(prg[index as nat]) else Panic
  }

  /** The write-only PPU registers and the DMA port, which read as 0. */
  predicate WriteOnly(addr: bv16) {
    addr == 0x2000 || addr == 0x2001 || addr == 0x2003 || addr == 0x2005 || addr == 0x2006 || addr == 0x4014
  }

  /** The readable PPU registers: status, OAM data, data. */
  predicate PpuReadable(addr: bv16) {
    addr == 0x2002 || addr == 0x2004 || addr == 0x2007
  }

  /** `mem_read`, arm by arm in the order of the source's match: the byte read and the state
      after the read, which changes only for the PPU registers and the controller. */
  function ReadStep(prg: seq<bv8>, reply: PpuReply, m: Mem, addr: bv16): (r: Outcome<(bv8, Mem)>)
    requires MemOk(m)
    ensures r.Ok? ==> MemOk(r.value.1) && r.value.1.ram == m.ram
    decreases if PpuRegisters + 8 <= addr <= PpuRegistersMirrorsEnd then 1 else 0
  {
    if addr <= RamMirrorsEnd then Ok((m.ram[RamIndex(addr)], m))
    else if WriteOnly(addr) then Ok((0, m))
    else if PpuReadable(addr) then Ok((reply(m.ppu, addr), m.(ppu := m.ppu + [PpuRead(addr)])))
    else if 0x4000 <= addr <= 0x4015 then Ok((0, m))
    else if addr == 0x4016 then Ok((Joypad.Response(m.pad.status, m.pad.index), m.(pad := Joypad.AfterRead(m.pad))))
    else if addr == 0x4017 then Ok((0, m))
    else if PpuRegisters + 8 <= addr <= PpuRegistersMirrorsEnd then ReadStep(prg, reply, m, PpuMirror(addr))
    else if addr >= 0x8000 then
      match ReadPrgRom(prg, addr)
      case Ok(b) => Ok((b, m))
      case Panic => Panic
    else Ok((0, m))
  }

  /** The first `n` reads of the DMA loop from page `hi`: the bytes read and the state after
      them, each read made in the state the previous one left. */
  function DmaReads(prg: seq<bv8>, reply: PpuReply, m: Mem, hi: bv16, n: nat): (r: Outcome<(seq<bv8>, Mem)>)
    requires MemOk(m) && hi & 0xFF == 0 && n <= 256
    ensures r.Ok? ==> |r.value.0| == n && MemOk(r.value.1)
  {
    if n == 0 then Ok(([], m))
    else match DmaReads(prg, reply, m, hi, n - 1)
      case Panic => Panic
      case Ok((bytes, m')) =>
        match ReadStep(prg, reply, m', DmaAddr(hi, n - 1))
        case Panic => Panic
        case Ok((b, m'')) => Ok((bytes + [b], m''))
  }

  /** The address of byte `k` of the DMA page `hi`. */
  function DmaAddr(hi: bv16, k: nat): bv16
    requires k < 256
  {
    hi + k as bv16
  }

  /** One more read of the DMA loop. */
  lemma DmaReadsNext(prg: seq<bv8>, reply: PpuReply, m0: Mem, hi: bv16, n: nat, m: Mem, bytes: seq<bv8>)
    requires MemOk(m0) && hi & 0xFF == 0 && 0 < n <= 256
    requires DmaReads(prg, reply, m0, hi, n - 1) == Ok((bytes, m))
    ensures MemOk(m)
    ensures DmaReads(prg, reply, m0, hi, n) == match ReadStep(prg, reply, m, DmaAddr(hi, n - 1))
      case Panic => Panic
      case Ok((b, m')) => Ok((bytes + [b], m'))
  {
  }

  /** Once a read of the DMA loop panics, the whole loop does. */
  lemma {:induction false} DmaPanicStays(prg: seq<bv8>, reply: PpuReply, m: Mem, hi: bv16, n: nat, n': nat)
    requires MemOk(m) && hi & 0xFF == 0 && n <= n' <= 256
    requires DmaReads(prg, reply, m, hi, n) == Panic
    ensures DmaReads(prg, reply, m, hi, n') == Panic
    decreases n' - n
  {
    if n < n' {
      DmaPanicStays(prg, reply, m, hi, n + 1, n');
    }
  }

  /** `mem_write`, arm by arm in the order of the source's match: the state after the write, or
      the panic of a write to the status register or to the cartridge ROM. */
  function WriteStep(prg: seq<bv8>, reply: PpuReply, m: Mem, addr: bv16, data: bv8): Outcome<Mem>
    requires MemOk(m)
    decreases if PpuRegisters + 8 <= addr <= PpuRegistersMirrorsEnd then 1 else 0
  {
    if addr <= RamMirrorsEnd then Ok(m.(ram := m.ram[RamIndex(addr) := data]))
    else if addr == 0x2000 || addr == 0x2001 then Ok(m.(ppu := m.ppu + [PpuWrite(addr, data)]))
    else if addr == 0x2002 then Panic
    else if 0x2003 <= addr <= 0x2007 then Ok(m.(ppu := m.ppu + [PpuWrite(addr, data)]))
    else if 0x4000 <= addr <= 0x4013 || addr == 0x4015 then Ok(m)
    else if addr == 0x4016 then Ok(m.(pad := Joypad.AfterWrite(m.pad, data)))
    else if addr == 0x4017 then Ok(m)
    else if addr == 0x4014 then
      match DmaReads(prg, reply, m, (data as bv16) << 8, 256)
      case Panic => Panic
      case Ok((page, m')) => Ok(m'.(ppu := m'.ppu + [PpuOamDma(page)]))
    else if PpuRegisters + 8 <= addr <= PpuRegistersMirrorsEnd then WriteStep(prg, reply, m, PpuMirror(addr), data)
    else if addr >= 0x8000 then Panic
    else Ok(m)
  }

  /** Addresses 0x800 apart in 0x0000-0x1FFF reach the same RAM cell. */
  lemma RamPeriod(addr: bv16)
    requires addr <= RamMirrorsEnd - 0x800
    ensures RamIndex(addr + 0x800) == RamIndex(addr)
  {
    assert (addr + 0x800) & 0x7FF == addr & 0x7FF;
  }

  /** Two RAM addresses with the same cell read and write alike. */
  lemma RamAlias(prg: seq<bv8>, reply: PpuReply, m: Mem, a: bv16, b: bv16, data: bv8)
    requires MemOk(m) && a <= RamMirrorsEnd && b <= RamMirrorsEnd && RamIndex(a) == RamIndex(b)
    ensures ReadStep(prg, reply, m, a) == ReadStep(prg, reply, m, b)
    ensures WriteStep(prg, reply, m, a, data) == WriteStep(prg, reply, m, b, data)
  {
  }

  /** A RAM write changes only its cell: reading it back returns the byte written, every other
      RAM cell reads as before, and the PPU and the controller are untouched. */
  lemma RamWriteRead(prg: seq<bv8>, reply: PpuReply, m: Mem, m': Mem, a: bv16, b: bv16, data: bv8)
    requires MemOk(m) && a <= RamMirrorsEnd && b <= RamMirrorsEnd
    requires WriteStep(prg, reply, m, a, data) == Ok(m')
    ensures m'.ppu == m.ppu && m'.pad == m.pad
    ensures ReadStep(prg, reply, m', b) == Ok((if RamIndex(a) == RamIndex(b) then data else m.ram[RamIndex(b)], m'))
  {
    RamWriteArm(prg, reply, m, a, data);
    assert m'.ram == m.ram[RamIndex(a) := data];
    var cell := m'.ram[RamIndex(b)];
    assert cell == if RamIndex(a) == RamIndex(b) then data else m.ram[RamIndex(b)];
    RamReadArm(prg, reply, m', b);
  }

  /** The first arm of `mem_write`. */
  lemma RamWriteArm(prg: seq<bv8>, reply: PpuReply, m: Mem, a: bv16, data: bv8)
    requires MemOk(m) && a <= RamMirrorsEnd
    ensures WriteStep(prg, reply, m, a, data) == Ok(m.(ram := m.ram[RamIndex(a) := data]))
  {
  }

  /** The first arm of `mem_read`. */
  lemma RamReadArm(prg: seq<bv8>, reply: PpuReply, m: Mem, b: bv16)
    requires MemOk(m) && b <= RamMirrorsEnd
    ensures ReadStep(prg, reply, m, b) == Ok((m.ram[RamIndex(b)], m))
  {
  }

  /** Every address of 0x2008-0x3FFF behaves exactly like the register its low three bits
      select, and addresses 8 apart select the same register. */
  lemma PpuMirrorAlias(prg: seq<bv8>, reply: PpuReply, m: Mem, addr: bv16, data: bv8)
    requires MemOk(m) && PpuRegisters + 8 <= addr <= PpuRegistersMirrorsEnd
    ensures ReadStep(prg, reply, m, addr) == ReadStep(prg, reply, m, PpuMirror(addr))
    ensures WriteStep(prg, reply, m, addr, data) == WriteStep(prg, reply, m, PpuMirror(addr), data)
    ensures PpuMirror(addr) == PpuMirror(addr - 8)
  {
    assert addr & 0x2007 == (addr - 8) & 0x2007;
  }

  /** A cartridge whose PRG ROM is 16 or 32 KiB, the sizes `read_prg_rom` expects. */
  predicate PrgOk(prg: seq<bv8>) {
    |prg| == 0x4000 || |prg| == 0x8000
  }

  /** `read_prg_rom` stays in bounds for both ROM sizes. */
  lemma PrgRomInBounds(prg: seq<bv8>, addr: bv16)
    requires addr >= 0x8000 && PrgOk(prg)
    ensures ReadPrgRom(prg, addr).Ok?
  {
    if |prg| == 0x8000 {
      PrgRomFlat(prg, addr);
    } else if addr >= 0xC000 {
      PrgRomMirror(prg, addr);
      PrgRomLow(prg, addr - 0x4000);
    } else {
      PrgRomLow(prg, addr);
    }
  }

  /** A 16 KiB ROM is read at offset `addr - 0x8000` below 0xC000. */
  lemma PrgRomLow(prg: seq<bv8>, addr: bv16)
    requires |prg| == 0x4000 && 0x8000 <= addr < 0xC000
    ensures ReadPrgRom(prg, addr) == Ok(prg[addr as nat - 0x8000])
  {
    Offset8000(addr);
    LowOffset(addr);
    Below4000(addr - 0x8000);
  }

  lemma LowOffset(addr: bv16)
    requires 0x8000 <= addr < 0xC000
    ensures addr - 0x8000 < 0x4000
  {
  }

  lemma Offset8000(addr: bv16)
    requires addr >= 0x8000
    ensures (addr - 0x8000) as nat == addr as nat - 0x8000 < 0x8000
  {
  }

  lemma OffsetC000(addr: bv16)
    requires addr >= 0xC000
    ensures (addr - 0xC000) as nat == addr as nat - 0xC000 < 0x4000
  {
  }

  lemma Below4000(x: bv16)
    requires x < 0x4000
    ensures x as nat < 0x4000
  {
  }

  /** A 16 KiB ROM repeats at 0xC000. */
  lemma PrgRomMirror(prg: seq<bv8>, addr: bv16)
    requires |prg| == 0x4000 && addr >= 0xC000
    ensures ReadPrgRom(prg, addr) == ReadPrgRom(prg, addr - 0x4000)
  {
    assert (addr - 0x8000) % 0x4000 == (addr - 0x4000) - 0x8000;
  }

  /** A 32 KiB ROM is read at offset `addr - 0x8000`. */
  lemma PrgRomFlat(prg: seq<bv8>, addr: bv16)
    requires |prg| == 0x8000 && addr >= 0x8000
    ensures ReadPrgRom(prg, addr) == Ok(prg[addr as nat - 0x8000])
  {
    Offset8000(addr);
  }

  /** The write-only PPU registers, the DMA port, the APU, the second controller and the
      unmapped space between 0x4018 and 0x7FFF read as 0 and change nothing. */
  lemma ZeroReads(prg: seq<bv8>, reply: PpuReply, m: Mem, addr: bv16)
    requires MemOk(m)
    requires WriteOnly(addr) || 0x4000 <= addr <= 0x4015 || addr == 0x4017 || 0x4018 <= addr < 0x8000
    ensures ReadStep(prg, reply, m, addr) == Ok((0, m))
  {
  }

  /** With a 16 or 32 KiB ROM no read panics. */
  lemma ReadTotal(prg: seq<bv8>, reply: PpuReply, m: Mem, addr: bv16)
    requires MemOk(m) && PrgOk(prg)
    ensures ReadStep(prg, reply, m, addr).Ok?
  {
    if addr >= 0x8000 {
      PrgRomInBounds(prg, addr);
    }
  }

  /** With a 16 or 32 KiB ROM the DMA loop never panics. */
  lemma {:induction false} DmaTotal(prg: seq<bv8>, reply: PpuReply, m: Mem, hi: bv16, n: nat)
    requires MemOk(m) && PrgOk(prg) && hi & 0xFF == 0 && n <= 256
    ensures DmaReads(prg, reply, m, hi, n).Ok?
  {
    if n > 0 {
      DmaTotal(prg, reply, m, hi, n - 1);
      ReadTotal(prg, reply, DmaReads(prg, reply, m, hi, n - 1).value.1, DmaAddr(hi, n - 1));
    }
  }

  /** With a 16 or 32 KiB ROM a write panics exactly at the status register 0x2002, at its
      mirrors, and in the cartridge space 0x8000-0xFFFF. */
  lemma WritePanics(prg: seq<bv8>, reply: PpuReply, m: Mem, addr: bv16, data: bv8)
    requires MemOk(m) && PrgOk(prg)
    ensures WriteStep(prg, reply, m, addr, data) == Panic <==>
      addr == 0x2002 || (PpuRegisters + 8 <= addr <= PpuRegistersMirrorsEnd && PpuMirror(addr) == 0x2002) || addr >= 0x8000
  {
    if addr == 0x4014 {
      DmaTotal(prg, reply, m, (data as bv16) << 8, 256);
    } else if PpuRegisters + 8 <= addr <= PpuRegistersMirrorsEnd {
      assert PpuMirror(addr) != 0x4014;
    }
  }

  /** DMA from a RAM page (0x00-0x1F) copies the 256 bytes of the page's RAM cells and changes
      nothing else. */
  lemma {:induction false} DmaRamPage(prg: seq<bv8>, reply: PpuReply, m: Mem, data: bv8, n: nat)
    requires MemOk(m) && data <= 0x1F && n <= 256
    ensures var hi := (data as bv16) << 8;
      DmaReads(prg, reply, m, hi, n) == Ok((seq(n, k requires 0 <= k < n => m.ram[RamIndex(DmaAddr(hi, k))]), m))
  {
    var hi := (data as bv16) << 8;
    if n > 0 {
      DmaRamPage(prg, reply, m, data, n - 1);
      DmaAddrInPage(data, n - 1);
      var bytes := seq(n - 1, k requires 0 <= k < n - 1 => m.ram[RamIndex(DmaAddr(hi, k))]);
      assert seq(n, k requires 0 <= k < n => m.ram[RamIndex(DmaAddr(hi, k))]) == bytes + [m.ram[RamIndex(DmaAddr(hi, n - 1))]];
    }
  }

  /** Byte `k` of a page below 0x20 is a RAM address. */
  lemma DmaAddrInPage(data: bv8, k: nat)
    requires data <= 0x1F && k < 256
    ensures DmaAddr((data as bv16) << 8, k) <= RamMirrorsEnd
  {
    var d := k as bv16;
    assert d <= 0xFF;
    assert ((data as bv16) << 8) + d <= 0x1FFF;
  }

  /** The PPU raised an NMI across a tick: absent before, present after. */
  predicate NmiEdge(nmi: seq<PpuEvent> -> bool, before: seq<PpuEvent>, after: seq<PpuEvent>) {
    !nmi(before) && nmi(after)
  }

  /** The bus: RAM, the cartridge's PRG ROM, the PPU (as the calls made into it), the cycle
      count and the first controller. */
  class Bus {
    const cpuVram: array<bv8>
    const prgRom: seq<bv8>
    var ppuLog: seq<PpuEvent>
    var cycles: nat
    const joypad1: Joypad.Joypad
    /** The PPU's answers and NMI line, and the game-loop callback. */
    const ppuReply: PpuReply
    const nmiPending: seq<PpuEvent> -> bool
    const gameLoop: GameLoop
    /** How often the game-loop callback has run. */
    var frames: nat

    ghost predicate Valid()
      reads this, joypad1
    {
      cpuVram.Length == 0x800 && joypad1.Valid()
    }

    function State(): Mem
      reads this, cpuVram, joypad1
    {
      Mem(cpuVram[..], ppuLog, joypad1.State())
    }

    /** `Bus::new`: zeroed RAM, a fresh controller, no cycles. */
    constructor (prg: seq<bv8>, reply: PpuReply, nmi: seq<PpuEvent> -> bool, callback: GameLoop)
      ensures Valid() && fresh(cpuVram) && fresh(joypad1)
      ensures State() == Mem(seq(0x800, _ => 0), [], Joypad.PadState(false, 0, 0))
      ensures prgRom == prg && cycles == 0 && frames == 0
      ensures ppuReply == reply && nmiPending == nmi && gameLoop == callback
    {
      cpuVram := new bv8[0x800](_ => 0);
      prgRom := prg;
      ppuLog := [];
      cycles := 0;
      joypad1 := new Joypad.Joypad();
      ppuReply := reply;
      nmiPending := nmi;
      gameLoop := callback;
      frames := 0;
    }

    /** `tick`: count the CPU cycles, clock the PPU three times as fast, and run the game loop
        when that raises an NMI. `cycles * 3` is computed in a byte, so the source overflows
        for more than 85 cycles. */
    method Tick(n: bv8)
      requires Valid() && n <= 85
      modifies this, joypad1
      ensures Valid()
      ensures cycles == old(cycles) + n as nat
      ensures ppuLog == old(ppuLog) + [PpuTick(n * 3)]
      ensures NmiEdge(nmiPending, old(ppuLog), ppuLog) ==>
        joypad1.State() == gameLoop(ppuLog, old(joypad1.State())) && frames == old(frames) + 1
      ensures !NmiEdge(nmiPending, old(ppuLog), ppuLog) ==>
        joypad1.State() == old(joypad1.State()) && frames == old(frames)
    {
      cycles := cycles + n as nat;
      var nmiBefore := nmiPending(ppuLog);
      ppuLog := ppuLog + [PpuTick(n * 3)];
      var nmiAfter := nmiPending(ppuLog);
      if !nmiBefore && nmiAfter {
        var s := gameLoop(ppuLog, joypad1.State());
        joypad1.strobe, joypad1.buttonIndex, joypad1.buttonStatus := s.strobe, s.index, s.status;
        frames := frames + 1;
      }
    }

    /** `mem_read`. */
    method MemRead(addr: bv16) returns (r: Outcome<bv8>)
      requires Valid()
      modifies this, joypad1
      ensures Valid()
      ensures match ReadStep(prgRom, ppuReply, old(State()), addr)
        case Ok((b, m)) => r == Ok(b) && State() == m
        case Panic => r == Panic
      ensures cycles == old(cycles) && frames == old(frames)
      decreases if PpuRegisters + 8 <= addr <= PpuRegistersMirrorsEnd then 1 else 0
    {
      if addr <= RamMirrorsEnd {
        var mirrorDownAddr := addr & 0x7FF;
        return Ok(cpuVram[mirrorDownAddr]);
      } else if WriteOnly(addr) {
        return Ok(0);
      } else if PpuReadable(addr) {
        r := Ok(ppuReply(ppuLog, addr));
        ppuLog := ppuLog + [PpuRead(addr)];
      } else if 0x4000 <= addr <= 0x4015 {
        return Ok(0);
      } else if addr == 0x4016 {
        var b := joypad1.Read();
        return Ok(b);
      } else if addr == 0x4017 {
        return Ok(0);
      } else if PpuRegisters + 8 <= addr <= PpuRegistersMirrorsEnd {
        var mirrorDownAddr := addr & 0x2007;
        r := MemRead(mirrorDownAddr);
      } else if addr >= 0x8000 {
        r := ReadPrgRom(prgRom, addr);
      } else {
        return Ok(0);
      }
    }

    /** `mem_write`; `Panic` where the source panics. */
    method MemWrite(addr: bv16, data: bv8) returns (r: Outcome<()>)
      requires Valid()
      modifies this, cpuVram, joypad1
      ensures Valid()
      ensures match WriteStep(prgRom, ppuReply, old(State()), addr, data)
        case Ok(m) => r == Ok(()) && State() == m
        case Panic => r == Panic
      ensures cycles == old(cycles) && frames == old(frames)
      decreases if PpuRegisters + 8 <= addr <= PpuRegistersMirrorsEnd then 1 else 0
    {
      r := Ok(());
      if addr <= RamMirrorsEnd {
        var mirrorDownAddr := addr & 0x7FF;
        cpuVram[mirrorDownAddr] := data;
      } else if addr == 0x2000 || addr == 0x2001 {
        ppuLog := ppuLog + [PpuWrite(addr, data)];
      } else if addr == 0x2002 {
        r := Panic;
      } else if 0x2003 <= addr <= 0x2007 {
        ppuLog := ppuLog + [PpuWrite(addr, data)];
      } else if 0x4000 <= addr <= 0x4013 || addr == 0x4015 {
      } else if addr == 0x4016 {
        joypad1.Write(data);
      } else if addr == 0x4017 {
      } else if addr == 0x4014 {
        r := OamDma(data);
      } else if PpuRegisters + 8 <= addr <= PpuRegistersMirrorsEnd {
        var mirrorDownAddr := addr & 0x2007;
        r := MemWrite(mirrorDownAddr, data);
      } else if addr >= 0x8000 {
        r := Panic;
      }
    }

    /** The 0x4014 arm: read page `data` into a 256-byte buffer, one `mem_read` per byte, and
        hand the buffer to the PPU. */
    method OamDma(data: bv8) returns (r: Outcome<()>)
      requires Valid()
      modifies this, joypad1
      ensures Valid()
      ensures match DmaReads(prgRom, ppuReply, old(State()), (data as bv16) << 8, 256)
        case Ok((page, m)) => r == Ok(()) && State() == m.(ppu := m.ppu + [PpuOamDma(page)])
        case Panic => r == Panic
      ensures cycles == old(cycles) && frames == old(frames)
    {
      var buffer := new bv8[256](_ => 0);
      var hi: bv16 := (data as bv16) << 8;
      ghost var m0 := State();
      var i: nat := 0;
      while i < 256
        invariant i <= 256
        invariant Valid() && cycles == old(cycles) && frames == old(frames)
        invariant DmaReads(prgRom, ppuReply, m0, hi, i) == Ok((buffer[..i], State()))
      {
        var ok := DmaByte(m0, hi, i, buffer);
        if !ok {
          DmaPanicStays(prgRom, ppuReply, m0, hi, i + 1, 256);
          return Panic;
        }
        i := i + 1;
      }
      assert buffer[..] == buffer[..256];
      ppuLog := ppuLog + [PpuOamDma(buffer[..])];
      r := Ok(());
    }

    /** One pass of the DMA loop: `buffer[i] = mem_read(hi + i)`; `ok` is false if the read
        panics. */
    method DmaByte(ghost m0: Mem, hi: bv16, i: nat, buffer: array<bv8>) returns (ok: bool)
      requires Valid() && MemOk(m0) && hi & 0xFF == 0 && i < 256
      requires buffer.Length == 256 && buffer != cpuVram
      requires DmaReads(prgRom, ppuReply, m0, hi, i) == Ok((buffer[..i], State()))
      modifies this, joypad1, buffer
      ensures Valid() && cycles == old(cycles) && frames == old(frames)
      ensures ok ==> DmaReads(prgRom, ppuReply, m0, hi, i + 1) == Ok((buffer[..i + 1], State()))
      ensures !ok ==> DmaReads(prgRom, ppuReply, m0, hi, i + 1) == Panic
    {
      ghost var bytes := buffer[..i];
      ghost var before := State();
      DmaReadsNext(prgRom, ppuReply, m0, hi, i + 1, before, bytes);
      var b := MemRead(DmaAddr(hi, i));
      match b {
        case Panic =>
          ok := false;
        case Ok(v) =>
          ghost var after := State();
          assert ReadStep(prgRom, ppuReply, before, DmaAddr(hi, i)) == Ok((v, after));
          buffer[i] := v;
          assert buffer[..i + 1] == bytes + [v];
          assert State() == after;
          ok := true;
      }
    }
  }
}
