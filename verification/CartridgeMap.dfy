/** The laws of the cartridge map: what the banks show, and how they mirror each other. */
module CartridgeMap {
  import opened Options
  import opened RomMapping
  import opened RomChecksum
  import MachineBus
  import PpuPorts

  /** A bank and address at which the cartridge's ROM answers: not in the banks of work RAM, and in the low banks only
      in the upper half. */
  predicate Answers(bank: nat, address: nat) {
    bank != 0x7E && bank != 0x7F && (address >= 0x8000 || 0x40 <= bank < 0x80 || 0xC0 <= bank)
  }

  /** The 4 MiB window: offset by offset, bank by bank, from bank $C0 on. */
  lemma WindowExact(offset: nat)
    requires offset < 0x400000
    ensures CpuToLinear(0xC0 + offset / 0x10000, offset % 0x10000) == Some(offset)
  {
    var bank := offset / 0x10000;
    assert bank < 0x40 && (0xC0 + bank) % 0x40 == bank;
  }

  /** Every bank shows the window's bank of the same number modulo 64, wherever it answers at all. */
  lemma BanksMirror(bank: nat, address: nat)
    requires bank < 0x100 && address < 0x10000
    ensures CpuToLinear(bank, address).Some? <==> Answers(bank, address)
    ensures Answers(bank, address) ==>
              CpuToLinear(bank, address) == CpuToLinear(0xC0 + bank % 0x40, address)
              == Some(bank % 0x40 * 0x10000 + address)
  {
    assert (0xC0 + bank % 0x40) % 0x40 == bank % 0x40;
  }

  /** Every byte of the image is read at its own place in the window, whatever else is mapped. */
  lemma ImageShown(s: MachineBus.State, k: nat)
    requires |s.m.rom| == ROM_SIZE && k < ROM_SIZE
    ensures MachineBus.Read(s, 0xC0_0000 + k) == MachineBus.Got(s, s.m.rom[k] % 0x100)
  {
    var a := 0xC0_0000 + k;
    WindowAddress(k);
    WindowExact(k);
    assert MirrorOf(k, ROM_SIZE) == k;
  }

  lemma WindowAddress(k: nat)
    requires k < 0x400000
    ensures MachineBus.Bank(0xC0_0000 + k) == 0xC0 + k / 0x10000 && MachineBus.Local(0xC0_0000 + k) == k % 0x10000
  {
  }

  /** And every address at which the cartridge answers reads the window's byte, mirrored into the image. */
  lemma MirrorShown(s: MachineBus.State, bank: nat, address: nat)
    requires bank < 0x100 && 0x8000 <= address < 0x10000 && bank != 0x7E && bank != 0x7F && |s.m.rom| == ROM_SIZE
    ensures MachineBus.Read(s, bank * 0x10000 + address)
            == MachineBus.Got(s, s.m.rom[MirrorOf(bank % 0x40 * 0x10000 + address, ROM_SIZE)] % 0x100)
    ensures MachineBus.Read(s, bank * 0x10000 + address)
            == MachineBus.Read(s, (0xC0 + bank % 0x40) * 0x10000 + address)
  {
    hide MirrorOf, MachineBus.Read;
    HighHalf(s, bank, address);
    HighHalf(s, 0xC0 + bank % 0x40, address);
    assert (0xC0 + bank % 0x40) % 0x40 == bank % 0x40;
  }

  lemma HighAddress(bank: nat, address: nat)
    requires bank < 0x100 && 0x8000 <= address < 0x10000 && bank != 0x7E && bank != 0x7F
    ensures var a := bank * 0x10000 + address;
            && MachineBus.Bank(a) == bank && MachineBus.Local(a) == address && MachineBus.WramOffset(a).None?
            && SramOffset(bank, address).None?
  {
    var a := bank * 0x10000 + address;
    assert MachineBus.Bank(a) == bank && MachineBus.Local(a) == address;
  }

  lemma HighHalf(s: MachineBus.State, bank: nat, address: nat)
    requires bank < 0x100 && 0x8000 <= address < 0x10000 && bank != 0x7E && bank != 0x7F && |s.m.rom| == ROM_SIZE
    ensures MachineBus.Read(s, bank * 0x10000 + address)
            == MachineBus.Got(s, s.m.rom[MirrorOf(bank % 0x40 * 0x10000 + address, ROM_SIZE)] % 0x100)
  {
    hide MirrorOf, MachineBus.Bank, MachineBus.Local, MachineBus.WramOffset, SramOffset, CpuToLinear,
         MachineBus.DmaRegister;
    HighAddress(bank, address);
    BanksMirror(bank, address);
  }
}
