/**
 * Wire encoding of the MAX22200: register bank addresses, the 8-bit Command
 * Register, and the bit layouts of the 32-bit STATUS, CFG_CHx, FAULT and
 * CFG_DPM registers.  Each C++ namespace of the register header becomes a
 * module of the same name; `Registers` holds the device-wide constants, the
 * channel-to-bank mapping and the layout lemmas.
 */

/** Register bank addresses, selected by bits 4:1 of the Command Register. */
module RegBank {
  const STATUS: bv8 := 0x00
  const CFG_CH0: bv8 := 0x01
  const CFG_CH1: bv8 := 0x02
  const CFG_CH2: bv8 := 0x03
  const CFG_CH3: bv8 := 0x04
  const CFG_CH4: bv8 := 0x05
  const CFG_CH5: bv8 := 0x06
  const CFG_CH6: bv8 := 0x07
  const CFG_CH7: bv8 := 0x08
  const FAULT: bv8 := 0x09
  const CFG_DPM: bv8 := 0x0A
}

/** The write-only 8-bit Command Register that opens every register access. */
module CommandReg {
  import RegBank

  const RBW_POS: bv8 := 7
  const RBW_READ: bv8 := 0x00
  const RBW_WRITE: bv8 := 0x80
  const A_BNK_POS: bv8 := 1
  const A_BNK_MASK: bv8 := 0x1E
  const MODE_8BIT: bv8 := 0x01
  const MODE_32BIT: bv8 := 0x00

  /** Bits 6:5 are reserved and always sent as zero. */
  const RESERVED_MASK: bv8 := 0x60

  /**
   * The Command Register byte for a read or write of `bank`, as a full
   * 32-bit access or as the fast 8-bit (most significant byte only) access.
   * Only the low four bits of `bank` reach the wire.
   */
  function Build(bank: bv8, write: bool, mode8: bool): (cmd: bv8)
    ensures (cmd & RBW_WRITE != 0) == write
    ensures (cmd & A_BNK_MASK) >> A_BNK_POS == bank & 0x0F
    ensures (cmd & MODE_8BIT != 0) == mode8
    ensures cmd & RESERVED_MASK == 0
  {
    (if write then RBW_WRITE else RBW_READ)
    | ((bank & 0x0F) << A_BNK_POS)
    | (if mode8 then MODE_8BIT else MODE_32BIT)
  }

  /** The bank address carried by a command byte. */
  function BankOf(cmd: bv8): bv8
  {
    (cmd & A_BNK_MASK) >> A_BNK_POS
  }

  /** The command byte asks for a write. */
  predicate IsWrite(cmd: bv8)
  {
    cmd & RBW_WRITE != 0
  }

  /** The command byte asks for the 8-bit access. */
  predicate IsMode8(cmd: bv8)
  {
    cmd & MODE_8BIT != 0
  }

  /** Bank, direction and width can all be read back from a built command. */
  lemma BuildDecodes(bank: bv8, write: bool, mode8: bool)
    requires bank < 16
    ensures BankOf(Build(bank, write, mode8)) == bank
    ensures IsWrite(Build(bank, write, mode8)) == write
    ensures IsMode8(Build(bank, write, mode8)) == mode8
  {
  }

  /** Distinct accesses to banks below 16 never share a command byte. */
  lemma BuildInjective(b1: bv8, w1: bool, m1: bool, b2: bv8, w2: bool, m2: bool)
    requires b1 < 16 && b2 < 16
    requires Build(b1, w1, m1) == Build(b2, w2, m2)
    ensures b1 == b2 && w1 == w2 && m1 == m2
  {
    BuildDecodes(b1, w1, m1);
    BuildDecodes(b2, w2, m2);
  }

  /** The worked values: a full STATUS write, a fast read of CFG_CH0, a full write of CFG_CH0. */
  lemma BuildExamples()
    ensures Build(RegBank.STATUS, true, false) == 0x80
    ensures Build(RegBank.CFG_CH0, false, true) == 0x03
    ensures Build(RegBank.CFG_CH0, true, false) == 0x82
  {
  }

  /** Every command byte with its reserved bits clear is built from its own fields. */
  lemma BuildOfDecoded(cmd: bv8)
    requires cmd & RESERVED_MASK == 0
    ensures Build(BankOf(cmd), IsWrite(cmd), IsMode8(cmd)) == cmd
  {
  }
}

/** Layout of the 32-bit STATUS register (bank 0x00). */
module StatusReg {
  // Byte 3: channel on/off bits.
  const ONCH_SHIFT: bv32 := 24
  const ONCH_MASK: bv32 := 0xFF00_0000
  // Byte 2: fault masks and the master clock select.
  const M_OVT_BIT: bv32 := 1 << 23
  const M_OCP_BIT: bv32 := 1 << 22
  const M_OLF_BIT: bv32 := 1 << 21
  const M_HHF_BIT: bv32 := 1 << 20
  const M_DPM_BIT: bv32 := 1 << 19
  const M_COMF_BIT: bv32 := 1 << 18
  const M_UVM_BIT: bv32 := 1 << 17
  const FREQM_BIT: bv32 := 1 << 16
  // Byte 1: channel-pair modes.
  const CM76_SHIFT: bv32 := 14
  const CM76_MASK: bv32 := 0x03 << 14
  const CM54_SHIFT: bv32 := 12
  const CM54_MASK: bv32 := 0x03 << 12
  const CM32_SHIFT: bv32 := 10
  const CM32_MASK: bv32 := 0x03 << 10
  const CM10_SHIFT: bv32 := 8
  const CM10_MASK: bv32 := 0x03 << 8
  // Byte 0: read-only fault flags and the ACTIVE bit.
  const OVT_BIT: bv32 := 1 << 7
  const OCP_BIT: bv32 := 1 << 6
  const OLF_BIT: bv32 := 1 << 5
  const HHF_BIT: bv32 := 1 << 4
  const DPM_BIT: bv32 := 1 << 3
  const COMER_BIT: bv32 := 1 << 2
  /** The fault-flag byte the device returns when it saw a communication error. */
  const FAULT_BYTE_COMER: bv8 := 0x04
  const UVM_BIT: bv32 := 1 << 1
  const ACTIVE_BIT: bv32 := 1 << 0
  const FAULT_FLAGS_MASK: bv32 := 0xFE
  // Two-bit channel-pair mode codes.
  const CM_INDEPENDENT: bv8 := 0x00
  const CM_PARALLEL: bv8 := 0x01
  const CM_HBRIDGE: bv8 := 0x02
  const CM_RESERVED: bv8 := 0x03

  /** Every field of the register, from bit 31 down to bit 0. */
  const FIELDS: seq<bv32> := BYTE3_FIELDS + BYTE2_FIELDS + BYTE1_FIELDS + BYTE0_FIELDS
  const BYTE3_FIELDS: seq<bv32> := [ONCH_MASK]
  const BYTE2_FIELDS: seq<bv32> :=
    [M_OVT_BIT, M_OCP_BIT, M_OLF_BIT, M_HHF_BIT, M_DPM_BIT, M_COMF_BIT, M_UVM_BIT, FREQM_BIT]
  const BYTE1_FIELDS: seq<bv32> := [CM76_MASK, CM54_MASK, CM32_MASK, CM10_MASK]
  const BYTE0_FIELDS: seq<bv32> := [OVT_BIT, OCP_BIT, OLF_BIT, HHF_BIT, DPM_BIT, COMER_BIT, UVM_BIT, ACTIVE_BIT]
}

/** Layout of the 32-bit channel configuration registers CFG_CH0..CFG_CH7. */
module CfgChReg {
  const HFS_BIT: bv32 := 1 << 31
  const HOLD_SHIFT: bv32 := 24
  const HOLD_MASK: bv32 := 0x7F << 24
  const TRGNSPI_BIT: bv32 := 1 << 23
  const HIT_SHIFT: bv32 := 16
  const HIT_MASK: bv32 := 0x7F << 16
  const HITT_SHIFT: bv32 := 8
  const HITT_MASK: bv32 := 0xFF << 8
  const VDRNCDR_BIT: bv32 := 1 << 7
  const HSNLS_BIT: bv32 := 1 << 6
  const FREQ_CFG_SHIFT: bv32 := 4
  const FREQ_CFG_MASK: bv32 := 0x03 << 4
  const SRC_BIT: bv32 := 1 << 3
  const OL_EN_BIT: bv32 := 1 << 2
  const DPM_EN_BIT: bv32 := 1 << 1
  const HHF_EN_BIT: bv32 := 1 << 0
  const MAX_HOLD: int := 127
  const MAX_HIT: int := 127
  const MAX_HIT_TIME: int := 255
  /** The HIT time code meaning "stay at the HIT current indefinitely". */
  const CONTINUOUS_HIT: int := 255

  /** Every field of the register, from bit 31 down to bit 0. */
  const FIELDS: seq<bv32> := CURRENT_FIELDS + [HITT_MASK] + MODE_FIELDS
  /** The fields of bits 31:16. */
  const CURRENT_FIELDS: seq<bv32> := [HFS_BIT, HOLD_MASK, TRGNSPI_BIT, HIT_MASK]
  /** The fields of bits 7:0. */
  const MODE_FIELDS: seq<bv32> :=
    [VDRNCDR_BIT, HSNLS_BIT, FREQ_CFG_MASK, SRC_BIT, OL_EN_BIT, DPM_EN_BIT, HHF_EN_BIT]
}

/** Layout of the read-only 32-bit FAULT register (bank 0x09): one byte per fault kind. */
module FaultReg {
  const OCP_SHIFT: bv32 := 24
  const OCP_MASK: bv32 := 0xFF00_0000
  const HHF_SHIFT: bv32 := 16
  const HHF_MASK: bv32 := 0x00FF_0000
  const OLF_SHIFT: bv32 := 8
  const OLF_MASK: bv32 := 0x0000_FF00
  const DPM_SHIFT: bv32 := 0
  const DPM_MASK: bv32 := 0x0000_00FF

  const FIELDS: seq<bv32> := [OCP_MASK, HHF_MASK, OLF_MASK, DPM_MASK]
}

/** Layout of the 32-bit CFG_DPM register (bank 0x0A), which uses bits 14:0. */
module CfgDpmReg {
  const DPM_ISTART_SHIFT: bv32 := 8
  const DPM_ISTART_MASK: bv32 := 0x7F << 8
  const DPM_TDEB_SHIFT: bv32 := 4
  const DPM_TDEB_MASK: bv32 := 0x0F << 4
  const DPM_IPTH_SHIFT: bv32 := 0
  const DPM_IPTH_MASK: bv32 := 0x0F

  /** The bits the three DPM fields may occupy. */
  const USED_BITS: bv32 := 0x7FFF

  const FIELDS: seq<bv32> := [DPM_ISTART_MASK, DPM_TDEB_MASK, DPM_IPTH_MASK]
}

/** Device-wide constants, the channel-to-bank map and the register layout facts. */
module Registers {
  import RegBank
  import StatusReg
  import CfgChReg
  import FaultReg
  import CfgDpmReg

  /** The MAX22200 has eight channels. */
  const NUM_CHANNELS: int := 8
  /** Highest SPI clock without daisy chaining, in Hz. */
  const MAX_SPI_FREQ_STANDALONE: int := 10_000_000
  /** Highest SPI clock with daisy-chained devices, in Hz. */
  const MAX_SPI_FREQ_DAISY_CHAIN: int := 5_000_000

  /**
   * The configuration bank of a channel: CFG_CH0 plus the channel number,
   * truncated to 8 bits like the C++ `uint8_t` sum.
   */
  function ChannelCfgBank(channel: bv8): (bank: bv8)
    ensures bank as int == (1 + channel as int) % 0x100
    ensures channel < 8 ==> RegBank.CFG_CH0 <= bank <= RegBank.CFG_CH7
    ensures channel < 8 ==>
      bank != RegBank.STATUS && bank != RegBank.FAULT && bank != RegBank.CFG_DPM
  {
    RegBank.CFG_CH0 + channel
  }

  /** Each channel has its own configuration bank. */
  lemma ChannelCfgBankInjective(c1: bv8, c2: bv8)
    requires ChannelCfgBank(c1) == ChannelCfgBank(c2)
    ensures c1 == c2
  {
  }

  /** The masks `x` and `y` share no bit. */
  predicate Apart(x: bv32, y: bv32)
  {
    x & y == 0
  }

  /** Every bit of `x` is in `within`. */
  predicate Inside(x: bv32, within: bv32)
  {
    x & !within == 0
  }

  /** No two masks of `ms` share a bit. */
  predicate PairwiseDisjoint(ms: seq<bv32>)
  {
    forall i, j :: 0 <= i < j < |ms| ==> Apart(ms[i], ms[j])
  }

  /** Every mask of `ms` lies inside `within`. */
  predicate AllWithin(ms: seq<bv32>, within: bv32)
  {
    forall i :: 0 <= i < |ms| ==> Inside(ms[i], within)
  }

  /** No two STATUS fields share a bit. */
  lemma StatusDisjoint()
    ensures PairwiseDisjoint(StatusReg.FIELDS)
  {
    StatusBytesDisjoint();
    var b3, b2, b1, b0 :=
      StatusReg.BYTE3_FIELDS, StatusReg.BYTE2_FIELDS, StatusReg.BYTE1_FIELDS, StatusReg.BYTE0_FIELDS;
    DisjointConcat(b3, b2, 0xFF00_0000, 0x00FF_0000);
    DisjointConcat(b3 + b2, b1, 0xFFFF_0000, 0x0000_FF00);
    DisjointConcat(b3 + b2 + b1, b0, 0xFFFF_FF00, 0x0000_00FF);
  }

  /** Within each byte of STATUS the fields are disjoint. */
  lemma StatusBytesDisjoint()
    ensures PairwiseDisjoint(StatusReg.BYTE3_FIELDS) && AllWithin(StatusReg.BYTE3_FIELDS, 0xFF00_0000)
    ensures PairwiseDisjoint(StatusReg.BYTE2_FIELDS) && AllWithin(StatusReg.BYTE2_FIELDS, 0x00FF_0000)
    ensures PairwiseDisjoint(StatusReg.BYTE1_FIELDS) && AllWithin(StatusReg.BYTE1_FIELDS, 0x0000_FF00)
    ensures PairwiseDisjoint(StatusReg.BYTE0_FIELDS) && AllWithin(StatusReg.BYTE0_FIELDS, 0x0000_00FF)
  {
    StatusMasksDisjoint();
    StatusFlagsDisjoint();
  }

  lemma StatusMasksDisjoint()
    ensures PairwiseDisjoint(StatusReg.BYTE2_FIELDS) && AllWithin(StatusReg.BYTE2_FIELDS, 0x00FF_0000)
  {
  }

  lemma StatusFlagsDisjoint()
    ensures PairwiseDisjoint(StatusReg.BYTE0_FIELDS) && AllWithin(StatusReg.BYTE0_FIELDS, 0x0000_00FF)
  {
  }

  /** Two disjoint groups of masks that lie in disjoint parts of the word make one disjoint group. */
  lemma DisjointConcat(a: seq<bv32>, b: seq<bv32>, inA: bv32, inB: bv32)
    requires PairwiseDisjoint(a) && AllWithin(a, inA)
    requires PairwiseDisjoint(b) && AllWithin(b, inB)
    requires Apart(inA, inB)
    ensures PairwiseDisjoint(a + b) && AllWithin(a + b, inA | inB)
  {
    var ab := a + b;
    forall i, j | 0 <= i < j < |ab|
      ensures Apart(ab[i], ab[j])
    {
      if j < |a| {
        assert ab[i] == a[i] && ab[j] == a[j];
      } else if i >= |a| {
        assert ab[i] == b[i - |a|] && ab[j] == b[j - |a|];
      } else {
        assert ab[i] == a[i] && ab[j] == b[j - |a|];
        MasksApart(a[i], b[j - |a|], inA, inB);
      }
    }
    forall i | 0 <= i < |ab|
      ensures Inside(ab[i], inA | inB)
    {
      if i < |a| {
        assert ab[i] == a[i];
        WithinUnion(a[i], inA, inB);
      } else {
        assert ab[i] == b[i - |a|];
        WithinUnion(b[i - |a|], inB, inA);
      }
    }
  }

  lemma MasksApart(x: bv32, y: bv32, inA: bv32, inB: bv32)
    requires Inside(x, inA) && Inside(y, inB) && Apart(inA, inB)
    ensures Apart(x, y)
  {
  }

  lemma WithinUnion(x: bv32, inA: bv32, inB: bv32)
    requires Inside(x, inA)
    ensures Inside(x, inA | inB) && Inside(x, inB | inA)
  {
  }

  /** The STATUS fields together cover all 32 bits, and the derived constants agree with them. */
  lemma StatusLayout()
    ensures StatusReg.ONCH_MASK
      | StatusReg.M_OVT_BIT | StatusReg.M_OCP_BIT | StatusReg.M_OLF_BIT | StatusReg.M_HHF_BIT
      | StatusReg.M_DPM_BIT | StatusReg.M_COMF_BIT | StatusReg.M_UVM_BIT | StatusReg.FREQM_BIT
      | StatusReg.CM76_MASK | StatusReg.CM54_MASK | StatusReg.CM32_MASK | StatusReg.CM10_MASK
      | StatusReg.OVT_BIT | StatusReg.OCP_BIT | StatusReg.OLF_BIT | StatusReg.HHF_BIT
      | StatusReg.DPM_BIT | StatusReg.COMER_BIT | StatusReg.UVM_BIT | StatusReg.ACTIVE_BIT
      == 0xFFFF_FFFF
    ensures StatusReg.FAULT_FLAGS_MASK
      == StatusReg.OVT_BIT | StatusReg.OCP_BIT | StatusReg.OLF_BIT | StatusReg.HHF_BIT
       | StatusReg.DPM_BIT | StatusReg.COMER_BIT | StatusReg.UVM_BIT
    ensures StatusReg.FAULT_BYTE_COMER as bv32 == StatusReg.COMER_BIT
    ensures StatusReg.ONCH_MASK == 0xFF << StatusReg.ONCH_SHIFT
    ensures StatusReg.CM76_MASK == 3 << StatusReg.CM76_SHIFT
    ensures StatusReg.CM54_MASK == 3 << StatusReg.CM54_SHIFT
    ensures StatusReg.CM32_MASK == 3 << StatusReg.CM32_SHIFT
    ensures StatusReg.CM10_MASK == 3 << StatusReg.CM10_SHIFT
  {
  }

  /** The CFG_CHx fields are disjoint and together cover all 32 bits. */
  lemma ChannelConfigLayout()
    ensures PairwiseDisjoint(CfgChReg.FIELDS)
    ensures CfgChReg.HFS_BIT | CfgChReg.HOLD_MASK | CfgChReg.TRGNSPI_BIT | CfgChReg.HIT_MASK
      | CfgChReg.HITT_MASK | CfgChReg.VDRNCDR_BIT | CfgChReg.HSNLS_BIT | CfgChReg.FREQ_CFG_MASK
      | CfgChReg.SRC_BIT | CfgChReg.OL_EN_BIT | CfgChReg.DPM_EN_BIT | CfgChReg.HHF_EN_BIT
      == 0xFFFF_FFFF
    ensures CfgChReg.HOLD_MASK == 0x7F << CfgChReg.HOLD_SHIFT
    ensures CfgChReg.HIT_MASK == 0x7F << CfgChReg.HIT_SHIFT
    ensures CfgChReg.HITT_MASK == 0xFF << CfgChReg.HITT_SHIFT
    ensures CfgChReg.FREQ_CFG_MASK == 3 << CfgChReg.FREQ_CFG_SHIFT
  {
    ChannelConfigGroups();
    var cur, hitt, mode := CfgChReg.CURRENT_FIELDS, [CfgChReg.HITT_MASK], CfgChReg.MODE_FIELDS;
    DisjointConcat(cur, hitt, 0xFFFF_0000, 0x0000_FF00);
    DisjointConcat(cur + hitt, mode, 0xFFFF_FF00, 0x0000_00FF);
  }

  /** Within bits 31:16, bits 15:8 and bits 7:0 of CFG_CHx the fields are disjoint. */
  lemma ChannelConfigGroups()
    ensures PairwiseDisjoint(CfgChReg.CURRENT_FIELDS) && AllWithin(CfgChReg.CURRENT_FIELDS, 0xFFFF_0000)
    ensures PairwiseDisjoint([CfgChReg.HITT_MASK]) && AllWithin([CfgChReg.HITT_MASK], 0x0000_FF00)
    ensures PairwiseDisjoint(CfgChReg.MODE_FIELDS) && AllWithin(CfgChReg.MODE_FIELDS, 0x0000_00FF)
  {
  }

  /** The four FAULT bytes partition the word. */
  lemma FaultLayout()
    ensures PairwiseDisjoint(FaultReg.FIELDS)
    ensures FaultReg.OCP_MASK | FaultReg.HHF_MASK | FaultReg.OLF_MASK | FaultReg.DPM_MASK == 0xFFFF_FFFF
    ensures FaultReg.OCP_MASK == 0xFF << FaultReg.OCP_SHIFT
    ensures FaultReg.HHF_MASK == 0xFF << FaultReg.HHF_SHIFT
    ensures FaultReg.OLF_MASK == 0xFF << FaultReg.OLF_SHIFT
    ensures FaultReg.DPM_MASK == 0xFF << FaultReg.DPM_SHIFT
  {
  }

  /** The CFG_DPM fields are disjoint, lie in bits 14:0 and fill them. */
  lemma DpmLayout()
    ensures PairwiseDisjoint(CfgDpmReg.FIELDS)
    ensures AllWithin(CfgDpmReg.FIELDS, CfgDpmReg.USED_BITS)
    ensures CfgDpmReg.DPM_ISTART_MASK | CfgDpmReg.DPM_TDEB_MASK | CfgDpmReg.DPM_IPTH_MASK
      == CfgDpmReg.USED_BITS
  {
  }
}
