/** The RGB PWM driver: a block of four 32-bit registers reached through a
    character device (word-wise raw reads and writes at a file offset) and
    through four named sysfs attributes. */
module RgbPwm {
  import opened Words

  /** Register offsets within the block and the size of the block in bytes. */
  const RED_OFFSET: nat := 0x00
  const GREEN_OFFSET: nat := 0x04
  const BLUE_OFFSET: nat := 0x08
  const PERIOD_OFFSET: nat := 0x0C
  const SPAN: nat := 0x10

  /** Number of 32-bit words in the block. */
  const WORDS: nat := SPAN / 4

  /** Reset values written by probe: LEDs off, full-scale period. */
  const RESET_PERIOD: u32 := 0x0FFF

  /** The named sysfs attributes. */
  datatype Name = Red | Green | Blue | Period

  /** Byte offset of a named register. */
  function Offset(n: Name): (off: nat)
    ensures off < SPAN && off % 4 == 0
  {
    match n
    case Red => RED_OFFSET
    case Green => GREEN_OFFSET
    case Blue => BLUE_OFFSET
    case Period => PERIOD_OFFSET
  }

  /** Distinct names sit at distinct offsets, so a named store reaches exactly one register. */
  lemma OffsetInjective(m: Name, n: Name)
    ensures Offset(m) == Offset(n) <==> m == n
  {
  }

  /** Every word-aligned offset inside the block belongs to exactly one name. */
  lemma OffsetSurjective(off: int)
    requires 0 <= off < SPAN && off % 4 == 0
    ensures exists n: Name :: Offset(n) == off
  {
    if off == 0 { assert Offset(Red) == off; }
    else if off == 4 { assert Offset(Green) == off; }
    else if off == 8 { assert Offset(Blue) == off; }
    else { assert Offset(Period) == off; }
  }

  /** The register block of one bound device. The file cursor belongs to the
      caller's open file, so it is passed in and handed back by the raw
      operations rather than kept here. */
  class Device {
    const regs: array<u32>

    ghost predicate Valid()
    {
      regs.Length == WORDS
    }

    /** The register contents, word by word. */
    ghost function Contents(): (w: seq<u32>)
      reads regs
      requires Valid()
      ensures |w| == WORDS
    {
      regs[..]
    }

    /** A successful mapping of the hardware block, whose power-on contents are `hw`. */
    constructor Map(hw: seq<u32>)
      requires |hw| == WORDS
      ensures Valid() && fresh(regs) && Contents() == hw
    {
      regs := new u32[WORDS](i requires 0 <= i < |hw| => hw[i]);
    }

    /** The register initialisation of probe: red, green and blue off, period at full scale. */
    method Init()
      requires Valid()
      modifies regs
      ensures Valid()
      ensures Contents() == [0, 0, 0, RESET_PERIOD]
    {
      regs[RED_OFFSET / 4] := 0;
      regs[GREEN_OFFSET / 4] := 0;
      regs[BLUE_OFFSET / 4] := 0;
      regs[PERIOD_OFFSET / 4] := RESET_PERIOD;
    }

    /** `red_show` and its siblings: the current value of the named register, unmasked. */
    method Show(n: Name) returns (v: u32)
      requires Valid()
      ensures v == regs[Offset(n) / 4]
    {
      v := regs[Offset(n) / 4];
    }

    /** `red_store` and its siblings: on a parse failure return the parser's error
        and leave every register alone; otherwise write the whole 32-bit value to
        the named register only, and report the whole buffer consumed. */
    method Store(n: Name, input: Parse<u32>, size: nat) returns (ret: int)
      requires Valid()
      modifies regs
      ensures Valid()
      ensures input.Invalid? ==> ret == input.code && ret < 0 && Contents() == old(Contents())
      ensures input.Parsed? ==> ret == size && Contents() == old(Contents())[Offset(n) / 4 := input.value]
    {
      match input
      case Invalid(code) =>
        ret := code;
      case Parsed(v) =>
        regs[Offset(n) / 4] := v;
        ret := size;
    }

    /** `rgb_pwm_read`: one word from the cursor `offset`. `notCopied` is what
        `copy_to_user` reports as left uncopied. The checks run in a fixed order:
        negative offset, end of range, alignment, then the copy. On success the
        word at the cursor is returned, with 4 bytes read and the cursor moved on
        by 4. Registers never change. */
    method RawRead(offset: int, notCopied: nat) returns (ret: int, next: int, val: u32)
      requires Valid()
      ensures offset < 0 ==> ret == -EINVAL && next == offset
      ensures offset >= SPAN ==> ret == 0 && next == offset
      ensures 0 <= offset < SPAN && offset % 4 != 0 ==> ret == -EINVAL && next == offset
      ensures 0 <= offset < SPAN && offset % 4 == 0 && notCopied == 4 ==> ret == -EFAULT && next == offset
      ensures 0 <= offset < SPAN && offset % 4 == 0 && notCopied != 4 ==>
                ret == 4 && next == offset + 4 && val == regs[offset / 4]
    {
      next, val := offset, 0;
      if offset < 0 {
        return -EINVAL, next, val;
      }
      if offset >= SPAN {
        return 0, next, val;
      }
      // offset is non-negative here, so C's truncating % agrees with Dafny's
      if offset % 4 != 0 {
        return -EINVAL, next, val;
      }
      val := regs[offset / 4];
      if notCopied == 4 {
        return -EFAULT, next, val;
      }
      next := offset + 4;
      ret := 4;
    }

    /** `rgb_pwm_write`: one word to the cursor `offset`, after the same checks as
        RawRead. `val` is the word `copy_from_user` left in the kernel buffer and
        `notCopied` what it reports as left uncopied; any count other than 4 is
        taken as a transfer. The stored value is masked to its low 16 bits, at
        every offset including the period register. */
    method RawWrite(offset: int, notCopied: nat, val: u32) returns (ret: int, next: int)
      requires Valid()
      modifies regs
      ensures Valid()
      ensures offset < 0 ==> ret == -EINVAL && next == offset && Contents() == old(Contents())
      ensures offset >= SPAN ==> ret == 0 && next == offset && Contents() == old(Contents())
      ensures 0 <= offset < SPAN && offset % 4 != 0 ==>
                ret == -EINVAL && next == offset && Contents() == old(Contents())
      ensures 0 <= offset < SPAN && offset % 4 == 0 && notCopied == 4 ==>
                ret == -EFAULT && next == offset && Contents() == old(Contents())
      ensures 0 <= offset < SPAN && offset % 4 == 0 && notCopied != 4 ==>
                ret == 4 && next == offset + 4 && Contents() == old(Contents())[offset / 4 := Low16(val)]
    {
      next := offset;
      if offset < 0 {
        return -EINVAL, next;
      }
      if offset >= SPAN {
        return 0, next;
      }
      if offset % 4 != 0 {
        return -EINVAL, next;
      }
      if notCopied != 4 {
        regs[offset / 4] := Low16(val);
        next := offset + 4;
        ret := 4;
      } else {
        ret := -EFAULT;
      }
    }
  }

  /** `rgb_pwm_probe`, reduced to what the register block sees: a failed mapping
      returns its error and binds nothing; otherwise the block over the hardware
      contents `hw` is initialised to its reset values. */
  method Probe(hw: seq<u32>, mapFailure: Option<NegErrno>) returns (ret: int, dev: Device?)
    requires |hw| == WORDS
    ensures mapFailure.Some? ==> ret == mapFailure.value && dev == null
    ensures mapFailure.None? ==>
              ret == 0 && dev != null && fresh(dev.regs) && dev.Valid() && dev.Contents() == [0, 0, 0, RESET_PERIOD]
  {
    if mapFailure.Some? {
      return mapFailure.value, null;
    }
    dev := new Device.Map(hw);
    dev.Init();
    ret := 0;
  }

  /** A raw write followed by a raw read at the same aligned in-range offset
      yields the written value masked to 16 bits, and advances the cursor by one
      word each time. */
  method WriteThenRead(dev: Device, offset: int, v: u32) returns (r: u32)
    requires dev.Valid()
    requires 0 <= offset < SPAN && offset % 4 == 0
    modifies dev.regs
    ensures r == Low16(v)
    ensures dev.Contents() == old(dev.Contents())[offset / 4 := Low16(v)]
  {
    var ret, next := dev.RawWrite(offset, 0, v);
    var ret', next';
    ret', next', r := dev.RawRead(offset, 0);
  }

  /** A named store followed by the matching show yields the stored value unmasked,
      and a raw read at the name's offset sees the same word. */
  method StoreThenShow(dev: Device, n: Name, v: u32) returns (shown: u32, raw: u32)
    requires dev.Valid()
    modifies dev.regs
    ensures shown == v && raw == v
  {
    var ret := dev.Store(n, Parsed(v), 1);
    shown := dev.Show(n);
    var ret', next;
    ret', next, raw := dev.RawRead(Offset(n), 0);
  }
}
