/** The push-button driver: a 16-byte register block whose only meaningful word,
    the button register, sits at offset 0. The character device gives raw
    word-wise access to the whole block; the sysfs attribute `push_button_reg`
    works in the 8-bit domain. */
module PushButton {
  import opened Words

  /** Size of the block in bytes, and its number of 32-bit words. */
  const SPAN: nat := 16
  const WORDS: nat := SPAN / 4

  /** Byte offset of the button register. */
  const BUTTON_OFFSET: nat := 0

  /** The register block of one bound device; the file cursor is the caller's. */
  class Device {
    const regs: array<u32>

    ghost predicate Valid()
    {
      regs.Length == WORDS
    }

    /** The register contents, word by word. */
    ghost function Contents(): (w: seq<u32>)
      reads regs
      requires Valid()
      ensures |w| == WORDS
    {
      regs[..]
    }

    /** Probe's successful mapping of the hardware block. Probe writes no reset
        values, so the block keeps whatever the hardware holds (`hw`). */
    constructor Map(hw: seq<u32>)
      requires |hw| == WORDS
      ensures Valid() && fresh(regs) && Contents() == hw
    {
      regs := new u32[WORDS](i requires 0 <= i < |hw| => hw[i]);
    }

    /** `push_button_reg_show`: the button register read into a `u8`, so only its
        low byte is reported. */
    method Show() returns (v: u8)
      requires Valid()
      ensures v == regs[BUTTON_OFFSET / 4] % 0x100
    {
      var word := regs[BUTTON_OFFSET / 4];
      v := Low8(word);
    }

    /** `push_button_reg_store`: on a `u8` parse failure return the parser's error
        with the register untouched; otherwise write the byte zero-extended to the
        button register only, and report the whole buffer consumed. */
    method Store(input: Parse<u8>, size: nat) returns (ret: int)
      requires Valid()
      modifies regs
      ensures Valid()
      ensures input.Invalid? ==> ret == input.code && ret < 0 && Contents() == old(Contents())
      ensures input.Parsed? ==>
                ret == size && Contents() == old(Contents())[BUTTON_OFFSET / 4 := input.value]
      ensures input.Parsed? ==> regs[BUTTON_OFFSET / 4] <= 0xFF
    {
      match input
      case Invalid(code) =>
        ret := code;
      case Parsed(b) =>
        regs[BUTTON_OFFSET / 4] := b;
        ret := size;
    }

    /** `push_button_read`: the same skeleton as the RGB driver's raw read, except
        that a misaligned in-range offset is refused with -EFAULT. */
    method RawRead(offset: int, notCopied: nat) returns (ret: int, next: int, val: u32)
      requires Valid()
      ensures offset < 0 ==> ret == -EINVAL && next == offset
      ensures offset >= SPAN ==> ret == 0 && next == offset
      ensures 0 <= offset < SPAN && offset % 4 != 0 ==> ret == -EFAULT && next == offset
      ensures 0 <= offset < SPAN && offset % 4 == 0 && notCopied == 4 ==> ret == -EFAULT && next == offset
      ensures 0 <= offset < SPAN && offset % 4 == 0 && notCopied != 4 ==>
                ret == 4 && next == offset + 4 && val == regs[offset / 4]
    {
      next, val := offset, 0;
      if offset < 0 {
        return -EINVAL, next, val;
      }
      if offset >= SPAN {
        return 0, next, val;
      }
      if offset % 4 != 0 {
        return -EFAULT, next, val;
      }
      val := regs[offset / 4];
      if notCopied == 4 {
        return -EFAULT, next, val;
      }
      next := offset + 4;
      ret := 4;
    }

    /** `push_button_write`: the same checks as RawRead, then the full 32-bit word
        is stored unmasked whenever the copy reports anything other than 4 bytes
        left uncopied. */
    method RawWrite(offset: int, notCopied: nat, val: u32) returns (ret: int, next: int)
      requires Valid()
      modifies regs
      ensures Valid()
      ensures offset < 0 ==> ret == -EINVAL && next == offset && Contents() == old(Contents())
      ensures offset >= SPAN ==> ret == 0 && next == offset && Contents() == old(Contents())
      ensures 0 <= offset < SPAN && offset % 4 != 0 ==>
                ret == -EFAULT && next == offset && Contents() == old(Contents())
      ensures 0 <= offset < SPAN && offset % 4 == 0 && notCopied == 4 ==>
                ret == -EFAULT && next == offset && Contents() == old(Contents())
      ensures 0 <= offset < SPAN && offset % 4 == 0 && notCopied != 4 ==>
                ret == 4 && next == offset + 4 && Contents() == old(Contents())[offset / 4 := val]
    {
      next := offset;
      if offset < 0 {
        return -EINVAL, next;
      }
      if offset >= SPAN {
        return 0, next;
      }
      if offset % 4 != 0 {
        return -EFAULT, next;
      }
      if notCopied != 4 {
        regs[offset / 4] := val;
        next := offset + 4;
        ret := 4;
      } else {
        ret := -EFAULT;
      }
    }
  }

  /** `push_button_probe`, reduced to what the register block sees: a failed
      mapping returns its error; otherwise the button register is bound at the
      base of the block and nothing is written. */
  method Probe(hw: seq<u32>, mapFailure: Option<NegErrno>) returns (ret: int, dev: Device?)
    requires |hw| == WORDS
    ensures mapFailure.Some? ==> ret == mapFailure.value && dev == null
    ensures mapFailure.None? ==> ret == 0 && dev != null && fresh(dev.regs) && dev.Valid() && dev.Contents() == hw
  {
    if mapFailure.Some? {
      return mapFailure.value, null;
    }
    dev := new Device.Map(hw);
    ret := 0;
  }

  /** A raw write followed by a raw read at the same aligned in-range offset
      yields the written word unchanged. */
  method WriteThenRead(dev: Device, offset: int, v: u32) returns (r: u32)
    requires dev.Valid()
    requires 0 <= offset < SPAN && offset % 4 == 0
    modifies dev.regs
    ensures r == v
    ensures dev.Contents() == old(dev.Contents())[offset / 4 := v]
  {
    var ret, next := dev.RawWrite(offset, 0, v);
    var ret', next';
    ret', next', r := dev.RawRead(offset, 0);
  }

  /** A raw write of a full word followed by a sysfs show reports only the word's
      low byte. */
  method RawWriteThenShow(dev: Device, v: u32) returns (shown: u8)
    requires dev.Valid()
    modifies dev.regs
    ensures shown == Low8(v)
  {
    var ret, next := dev.RawWrite(BUTTON_OFFSET, 0, v);
    shown := dev.Show();
  }

  /** A sysfs store of a byte followed by a raw read of offset 0 sees the byte
      widened to a word. */
  method StoreThenRawRead(dev: Device, b: u8) returns (raw: u32)
    requires dev.Valid()
    modifies dev.regs
    ensures raw == b && raw <= 0xFF
  {
    var ret := dev.Store(Parsed(b), 1);
    var ret', next;
    ret', next, raw := dev.RawRead(BUTTON_OFFSET, 0);
  }
}
