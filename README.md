# FPGA register drivers and the pot-to-RGB control loop, in Dafny

This project models three pieces of sequential logic that sit around memory-mapped
FPGA register blocks, and proves what each of them promises.

- **RGB PWM driver** (`linux/rgb_pwm/rgb_pwm.c`), module `RgbPwm`. Four 32-bit
  registers (red, green, blue, period at byte offsets 0, 4, 8, 12) in a 16-byte
  span. They are reached two ways: a character device that reads or writes one
  word at the caller's file offset, and four named sysfs attributes. The class
  `RgbPwm.Device` holds the registers as an `array<u32>`, which the stores and
  raw writes update in place. The file offset belongs to the caller's open file,
  so the raw operations take it as a parameter and return the new offset. Probe
  is modelled as "map the block, then write the reset values".
- **Push-button driver** (`linux/push_button/push_button.c`), module `PushButton`.
  It has the same raw skeleton over a 16-byte span, with one meaningful register
  at offset 0. Misaligned access is refused with -EFAULT instead of -EINVAL, raw
  writes are not masked, and the sysfs attribute works on 8 bits: show reports
  the low byte and store writes a parsed byte zero-extended. Probe writes nothing,
  so the block keeps whatever the hardware holds.
- **Control loop** (`sw/pot_to_rgb.c`), module `PotToRgb`. The pure parts are
  functions: the clamp of `read_u16`, `adc_to_duty` with its 32-bit truncating
  product, and the override `switch`. Start-up and one pass of the endless loop
  are methods. They take the outcomes of the file accesses as inputs and return
  the loop variables afterwards and the ordered trace of every external action:
  reads, writes and sleeps.
- Shared machine words, error numbers and parse outcomes live in module `Words`.

Both drivers decide a raw access in a fixed order: a negative offset is -EINVAL,
an offset at or past the span returns 0 bytes (end of range), a misaligned offset
is an error, and only then is one word moved. The user copy is modelled by the
count of bytes it reports as not copied. Only a count of exactly 4 is treated as
failure (-EFAULT); any other count moves the word and advances the cursor by 4.
The `count` argument of the raw read and write is ignored by both drivers, and
so it is absent from the model.

Behaviour worth knowing:
- Named RGB stores write the full 32-bit value with no mask. The raw RGB write
  masks to 16 bits at every offset, the period register included.
- A misaligned raw access gives -EINVAL in the RGB driver and -EFAULT in the
  push-button driver.
- Both raw write paths store the word whenever `copy_from_user` reports anything
  other than 4 bytes not copied.
- `adc_to_duty(2047)` is 65519.
- A failed start-up write ends the control program with status 1.
- The sysfs stores take no lock. Only the raw write paths lock.

## Model

| member | source | states |
|---|---|---|
| `Words.Low16` | linux/rgb_pwm/rgb_pwm.c:257 | `val & 0xFFFF`: the result is at most the input, agrees with it mod 2^16, and is the input itself when the input fits in 16 bits |
| `Words.Low8` | linux/push_button/push_button.c:25-27 | storing a 32-bit word into a `u8`: at most the input, congruent mod 256, identity below 256 |
| `RgbPwm.Offset` | linux/rgb_pwm/rgb_pwm.c:36-40 | every named register sits at a word-aligned offset inside the 16-byte span |
| `RgbPwm.OffsetInjective` | linux/rgb_pwm/rgb_pwm.c:305-308 | two names share an offset exactly when they are the same name |
| `RgbPwm.OffsetSurjective` | linux/rgb_pwm/rgb_pwm.c:36-40 | every aligned offset in the span belongs to some named register |
| `RgbPwm.Device.Map` | linux/rgb_pwm/rgb_pwm.c:299-303 | a successful mapping yields a fresh 4-word block holding the hardware's contents |
| `RgbPwm.Device.Init` | linux/rgb_pwm/rgb_pwm.c:310-314 | after init, red = green = blue = 0 and period = 0x0FFF |
| `RgbPwm.Device.Show` | linux/rgb_pwm/rgb_pwm.c:67-76 | `red_show` and its siblings report the named register's current value, unmasked, and change nothing |
| `RgbPwm.Device.Store` | linux/rgb_pwm/rgb_pwm.c:78-92 | a parse failure returns the parser's negative code and changes no register; success writes the full 32-bit value to that name's register only and returns the buffer size |
| `RgbPwm.Device.RawRead` | linux/rgb_pwm/rgb_pwm.c:201-231 | negative offset gives -EINVAL; offset ≥ 16 (aligned or not) gives 0; misaligned in-range gives -EINVAL; nothing copied gives -EFAULT; all with the cursor unchanged; otherwise returns 4, the word at the cursor, and cursor + 4; registers never change |
| `RgbPwm.Device.RawWrite` | linux/rgb_pwm/rgb_pwm.c:233-269 | the same checks and codes as the raw read with nothing changed on each refusal; otherwise stores `val & 0xFFFF` at the cursor's word (period included), leaves the other three words, returns 4 and cursor + 4 |
| `RgbPwm.Probe` | linux/rgb_pwm/rgb_pwm.c:280-314 | a mapping failure returns its error and binds nothing; otherwise returns 0 and a fresh block holding 0, 0, 0, 0x0FFF |
| `RgbPwm.WriteThenRead` | linux/rgb_pwm/rgb_pwm.c:221-261 | a raw write of v then a raw read at the same aligned in-range offset reads back `v & 0xFFFF` |
| `RgbPwm.StoreThenShow` | linux/rgb_pwm/rgb_pwm.c:74-91 | a named store of v then show, or a raw read at the name's offset, yields v unmasked |
| `PushButton.Device.Map` | linux/push_button/push_button.c:185-192 | a successful mapping yields a fresh 4-word block holding the hardware's contents |
| `PushButton.Device.Show` | linux/push_button/push_button.c:22-29 | reports the low 8 bits of the word at offset 0, so at most 255, and changes nothing |
| `PushButton.Device.Store` | linux/push_button/push_button.c:32-47 | a `u8` parse failure returns the parser's code with the block unchanged; success writes the byte zero-extended (≤ 255) to offset 0 only and returns the size |
| `PushButton.Device.RawRead` | linux/push_button/push_button.c:59-89 | negative offset gives -EINVAL; offset ≥ 16 gives 0; misaligned in-range gives -EFAULT; nothing copied gives -EFAULT; all with the cursor unchanged; otherwise returns 4, the word at the cursor, and cursor + 4; registers never change |
| `PushButton.Device.RawWrite` | linux/push_button/push_button.c:91-128 | the same checks and codes as the raw read with nothing changed on each refusal; otherwise stores the full 32-bit word unmasked at the cursor, leaves the other words, returns 4 and cursor + 4 |
| `PushButton.Probe` | linux/push_button/push_button.c:161-192 | a mapping failure returns its error and binds nothing; otherwise returns 0 and a block whose contents are the hardware's (no reset) |
| `PushButton.WriteThenRead` | linux/push_button/push_button.c:77-119 | a raw write of v then a raw read at the same aligned in-range offset reads back v unchanged |
| `PushButton.RawWriteThenShow` | linux/push_button/push_button.c:25-27 | after a raw write of a full word, show reports only its low byte |
| `PushButton.StoreThenRawRead` | linux/push_button/push_button.c:40-44 | after a sysfs store of byte b, a raw read of offset 0 yields b, at most 255 |
| `PotToRgb.ReadU16` | sw/pot_to_rgb.c:88-101 | a parse failure yields nothing, so the caller's variable is not written; a value ≤ 0xFFFF passes unchanged; a larger one saturates at 0xFFFF |
| `PotToRgb.AdcToDuty` | sw/pot_to_rgb.c:105-114 | for samples below 2^15 the 32-bit product does not wrap and the result is exactly floor(adc · 2^17 / 4095); on 0..4095 it is at most 2^17 |
| `PotToRgb.AdcToDutyEndpoints` | sw/pot_to_rgb.c:105-114 | sample 0 gives duty 0 and sample 4095 gives 2^17 |
| `PotToRgb.AdcToDutyMidScale` | sw/pot_to_rgb.c:111 | sample 2047 gives 65519 |
| `PotToRgb.AdcToDutyMonotone` | sw/pot_to_rgb.c:111 | on 0..4095 a larger sample never gives a smaller duty |
| `PotToRgb.AdcToDutyAboveRange` | sw/pot_to_rgb.c:107-111 | samples from 4096 to 32767 still give the exact rescale, which is above full scale |
| `PotToRgb.AdcToDutyWraps` | sw/pot_to_rgb.c:111 | from 32768 on, the product wraps mod 2^32: the result is ((adc − 2^15) · 2^17) / 4095, strictly below the exact rescale |
| `PotToRgb.Override` | sw/pot_to_rgb.c:156-172 | selector 1, 2 or 3 sets exactly red, green or blue to 2^17 and the others to 0; any other selector leaves the duties as they were |
| `PotToRgb.OverrideInRange` | sw/pot_to_rgb.c:156-172 | duties within [0, 2^17] stay within it after the override |
| `PotToRgb.NoSelectorNoOverride` | sw/pot_to_rgb.c:148-172 | a failed selector read (selector 0) leaves the sampled duties unchanged |
| `PotToRgb.DutiesInRange` | sw/pot_to_rgb.c:152-172 | with every sample in 0..4095, every duty a pass can write is in [0, 2^17] |
| `PotToRgb.OverrideScenario` | sw/pot_to_rgb.c:152-172 | selector 2 with samples (4095, 0, 4095) writes (0, 2^17, 0) |
| `PotToRgb.Selector` | sw/pot_to_rgb.c:148-150 | a failed selector read counts as selector 0; a successful one is the clamped value |
| `PotToRgb.Sampled` | sw/pot_to_rgb.c:152-154 | each channel's pre-override duty is the rescale of that channel's sample |
| `PotToRgb.Evaluated` | sw/pot_to_rgb.c:138-140 | a `||` chain of three fallible calls evaluates the calls up to and including the first failure; all three run and succeed exactly when none fails |
| `PotToRgb.Start` | sw/pot_to_rgb.c:122-134 | start-up writes auto_update = 1, then period = 320 only if that succeeded; either failure exits with status 1; success sleeps the settle delay and enters the loop |
| `PotToRgb.ReadChannels` | sw/pot_to_rgb.c:138-140 | ADC channels are read in order up to the first failure; each successful read stores its clamped sample and a failed or skipped one leaves its variable; reports whether all succeeded |
| `PotToRgb.WriteDuties` | sw/pot_to_rgb.c:175-177 | duties are written red, green, blue up to and including the first failed write; reports whether all succeeded |
| `PotToRgb.Iterate` | sw/pot_to_rgb.c:137-185 | one pass: an ADC failure skips the selector read and every write and ends in the back-off sleep; otherwise the selector is read (0 on failure), the overridden rescaled duties are written in order until one fails, and the pass ends in the back-off sleep after a failed write or the short sleep otherwise |
| `PotToRgb.FailThenRetry` | sw/pot_to_rgb.c:116-185 | from `main`'s zero-initialised variables, a pass whose green read fails issues no write and backs off; the next pass, with every ADC read and every write succeeding and the selector read failing (so no override), writes the three rescaled samples and takes the short sleep |

## Left out

- Locking: the mutexes around the raw writes are left out. The model is sequential and each call runs to completion on its own, so the sysfs stores' lack of any lock is not visible either.
- Kernel plumbing: memory allocation (`-ENOMEM`), `misc_register` and its failure after the registers are already initialised, `misc_deregister` on remove, `platform_set_drvdata`, the device-tree match tables and module registration. A mapping failure is an abstract negative error code.
- Text handling: `kstrtou32` and `kstrtou8` are library code, so a store's input is either a parsed value in the target domain or the parser's negative code. `scnprintf` is left out too: show returns the register value it would format, not the length of the text.
- RgbPwm.Device.RawRead: when `copy_to_user` reports 1 to 3 bytes not copied, the driver still returns 4 and advances. The model returns the whole word and does not track which bytes reached the caller.
- PushButton.Device.RawRead: the same partial-copy abstraction as the RGB raw read.
- RgbPwm.Device.RawWrite: when `copy_from_user` copies only part of the word, it fills the rest of `val` with zeros and the driver still stores it. The model takes the resulting word as an input and does not work out which bytes came from the caller.
- PushButton.Device.RawWrite: the same partial-copy abstraction as the RGB raw write.
- Hardware: registers are plain storage. The button register is driven by the hardware in reality, and the model does not capture that.
- The ADC driver and the selector file: their contents are abstract read outcomes, a parsed `unsigned int` or a failure. How `fscanf` parses the text is not modelled.
- The control loop's shell: `fopen`, `fprintf`, `fclose` and the error messages are not modelled; each write is an abstract success or failure. `usleep` is a `Sleep` action in the trace, and `while (1)` is one `Iterate` step that a caller repeats.
