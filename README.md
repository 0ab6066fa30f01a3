# SDRdaemon `main` — a Dafny model

SDRdaemon reads I/Q samples from a software-defined radio (RTL-SDR, HackRF,
Airspy or BladeRF) and sends them over the network via UDP. This project
models the control and validation logic of its `main.cpp` and proves what
that logic promises:

- `parse_int`, the decimal-integer parser on top of `strtol` used for `-d`
  and `-r`, with its optional `k` (times 1000) suffix and its range checks
  (module `IntParsing`, `int_parsing.dfy`);
- the validation and dispatch part of `get_device`: a case-insensitive match
  of the `-t` device type against the four families, then a range check of
  the `-d` index against the enumerated device names (module
  `DeviceSelection`, `device_selection.dfy`);
- the `getopt_long` loop of `main` and the operand check after it, as a
  method that updates the settings in place, proved against a fold over the
  options (module `CommandLine`, `command_line.dfy`);
- the start-up checks between option parsing and streaming (module
  `Startup`, `startup.dfy`);
- the main forwarding loop: pull a block, downsample it, drop the first
  block and forward the others, warn once when the source buffer grows,
  stop on the stop flag or on an empty block (module `Forwarding`,
  `main_loop.dfy`).

`Option` and `Result` are in `wrappers.dfy`.

How the model reads the C++:

- Strings are `seq<char>`. Reading past the end of a sequence gives `'\0'`
  (`IntParsing.At`), which stands for the C terminator; in `parse_int` an
  embedded NUL ends the string as it does in C. Option arguments and device
  types come from C strings and so never hold a NUL; `SameIgnoringCase` and
  the `-t`/`-c` cases of `CommandLine.Apply` compare and keep whole
  sequences, which agrees with `strcasecmp` and `assign` on every such
  string.
- `strtol` is the C-locale, base-10 one: it skips space, `\t`, `\n`, `\v`,
  `\f` and `\r`, takes one optional sign and the longest run of digits, and
  saturates at the 64-bit `long` bounds (LP64). `INT_MIN / 1000` and
  `INT_MAX / 1000` use C's truncating division, so the `k` suffix is applied
  only when |t| <= 2147482.
- `parse_int` returning false and leaving `v` untouched is `None`. The option
  loop takes the parsed value only on `Some`; on `None`, `-d` sets -1 and
  `-r` exits (main.cpp:326-332).
- The reference meaning of `parse_int` is a grammar (`Layout`, `Lays`):
  blanks, at most one sign, a non-empty run of digits, an optional `k`, then
  the end. `ParseInt` is proved equal to it in both directions, and to be
  the inverse of decimal formatting.
- The block counter of the forwarding loop is `unsigned int` and wraps modulo
  2^32. `outputbuf_samples` is fixed at 250000 (main.cpp:373), so the buffered
  branch is always the one taken and the direct-write list stays empty.

## Model

| member | source | states |
|---|---|---|
| IntParsing.Strtol | main.cpp:192 | the converted value lies within `long`; with no digit nothing is converted (end 0, value 0); otherwise the end is just after the last digit of the run |
| IntParsing.StrtolLaid | main.cpp:192 | on text made of blanks, sign, digits and a terminator or `k`, `strtol` stops right after the digits and returns their signed value, saturated to `long` |
| IntParsing.ParseInt | main.cpp:189-204 | a success lies in `[INT_MIN, INT_MAX]` and needs at least one converted digit |
| IntParsing.ApplyUnit | main.cpp:195-203 | a result fits in `int`, and is either `t` itself followed by the terminator, or `t * 1000` when units are allowed and `k` is followed by the terminator; `ApplyUnitScales` gives the exact acceptance condition |
| IntParsing.ApplyUnitScales | main.cpp:195-201 | the `k` rule with its C-division guard accepts and scales exactly as "units allowed and abs(n) <= 2147482, then n * 1000", and otherwise keeps n only if it fits in `int`; `long` saturation never lets a value through |
| IntParsing.ParseLaid | main.cpp:191-203 | every string with a layout (blanks, optional sign, digits, optional `k`, end) parses to the meaning of that layout |
| IntParsing.ParseIntSound | main.cpp:191-203 | every accepted string has such a layout and the value is its meaning |
| IntParsing.ParseIntCharacterized | main.cpp:189-204 | `parse_int` returns `v` if and only if the string has a layout whose meaning is `v` |
| IntParsing.ParseIntNeedsDigit | main.cpp:193-194 | a string without digits (empty, blanks only, a lone sign) is rejected |
| IntParsing.ParseIntRejectsTrailingSpace | main.cpp:200-201 | appending a white-space character to a NUL-free string makes the parse fail |
| IntParsing.ParseFormat | main.cpp:189-204 | the decimal text of every `int` parses back to it, with or without units allowed |
| IntParsing.ParseFormatWithUnit | main.cpp:195-201 | the decimal text of any integer followed by `k` parses to 1000 times it exactly when units are allowed and abs(v) <= 2147482, and fails otherwise |
| DeviceSelection.FamilyOf | main.cpp:217-238 | a family is returned only if the type equals its name ignoring case; no family is returned only if no name matches |
| DeviceSelection.SelectDevice | main.cpp:215-281 | success if and only if the type names a family and 0 <= devidx < the number of device names; an unknown type fails before the index is looked at; on success the family is the named one, BladeRF is opened by `devnames[devidx]` and the others by index; the invalid-index error is reported exactly when `devidx != -1` |
| DeviceSelection.FamilyOfName | main.cpp:217-238 | each family's name, in any case, selects that family |
| DeviceSelection.FamilyOfIgnoresCase | main.cpp:217-238 | types equal up to case select the same family |
| CommandLine.DeviceIndex | main.cpp:325-327 | `-d`'s index is the value the argument parses to when it parses, and -1 when it does not; it stays within `int` |
| CommandLine.Apply | main.cpp:318-346 | one option goes on exactly when it is accepted (`-t`, `-c`, `-d`, `-M`, `-r` parsing with unit to at least 1, or an accepted `-b`) and never brings `pcmrate` below 1; `ApplyAllLastWins` states its effect on the settings |
| CommandLine.ApplyAll | main.cpp:315-347 | the options applied in order leave `pcmrate` at least 1; `ApplyAllAccepts` and `ApplyAllLastWins` state when they run to the end and with what settings |
| CommandLine.Decide | main.cpp:315-354 | exits only with status 1, and goes on only with no operand left and `pcmrate` at least 1; `DecideSummary` gives the exact condition and the settings |
| CommandLine.ParseCommandLine | main.cpp:315-354 | the option loop updating the locals in place ends with the outcome of folding the options' effects, then exits 1 if operands remain |
| CommandLine.ApplyAllStaysExited | main.cpp:329-346 | once an option exits, the later options do not matter |
| CommandLine.ApplyAllAccepts | main.cpp:317-346 | the options run to the end if and only if each is `-t`, `-c`, `-d`, `-M`, a `-r` that parses with unit to at least 1, or an accepted `-b` |
| CommandLine.ApplyAllLastWins | main.cpp:285-336 | after the options, each setting is the argument of the last option that sets it, or its default; stereo holds unless some `-M` was given; `pcmrate` is at least 1 |
| CommandLine.DecideSummary | main.cpp:315-354 | the process exits only with status 1; it goes on if and only if every option is accepted and no operand remains, and then with the last-given settings |
| CommandLine.ReservedOptionsExit | main.cpp:316-346 | `-I`, `-D` and `-C`, accepted by the option string but without a case, always exit with status 1 |
| CommandLine.UnparsableIndexOnlyLists | main.cpp:325-328 | when the last `-d` does not parse, `get_device` either rejects the type or lists the devices without reporting an invalid index |
| Startup.Launch | main.cpp:393-422 | exits only with status 1; streams only after the sink, the source and its configuration all succeed, with the family the device type names; `LaunchSummary` gives the exact condition |
| Startup.LaunchSummary | main.cpp:393-422 | start-up exits only with status 1 and streams exactly when the options are accepted, the sink is usable, the type and index select a device, and the device opens and takes the configuration; it streams with the last-given settings and the family the type names |
| Startup.NoDeviceTypeExits | main.cpp:292 | the device type starts empty and names no family, so a command line without `-t` always exits with status 1 |
| Forwarding.Rounds | main.cpp:473-489 | the number of processed blocks lies between the starting iteration and the number of pulled blocks |
| Forwarding.RoundsStopsFirst | main.cpp:473-489 | the loop processes a block at every iteration before the first one whose stop flag is set or whose pull is empty, and stops there |
| Forwarding.Checked | main.cpp:473-481 | the iterations that reach the warning check are the processed ones, plus the last one unless the stop flag ended it; `RoundsStopsFirst` identifies the processed ones |
| Forwarding.Forwarded | main.cpp:496-511 | the first processed block is never forwarded, so fewer blocks go out than were processed; `ForwardedInOrder` gives the order and contents |
| Forwarding.ForwardLoop | main.cpp:467-512 | the loop, whose invariant keeps the `unsigned int` counter equal to the iteration number modulo 2^32, pushes to the output buffer exactly the processed blocks except those taken while the counter reads 0, writes nothing directly, and prints the warning at most once, exactly when the buffer was over its high-water mark at an iteration that reached the check |
| Forwarding.RaisedBeforeSome | main.cpp:477-481 | the one-shot warning flag is set exactly when some checked iteration saw the buffer over its high-water mark |
| Forwarding.ForwardedInOrder | main.cpp:496-510 | below 2^32 blocks, the output is the processed blocks from the second one on, each once, in pull order |
| Forwarding.ForwardedPassThrough | main.cpp:494-510 | with a pass-through downsampler, the output is the pulled stream without its first block |
| Forwarding.ForwardedDropsAtWrap | main.cpp:473 | when the counter wraps after 2^32 blocks, the block processed then is dropped like the first one |

## Left out

- `write_output_data` and the output thread (main.cpp:62-92, 456-465, 520-524): concurrency over `DataBuffer`, whose code is not part of this model; the output buffer is an append-only sequence.
- The body of `Downsampler::process` is not part of this model; it is the parameter `process`, applied to each pulled block. This assumes that `process` overwrites the reused `outsamples` (which still holds the first block's output when the second block is processed, since that one is not moved out) and that the downsampler keeps no state between calls (its only fields are `m_decim` and `m_fcPos`, and `main` builds it with `decim = 0`); `ForwardedInOrder`'s statement that the j-th forwarded block is `process` of pulled block j + 1 rests on both.
- `adjust_gain` (main.cpp:50-55): floating-point scaling that `main` never calls.
- `parse_dbl` and the `-b` check: floating point, and its code is not part of this model; whether `-b`'s argument is accepted is the parameter `bufferOk`.
- The high-water test `queued_samples() > 10 * ifrate` compares doubles; it is a per-iteration boolean input.
- The stop flag is set by the signal handler asynchronously; it is a per-iteration boolean input read at the loop test.
- `getopt_long` itself: the model takes the options it returns and the number of operands left. Long options with an optional argument (`--devtype`, `--config`) given without one pass a null `optarg`, which `assign` does not accept; that case is not modelled.
- Device enumeration, the device sources, `configure`, `start`, `stop` and the UDP sink are foreign code; their results are parameters of `Startup.Launch`, and the enumerated names a parameter of `SelectDevice`.
- Signal handler installation, `usage`, `badarg`, `get_time` and all messages printed to `stderr`; only whether the index error is printed, and how many warnings are printed, are modelled.
- The `!up_srcsdr` test (main.cpp:446) checks a non-null pointer and never fires; the `unique_ptr` around the stack-allocated sink and the commented-out buffer sizing are ownership or dead code.
- `Startup.Launch` ends at `configure`; the frequency and rate reports after it only print.
- IntParsing.ParseIntRejectsTrailingSpace: stated for NUL-free strings, because a NUL before the blank ends the C string and the blank is never seen.
