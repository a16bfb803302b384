# LCD Game emulator glue, modelled in Dafny

This project models `gw_system.c`, the layer of the LCD Game emulator that
sits between the host (display, sound, buttons) and the emulated Sharp
SM5xx CPU cores. It has four parts:

- **Device dispatcher** (`Dispatcher.dfy`, using `CString.dfy`).
  `gw_system_config` compares the ROM's CPU name with five constants
  using C's `strncmp(..., 5)`. The first match binds the start, reset,
  run and blit function pointers. For SM511 and SM512 the result is
  whatever the melody-table initialisation returns.
- **Audio sample generator** (`Sound.dfy`). This is the 2 × 256-byte
  shared buffer with its write cursor and the host's "copied" handshake.
  On a handshake, the unconsumed tail is moved to the front of the
  buffer. Each sample byte is then chosen by melody passthrough or by the
  piezo routing table, and appended.
- **Keyboard matrix decoder** (`Keyboard.dfy`). It covers `gw_readB`,
  `gw_readBA` and `gw_readK`: single-key AND tests, multikey equality
  tests, and joystick arbitration against the persistent
  `last_joystick` latch.
- **Cycle stepper** (`Stepper.dfy`). `gw_system_run` adds a clock-divided
  instruction budget to `m_icount` using C's truncating division. It
  then runs the CPU core and reports `m_icount * m_clk_div`.

`Common.dfy` holds the shared constants from `gw_system.h`:

- `GW_AUDIO_BUFFER_LENGTH` = 32768 / 128 = 256;
- the eight button bits.

State the C code keeps in globals becomes classes:

- `Dispatcher.Device`: the four slots and the graphics-initialised flag;
- `Sound.AudioOut`: the 512-byte `array`, the cursor, the flag and
  `mspeaker_data`;
- `Keyboard.Keypad`: `last_joystick`;
- `Stepper.Cpu`: `m_icount`, `m_k_active` and `m_clk_div`.

Their methods follow the C statement by statement. Each method is proved
against a pure specification function, and the properties are proved
about those functions:

- `Lookup` and `FamilyBinding` for the dispatcher;
- `Handshake`, `Route` and `MelodyStep` for sound;
- `ReadKSpec`, built from `LineStep` and `ScanFrom`, for `gw_readK`;
- `Budget` and `TruncDiv` for the stepper.

Several things enter the model as parameters or inputs:

- the CPU-name constants (`CpuNames`);
- the result of `sm511_init_melody`;
- `gw_melody != 0`, the sound-flag field (`SoundMode`) and `m_s_out`;
- the button mask returned by `gw_get_buttons()`;
- the keyboard tables;
- the CPU core's `device_run`, seen as a function `int -> int` on
  `m_icount`.

Bytes are `bv8` and C's `unsigned int` is `bv32`. Truncation is written
out where C narrows a value: `last_joystick = keys_pressed` keeps the low
byte.

## Model

| member | source | states |
|---|---|---|
| CString.StrnEqFrom | src/gw_sys/gw_system.c:54 | Definition of `strncmp(a, b, n) == 0` from position i on. Positions past a string's end read as NUL. It stops at the width n, at the first differing character, or at a NUL both strings share. |
| CString.StrnEq | src/gw_sys/gw_system.c:54 | `strncmp(a, b, n) == 0`: the comparison above from position 0. |
| CString.CPrefixFrom | src/gw_sys/gw_system.c:54 | The visible part of a C string is bounded by the compared width and holds no NUL character. |
| CString.StrnEqIsPrefixEquality | src/gw_sys/gw_system.c:54 | `strncmp(a, b, n) == 0` holds exactly when the visible parts of length at most n, which stop at the first NUL, are equal. |
| CString.StrnEqFromIsPrefixEquality | src/gw_sys/gw_system.c:54 | The same equivalence from any position i on, proved by induction over the compared characters. |
| CString.StrnEqSymmetric | src/gw_sys/gw_system.c:54 | A 5-character name match does not depend on the order of the two names. |
| CString.StrnEqTransitive | src/gw_sys/gw_system.c:54 | Two names that each match a third match each other. |
| CString.StrnEqIgnoresTail | src/gw_sys/gw_system.c:54 | Characters beyond the compared width do not affect the match. |
| Dispatcher.Lookup | src/gw_sys/gw_system.c:54-103 | The family selected matches the CPU name, and no family tested earlier matches it. No family is selected exactly when none matches. |
| Dispatcher.FamilyBinding | src/gw_sys/gw_system.c:56-99 | Every family binds all four slots. SM500 and SM5A bind the sm500 renderer and the other families the sm510 one. SM511 and SM512 bind sm510_device_start. |
| Dispatcher.ConfigResult | src/gw_sys/gw_system.c:58-100 | Definition of the value a match returns: true for SM500, SM5A and SM510, the melody-init result for SM511 and SM512. |
| Dispatcher.Device.constructor | src/gw_sys/gw_system.c:34-37 | The device pointers start null and graphics start uninitialised. |
| Dispatcher.Device.Config | src/gw_sys/gw_system.c:42-104 | Graphics are always initialised. On no match the result is false and the slots are unchanged. On a match the slots are that family's binding and the result is true, or the melody-init result for SM511/SM512. |
| Dispatcher.SharedEntryPoints | src/gw_sys/gw_system.c:56-99 | SM511 and SM512 bind identical slots. SM500 and SM5A share the sm500 renderer. SM510, SM511 and SM512 share the start function and the sm510 renderer. |
| Dispatcher.RunSlotIdentifiesFamily | src/gw_sys/gw_system.c:58-98 | Two families bind the same run function only if they are the same family or are both SM511/SM512. |
| Dispatcher.ConfigNeverPartial | src/gw_sys/gw_system.c:42-104 | Starting from all-null or fully bound slots, configuration never leaves the slots partly assigned. |
| Dispatcher.LookupUniqueMatch | src/gw_sys/gw_system.c:54-101 | With pairwise-distinct names, a family is selected if and only if the CPU name matches it. |
| Dispatcher.LookupIgnoresTrailingCharacters | src/gw_sys/gw_system.c:54-101 | Characters after the fifth do not change which family is selected. |
| Dispatcher.ConventionalNamesDistinct | src/gw_sys/gw_system.c:46 | The spellings SM500, SM5A, SM510, SM511, SM512 differ pairwise within five characters. |
| Dispatcher.ConventionalNameDiffers | src/gw_sys/gw_system.c:46 | Two different conventional spellings never match each other. |
| Dispatcher.PrefixOfShortName | src/gw_sys/gw_system.c:54 | A name of at most five non-NUL characters is compared in full. |
| Sound.InitialAudio | src/gw_sys/gw_system.c:119-128 | The initial audio state has all bytes zero, the flag clear, the cursor 0 and the speaker value 0. |
| Sound.AudioOut.constructor | src/gw_sys/gw_system.c:112-117 | The static buffer, cursor, flag and speaker value start as the initial audio state, all zero. |
| Sound.AudioOut.SoundInit | src/gw_sys/gw_system.c:119-128 | After sound init the buffer, flag, cursor and speaker value are the initial audio state. |
| Sound.Handshake | src/gw_sys/gw_system.c:132-147 | With the flag clear nothing changes. With it set, the flag clears and the cursor becomes max(idx - 256, 0), at most 256. The front `idx'` bytes are the old bytes 256 on, and every other byte is unchanged. |
| Sound.AudioOut.CopyTail | src/gw_sys/gw_system.c:142-146 | The copy loop leaves old bytes [256, 256+n) at the front, followed by the untouched remainder. |
| Sound.AudioOut.TakeHandshake | src/gw_sys/gw_system.c:132-147 | The handshake as code equals `Handshake`. A write afterwards stays inside the buffer when the flag was set or the old cursor was below 512. |
| Sound.MelodyStep | src/gw_sys/gw_system.c:130-194 | After the handshake exactly one byte, the routed sample, is written at the cursor, and the cursor increases by one. The bytes before and after it are as the handshake left them. |
| Sound.AudioOut.WriteR | src/gw_sys/gw_system.c:130-196 | `gw_writeR` changes the buffer, cursor, flag and speaker value exactly as `MelodyStep` says. It needs the cursor inside the buffer unless a handshake is pending. |
| Sound.Route | src/gw_sys/gw_system.c:149-188 | Definition of the sample byte: the R byte itself with a melody ROM, otherwise the case of the sound-flag switch. R1 and the default take bit 0, R2 bit 1, R1R2 both. R1S1 and S1R1 merge R1 into `m_s_out` at bit 0 or bit 1. |
| Sound.Emit | src/gw_sys/gw_system.c:191-193 | Definition of the write: the sample is stored at the cursor, the cursor advances by one, and the sample becomes `mspeaker_data`. |
| Sound.RouteSample | src/gw_sys/gw_system.c:149-189 | The method yields `Route`'s sample. With a melody ROM that is the R byte. R1, R2 and the default give a 0/1 sample that is 1 exactly when their R bit is set. R1R2 gives a sample of at most 3 whose two low bits are R1 and R2. R1S1 and S1R1 keep every other bit of `m_s_out` and put R1 in bit 0 or bit 1. |
| Sound.RouteMelodyPassthrough | src/gw_sys/gw_system.c:150-152 | With a melody ROM, the sample is the R byte itself. |
| Sound.RoutePiezoUsesR1R2Only | src/gw_sys/gw_system.c:158-188 | Piezo routing looks only at R1 and R2, the two low bits of data. |
| Sound.RoutePiezoLevels | src/gw_sys/gw_system.c:161-187 | Outside the latch modes a piezo sample is 0 or 1, or at most 3 for R1R2. |
| Sound.RouteLatchModes | src/gw_sys/gw_system.c:176-183 | R1S1 puts R1 in bit 0 and keeps the other bits of m_s_out. S1R1 puts R1 in bit 1 and keeps the other bits of m_s_out. |
| Sound.RouteTable | src/gw_sys/gw_system.c:158-188 | The routing table on the four R1/R2 values: R1, R2 and R1R2 pick their bits, and an unlisted flag value acts as R1. |
| Sound.MelodyStepAppends | src/gw_sys/gw_system.c:191-193 | Without a handshake, the pending samples grow by exactly the new sample. |
| Sound.MelodyStepAfterDrain | src/gw_sys/gw_system.c:132-147 | After the host took the first 256 bytes, those bytes followed by the pending samples are the old pending samples plus the new one. |
| Sound.MelodyStepAfterEarlyDrain | src/gw_sys/gw_system.c:136-139 | A handshake taken before 256 samples were written restarts the buffer with only the new sample. |
| Sound.InitialContinuous | src/gw_sys/gw_system.c:119-128 | Right after sound init the host has read nothing and nothing is pending. |
| Sound.DrainContinuous | src/gw_sys/gw_system.c:132-147 | The host reading a full first half keeps every sample produced either read or pending, in order. |
| Sound.WriteContinuous | src/gw_sys/gw_system.c:130-194 | A sample write keeps every sample produced either read or pending, in order. |
| Sound.ReplayContinuous | src/gw_sys/gw_system.c:130-194 | Over any run of writes and full-half host reads that stays in bounds, the host stream is a prefix of the samples produced and the rest is pending. |
| Keyboard.PressedKeys | src/gw_sys/gw_system.c:215 | Only the low 8 button bits are used: pause and power are dropped. |
| Keyboard.PullUpProbe | src/gw_sys/gw_system.c:215-223 | Definition of the shared pull-up read: 1 with no low-8 button pressed, 0 when the table word equals the pressed byte, otherwise 1. |
| Keyboard.ReadB | src/gw_sys/gw_system.c:212-224 | B reads 0 or 1. It is 1 with nothing pressed, and 0 exactly when the pressed byte equals `gw_keyboard[9]`. |
| Keyboard.ReadBA | src/gw_sys/gw_system.c:227-239 | BA reads 0 or 1. It is 1 with nothing pressed, and 0 exactly when the pressed byte equals `gw_keyboard[8]`. |
| Keyboard.PullUpWideEntryNeverPressed | src/gw_sys/gw_system.c:220-235 | A table entry above 0xFF can never be matched, so that key always reads released. |
| Keyboard.PullUpIgnoresHighButtons | src/gw_sys/gw_system.c:215-230 | B and BA do not depend on the pause and power bits. |
| Keyboard.JoystickDir | src/gw_sys/gw_system.c:261-264 | Definition of `joystick_dir`: the OR of the four bytes of a table word. |
| Keyboard.IsJoystickLine | src/gw_sys/gw_system.c:258-266 | Definition of a joystick line: a multikey line whose four bytes together contain exactly UP, DOWN, RIGHT and LEFT. |
| Keyboard.MultiKeyBits | src/gw_sys/gw_system.c:283-290 | Definition of the multikey test: bit i is set when byte i of the table word equals the pressed mask shifted into place. |
| Keyboard.SingleKeyBits | src/gw_sys/gw_system.c:295-302 | Definition of the single-key test: bit i is set when byte i of the table word shares a bit with the pressed mask. |
| Keyboard.Resolve | src/gw_sys/gw_system.c:268-278 | Definition of the four arbitration tests in sequence. A single LEFT, RIGHT, DOWN or UP press keeps the latch's bits except the opposite direction and adds the pressed one. Each later test sees the earlier result. |
| Keyboard.MultiKeyBitLane | src/gw_sys/gw_system.c:283-290 | A multikey test sets K bit i exactly when byte i of the entry equals the pressed mask. |
| Keyboard.SingleKeyBitLane | src/gw_sys/gw_system.c:295-302 | A single-key test sets K bit i exactly when byte i of the entry shares a bit with the pressed mask. |
| Keyboard.OrMultiKeyBit | src/gw_sys/gw_system.c:283-290 | OR-ing a multikey line into io_K sets bit i exactly when it was set or byte i equals the mask. |
| Keyboard.OrSingleKeyBit | src/gw_sys/gw_system.c:295-317 | OR-ing a single-key test into io_K sets bit i exactly when it was set or byte i meets the mask. |
| Keyboard.ResolveCases | src/gw_sys/gw_system.c:268-278 | Arbitration resolves each single direction against the latch. LEFT gives (last & ~RIGHT) \| LEFT, RIGHT gives (last & ~LEFT) \| RIGHT, DOWN gives (last & ~UP) \| DOWN, UP gives (last & ~DOWN) \| UP. Any other mask is unchanged. |
| Keyboard.ResolveInByte | src/gw_sys/gw_system.c:268-278 | A resolved mask is still a byte and still contains every key pressed. |
| Keyboard.ResolveFixpoint | src/gw_sys/gw_system.c:268-280 | Resolving a mask against itself as latch changes nothing. |
| Keyboard.ResolveLatchIdempotent | src/gw_sys/gw_system.c:268-280 | Resolving again against the latch just written gives the same mask. |
| Keyboard.OrLineBit | src/gw_sys/gw_system.c:258-303 | One selected line sets K bit i exactly when that line contributes to bit i: equality on a multikey line, a shared bit otherwise. |
| Keyboard.LineStep | src/gw_sys/gw_system.c:254-303 | Definition of one pass of the loop: an unselected line changes nothing. A selected joystick line resolves the mask and latches it. A selected line ORs in its multikey or single-key bits. |
| Keyboard.ScanFrom | src/gw_sys/gw_system.c:252-305 | Definition of the loop from line sx up to line 7. |
| Keyboard.ReadKSpec | src/gw_sys/gw_system.c:242-321 | Definition of gw_readK's result and new latch. With no low-8 button pressed it is (0, latch). Otherwise it scans the eight lines, applies the entry-1 fallback when no S line is driven, and keeps the low 4 bits. |
| Keyboard.LineStepKeepsInvariant | src/gw_sys/gw_system.c:252-281 | After each line, the pressed mask and the latch are the raw values until the first selected joystick line, and the resolved values from then on. |
| Keyboard.LineStepChar | src/gw_sys/gw_system.c:252-305 | Each line adds exactly its own contribution to io_K and keeps the loop state as above. |
| Keyboard.ScanFromChar | src/gw_sys/gw_system.c:252-305 | The loop's K bits are the OR of every selected line's contribution, each tested against the mask as resolved so far. |
| Keyboard.ReadKLatch | src/gw_sys/gw_system.c:242-320 | gw_readK returns at most 15, and 0 when no low-8 button is pressed. The latch becomes the resolved mask exactly when a selected joystick line exists and a key is pressed; otherwise it is unchanged. |
| Keyboard.ReadKBits | src/gw_sys/gw_system.c:242-320 | K bit i is set exactly when a key is pressed and either some selected line contributes, or no S line is driven and entry 1 shares a bit with the mask. |
| Keyboard.ScanFromSameResolution | src/gw_sys/gw_system.c:252-305 | Two scans whose latches resolve the pressed mask alike end in the same state. |
| Keyboard.ReadKIdempotent | src/gw_sys/gw_system.c:242-321 | Polling twice with the same S output and buttons gives the same K value and the same latch: the latch never drifts. |
| Keyboard.NoJoystickContributions | src/gw_sys/gw_system.c:293-302 | With no multikey line selected, every contributing line is an AND test against the raw mask. |
| Keyboard.ReadKWithoutJoystick | src/gw_sys/gw_system.c:242-321 | With no multikey line selected, the latch is untouched and K bit i is a plain OR of AND tests, including the entry-1 fallback. |
| Keyboard.CornerTable | src/gw_sys/gw_system.c:258-290 | A four-corner joystick table is a valid keyboard table. |
| Keyboard.CornerLeftFromClear | src/gw_sys/gw_system.c:266-290 | On a corner joystick, LEFT from a clear latch reads nothing but latches LEFT. |
| Keyboard.CornerUpAfterLeft | src/gw_sys/gw_system.c:266-290 | UP after LEFT reads the up-left corner. |
| Keyboard.CornerRightAfterUpLeft | src/gw_sys/gw_system.c:266-290 | RIGHT from up-left reads up-right: only the horizontal axis moves. |
| Keyboard.CornerDownAfterUpRight | src/gw_sys/gw_system.c:266-290 | DOWN from up-right reads down-right: only the vertical axis moves. |
| Keyboard.OrMultiKeyLanes | src/gw_sys/gw_system.c:283-290 | For a byte mask, OR-ing the multikey bits sets K bit i exactly when it was set or byte i equals the mask. A 4-bit io_K stays 4-bit. |
| Keyboard.OrSingleKeyLanes | src/gw_sys/gw_system.c:295-317 | For a byte mask, OR-ing the single-key bits sets K bit i exactly when it was set or byte i shares a bit with the mask. A 4-bit io_K stays 4-bit. |
| Keyboard.MultiKeyTest | src/gw_sys/gw_system.c:283-290 | The four equality tests OR the multikey bits into io_K. For a byte mask, bit i of the result is set exactly when it was set in io_K or byte i of the entry equals the mask. An io_K of at most 15 stays at most 15. |
| Keyboard.SingleKeyTest | src/gw_sys/gw_system.c:295-317 | The four AND tests OR the single-key bits into io_K. For a byte mask, bit i of the result is set exactly when it was set in io_K or byte i of the entry shares a bit with the mask. An io_K of at most 15 stays at most 15. |
| Keyboard.Keypad.constructor | src/gw_sys/gw_system.c:39 | `last_joystick` is static, so it starts at 0. The table is the one given. |
| Keyboard.Keypad.Arbitrate | src/gw_sys/gw_system.c:268-280 | The four tests compute the resolved mask, and the latch becomes its low byte. |
| Keyboard.Keypad.MultiKeyLine | src/gw_sys/gw_system.c:258-290 | On a multikey line the mask is arbitrated only on a joystick line, where the latch is then written. The line's equality bits are OR-ed in. |
| Keyboard.Keypad.ScanLine | src/gw_sys/gw_system.c:254-304 | One loop pass is one step of `ScanFrom` over the S lines. |
| Keyboard.Keypad.ReadK | src/gw_sys/gw_system.c:242-321 | gw_readK returns and latches exactly what `ReadKSpec` gives for the S output, buttons and old latch. `last_joystick` is the only state it changes. |
| Stepper.TruncDiv | src/gw_sys/gw_system.c:332-336 | C's int division truncates toward zero. For a non-negative dividend the quotient q satisfies q·d ≤ a < (q+1)·d, and symmetrically for a negative one. |
| Stepper.TruncDivOdd | src/gw_sys/gw_system.c:332-336 | Truncating division is odd: the quotient of −a is the negation of the quotient of a. |
| Stepper.TruncDivNotEuclidean | src/gw_sys/gw_system.c:332-336 | −255 / 2 is −127 in C, where Euclidean division gives −128. |
| Stepper.Budget | src/gw_sys/gw_system.c:330-336 | Dividers 2 and 4 grant the instructions that fit in the clock cycles, losing fewer than a divider's worth. Any other divider grants none. |
| Stepper.BudgetTruncates | src/gw_sys/gw_system.c:330-336 | 255 cycles grant 127 instructions at divider 2 and 63 at divider 4. −255 grant −127 at divider 2. Dividers 1 and 3 grant none. |
| Stepper.BudgetMonotone | src/gw_sys/gw_system.c:330-336 | More clock cycles never grant fewer instructions. |
| Stepper.Cpu.Run | src/gw_sys/gw_system.c:324-342 | m_k_active becomes (buttons != 0), counting every bit. m_icount becomes the core's run applied to the old count plus the budget. The divider is unchanged. The result is the new m_icount times the divider. |

## Left out

- CPU cores: `sm500_*`, `sm5a_*`, `sm510_*` and `sm511_*` start, reset and execute functions, and `sm511_init_melody`. They are foreign code. The slots record which entry point is bound. The melody-init result is an input to `Config`. `device_run` is a function on `m_icount` passed to `Run`.
- Graphics: `gw_gfx_init`, the two renderers and `gw_system_blit`. Framebuffer rendering is external. The model records only that graphics were initialised and which renderer is bound.
- `gw_system_reset`, `gw_system_start`, `gw_system_blit` and `gw_system_romload` (lines 106-109). Each only forwards to a bound slot or to the ROM loader, whose code is not part of this model.
- ROM loading and the definitions of `gw_head`, `ROM_CPU_*`, `FLAG_SOUND_*` and `gw_melody`. Their values are not visible. The CPU names are a `CpuNames` parameter, the sound flag is a `SoundMode` with an `UnlistedMode` default, and the melody flag is a boolean input.
- `gw_get_buttons()`: host I/O. The button mask is a parameter.
- `gw_system_shutdown`: an empty function (lines 345-349).
- Sound.AudioOut.WriteR: the cross-thread use of `gw_audio_buffer_copied` is not modelled. The flag is a plain boolean that the host sets between calls.
- Sound.AudioOut.WriteR: requires the write to stay inside the 512-byte buffer, because the C code does no bounds check there. A write at cursor 512 without a pending handshake would be out of bounds in C.
- Stepper.Cpu.Run: `m_icount * m_clk_div` and the additions are unbounded integers. The C `int` overflow is not modelled.
- Sound.Route: `m_s_out` is modelled as a byte. Its width in the CPU core is not visible here.
- Sound.AudioOut.WriteR: the sample selection is the helper method `RouteSample` and the copy loop is `CopyTail`. The C function is one body with the same statements in the same order.
- Keyboard.Keypad.ReadK: the per-line work (`ScanLine`, `MultiKeyLine`, `Arbitrate`, `MultiKeyTest`, `SingleKeyTest`) is in helper methods. The C function is one body. The statements and their order are the same.
- Two points where the code, and so the model, is looser than one might expect:
  - The cursor can reach 512. `gw_writeR` increments it after writing byte 511, so the model's invariant is `0 <= idx <= 512`.
  - A failed SM511/SM512 melody init does not unbind the device. The slots are assigned before `sm511_init_melody` is called, so they stay bound when it returns false. `Device.Config` models the code.
