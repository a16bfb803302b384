/** Shared vocabulary of the LCD game system glue layer: an optional value,
    the byte and word types of the C code, and the constants of gw_system.h. */
module Common {

  /** A value that may be absent. */
  datatype Option<T> = None | Some(value: T)

  /** `unsigned char` */
  type Byte = bv8
  /** `unsigned int` (32 bits on every target of the emulator) */
  type Word = bv32

  /** Refresh rate of the host loop, in Hz. */
  const RefreshRate: nat := 128
  /** System clock, which is also the audio sample rate, in Hz. */
  const SysFreq: nat := 32768
  /** Samples produced per refresh period: 32768 / 128. */
  const AudioBufferLength: nat := SysFreq / RefreshRate

  /** Button bits of the mask that the host's button accessor returns. */
  const ButtonLeft: Word := 1
  const ButtonUp: Word := 2
  const ButtonRight: Word := 4
  const ButtonDown: Word := 8
  const ButtonA: Word := 16
  const ButtonB: Word := 32
  const ButtonTime: Word := 64
  const ButtonGame: Word := 128

  /** The four joystick directions together: the mask of a joystick line. */
  const AllDirections: Word := ButtonUp | ButtonDown | ButtonRight | ButtonLeft
}
