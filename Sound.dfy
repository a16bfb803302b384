/** The audio sample generator (gw_system_sound_init, gw_system_sound_melody
    and gw_writeR): one sample byte per write of the CPU's R output, appended to
    a double-length buffer that the host drains one refresh period at a time. */
module Sound {
  import opened Common

  /** Physical size of the sample buffer: two refresh periods. */
  const BufferSize: nat := 2 * AudioBufferLength

  /** The sound-wiring field of the ROM header flags. `UnlistedMode` stands for
      every value the switch does not name (its default branch). */
  datatype SoundMode = R1Piezo | R2Piezo | R1R2Piezo | R1S1Piezo | S1R1Piezo | UnlistedMode

  /** The sample byte for one write of `data` to R. `melody` is `gw_melody != 0`;
      `sOut` is the CPU's S output register. */
  function Route(data: Byte, melody: bool, mode: SoundMode, sOut: Byte): Byte
  {
    if melody then data
    else
      match mode
      case R1Piezo => data & 1
      case R2Piezo => (data >> 1) & 1
      case R1R2Piezo => data & 3
      case R1S1Piezo => (sOut & !1) | (data & 1)
      case S1R1Piezo => (sOut & !2) | ((data << 1) & 2)
      case UnlistedMode => data & 1
  }

  /** The shared audio state: buffer, write cursor, the host's "copied"
      handshake flag and the last speaker value. */
  datatype AudioState = AudioState(buffer: seq<Byte>, idx: int, copied: bool, speaker: Byte)

  /** The buffer has its physical size and the cursor lies within it
      (it may stand at the very end after the last slot is written). */
  predicate WellFormed(st: AudioState)
  {
    |st.buffer| == BufferSize && 0 <= st.idx <= BufferSize
  }

  /** The next write stays inside the buffer: either a handshake is pending,
      which moves the cursor back, or the cursor is below the end. The source
      does not check this; it is the host's real-time obligation. */
  predicate CanWrite(st: AudioState)
  {
    WellFormed(st) && (st.copied || st.idx < BufferSize)
  }

  /** The state written by gw_system_sound_init. */
  function InitialAudio(): (st: AudioState)
    ensures WellFormed(st) && !st.copied && st.idx == 0 && st.speaker == 0
    ensures forall i :: 0 <= i < |st.buffer| ==> st.buffer[i] == 0
  {
    AudioState(seq(BufferSize, _ => 0), 0, false, 0)
  }

  function Max0(x: int): int
  {
    if x < 0 then 0 else x
  }

  /** Step 1: on a pending handshake, clear the flag, move the cursor back by
      one period (never below 0) and move the unread tail to the front. */
  function Handshake(st: AudioState): (r: AudioState)
    requires WellFormed(st)
    ensures WellFormed(r) && !r.copied && r.speaker == st.speaker
    ensures !st.copied ==> r == st
    ensures st.copied ==> r.idx == Max0(st.idx - AudioBufferLength) && r.idx <= AudioBufferLength
    ensures st.copied ==> forall i :: 0 <= i < r.idx ==> r.buffer[i] == st.buffer[i + AudioBufferLength]
    ensures st.copied ==> forall i :: r.idx <= i < BufferSize ==> r.buffer[i] == st.buffer[i]
  {
    if !st.copied then st
    else
      var n := Max0(st.idx - AudioBufferLength);
      st.(copied := false, idx := n,
          buffer := st.buffer[AudioBufferLength..AudioBufferLength + n] + st.buffer[n..])
  }

  /** Step 3: store the sample at the cursor and advance it. */
  function Emit(st: AudioState, sample: Byte): AudioState
    requires WellFormed(st) && st.idx < BufferSize
  {
    st.(buffer := st.buffer[st.idx := sample], idx := st.idx + 1, speaker := sample)
  }

  /** gw_system_sound_melody: handshake, route, write. Exactly one byte, the
      routed sample, is written, at the cursor left by the handshake. */
  function MelodyStep(st: AudioState, data: Byte, melody: bool, mode: SoundMode, sOut: Byte): (r: AudioState)
    requires CanWrite(st)
    ensures WellFormed(r) && !r.copied
    ensures r.speaker == Route(data, melody, mode, sOut)
    ensures r.idx == (if st.copied then Max0(st.idx - AudioBufferLength) else st.idx) + 1
    ensures r.buffer[r.idx - 1] == Route(data, melody, mode, sOut)
    ensures forall j :: 0 <= j < r.idx - 1 ==>
              r.buffer[j] == (if st.copied then st.buffer[j + AudioBufferLength] else st.buffer[j])
    ensures forall j :: r.idx <= j < BufferSize ==> r.buffer[j] == st.buffer[j]
  {
    Emit(Handshake(st), Route(data, melody, mode, sOut))
  }

  // ---------------------------------------------------------------------
  // Properties of the routing table

  /** With a melody table the written value passes through unchanged. */
  lemma RouteMelodyPassthrough(data: Byte, mode: SoundMode, sOut: Byte)
    ensures Route(data, true, mode, sOut) == data
  {
  }

  /** Piezo routing looks only at the two low bits (R1, R2) of the written value. */
  lemma RoutePiezoUsesR1R2Only(data: Byte, mode: SoundMode, sOut: Byte)
    ensures Route(data, false, mode, sOut) == Route(data & 3, false, mode, sOut)
  {
  }

  /** The plain piezo modes produce a 1-bit level, except R1R2 which produces 2 bits. */
  lemma RoutePiezoLevels(data: Byte, mode: SoundMode, sOut: Byte)
    requires mode != R1S1Piezo && mode != S1R1Piezo
    ensures Route(data, false, mode, sOut) <= (if mode == R1R2Piezo then 3 else 1)
  {
  }

  /** The latch modes keep every bit of the S output except one, which comes from R1. */
  lemma RouteLatchModes(data: Byte, sOut: Byte)
    ensures var r := Route(data, false, R1S1Piezo, sOut);
            (r & !1) == (sOut & !1) && (r & 1) == (data & 1)
    ensures var r := Route(data, false, S1R1Piezo, sOut);
            (r & !2) == (sOut & !2) && ((r >> 1) & 1) == (data & 1)
  {
  }

  /** The routing table for every 2-bit value of R. */
  lemma RouteTable(data: Byte, sOut: Byte)
    requires data < 4
    ensures Route(data, false, R1Piezo, sOut) == (if data == 1 || data == 3 then 1 else 0)
    ensures Route(data, false, R2Piezo, sOut) == (if data >= 2 then 1 else 0)
    ensures Route(data, false, R1R2Piezo, sOut) == data
    ensures Route(data, false, UnlistedMode, sOut) == Route(data, false, R1Piezo, sOut)
  {
  }

  // ---------------------------------------------------------------------
  // Continuity of the sample stream

  /** The samples written since the cursor was last moved back. */
  function Pending(st: AudioState): seq<Byte>
    requires WellFormed(st)
  {
    st.buffer[..st.idx]
  }

  /** Without a pending handshake a write appends its sample to the pending ones. */
  lemma MelodyStepAppends(st: AudioState, data: Byte, melody: bool, mode: SoundMode, sOut: Byte)
    requires CanWrite(st) && !st.copied
    ensures Pending(MelodyStep(st, data, melody, mode, sOut)) == Pending(st) + [Route(data, melody, mode, sOut)]
  {
    var r := MelodyStep(st, data, melody, mode, sOut);
    assert Pending(r) == st.buffer[..st.idx] + [Route(data, melody, mode, sOut)];
  }

  /** After the host has taken the first period, the period it took followed by
      what is now pending is exactly what was pending plus the new sample:
      nothing is lost, repeated or reordered. */
  lemma MelodyStepAfterDrain(st: AudioState, data: Byte, melody: bool, mode: SoundMode, sOut: Byte)
    requires CanWrite(st) && st.copied && st.idx >= AudioBufferLength
    ensures st.buffer[..AudioBufferLength] + Pending(MelodyStep(st, data, melody, mode, sOut))
            == Pending(st) + [Route(data, melody, mode, sOut)]
  {
    var r := MelodyStep(st, data, melody, mode, sOut);
    var s := Route(data, melody, mode, sOut);
    assert Pending(r) == st.buffer[AudioBufferLength..st.idx] + [s];
    assert st.buffer[..st.idx] == st.buffer[..AudioBufferLength] + st.buffer[AudioBufferLength..st.idx];
  }

  /** A handshake that arrives before a full period was written clamps the
      cursor to 0: only the new sample is pending. */
  lemma MelodyStepAfterEarlyDrain(st: AudioState, data: Byte, melody: bool, mode: SoundMode, sOut: Byte)
    requires CanWrite(st) && st.copied && st.idx < AudioBufferLength
    ensures Pending(MelodyStep(st, data, melody, mode, sOut)) == [Route(data, melody, mode, sOut)]
  {
  }

  /** A host-side view of one session: the events are the CPU's writes to R
      and the host draining the first period (reading buffer[0..256) and then
      setting the handshake flag). */
  datatype AudioEvent = WriteSample(data: Byte, sOut: Byte) | HostDrain

  /** Audio state with the stream the host has read and the stream the CPU produced. */
  datatype Session = Session(audio: AudioState, consumed: seq<Byte>, produced: seq<Byte>)

  /** The samples the host has not read yet. */
  function Unread(st: AudioState): seq<Byte>
    requires WellFormed(st) && (st.copied ==> st.idx >= AudioBufferLength)
  {
    if st.copied then st.buffer[AudioBufferLength..st.idx] else st.buffer[..st.idx]
  }

  /** What the host has read followed by what it has not read is exactly what
      the CPU produced. */
  predicate Continuous(s: Session)
  {
    && WellFormed(s.audio)
    && (s.audio.copied ==> s.audio.idx >= AudioBufferLength)
    && s.consumed + Unread(s.audio) == s.produced
  }

  /** Runs a sequence of events; None as soon as the host breaks its side of
      the protocol: draining before a full period is pending or twice without
      a write in between, or letting the buffer fill up without draining. */
  function Replay(s: Session, events: seq<AudioEvent>, melody: bool, mode: SoundMode): Option<Session>
    requires WellFormed(s.audio)
    decreases |events|
  {
    if events == [] then Some(s)
    else
      match events[0]
      case HostDrain =>
        if s.audio.copied || s.audio.idx < AudioBufferLength then None
        else Replay(Session(s.audio.(copied := true),
                            s.consumed + s.audio.buffer[..AudioBufferLength], s.produced),
                    events[1..], melody, mode)
      case WriteSample(data, sOut) =>
        if !CanWrite(s.audio) then None
        else Replay(Session(MelodyStep(s.audio, data, melody, mode, sOut), s.consumed,
                            s.produced + [Route(data, melody, mode, sOut)]),
                    events[1..], melody, mode)
  }

  lemma InitialContinuous()
    ensures Continuous(Session(InitialAudio(), [], []))
  {
  }

  /** A drain by a host that keeps the protocol preserves continuity. */
  lemma DrainContinuous(s: Session)
    requires Continuous(s) && !s.audio.copied && s.audio.idx >= AudioBufferLength
    ensures Continuous(Session(s.audio.(copied := true),
                               s.consumed + s.audio.buffer[..AudioBufferLength], s.produced))
  {
    var a := s.audio;
    assert a.buffer[..a.idx] == a.buffer[..AudioBufferLength] + a.buffer[AudioBufferLength..a.idx];
  }

  /** A write that stays inside the buffer preserves continuity. */
  lemma WriteContinuous(s: Session, data: Byte, melody: bool, mode: SoundMode, sOut: Byte)
    requires Continuous(s) && CanWrite(s.audio)
    ensures Continuous(Session(MelodyStep(s.audio, data, melody, mode, sOut), s.consumed,
                               s.produced + [Route(data, melody, mode, sOut)]))
  {
    var a := s.audio;
    var smp := Route(data, melody, mode, sOut);
    var b := MelodyStep(a, data, melody, mode, sOut);
    if a.copied {
      MelodyStepAfterDrain(a, data, melody, mode, sOut);
      assert a.buffer[..a.idx] == a.buffer[..AudioBufferLength] + Unread(a);
      assert a.buffer[..AudioBufferLength] + Pending(b) == a.buffer[..AudioBufferLength] + (Unread(a) + [smp]);
      assert Pending(b) == Unread(a) + [smp];
    } else {
      MelodyStepAppends(a, data, melody, mode, sOut);
    }
  }

  /** Under the host protocol the stream stays continuous over any number of
      writes and drains. */
  lemma {:induction false} ReplayContinuous(s: Session, events: seq<AudioEvent>, melody: bool, mode: SoundMode)
    requires Continuous(s)
    ensures Replay(s, events, melody, mode).Some? ==> Continuous(Replay(s, events, melody, mode).value)
    decreases |events|
  {
    if events != [] {
      match events[0]
      case HostDrain =>
        if !s.audio.copied && s.audio.idx >= AudioBufferLength {
          DrainContinuous(s);
          ReplayContinuous(Session(s.audio.(copied := true),
                                   s.consumed + s.audio.buffer[..AudioBufferLength], s.produced),
                           events[1..], melody, mode);
        }
      case WriteSample(data, sOut) =>
        if CanWrite(s.audio) {
          WriteContinuous(s, data, melody, mode, sOut);
          ReplayContinuous(Session(MelodyStep(s.audio, data, melody, mode, sOut), s.consumed,
                                   s.produced + [Route(data, melody, mode, sOut)]),
                           events[1..], melody, mode);
        }
    }
  }

  /** The sample selection of gw_system_sound_melody: melody passthrough or
      the piezo routing switch. */
  method RouteSample(data: Byte, melody: bool, mode: SoundMode, sOut: Byte) returns (sample: Byte)
    ensures sample == Route(data, melody, mode, sOut)
    ensures melody ==> sample == data
    ensures !melody && (mode == R1Piezo || mode == UnlistedMode) ==>
              sample <= 1 && (sample == 1 <==> (data & 1) != 0)
    ensures !melody && mode == R2Piezo ==> sample <= 1 && (sample == 1 <==> (data & 2) != 0)
    ensures !melody && mode == R1R2Piezo ==> sample <= 3 && (sample & 3) == (data & 3)
    ensures !melody && mode == R1S1Piezo ==> (sample & !1) == (sOut & !1) && (sample & 1) == (data & 1)
    ensures !melody && mode == S1R1Piezo ==> (sample & !2) == (sOut & !2) && ((sample >> 1) & 1) == (data & 1)
  {
    if melody {
      sample := data;
    } else {
      match mode
      case R1Piezo => sample := data & 1;
      case R2Piezo => sample := (data >> 1) & 1;
      case R1R2Piezo => sample := data & 3;
      case R1S1Piezo => sample := (sOut & !1) | (data & 1);
      case S1R1Piezo => sample := (sOut & !2) | ((data << 1) & 2);
      case UnlistedMode => sample := data & 1;
    }
  }

  /** The shared state, as the process-wide globals of the source. */
  class AudioOut {
    const buffer: array<Byte>
    var idx: int
    var copied: bool
    var speakerData: Byte

    ghost predicate Valid()
      reads this
    {
      buffer.Length == BufferSize && 0 <= idx <= BufferSize
    }

    function State(): AudioState
      reads this, buffer
    {
      AudioState(buffer[..], idx, copied, speakerData)
    }

    /** Static storage: everything starts at zero. */
    constructor ()
      ensures Valid() && fresh(buffer) && State() == InitialAudio()
    {
      buffer := new Byte[BufferSize](_ => 0);
      idx, copied, speakerData := 0, false, 0;
      new;
      assert buffer[..] == InitialAudio().buffer;
    }

    /** gw_system_sound_init: clear all 2 x 256 bytes, the flag, the cursor and
        the speaker value. */
    method SoundInit()
      requires Valid()
      modifies this, buffer
      ensures Valid() && State() == InitialAudio()
    {
      forall i | 0 <= i < buffer.Length {
        buffer[i] := 0;
      }
      copied := false;
      idx := 0;
      speakerData := 0;
      assert buffer[..] == InitialAudio().buffer;
    }

    /** gw_writeR / gw_system_sound_melody for one write of `data`. */
    method WriteR(data: Byte, melody: bool, mode: SoundMode, sOut: Byte)
      requires Valid() && (copied || idx < BufferSize)
      modifies this, buffer
      ensures Valid()
      ensures State() == MelodyStep(old(State()), data, melody, mode, sOut)
    {
      TakeHandshake();
      ghost var handshaken := State();

      speakerData := RouteSample(data, melody, mode, sOut);

      buffer[idx] := speakerData;
      idx := idx + 1;
      assert State() == Emit(handshaken, speakerData);
    }

    /** The handshake part of gw_system_sound_melody, with its copy loop. */
    method TakeHandshake()
      requires Valid()
      modifies this, buffer
      ensures Valid() && State() == Handshake(old(State()))
      ensures old(copied) || old(idx) < BufferSize ==> idx < BufferSize
    {
      if copied {
        copied := false;
        idx := idx - AudioBufferLength;
        if idx < 0 {
          idx := 0;
        }
        if idx != 0 {
          CopyTail(idx);
        }
      }
    }

    /** The copy loop: the first n bytes of the second period move to the front. */
    method CopyTail(n: int)
      requires Valid() && 0 <= n <= AudioBufferLength
      modifies buffer
      ensures buffer[..] == old(buffer[..])[AudioBufferLength..AudioBufferLength + n] + old(buffer[..])[n..]
    {
      for i := 0 to n
        invariant forall j :: 0 <= j < i ==> buffer[j] == old(buffer[j + AudioBufferLength])
        invariant forall j :: i <= j < BufferSize ==> buffer[j] == old(buffer[j])
      {
        buffer[i] := buffer[i + AudioBufferLength];
      }
      assert forall j :: 0 <= j < BufferSize ==>
        buffer[j] == (old(buffer[..])[AudioBufferLength..AudioBufferLength + n] + old(buffer[..])[n..])[j];
    }
  }
}
