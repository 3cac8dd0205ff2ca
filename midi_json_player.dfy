/**
  The MIDI JSON player (src/MidiJsonPlayer.cpp, include/MidiJsonPlayer.hpp): devices with a
  per-device keyboard bitmap and a gate in front of RtMidi's `sendMessage`, the three-byte
  `MidiPin`, and `PlayList`, which plays the sorted pins without any clean-up.

  RtMidi is outside the model: its `openPort` is taken to succeed, and what its `sendMessage`
  receives is the `sent` log of the device.
 */
module MidiJsonPlayer {
  import opened Wrappers
  import opened MidiMessages
  import opened PlayListInput
  import opened TimeSort

  /** `FILE_TYPE`: the "filetype" a JSON file must have to be played. */
  const FileType := "Midi Json Player"

  // ---------------------------------------------------------------------------------------
  // The keyboard bitmap, byte by byte. `unsigned char` arithmetic is `bv8`, which wraps.

  /** `channel * 128 + key_note` stored in an `unsigned char`. */
  function KeyIndex(channel: bv8, key: bv8): bv8 {
    channel * 128 + key
  }

  /** `keyboards_key / 8`: the byte of the slot, always one of the first 32. */
  function KeyByte(channel: bv8, key: bv8): (r: bv8)
    ensures r < 32
  {
    KeyIndex(channel, key) / 8
  }

  /** `keyboards_key % 8`: the bit of the slot, counted from the most significant one. */
  function KeyBit(channel: bv8, key: bv8): (r: bv8)
    ensures r < 8
  {
    KeyIndex(channel, key) % 8
  }

  /** `0b10000000 >> bit`. */
  function Mask(bit: bv8): bv8
    requires bit < 8
  {
    0x80 >> bit
  }

  /** `>>` on a 32-bit `int`: an arithmetic shift, which copies the sign bit in from the left. */
  function ShiftRightInt(x: bv32, n: bv8): bv32
    requires n < 32
  {
    if x & 0x8000_0000 != 0 then !(!x >> n) else x >> n
  }

  /**
    `~0b10000000 >> bit` as C++ evaluates it: `~0x80` is the `int` -129, which is shifted
    arithmetically and then cut to the `unsigned char` it is and-ed into.
   */
  function ReleaseMask(bit: bv8): bv8
    requires bit < 8
  {
    (ShiftRightInt(!(0x80 as bv32), bit) & 0xFF) as bv8
  }

  /** The shifted negative mask is exactly the complement of the bit mask. */
  lemma ReleaseMaskIsComplement(bit: bv8)
    requires bit < 8
    ensures ReleaseMask(bit) == !Mask(bit)
  {
  }

  /** `byte & (0b10000000 >> bit)` is non-zero. */
  predicate BitSet(v: bv8, bit: bv8)
    requires bit < 8
  {
    v & Mask(bit) != 0
  }

  /** `byte |= 0b10000000 >> bit`. */
  function Pressed(v: bv8, bit: bv8): bv8
    requires bit < 8
  {
    v | Mask(bit)
  }

  /** `byte &= ~0b10000000 >> bit`. */
  function Released(v: bv8, bit: bv8): bv8
    requires bit < 8
  {
    v & ReleaseMask(bit)
  }

  /** Pressing sets its bit and leaves the other seven as they were. */
  lemma PressedSetsOneBit(v: bv8, bit: bv8, other: bv8)
    requires bit < 8 && other < 8
    ensures BitSet(Pressed(v, bit), other) == (other == bit || BitSet(v, other))
  {
  }

  /** Releasing clears its bit and leaves the other seven as they were. */
  lemma ReleasedClearsOneBit(v: bv8, bit: bv8, other: bv8)
    requires bit < 8 && other < 8
    ensures BitSet(Released(v, bit), other) == (other != bit && BitSet(v, other))
  {
    ReleaseMaskIsComplement(bit);
  }

  /**
    The slot is taken modulo 256, so only 32 of the 256 bytes are ever used: channel `c` shares
    its slots with channel `c + 2`, and a key from 128 up lands in the next channel's range.
   */
  lemma SlotsAlias(channel: bv8, key: bv8)
    ensures KeyIndex(channel + 2, key) == KeyIndex(channel, key)
    ensures KeyIndex(channel, key + 128) == KeyIndex(channel + 1, key)
  {
  }

  /**
    The note tests of `sendMessage` as written: `midi_message[1] & 0xF0 == 0x80` parses as
    `midi_message[1] & (0xF0 == 0x80)`, a byte and-ed with the `bool` turned into 0 or 1.
   */
  function NoteTest(b: Byte, kind: Byte): Byte {
    if 0xF0 == kind then b % 2 else 0
  }

  /** Both note tests are always 0, so the note branches of `sendMessage` never run. */
  lemma NoteTestsNeverHold(b: Byte)
    ensures NoteTest(b, 0x80) == 0 && NoteTest(b, 0x90) == 0
  {
  }

  // ---------------------------------------------------------------------------------------
  // The device.

  class MidiDevice {
    const name: string
    const port: nat
    var openedPort: bool
    /**
      `std::array<unsigned char, 256> keyboards`, one bit per (channel, key) slot. In C++ it is a
      value member, owned by its device alone; here each constructor allocates a fresh array.
     */
    const keyboards: array<bv8>
    /** The messages handed to RtMidi's `sendMessage`, oldest first. */
    var sent: seq<seq<Byte>>

    /** A new device: port closed, nothing sent, no key pressed. */
    constructor (name: string, port: nat)
      ensures this.name == name && this.port == port && !openedPort && sent == []
      ensures fresh(keyboards) && keyboards.Length == 256
      ensures forall channel: bv8, key: bv8 :: !IsKeyPressed(channel, key)
    {
      this.name := name;
      this.port := port;
      openedPort := false;
      sent := [];
      keyboards := new bv8[256](_ => 0);
    }

    /** `openPort`: opens a closed port; an open one is left alone. */
    method OpenPort()
      modifies this
      ensures openedPort && GetOpenedPort() == 1 && sent == old(sent)
    {
      if !openedPort {
        openedPort := true;
      }
    }

    /** `closePort`: closes an open port; a closed one is left alone. */
    method ClosePort()
      modifies this
      ensures !openedPort && GetOpenedPort() == 0 && sent == old(sent)
    {
      if openedPort {
        openedPort := false;
      }
    }

    /** `getOpenedPort`: the flag as an `unsigned int`. */
    function GetOpenedPort(): nat
      reads this
    {
      if openedPort then 1 else 0
    }

    /** `isKeyPressed`: the bit of the slot of (channel, key). */
    predicate IsKeyPressed(channel: bv8, key: bv8)
      reads this, keyboards
      requires keyboards.Length == 256
    {
      BitSet(keyboards[KeyByte(channel, key)], KeyBit(channel, key))
    }

    /** `pressKey`: sets the bit of the slot; every other bit of every byte is unchanged. */
    method PressKey(channel: bv8, key: bv8)
      requires keyboards.Length == 256
      modifies keyboards
      ensures keyboards[KeyByte(channel, key)] == Pressed(old(keyboards[KeyByte(channel, key)]), KeyBit(channel, key))
      ensures forall i: bv8 :: i != KeyByte(channel, key) ==> keyboards[i] == old(keyboards[i])
      ensures IsKeyPressed(channel, key)
      ensures forall c: bv8, k: bv8 :: KeyIndex(c, k) != KeyIndex(channel, key) ==> IsKeyPressed(c, k) == old(IsKeyPressed(c, k))
    {
      var b, bit := KeyByte(channel, key), KeyBit(channel, key);
      ghost var v := keyboards[b];
      keyboards[b] := Pressed(keyboards[b], bit);
      PressedSetsOneBit(v, bit, bit);
      forall c: bv8, k: bv8 | KeyIndex(c, k) != KeyIndex(channel, key)
        ensures IsKeyPressed(c, k) == old(IsKeyPressed(c, k))
      {
        if KeyByte(c, k) == b {
          PressedSetsOneBit(v, bit, KeyBit(c, k));
        }
      }
    }

    /** `releaseKey`: clears the bit of the slot; every other bit of every byte is unchanged. */
    method ReleaseKey(channel: bv8, key: bv8)
      requires keyboards.Length == 256
      modifies keyboards
      ensures keyboards[KeyByte(channel, key)] == Released(old(keyboards[KeyByte(channel, key)]), KeyBit(channel, key))
      ensures forall i: bv8 :: i != KeyByte(channel, key) ==> keyboards[i] == old(keyboards[i])
      ensures !IsKeyPressed(channel, key)
      ensures forall c: bv8, k: bv8 :: KeyIndex(c, k) != KeyIndex(channel, key) ==> IsKeyPressed(c, k) == old(IsKeyPressed(c, k))
    {
      var b, bit := KeyByte(channel, key), KeyBit(channel, key);
      ghost var v := keyboards[b];
      keyboards[b] := Released(keyboards[b], bit);
      ReleasedClearsOneBit(v, bit, bit);
      forall c: bv8, k: bv8 | KeyIndex(c, k) != KeyIndex(channel, key)
        ensures IsKeyPressed(c, k) == old(IsKeyPressed(c, k))
      {
        if KeyByte(c, k) == b {
          ReleasedClearsOneBit(v, bit, KeyBit(c, k));
        }
      }
    }

    /**
      `sendMessage` as written: a message of more than three bytes is dropped, every other one
      is forwarded. The note branches, which would release or press the key of a Note Off or
      Note On, are unreachable (see `NoteTestsNeverHold`), so the bitmap is never touched.
     */
    method SendMessage(message: seq<Byte>, size: nat) returns (forwarded: bool)
      requires size <= 3 ==> size <= |message|
      modifies this
      ensures forwarded == (size <= 3)
      ensures sent == old(sent) + if size <= 3 then [message[..size]] else []
      ensures openedPort == old(openedPort) && keyboards[..] == old(keyboards[..])
    {
      forwarded := false;
      if size <= 3 {
        var validated := false;
        if size == 3 {
          if NoteTest(message[1], 0x80) != 0 {
            assert false;
          } else if NoteTest(message[1], 0x90) != 0 {
            assert false;
          } else {
            validated := true;
          }
        } else {
          validated := true;
        }
        if validated {
          sent := sent + [message[..size]];
          forwarded := true;
        }
      }
    }
  }

  /** The `MidiPin` of include/MidiJsonPlayer.hpp: a timed message of up to three bytes. */
  class MidiPin {
    const timeMs: real
    const device: MidiDevice?
    const messageSize: nat
    const status: Byte
    const data1: Byte
    const data2: Byte

    constructor (timeMs: real, device: MidiDevice?, messageSize: nat, status: Byte, data1: Byte, data2: Byte)
      ensures this.timeMs == timeMs && this.device == device && this.messageSize == messageSize
      ensures this.status == status && this.data1 == data1 && this.data2 == data2
    {
      this.timeMs := timeMs;
      this.device := device;
      this.messageSize := messageSize;
      this.status := status;
      this.data1 := data1;
      this.data2 := data2;
    }

    /** `midi_message`: the status byte and the two data bytes. */
    function MidiMessage(): seq<Byte> {
      [status, data1, data2]
    }

    /** `pluckTooth`: hands the message to the device's gate, and does nothing without a device. */
    method PluckTooth()
      modifies device
      ensures device != null ==>
                device.sent == old(device.sent) + if messageSize <= 3 then [MidiMessage()[..messageSize]] else []
      ensures device != null ==> device.openedPort == old(device.openedPort)
    {
      if device != null {
        var _ := device.SendMessage(MidiMessage(), messageSize);
      }
    }
  }

  /**
    The pin class and the model's `Pin` send the same thing: a pin holding a model pin's fields
    hands its gate the bytes `Bytes` gives, which is what the JSON MIDI player sends for it.
   */
  lemma MidiMessageIsBytes(pin: MidiPin, p: Pin)
    requires Sized(p) && pin.messageSize == p.size
    requires pin.status == p.status && pin.data1 == p.data1 && pin.data2 == p.data2
    ensures pin.messageSize <= 3 && pin.MidiMessage()[..pin.messageSize] == Bytes(p)
  {
  }

  /** A device's keys alias across the bitmap exactly as its slots do (`SlotsAlias`). */
  lemma KeysAlias(d: MidiDevice, channel: bv8, key: bv8)
    requires d.keyboards.Length == 256
    ensures d.IsKeyPressed(channel + 2, key) == d.IsKeyPressed(channel, key)
    ensures d.IsKeyPressed(channel, key + 128) == d.IsKeyPressed(channel + 1, key)
  {
    SlotsAlias(channel, key);
  }

  // ---------------------------------------------------------------------------------------
  // `PlayList`.

  function Names(devices: seq<MidiDevice>): (r: seq<string>)
    ensures |r| == |devices| && forall j :: 0 <= j < |devices| ==> r[j] == devices[j].name
  {
    seq(|devices|, j requires 0 <= j < |devices| => devices[j].name)
  }

  /** Every device takes pins: `openPort` is called unconditionally and is taken to succeed. */
  function AllReady(n: nat): (r: seq<bool>)
    ensures |r| == n && forall j :: 0 <= j < n ==> r[j]
  {
    seq(n, _ => true)
  }

  function Flags(devices: seq<MidiDevice>): (r: seq<bool>)
    reads set d | d in devices
    ensures |r| == |devices| && forall j :: 0 <= j < |devices| ==> r[j] == devices[j].openedPort
  {
    if devices == [] then [] else Flags(devices[..|devices| - 1]) + [devices[|devices| - 1].openedPort]
  }

  predicate Distinct(devices: seq<MidiDevice>) {
    forall a, b :: 0 <= a < b < |devices| ==> devices[a] != devices[b]
  }

  /**
    One element of a "Midi Json Player" file: if it classifies and a device matches, that
    device's port is opened and the element becomes a pin. `flags` are the port states before
    the file loop, `sel` the devices tried since.
   */
  method TakeElement(e: Element, devices: seq<MidiDevice>, names: seq<string>, ghost flags: seq<bool>, ghost sel: set<nat>)
    returns (pin: Option<Pin>)
    requires names == Names(devices) && |flags| == |devices| && Distinct(devices)
    requires forall j :: 0 <= j < |devices| ==> devices[j].openedPort == (flags[j] || j in sel)
    modifies set d | d in devices
    ensures pin == ElementPin(e, names, AllReady(|devices|))
    ensures forall j :: 0 <= j < |devices| ==>
              devices[j].openedPort == (flags[j] || j in sel + ElementSelected(e, names))
    ensures forall j :: 0 <= j < |devices| ==> devices[j].sent == old(devices[j].sent)
  {
    pin := None;
    var m := Classify(e);
    if m.Some? {
      var d := FindDevice(e.deviceNames, names);
      if d.Some? {
        devices[d.value].OpenPort();
        pin := Some(Pin(e.timeMs.value, d.value, m.value.size, m.value.status, m.value.data1, m.value.data2));
      }
    }
  }

  /** One JSON file: skipped unless its "filetype" is `FileType`, otherwise its elements in order. */
  method TakeFile(f: JsonFile, devices: seq<MidiDevice>, names: seq<string>, ghost flags: seq<bool>, ghost sel: set<nat>)
    returns (filePins: seq<Pin>)
    requires names == Names(devices) && |flags| == |devices| && Distinct(devices)
    requires forall j :: 0 <= j < |devices| ==> devices[j].openedPort == (flags[j] || j in sel)
    modifies set d | d in devices
    ensures filePins == if f.fileType == Some(FileType) then ContentPins(f.content, names, AllReady(|devices|)) else []
    ensures forall j :: 0 <= j < |devices| ==>
              devices[j].openedPort ==
                (flags[j] || j in sel + if f.fileType == Some(FileType) then ContentSelected(f.content, names) else {})
    ensures forall j :: 0 <= j < |devices| ==> devices[j].sent == old(devices[j].sent)
  {
    filePins := [];
    if f.fileType != Some(FileType) {
      return;
    }
    var k := 0;
    while k < |f.content|
      invariant 0 <= k <= |f.content|
      invariant filePins == ContentPins(f.content[..k], names, AllReady(|devices|))
      invariant forall j :: 0 <= j < |devices| ==>
                  devices[j].openedPort == (flags[j] || j in sel + ContentSelected(f.content[..k], names))
      invariant forall j :: 0 <= j < |devices| ==> devices[j].sent == old(devices[j].sent)
    {
      ghost var before := sel + ContentSelected(f.content[..k], names);
      var pin := TakeElement(f.content[k], devices, names, flags, before);
      if pin.Some? {
        filePins := filePins + [pin.value];
      }
      ContentStep(f.content, k, names, AllReady(|devices|));
      k := k + 1;
    }
    assert f.content[..|f.content|] == f.content;
  }

  /** The file loop of `PlayList`: all pins of all "Midi Json Player" files, in file order. */
  method CollectPins(files: seq<JsonFile>, devices: seq<MidiDevice>) returns (pins: seq<Pin>)
    requires Distinct(devices)
    modifies set d | d in devices
    ensures pins == Collected(files, FileType, Names(devices), AllReady(|devices|))
    ensures forall j :: 0 <= j < |devices| ==>
              devices[j].openedPort == (old(devices[j].openedPort) || j in Selected(files, FileType, Names(devices)))
    ensures forall j :: 0 <= j < |devices| ==> devices[j].sent == old(devices[j].sent)
  {
    var names := Names(devices);
    ghost var flags := Flags(devices);
    pins := [];
    var i := 0;
    while i < |files|
      invariant 0 <= i <= |files|
      invariant pins == Collected(files[..i], FileType, names, AllReady(|devices|))
      invariant forall j :: 0 <= j < |devices| ==>
                  devices[j].openedPort == (flags[j] || j in Selected(files[..i], FileType, names))
      invariant forall j :: 0 <= j < |devices| ==> devices[j].sent == old(devices[j].sent)
    {
      var filePins := TakeFile(files[i], devices, names, flags, Selected(files[..i], FileType, names));
      pins := pins + filePins;
      CollectedStep(files, i, FileType, names, AllReady(|devices|));
      i := i + 1;
    }
    assert files[..|files|] == files;
  }

  /**
    The playback loop with the clock left out: the front pin is plucked (its three bytes and
    its size go through the device's gate) and moved to the back of `midiProcessed`.
   */
  method Playback(devices: seq<MidiDevice>, toProcess: seq<Pin>) returns (processed: seq<Pin>)
    requires Distinct(devices) && forall p :: p in toProcess ==> Sized(p) && p.device < |devices|
    modifies set d | d in devices
    ensures processed == toProcess
    ensures forall j :: 0 <= j < |devices| ==>
              devices[j].sent == old(devices[j].sent) + SentTo(toProcess, j) && devices[j].openedPort == old(devices[j].openedPort)
  {
    var queue := toProcess;
    processed := [];
    while |queue| > 0
      invariant processed + queue == toProcess
      invariant forall q :: q in processed ==> Sized(q) && q.device < |devices|
      invariant forall j :: 0 <= j < |devices| ==>
                  devices[j].sent == old(devices[j].sent) + SentTo(processed, j) && devices[j].openedPort == old(devices[j].openedPort)
      decreases |queue|
    {
      var p := queue[0];
      assert p in toProcess;
      assert [p.status, p.data1, p.data2][..p.size] == Bytes(p);
      var _ := devices[p.device].SendMessage([p.status, p.data1, p.data2], p.size);
      forall j | 0 <= j < |devices| {
        SentToAppend(processed, p, j);
      }
      processed := processed + [p];
      queue := queue[1..];
    }
  }

  /**
    `PlayList` without the JSON text and the clock: 1 when there is no output device;
    otherwise every collected pin is played, in time order, and the processed list is emptied
    before 0 is returned.
   */
  method PlayList(files: seq<JsonFile>, devices: seq<MidiDevice>) returns (code: int)
    requires Distinct(devices)
    modifies set d | d in devices
    ensures code == if |devices| == 0 then 1 else 0
    ensures forall p :: p in StableSortByTime(Collected(files, FileType, Names(devices), AllReady(|devices|))) ==>
              Sized(p) && p.device < |devices|
    ensures |devices| > 0 ==> forall j :: 0 <= j < |devices| ==>
              devices[j].sent ==
                old(devices[j].sent) + SentTo(StableSortByTime(Collected(files, FileType, Names(devices), AllReady(|devices|))), j)
    ensures |devices| > 0 ==> forall j :: 0 <= j < |devices| ==>
              devices[j].openedPort == (old(devices[j].openedPort) || j in Selected(files, FileType, Names(devices)))
  {
    var names := Names(devices);
    var ready := AllReady(|devices|);
    CollectedWellFormed(files, FileType, names, ready);
    StableSortPermutes(Collected(files, FileType, names, ready));
    forall p | p in StableSortByTime(Collected(files, FileType, names, ready)) ensures Sized(p) && p.device < |devices| {
      assert p in multiset(StableSortByTime(Collected(files, FileType, names, ready)));
      assert p in Collected(files, FileType, names, ready);
    }
    if |devices| == 0 {
      return 1;
    }
    var pins := CollectPins(files, devices);
    var sorted := SortByTime(pins);
    var processed := Playback(devices, sorted);
    // The drain of `midiProcessed` before returning: it has no effect on any device, and it
    // leaves both lists empty (`Playback` has already emptied its queue of pins to process).
    while |processed| > 0
      decreases |processed|
    {
      processed := processed[1..];
    }
    assert processed == [];
    code := 0;
  }
}
