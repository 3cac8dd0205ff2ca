/**
  The JSON MIDI player (src/JsonMidiPlayer.cpp, include/JsonMidiPlayer.hpp): output devices
  whose port is opened on first use, the header's `MidiPin`, and `PlayList` from the parsed JSON
  files to the messages handed to each device.

  RtMidi is outside the model: whether its `openPort` succeeds is an argument, and what its
  `sendMessage` receives is the `sent` log of the device.
 */
module JsonMidiPlayer {
  import opened Wrappers
  import opened MidiMessages
  import opened PlayListInput
  import opened TimeSort
  import opened RedundancyFilter

  /** `FILE_TYPE`: the "filetype" a JSON file must have to be played. */
  const FileType := "Json Midi Player"

  /** An output port of the player. */
  class MidiDevice {
    const name: string
    const port: nat
    var openedPort: bool
    /** The messages handed to RtMidi's `sendMessage`, oldest first. */
    var sent: seq<seq<Byte>>

    constructor (name: string, port: nat)
      ensures this.name == name && this.port == port && !openedPort && sent == []
    {
      this.name := name;
      this.port := port;
      openedPort := false;
      sent := [];
    }

    /**
      `openPort`: an open port is left alone; a closed one is opened when RtMidi succeeds
      (`opens`), and stays closed when it throws. Returns whether the port is now open.
     */
    method OpenPort(opens: bool) returns (r: bool)
      modifies this
      ensures openedPort == (old(openedPort) || opens) && r == openedPort && r == IsPortOpened()
      ensures sent == old(sent)
    {
      if !openedPort {
        if opens {
          openedPort := true;
        }
      }
      r := openedPort;
    }

    /** `closePort`: closes an open port, does nothing to a closed one. */
    method ClosePort()
      modifies this
      ensures !openedPort && !IsPortOpened() && sent == old(sent)
    {
      if openedPort {
        openedPort := false;
      }
    }

    /** `isPortOpened`. */
    function IsPortOpened(): bool
      reads this
    {
      openedPort
    }

    /** `sendMessage`: hands the bytes on to RtMidi. */
    method SendMessage(message: seq<Byte>)
      modifies this
      ensures sent == old(sent) + [message] && openedPort == old(openedPort)
    {
      sent := sent + [message];
    }
  }

  /** The `MidiPin` of include/JsonMidiPlayer.hpp: a timed message for one device. */
  class MidiPin {
    const timeMs: real
    const priority: Byte
    const device: MidiDevice?
    var midiMessage: seq<Byte>
    var delayTimeMs: real

    /** The vector constructor; `priority` defaults to 0xFF and the delay starts at -1. */
    constructor (timeMs: real, device: MidiDevice?, message: seq<Byte>, priority: Byte := 0xFF)
      ensures this.timeMs == timeMs && this.device == device && this.priority == priority
      ensures midiMessage == message && delayTimeMs == -1.0
    {
      this.timeMs := timeMs;
      this.device := device;
      this.priority := priority;
      midiMessage := message;
      delayTimeMs := -1.0;
    }

    /** `pluckTooth`: sends the message to the device, and nothing when there is no device. */
    method PluckTooth()
      modifies device
      ensures device != null ==> device.sent == old(device.sent) + [midiMessage]
      ensures device != null ==> device.openedPort == old(device.openedPort)
    {
      if device != null {
        device.SendMessage(midiMessage);
      }
    }

    method SetDelayTime(delay: real)
      modifies this
      ensures delayTimeMs == delay && GetDelayTime() == delay && midiMessage == old(midiMessage)
    {
      delayTimeMs := delay;
    }

    function GetDelayTime(): real
      reads this
    {
      delayTimeMs
    }

    /** `setStatusByte`: overwrites byte 0 and nothing else. */
    method SetStatusByte(status: Byte)
      requires |midiMessage| > 0
      modifies this
      ensures midiMessage == old(midiMessage)[0 := status] && GetStatusByte() == status
      ensures forall n :: 1 <= n < |midiMessage| ==> GetDataByte(n) == old(GetDataByte(n))
      ensures delayTimeMs == old(delayTimeMs)
    {
      midiMessage := midiMessage[0 := status];
    }

    function GetStatusByte(): Byte
      reads this
      requires |midiMessage| > 0
    {
      midiMessage[0]
    }

    /** `getDataByte`: byte `nth` of the message, the first data byte by default. */
    function GetDataByte(nth: int := 1): Byte
      reads this
      requires 0 <= nth < |midiMessage|
    {
      midiMessage[nth]
    }

    /** `getChannel`: the low nibble of the status byte. */
    function GetChannel(): (r: Byte)
      reads this
      requires |midiMessage| > 0
      ensures r < 16 && (midiMessage[0] - r) % 16 == 0
    {
      midiMessage[0] % 16
    }

    /** `getAction`: the status byte with its low nibble cleared. */
    function GetAction(): (r: Byte)
      reads this
      requires |midiMessage| > 0
      ensures r % 16 == 0 && r <= midiMessage[0] < r + 16
    {
      midiMessage[0] - midiMessage[0] % 16
    }
  }

  /** Action and channel are disjoint nibbles that together give back the status byte. */
  lemma ActionAndChannelMakeStatus(pin: MidiPin)
    requires |pin.midiMessage| > 0
    ensures pin.GetAction() + pin.GetChannel() == pin.GetStatusByte()
    ensures pin.GetAction() % 16 == 0 && pin.GetChannel() < 16
  {
  }

  /**
    The header's accessors on a pin that holds the bytes of a model pin read back what the
    clean-up pass compares: the status byte, its kind and channel, and the data bytes in order.
   */
  lemma AccessorsRead(pin: MidiPin, p: Pin)
    requires Sized(p) && pin.midiMessage == Bytes(p)
    ensures pin.GetStatusByte() == p.status
    ensures pin.GetAction() == Kind(p.status) && pin.GetChannel() == Channel(p.status)
    ensures p.size >= 2 ==> pin.GetDataByte() == p.data1
    ensures p.size == 3 ==> pin.GetDataByte(2) == p.data2
  {
  }

  /** The names of the devices, in `midi_devices` order. */
  function Names(devices: seq<MidiDevice>): (r: seq<string>)
    ensures |r| == |devices| && forall j :: 0 <= j < |devices| ==> r[j] == devices[j].name
  {
    seq(|devices|, j requires 0 <= j < |devices| => devices[j].name)
  }

  /** Which ports are open. */
  function Flags(devices: seq<MidiDevice>): (r: seq<bool>)
    reads set d | d in devices
    ensures |r| == |devices| && forall j :: 0 <= j < |devices| ==> r[j] == devices[j].openedPort
  {
    if devices == [] then [] else Flags(devices[..|devices| - 1]) + [devices[|devices| - 1].openedPort]
  }

  /** A device can take pins when its port is open or `openPort` will succeed. */
  function Ready(isOpen: seq<bool>, opens: seq<bool>): (r: seq<bool>)
    requires |isOpen| == |opens|
    ensures |r| == |isOpen| && forall j :: 0 <= j < |r| ==> r[j] == (isOpen[j] || opens[j])
  {
    seq(|isOpen|, j requires 0 <= j < |isOpen| => isOpen[j] || opens[j])
  }

  /** The elements of `midi_devices` are distinct objects. */
  predicate Distinct(devices: seq<MidiDevice>) {
    forall a, b :: 0 <= a < b < |devices| ==> devices[a] != devices[b]
  }

  /**
    One element of a "Json Midi Player" file: if it classifies and a device matches, that
    device is asked to open its port, and the element becomes a pin when the port is open.
    `flags` are the port states before the file loop, `sel` the devices tried since.
   */
  method TakeElement(e: Element, devices: seq<MidiDevice>, names: seq<string>, opens: seq<bool>,
                     ghost flags: seq<bool>, ghost sel: set<nat>) returns (pin: Option<Pin>)
    requires names == Names(devices) && |opens| == |devices| && |flags| == |devices| && Distinct(devices)
    requires forall j :: 0 <= j < |devices| ==> devices[j].openedPort == (flags[j] || (opens[j] && j in sel))
    modifies set d | d in devices
    ensures pin == ElementPin(e, names, Ready(flags, opens))
    ensures forall j :: 0 <= j < |devices| ==>
              devices[j].openedPort == (flags[j] || (opens[j] && j in sel + ElementSelected(e, names)))
    ensures forall j :: 0 <= j < |devices| ==> devices[j].sent == old(devices[j].sent)
  {
    pin := None;
    var m := Classify(e);
    if m.Some? {
      var d := FindDevice(e.deviceNames, names);
      if d.Some? {
        var ok := devices[d.value].OpenPort(opens[d.value]);
        if ok {
          pin := Some(Pin(e.timeMs.value, d.value, m.value.size, m.value.status, m.value.data1, m.value.data2));
        }
      }
    }
  }

  /** One JSON file: skipped unless its "filetype" is `FileType`, otherwise its elements in order. */
  method TakeFile(f: JsonFile, devices: seq<MidiDevice>, names: seq<string>, opens: seq<bool>,
                  ghost flags: seq<bool>, ghost sel: set<nat>) returns (filePins: seq<Pin>)
    requires names == Names(devices) && |opens| == |devices| && |flags| == |devices| && Distinct(devices)
    requires forall j :: 0 <= j < |devices| ==> devices[j].openedPort == (flags[j] || (opens[j] && j in sel))
    modifies set d | d in devices
    ensures filePins == if f.fileType == Some(FileType) then ContentPins(f.content, names, Ready(flags, opens)) else []
    ensures forall j :: 0 <= j < |devices| ==>
              devices[j].openedPort ==
                (flags[j] || (opens[j] && j in sel + if f.fileType == Some(FileType) then ContentSelected(f.content, names) else {}))
    ensures forall j :: 0 <= j < |devices| ==> devices[j].sent == old(devices[j].sent)
  {
    filePins := [];
    if f.fileType != Some(FileType) {
      return;
    }
    ghost var ready := Ready(flags, opens);
    var k := 0;
    while k < |f.content|
      invariant 0 <= k <= |f.content|
      invariant filePins == ContentPins(f.content[..k], names, ready)
      invariant forall j :: 0 <= j < |devices| ==>
                  devices[j].openedPort == (flags[j] || (opens[j] && j in sel + ContentSelected(f.content[..k], names)))
      invariant forall j :: 0 <= j < |devices| ==> devices[j].sent == old(devices[j].sent)
    {
      ghost var before := sel + ContentSelected(f.content[..k], names);
      var pin := TakeElement(f.content[k], devices, names, opens, flags, before);
      if pin.Some? {
        filePins := filePins + [pin.value];
      }
      ContentStep(f.content, k, names, Ready(flags, opens));
      k := k + 1;
    }
    assert f.content[..|f.content|] == f.content;
  }

  /** The file loop of `PlayList`: all pins of all "Json Midi Player" files, in file order. */
  method CollectPins(files: seq<JsonFile>, devices: seq<MidiDevice>, opens: seq<bool>) returns (pins: seq<Pin>)
    requires |opens| == |devices| && Distinct(devices)
    modifies set d | d in devices
    ensures pins == Collected(files, FileType, Names(devices), Ready(old(Flags(devices)), opens))
    ensures forall j :: 0 <= j < |devices| ==>
              devices[j].openedPort == (old(devices[j].openedPort) || (opens[j] && j in Selected(files, FileType, Names(devices))))
    ensures forall j :: 0 <= j < |devices| ==> devices[j].sent == old(devices[j].sent)
  {
    var names := Names(devices);
    ghost var flags := Flags(devices);
    pins := [];
    var i := 0;
    while i < |files|
      invariant 0 <= i <= |files|
      invariant pins == Collected(files[..i], FileType, names, Ready(flags, opens))
      invariant forall j :: 0 <= j < |devices| ==>
                  devices[j].openedPort == (flags[j] || (opens[j] && j in Selected(files[..i], FileType, names)))
      invariant forall j :: 0 <= j < |devices| ==> devices[j].sent == old(devices[j].sent)
    {
      var filePins := TakeFile(files[i], devices, names, opens, flags, Selected(files[..i], FileType, names));
      pins := pins + filePins;
      CollectedStep(files, i, FileType, names, Ready(flags, opens));
      i := i + 1;
    }
    assert files[..|files|] == files;
  }

  /**
    The playback loop with the clock left out: the front pin is plucked (its bytes go to its
    device) and moved to the back of `midiProcessed` until `midiToProcess` is empty.
   */
  method Playback(devices: seq<MidiDevice>, toProcess: seq<Pin>) returns (processed: seq<Pin>)
    requires Distinct(devices) && forall p :: p in toProcess ==> Sized(p) && p.device < |devices|
    modifies set d | d in devices
    ensures processed == toProcess
    ensures forall j :: 0 <= j < |devices| ==>
              devices[j].sent == old(devices[j].sent) + SentTo(toProcess, j) && devices[j].openedPort == old(devices[j].openedPort)
  {
    var queue := toProcess;
    processed := [];
    while |queue| > 0
      invariant processed + queue == toProcess
      invariant forall q :: q in processed ==> Sized(q) && q.device < |devices|
      invariant forall j :: 0 <= j < |devices| ==>
                  devices[j].sent == old(devices[j].sent) + SentTo(processed, j) && devices[j].openedPort == old(devices[j].openedPort)
      decreases |queue|
    {
      var p := queue[0];
      assert p in toProcess;
      devices[p.device].SendMessage(Bytes(p));
      forall j | 0 <= j < |devices| {
        SentToAppend(processed, p, j);
      }
      processed := processed + [p];
      queue := queue[1..];
    }
  }

  /** The devices going out of scope at the end of `PlayList`: each destructor closes its port. */
  method CloseAll(devices: seq<MidiDevice>)
    requires Distinct(devices)
    modifies set d | d in devices
    ensures forall j :: 0 <= j < |devices| ==> !devices[j].openedPort && devices[j].sent == old(devices[j].sent)
  {
    var i := 0;
    while i < |devices|
      invariant 0 <= i <= |devices|
      invariant forall j :: 0 <= j < i ==> !devices[j].openedPort
      invariant forall j :: 0 <= j < |devices| ==> devices[j].sent == old(devices[j].sent)
    {
      devices[i].ClosePort();
      i := i + 1;
    }
  }

  /**
    What `PlayList` plays for the collected pins: sorted by time, with every note switched off
    at the end, and every pin for one of the `n` devices.
   */
  lemma PlayedListIsClean(pins: seq<Pin>, n: nat)
    requires forall p :: p in pins ==> Sized(p) && p.device < n
    ensures var st := Run(StableSortByTime(pins));
            var out := Closed(st.kept, st.tables.noteOn);
            && SortedByTime(out)
            && (forall key :: NoteState(out, key) == None)
            && (forall p :: p in out ==> Sized(p) && p.device < n)
  {
    var sorted := StableSortByTime(pins);
    var st := Run(sorted);
    StableSortSorted(pins);
    RunKeptSorted(sorted);
    ClosedSorted(st.kept, st.tables.noteOn);
    RunAgrees(sorted);
    forall key ensures NoteState(Closed(st.kept, st.tables.noteOn), key) == None {
      NoNoteLeftOn(st.kept, st.tables.noteOn, key);
    }
    StableSortPermutes(pins);
    RunPermutes(sorted);
    forall p | p in st.kept ensures Sized(p) && p.device < n {
      assert p in multiset(st.kept);
      assert p in multiset(sorted);
      assert p in pins;
    }
    ClosedKeepsRoutable(st.kept, st.tables.noteOn, n);
  }

  /** Every collected pin is for one of the devices and has one to three bytes. */
  lemma CollectedRoutable(files: seq<JsonFile>, names: seq<string>, ready: seq<bool>)
    requires |ready| == |names|
    ensures forall p :: p in Collected(files, FileType, names, ready) ==> Sized(p) && p.device < |names|
  {
    CollectedWellFormed(files, FileType, names, ready);
  }

  /**
    `PlayList` without the JSON text and the clock: 1 when there is no output device;
    otherwise the collected pins are sorted, cleaned of redundant messages, completed with a
    Note Off for every note left on, and played in order; then every port is closed.
   */
  method PlayList(files: seq<JsonFile>, devices: seq<MidiDevice>, opens: seq<bool>)
    returns (code: int, processed: seq<Pin>, redundant: seq<Pin>)
    requires |opens| == |devices| && Distinct(devices)
    modifies set d | d in devices
    ensures |devices| == 0 ==> code == 1 && processed == [] && redundant == []
    ensures |devices| > 0 ==> code == 0
    ensures |devices| > 0 ==>
              var st := Run(StableSortByTime(Collected(files, FileType, Names(devices), Ready(old(Flags(devices)), opens))));
              processed == Closed(st.kept, st.tables.noteOn) && redundant == st.redundant
    ensures SortedByTime(processed)
    ensures forall key :: NoteState(processed, key) == None
    ensures forall p :: p in processed ==> Sized(p) && p.device < |devices|
    ensures forall j :: 0 <= j < |devices| ==> devices[j].sent == old(devices[j].sent) + SentTo(processed, j)
    ensures |devices| > 0 ==> forall j :: 0 <= j < |devices| ==> !devices[j].openedPort
  {
    if |devices| == 0 {
      return 1, [], [];
    }
    ghost var ready := Ready(Flags(devices), opens);
    var pins := CollectPins(files, devices, opens);
    var sorted := SortByTime(pins);
    var kept, noteOns;
    kept, redundant, noteOns := RemoveRedundant(sorted);
    var toProcess := CloseNotes(kept, noteOns);
    CollectedRoutable(files, Names(devices), ready);
    PlayedListIsClean(pins, |devices|);
    processed := Playback(devices, toProcess);
    CloseAll(devices);
    code := 0;
  }
}
