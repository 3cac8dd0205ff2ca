/**
  MIDI messages as both players read them from a JSON play list, and the classification rule
  that `PlayList` applies to every element of a file's "content" array.
 */
module MidiMessages {
  import opened Wrappers

  /** One byte of a MIDI message (an `unsigned char` in the players), as its value 0..255. */
  type Byte = b: int | 0 <= b < 256

  /**
    A JSON element after parsing. A field is `None` when it is missing or is null, a string,
    an array or an object: reading it then throws, and the element is skipped. A boolean is the
    number 0 or 1, as nlohmann converts it. The byte fields hold the JSON integer as written,
    before it is stored into the C++ variable. `deviceNames` is the "device" array of the
    element's "midi_message" (a missing array iterates as empty).
   */
  datatype Element = Element(
    timeMs: Option<real>,
    deviceNames: seq<string>,
    statusByte: Option<int>,
    dataByte1: Option<int>,
    dataByte2: Option<int>,
    dataByte: Option<int>)

  /** A classified message: its length in bytes and its three bytes (unused ones are 0). */
  datatype Message = Message(size: nat, status: Byte, data1: Byte, data2: Byte)

  /** A scheduled message: time in ms, the index of its output device, and the message. */
  datatype Pin = Pin(time: real, device: nat, size: nat, status: Byte, data1: Byte, data2: Byte)

  /**
    Storing a JSON integer into a 32-bit C++ `int` (`data_byte_1`, `data_byte_2`): the
    conversion is a plain cast, which keeps the value modulo 2^32 in -2^31 .. 2^31 - 1.
   */
  function ToInt(x: int): (r: int)
    ensures -0x8000_0000 <= r < 0x8000_0000 && (x - r) % 0x1_0000_0000 == 0
    ensures -0x8000_0000 <= x < 0x8000_0000 ==> r == x
  {
    (x + 0x8000_0000) % 0x1_0000_0000 - 0x8000_0000
  }

  /** Storing a JSON integer into an `unsigned char` keeps it modulo 256. */
  function ToByte(x: int): (r: Byte)
    ensures (x - r) % 256 == 0
    ensures 0 <= x < 256 ==> r == x
  {
    x % 256
  }

  /** Channel messages: Note Off up to Pitch Bend, 0x80 to 0xEF. */
  predicate IsChannelStatus(s: Byte) {
    0x80 <= s < 0xF0
  }

  /** System real-time messages the players accept (0xF9 and 0xFD are undefined in MIDI). */
  predicate IsRealTimeStatus(s: Byte) {
    s == 0xF8 || s == 0xFA || s == 0xFB || s == 0xFC || s == 0xFE || s == 0xFF
  }

  /** System common messages with one data byte: MIDI Time Code Quarter Frame and Song Select. */
  predicate IsOneDataByteCommon(s: Byte) {
    s == 0xF1 || s == 0xF3
  }

  /** Song Position Pointer. */
  const SongPosition: Byte := 0xF2
  /** Tune Request. */
  const TuneRequest: Byte := 0xF6

  predicate IsKnownStatus(s: Byte) {
    IsChannelStatus(s) || IsRealTimeStatus(s) || IsOneDataByteCommon(s) || s == SongPosition || s == TuneRequest
  }

  /** A field that is present and, once stored in an `int`, holds a value in 0..hi. */
  predicate Within(x: Option<int>, hi: int) {
    x.Some? && 0 <= ToInt(x.value) <= hi
  }

  /**
    What an element needs in order to be played: a non-negative time, a status byte
    of a known kind, and, for that kind, the data fields it reads, each within range
    (0..127 for channel messages, 0..255 for the system common ones).
   */
  predicate Playable(e: Element) {
    && e.timeMs.Some? && e.timeMs.value >= 0.0
    && e.statusByte.Some?
    && var s := ToByte(e.statusByte.value);
       && IsKnownStatus(s)
       && (IsChannelStatus(s) ==> Within(e.dataByte1, 127) && Within(e.dataByte2, 127))
       && (IsOneDataByteCommon(s) ==> Within(e.dataByte, 255))
       && (s == SongPosition ==> Within(e.dataByte1, 255) && Within(e.dataByte2, 255))
  }

  /** The length MIDI gives a message by its status byte alone. */
  function SizeOf(s: Byte): nat {
    if IsChannelStatus(s) || s == SongPosition then 3
    else if IsOneDataByteCommon(s) then 2
    else 1
  }

  /**
    The classification of one element (both players, the same rule): keeps a message exactly
    when the element is playable; fixes its length from the status byte; copies the data
    bytes the kind reads and zeroes the others.
   */
  function Classify(e: Element): (r: Option<Message>)
    ensures r.Some? <==> Playable(e)
    ensures r.Some? ==> r.value.status == ToByte(e.statusByte.value)
    ensures r.Some? ==> r.value.size == SizeOf(r.value.status) && 1 <= r.value.size <= 3
    ensures r.Some? && (IsChannelStatus(r.value.status) || r.value.status == SongPosition) ==>
              r.value.data1 == ToInt(e.dataByte1.value) && r.value.data2 == ToInt(e.dataByte2.value)
    ensures r.Some? && IsChannelStatus(r.value.status) ==> r.value.data1 < 0x80 && r.value.data2 < 0x80
    ensures r.Some? && r.value.size == 2 ==> r.value.data1 == ToInt(e.dataByte.value) && r.value.data2 == 0
    ensures r.Some? && r.value.size == 1 ==> r.value.data1 == 0 && r.value.data2 == 0
  {
    if e.timeMs.None? || !(e.timeMs.value >= 0.0) || e.statusByte.None? then None
    else
      var s := ToByte(e.statusByte.value);
      if IsChannelStatus(s) then
        if e.dataByte1.None? || e.dataByte2.None? then None
        else
          var d1, d2 := ToInt(e.dataByte1.value), ToInt(e.dataByte2.value);
          if d1 < 0 || d1 > 127 || d2 < 0 || d2 > 127 then None
          else Some(Message(3, s, d1, d2))
      else if IsRealTimeStatus(s) then
        Some(Message(1, s, 0, 0))
      else if IsOneDataByteCommon(s) then
        if e.dataByte.None? then None
        else
          var d := ToInt(e.dataByte.value);
          if d < 0x00 || d > 0xFF then None
          else Some(Message(2, s, d, 0))
      else if s == SongPosition then
        if e.dataByte1.None? || e.dataByte2.None? then None
        else
          var d1, d2 := ToInt(e.dataByte1.value), ToInt(e.dataByte2.value);
          if d1 < 0x00 || d1 > 0xFF || d2 < 0x00 || d2 > 0xFF then None
          else Some(Message(3, s, d1, d2))
      else if s == TuneRequest then
        Some(Message(1, s, 0, 0))
      else None
  }

  /**
    A data byte beyond the `int` range wraps before it is range-checked: 2^32 + 64 as the first
    data byte of a Note On is stored as 64, and the element is played.
   */
  lemma WrappedDataByteKept()
    ensures var m := Classify(Element(Some(0.0), ["out"], Some(0x90), Some(0x1_0000_0040), Some(100), None));
            m == Some(Message(3, 0x90, 64, 100))
  {
  }

  /** The bytes handed to the MIDI output: the first `size` bytes of the message. */
  function Bytes(p: Pin): seq<Byte>
    requires Sized(p)
  {
    if p.size == 1 then [p.status]
    else if p.size == 2 then [p.status, p.data1]
    else [p.status, p.data1, p.data2]
  }

  /** A message of one to three bytes. */
  predicate Sized(p: Pin) {
    1 <= p.size <= 3
  }

  /** The messages that playing the pins of `s`, in order, hands to device `j`. */
  function SentTo(s: seq<Pin>, j: nat): (r: seq<seq<Byte>>)
    requires forall p :: p in s ==> Sized(p)
    ensures |r| <= |s|
  {
    if s == [] then []
    else
      var p := s[|s| - 1];
      SentTo(s[..|s| - 1], j) + if p.device == j then [Bytes(p)] else []
  }

  lemma SentToAppend(s: seq<Pin>, p: Pin, j: nat)
    requires forall q :: q in s ==> Sized(q)
    requires Sized(p)
    ensures SentTo(s + [p], j) == SentTo(s, j) + if p.device == j then [Bytes(p)] else []
  {
    assert (s + [p])[..|s|] == s;
  }
}
