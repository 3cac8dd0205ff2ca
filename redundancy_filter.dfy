/**
  The clean-up pass of the JSON MIDI player's `PlayList` (src/JsonMidiPlayer.cpp): a walk over
  the time-sorted pins that moves every redundant message to `midiRedundant`, remembering in
  five "last message" lists what was last kept per device, channel and (for notes, key pressure
  and controllers) note or controller number, and finally switching off every note still on.

  Bytes are values 0..255, so `s & 0x0F` is `s % 16`, `s & 0xF0` is `s - s % 16`, and
  `(s & 0x0F) | 0x80` is `s % 16 + 0x80`.
 */
module RedundancyFilter {
  import opened Wrappers
  import opened MidiMessages
  import opened TimeSort

  const NoteOff: Byte := 0x80
  const NoteOn: Byte := 0x90
  const KeyPressure: Byte := 0xA0
  const ControlChange: Byte := 0xB0
  const ChannelPressure: Byte := 0xD0
  const PitchBend: Byte := 0xE0

  /** `s & 0xF0`: the kind of a channel message. */
  function Kind(s: Byte): Byte {
    s - s % 16
  }

  /** `s & 0x0F`: the channel of a channel message. */
  function Channel(s: Byte): Byte {
    s % 16
  }

  predicate IsNote(p: Pin) {
    Kind(p.status) == NoteOff || Kind(p.status) == NoteOn
  }

  /** The kinds whose last value is tracked and compared. */
  predicate IsValueKind(kind: Byte) {
    kind == KeyPressure || kind == ControlChange || kind == ChannelPressure || kind == PitchBend
  }

  /** An entry of a "last message" list (`MidiLastMessage`); `device` and `status` never change. */
  datatype LastMessage = LastMessage(device: nat, status: Byte, data1: Byte, data2: Byte)

  /**
    `MidiLastMessage::operator==`: same device and channel and, for an entry of kind 0x80..0xB0,
    the same first data byte (note or controller number); for 0xC0..0xEF the channel suffices.
   */
  predicate Matches(e: LastMessage, p: Pin) {
    && e.device == p.device
    && Channel(e.status) == Channel(p.status)
    && ((0x80 <= e.status < 0xC0 && e.data1 == p.data1) || (0xC0 <= e.status < 0xF0))
  }

  /** The first entry of a list that matches the pin, as the range-for loops find it. */
  function Find(t: seq<LastMessage>, p: Pin): (r: Option<nat>)
    ensures r.Some? ==> r.value < |t| && Matches(t[r.value], p) && forall j :: 0 <= j < r.value ==> !Matches(t[j], p)
    ensures r.None? ==> forall j :: 0 <= j < |t| ==> !Matches(t[j], p)
  {
    if t == [] then None
    else if Matches(t[0], p) then Some(0)
    else match Find(t[1..], p)
      case Some(i) => Some(i + 1)
      case None => None
  }

  /** The entry a pin creates (`MidiLastMessage(device, status, data_byte_1, data_byte_2)`). */
  function Entry(p: Pin): LastMessage {
    LastMessage(p.device, p.status, p.data1, p.data2)
  }

  /**
    The bytes a value list compares: the second data byte for key pressure and control change,
    the first for channel pressure, both for pitch bend.
   */
  function Tracked(kind: Byte, d1: Byte, d2: Byte): (Byte, Byte) {
    if kind == ChannelPressure then (d1, 0)
    else if kind == PitchBend then (d1, d2)
    else (0, d2)
  }

  /** The entry after a changed value is recorded: exactly the compared bytes are overwritten. */
  function Updated(e: LastMessage, p: Pin): LastMessage {
    var kind := Kind(p.status);
    if kind == ChannelPressure then e.(data1 := p.data1)
    else if kind == PitchBend then e.(data1 := p.data1, data2 := p.data2)
    else e.(data2 := p.data2)
  }

  /** Note Off: kept, and its note-on entry erased, when a note-on entry matches; redundant otherwise. */
  function NoteOffStep(t: seq<LastMessage>, p: Pin): (seq<LastMessage>, bool) {
    match Find(t, p)
    case Some(i) => (t[..i] + t[i + 1..], true)
    case None => (t, false)
  }

  /**
    Note On: a first-timer is kept and recorded; one with an entry is kept (and its velocity
    recorded) only when the velocity switches between zero and non-zero.
   */
  function NoteOnStep(t: seq<LastMessage>, p: Pin): (seq<LastMessage>, bool) {
    match Find(t, p)
    case Some(i) =>
      if (t[i].data2 == 0 && p.data2 > 0) || (t[i].data2 > 0 && p.data2 == 0)
      then (t[i := t[i].(data2 := p.data2)], true)
      else (t, false)
    case None => (t + [Entry(p)], true)
  }

  /** Key pressure, control change, channel pressure, pitch bend: redundant when the value repeats. */
  function ValueStep(t: seq<LastMessage>, p: Pin): (seq<LastMessage>, bool) {
    match Find(t, p)
    case Some(i) =>
      var kind := Kind(p.status);
      if Tracked(kind, t[i].data1, t[i].data2) != Tracked(kind, p.data1, p.data2)
      then (t[i := Updated(t[i], p)], true)
      else (t, false)
    case None => (t + [Entry(p)], true)
  }

  /** The five lists of the clean-up pass. */
  datatype Tables = Tables(
    noteOn: seq<LastMessage>,
    keyPressure: seq<LastMessage>,
    controlChange: seq<LastMessage>,
    channelPressure: seq<LastMessage>,
    pitchBend: seq<LastMessage>)

  /** The pins kept so far (`midiToProcess` before the cursor), the redundant ones, and the lists. */
  datatype FilterState = FilterState(kept: seq<Pin>, redundant: seq<Pin>, tables: Tables)

  const Start := FilterState([], [], Tables([], [], [], [], []))

  function Decide(st: FilterState, p: Pin, keep: bool): FilterState {
    if keep then st.(kept := st.kept + [p]) else st.(redundant := st.redundant + [p])
  }

  /** One turn of the loop over `midiToProcess`. */
  function Step(st: FilterState, p: Pin): FilterState {
    var tb := st.tables;
    var kind := Kind(p.status);
    if !IsChannelStatus(p.status) then Decide(st, p, true)
    else if kind == NoteOff then
      var (t, keep) := NoteOffStep(tb.noteOn, p); Decide(st.(tables := tb.(noteOn := t)), p, keep)
    else if kind == NoteOn then
      var (t, keep) := NoteOnStep(tb.noteOn, p); Decide(st.(tables := tb.(noteOn := t)), p, keep)
    else if kind == KeyPressure then
      var (t, keep) := ValueStep(tb.keyPressure, p); Decide(st.(tables := tb.(keyPressure := t)), p, keep)
    else if kind == ControlChange then
      var (t, keep) := ValueStep(tb.controlChange, p); Decide(st.(tables := tb.(controlChange := t)), p, keep)
    else if kind == ChannelPressure then
      var (t, keep) := ValueStep(tb.channelPressure, p); Decide(st.(tables := tb.(channelPressure := t)), p, keep)
    else if kind == PitchBend then
      var (t, keep) := ValueStep(tb.pitchBend, p); Decide(st.(tables := tb.(pitchBend := t)), p, keep)
    else Decide(st, p, true)
  }

  /** The whole pass over a pin list. */
  function Run(pins: seq<Pin>): FilterState {
    if pins == [] then Start else Step(Run(pins[..|pins| - 1]), pins[|pins| - 1])
  }

  // ---------------------------------------------------------------------------------------
  // The rule the lists implement, stated on the messages already kept (no lists involved).

  /** What a list entry or a pin is about: device, channel and, below 0xC0, note or controller. */
  datatype Key = Key(device: nat, channel: Byte, number: Byte)

  function KeyOf(device: nat, status: Byte, data1: Byte): Key {
    Key(device, Channel(status), if status < 0xC0 then data1 else 0)
  }

  function PinKey(p: Pin): Key {
    KeyOf(p.device, p.status, p.data1)
  }

  function EntryKey(e: LastMessage): Key {
    KeyOf(e.device, e.status, e.data1)
  }

  /**
    The state of a note after the history `h`: the velocity of the last Note On for the key if
    no Note Off for the key came after it, and `None` if the note is off (or never played).
   */
  function NoteState(h: seq<Pin>, key: Key): Option<Byte> {
    if h == [] then None
    else
      var q := h[|h| - 1];
      if IsNote(q) && PinKey(q) == key then
        if Kind(q.status) == NoteOn then Some(q.data2) else None
      else NoteState(h[..|h| - 1], key)
  }

  /** The compared bytes of the last message of `kind` for `key` in `h`. */
  function LastValue(h: seq<Pin>, kind: Byte, key: Key): Option<(Byte, Byte)> {
    if h == [] then None
    else
      var q := h[|h| - 1];
      if Kind(q.status) == kind && PinKey(q) == key then Some(Tracked(kind, q.data1, q.data2))
      else LastValue(h[..|h| - 1], kind, key)
  }

  /**
    Whether `p` is worth sending after the kept messages `h`: a Note Off only for a note that is
    on; a Note On only for a note that is off or whose velocity switches between zero and
    non-zero; a key pressure, control change, channel pressure or pitch bend only when its value
    differs from the last one kept for the same key; everything else always.
   */
  predicate KeepByHistory(h: seq<Pin>, p: Pin) {
    var kind := Kind(p.status);
    if !IsChannelStatus(p.status) then true
    else if kind == NoteOff then NoteState(h, PinKey(p)).Some?
    else if kind == NoteOn then
      match NoteState(h, PinKey(p))
      case None => true
      case Some(v) => (v == 0) != (p.data2 == 0)
    else if IsValueKind(kind) then LastValue(h, kind, PinKey(p)) != Some(Tracked(kind, p.data1, p.data2))
    else true
  }

  // ---------------------------------------------------------------------------------------
  // The lists against the history.

  /** The first entry for a key. */
  function Lookup(t: seq<LastMessage>, key: Key): Option<LastMessage> {
    if t == [] then None
    else if EntryKey(t[0]) == key then Some(t[0])
    else Lookup(t[1..], key)
  }

  predicate AllOfKind(t: seq<LastMessage>, kind: Byte) {
    forall i :: 0 <= i < |t| ==> Kind(t[i].status) == kind
  }

  predicate UniqueKeys(t: seq<LastMessage>) {
    forall i, j :: 0 <= i < j < |t| ==> EntryKey(t[i]) != EntryKey(t[j])
  }

  function VelocityOf(o: Option<LastMessage>): Option<Byte> {
    match o case Some(e) => Some(e.data2) case None => None
  }

  function ValueOf(kind: Byte, o: Option<LastMessage>): Option<(Byte, Byte)> {
    match o case Some(e) => Some(Tracked(kind, e.data1, e.data2)) case None => None
  }

  /** The note-on list holds, once per key, exactly the notes that are on, with their velocity. */
  ghost predicate NoteTableAgrees(t: seq<LastMessage>, h: seq<Pin>) {
    && AllOfKind(t, NoteOn)
    && UniqueKeys(t)
    && forall key :: NoteState(h, key) == VelocityOf(Lookup(t, key))
  }

  /** A value list holds, per key, the last value kept of its kind. */
  ghost predicate ValueTableAgrees(t: seq<LastMessage>, kind: Byte, h: seq<Pin>) {
    && AllOfKind(t, kind)
    && forall key :: LastValue(h, kind, key) == ValueOf(kind, Lookup(t, key))
  }

  ghost predicate Agrees(st: FilterState) {
    && NoteTableAgrees(st.tables.noteOn, st.kept)
    && ValueTableAgrees(st.tables.keyPressure, KeyPressure, st.kept)
    && ValueTableAgrees(st.tables.controlChange, ControlChange, st.kept)
    && ValueTableAgrees(st.tables.channelPressure, ChannelPressure, st.kept)
    && ValueTableAgrees(st.tables.pitchBend, PitchBend, st.kept)
  }

  // ---------------------------------------------------------------------------------------
  // Lemmas on histories and lists.

  lemma NoteStateAppend(h: seq<Pin>, q: Pin, key: Key)
    ensures NoteState(h + [q], key) ==
              if IsNote(q) && PinKey(q) == key then (if Kind(q.status) == NoteOn then Some(q.data2) else None)
              else NoteState(h, key)
  {
    assert (h + [q])[..|h + [q]| - 1] == h;
  }

  lemma LastValueAppend(h: seq<Pin>, q: Pin, kind: Byte, key: Key)
    ensures LastValue(h + [q], kind, key) ==
              if Kind(q.status) == kind && PinKey(q) == key then Some(Tracked(kind, q.data1, q.data2))
              else LastValue(h, kind, key)
  {
    assert (h + [q])[..|h + [q]| - 1] == h;
  }

  lemma {:induction false} LookupNone(t: seq<LastMessage>, key: Key)
    ensures Lookup(t, key).None? <==> forall i :: 0 <= i < |t| ==> EntryKey(t[i]) != key
    ensures Lookup(t, key).Some? ==> EntryKey(Lookup(t, key).value) == key
    decreases |t|
  {
    if t != [] {
      LookupNone(t[1..], key);
      assert forall i :: 1 <= i < |t| ==> t[i] == t[1..][i - 1];
    }
  }

  lemma {:induction false} LookupFirst(t: seq<LastMessage>, i: nat, key: Key)
    requires i < |t| && EntryKey(t[i]) == key
    requires forall j :: 0 <= j < i ==> EntryKey(t[j]) != key
    ensures Lookup(t, key) == Some(t[i])
    decreases i
  {
    if i > 0 {
      LookupFirst(t[1..], i - 1, key);
    }
  }

  lemma {:induction false} LookupAppend(t: seq<LastMessage>, e: LastMessage, key: Key)
    ensures Lookup(t + [e], key) ==
              if Lookup(t, key).Some? then Lookup(t, key) else if EntryKey(e) == key then Some(e) else None
    decreases |t|
  {
    if t != [] {
      assert (t + [e])[1..] == t[1..] + [e];
      LookupAppend(t[1..], e, key);
    }
  }

  lemma {:induction false} LookupUpdate(t: seq<LastMessage>, i: nat, e: LastMessage, key: Key)
    requires i < |t| && EntryKey(e) == EntryKey(t[i])
    requires forall j :: 0 <= j < i ==> EntryKey(t[j]) != EntryKey(t[i])
    ensures Lookup(t[i := e], key) == if key == EntryKey(t[i]) then Some(e) else Lookup(t, key)
    decreases i
  {
    if i > 0 {
      assert t[i := e][1..] == t[1..][i - 1 := e];
      LookupUpdate(t[1..], i - 1, e, key);
    } else {
      assert t[0 := e][1..] == t[1..];
    }
  }

  lemma {:induction false} LookupRemove(t: seq<LastMessage>, i: nat, key: Key)
    requires i < |t| && UniqueKeys(t)
    ensures Lookup(t[..i] + t[i + 1..], key) == if key == EntryKey(t[i]) then None else Lookup(t, key)
    decreases i
  {
    if i == 0 {
      assert t[..0] + t[1..] == t[1..];
      if key == EntryKey(t[0]) {
        LookupNone(t[1..], key);
      }
    } else {
      var r := t[..i] + t[i + 1..];
      assert r[0] == t[0];
      assert r[1..] == t[1..][..i - 1] + t[1..][i..];
      assert UniqueKeys(t[1..]) by {
        forall a, b | 0 <= a < b < |t[1..]| ensures EntryKey(t[1..][a]) != EntryKey(t[1..][b]) {
          assert t[1..][a] == t[a + 1] && t[1..][b] == t[b + 1];
        }
      }
      LookupRemove(t[1..], i - 1, key);
    }
  }

  /** Within one list, `Matches` compares keys. */
  lemma FindIsLookup(t: seq<LastMessage>, p: Pin, kind: Byte)
    requires kind == NoteOn || IsValueKind(kind)
    requires AllOfKind(t, kind) && IsChannelStatus(p.status)
    requires (Kind(p.status) < 0xC0) == (kind < 0xC0)
    ensures Find(t, p).None? <==> Lookup(t, PinKey(p)).None?
    ensures Find(t, p).Some? ==>
              var i := Find(t, p).value;
              && Lookup(t, PinKey(p)) == Some(t[i]) && EntryKey(t[i]) == PinKey(p)
              && forall j :: 0 <= j < i ==> EntryKey(t[j]) != EntryKey(t[i])
  {
    forall j | 0 <= j < |t| ensures Matches(t[j], p) <==> EntryKey(t[j]) == PinKey(p) {
    }
    match Find(t, p)
    case Some(i) => LookupFirst(t, i, PinKey(p));
    case None => LookupNone(t, PinKey(p));
  }

  lemma NoteAgreementIgnoresOthers(t: seq<LastMessage>, h: seq<Pin>, p: Pin)
    requires NoteTableAgrees(t, h) && !IsNote(p)
    ensures NoteTableAgrees(t, h + [p])
  {
    forall key ensures NoteState(h + [p], key) == VelocityOf(Lookup(t, key)) {
      NoteStateAppend(h, p, key);
    }
  }

  lemma ValueAgreementIgnoresOthers(t: seq<LastMessage>, kind: Byte, h: seq<Pin>, p: Pin)
    requires ValueTableAgrees(t, kind, h) && Kind(p.status) != kind
    ensures ValueTableAgrees(t, kind, h + [p])
  {
    forall key ensures LastValue(h + [p], kind, key) == ValueOf(kind, Lookup(t, key)) {
      LastValueAppend(h, p, kind, key);
    }
  }

  /** A Note Off is kept exactly when its note is on, and its entry then goes. */
  lemma NoteOffStepAgrees(t: seq<LastMessage>, h: seq<Pin>, p: Pin)
    requires NoteTableAgrees(t, h) && Kind(p.status) == NoteOff
    ensures NoteOffStep(t, p).1 == NoteState(h, PinKey(p)).Some?
    ensures NoteTableAgrees(NoteOffStep(t, p).0, if NoteOffStep(t, p).1 then h + [p] else h)
  {
    FindIsLookup(t, p, NoteOn);
    match Find(t, p)
    case None =>
    case Some(i) =>
      var t' := t[..i] + t[i + 1..];
      forall key ensures NoteState(h + [p], key) == VelocityOf(Lookup(t', key)) {
        NoteStateAppend(h, p, key);
        LookupRemove(t, i, key);
      }
      forall a | 0 <= a < |t'| ensures t'[a] == if a < i then t[a] else t[a + 1] {
      }
      assert AllOfKind(t', NoteOn);
      forall a, b | 0 <= a < b < |t'| ensures EntryKey(t'[a]) != EntryKey(t'[b]) {
        assert t'[a] == if a < i then t[a] else t[a + 1];
        assert t'[b] == if b < i then t[b] else t[b + 1];
      }
  }

  /** A Note On is kept exactly when its note is off or its velocity switches to or from zero. */
  lemma NoteOnStepAgrees(t: seq<LastMessage>, h: seq<Pin>, p: Pin)
    requires NoteTableAgrees(t, h) && Kind(p.status) == NoteOn
    ensures NoteOnStep(t, p).1 == match NoteState(h, PinKey(p)) case None => true case Some(v) => (v == 0) != (p.data2 == 0)
    ensures NoteTableAgrees(NoteOnStep(t, p).0, if NoteOnStep(t, p).1 then h + [p] else h)
  {
    FindIsLookup(t, p, NoteOn);
    match Find(t, p)
    case None =>
      var t' := t + [Entry(p)];
      forall key ensures NoteState(h + [p], key) == VelocityOf(Lookup(t', key)) {
        NoteStateAppend(h, p, key);
        LookupAppend(t, Entry(p), key);
      }
      LookupNone(t, PinKey(p));
      assert AllOfKind(t', NoteOn);
      assert UniqueKeys(t');
    case Some(i) =>
      if NoteOnStep(t, p).1 {
        var e := t[i].(data2 := p.data2);
        var t' := t[i := e];
        forall key ensures NoteState(h + [p], key) == VelocityOf(Lookup(t', key)) {
          NoteStateAppend(h, p, key);
          LookupUpdate(t, i, e, key);
        }
        assert AllOfKind(t', NoteOn);
        assert UniqueKeys(t') by {
          forall a, b | 0 <= a < b < |t'| ensures EntryKey(t'[a]) != EntryKey(t'[b]) {
            assert EntryKey(t'[a]) == EntryKey(t[a]) && EntryKey(t'[b]) == EntryKey(t[b]);
          }
        }
      }
  }

  /** A tracked value is kept exactly when it differs from the last one kept for its key. */
  lemma ValueStepAgrees(t: seq<LastMessage>, kind: Byte, h: seq<Pin>, p: Pin)
    requires IsValueKind(kind) && Kind(p.status) == kind && ValueTableAgrees(t, kind, h)
    ensures ValueStep(t, p).1 == (LastValue(h, kind, PinKey(p)) != Some(Tracked(kind, p.data1, p.data2)))
    ensures ValueTableAgrees(ValueStep(t, p).0, kind, if ValueStep(t, p).1 then h + [p] else h)
  {
    FindIsLookup(t, p, kind);
    match Find(t, p)
    case None =>
      var t' := t + [Entry(p)];
      forall key ensures LastValue(h + [p], kind, key) == ValueOf(kind, Lookup(t', key)) {
        LastValueAppend(h, p, kind, key);
        LookupAppend(t, Entry(p), key);
      }
      assert AllOfKind(t', kind);
    case Some(i) =>
      if ValueStep(t, p).1 {
        var e := Updated(t[i], p);
        var t' := t[i := e];
        assert EntryKey(e) == EntryKey(t[i]);
        forall key ensures LastValue(h + [p], kind, key) == ValueOf(kind, Lookup(t', key)) {
          LastValueAppend(h, p, kind, key);
          LookupUpdate(t, i, e, key);
        }
        assert AllOfKind(t', kind);
      }
  }

  /**
    One turn of the loop keeps `p` exactly when `KeepByHistory` says so, moves it to the
    redundant list otherwise, and keeps the five lists in agreement with the kept messages.
   */
  lemma StepFollowsHistory(st: FilterState, p: Pin)
    requires Agrees(st)
    ensures Step(st, p).kept == st.kept + (if KeepByHistory(st.kept, p) then [p] else [])
    ensures Step(st, p).redundant == st.redundant + (if KeepByHistory(st.kept, p) then [] else [p])
    ensures Agrees(Step(st, p))
  {
    var h, tb, kind := st.kept, st.tables, Kind(p.status);
    var keep := KeepByHistory(h, p);
    if !IsChannelStatus(p.status) || !(kind == NoteOff || kind == NoteOn || IsValueKind(kind)) {
      NoteAgreementIgnoresOthers(tb.noteOn, h, p);
      ValueAgreementIgnoresOthers(tb.keyPressure, KeyPressure, h, p);
      ValueAgreementIgnoresOthers(tb.controlChange, ControlChange, h, p);
      ValueAgreementIgnoresOthers(tb.channelPressure, ChannelPressure, h, p);
      ValueAgreementIgnoresOthers(tb.pitchBend, PitchBend, h, p);
    } else if kind == NoteOff || kind == NoteOn {
      if kind == NoteOff {
        NoteOffStepAgrees(tb.noteOn, h, p);
      } else {
        NoteOnStepAgrees(tb.noteOn, h, p);
      }
      if keep {
        ValueAgreementIgnoresOthers(tb.keyPressure, KeyPressure, h, p);
        ValueAgreementIgnoresOthers(tb.controlChange, ControlChange, h, p);
        ValueAgreementIgnoresOthers(tb.channelPressure, ChannelPressure, h, p);
        ValueAgreementIgnoresOthers(tb.pitchBend, PitchBend, h, p);
      }
    } else {
      if kind == KeyPressure {
        ValueStepAgrees(tb.keyPressure, KeyPressure, h, p);
      } else if kind == ControlChange {
        ValueStepAgrees(tb.controlChange, ControlChange, h, p);
      } else if kind == ChannelPressure {
        ValueStepAgrees(tb.channelPressure, ChannelPressure, h, p);
      } else {
        ValueStepAgrees(tb.pitchBend, PitchBend, h, p);
      }
      if keep {
        NoteAgreementIgnoresOthers(tb.noteOn, h, p);
        if kind != KeyPressure { ValueAgreementIgnoresOthers(tb.keyPressure, KeyPressure, h, p); }
        if kind != ControlChange { ValueAgreementIgnoresOthers(tb.controlChange, ControlChange, h, p); }
        if kind != ChannelPressure { ValueAgreementIgnoresOthers(tb.channelPressure, ChannelPressure, h, p); }
        if kind != PitchBend { ValueAgreementIgnoresOthers(tb.pitchBend, PitchBend, h, p); }
      }
    }
  }

  // ---------------------------------------------------------------------------------------
  // The whole pass.

  lemma {:induction false} RunAgrees(pins: seq<Pin>)
    ensures Agrees(Run(pins))
    decreases |pins|
  {
    if pins != [] {
      RunAgrees(pins[..|pins| - 1]);
      StepFollowsHistory(Run(pins[..|pins| - 1]), pins[|pins| - 1]);
    }
  }

  /** Each pin is kept exactly when `KeepByHistory` holds of it after the pins kept before it. */
  lemma RunKeepsByHistory(pins: seq<Pin>, p: Pin)
    ensures Run(pins + [p]).kept == Run(pins).kept + (if KeepByHistory(Run(pins).kept, p) then [p] else [])
    ensures Run(pins + [p]).redundant == Run(pins).redundant + (if KeepByHistory(Run(pins).kept, p) then [] else [p])
  {
    assert (pins + [p])[..|pins|] == pins;
    RunAgrees(pins);
    StepFollowsHistory(Run(pins), p);
  }

  /**
    Program Change (0xC0) and every message that is not a channel message are always kept, and
    they leave the five lists as they were.
   */
  lemma OthersAlwaysKept(pins: seq<Pin>, p: Pin)
    requires !IsChannelStatus(p.status) || Kind(p.status) == 0xC0
    ensures Run(pins + [p]).kept == Run(pins).kept + [p]
    ensures Run(pins + [p]).redundant == Run(pins).redundant
    ensures Run(pins + [p]).tables == Run(pins).tables
  {
    assert (pins + [p])[..|pins|] == pins;
  }

  /** `RunKeepsByHistory` stated for the last pin of a non-empty input. */
  lemma RunLast(pins: seq<Pin>)
    requires pins != []
    ensures var init, p := pins[..|pins| - 1], pins[|pins| - 1];
            && Run(pins).kept == Run(init).kept + (if KeepByHistory(Run(init).kept, p) then [p] else [])
            && Run(pins).redundant == Run(init).redundant + (if KeepByHistory(Run(init).kept, p) then [] else [p])
  {
    RunAgrees(pins[..|pins| - 1]);
    StepFollowsHistory(Run(pins[..|pins| - 1]), pins[|pins| - 1]);
  }

  /** `s` is `a` and `b` merged, each in its own order. */
  predicate Interleaves(s: seq<Pin>, a: seq<Pin>, b: seq<Pin>)
    decreases |s|
  {
    if s == [] then a == [] && b == []
    else
      var x := s[|s| - 1];
      || (|a| > 0 && a[|a| - 1] == x && Interleaves(s[..|s| - 1], a[..|a| - 1], b))
      || (|b| > 0 && b[|b| - 1] == x && Interleaves(s[..|s| - 1], a, b[..|b| - 1]))
  }

  lemma {:induction false} InterleavesMultiset(s: seq<Pin>, a: seq<Pin>, b: seq<Pin>)
    requires Interleaves(s, a, b)
    ensures |s| == |a| + |b| && multiset(s) == multiset(a) + multiset(b)
    decreases |s|
  {
    if s != [] {
      var x := s[|s| - 1];
      assert s == s[..|s| - 1] + [x];
      if |a| > 0 && a[|a| - 1] == x && Interleaves(s[..|s| - 1], a[..|a| - 1], b) {
        InterleavesMultiset(s[..|s| - 1], a[..|a| - 1], b);
        assert a == a[..|a| - 1] + [x];
      } else {
        InterleavesMultiset(s[..|s| - 1], a, b[..|b| - 1]);
        assert b == b[..|b| - 1] + [x];
      }
    }
  }

  lemma InterleavesKeep(s: seq<Pin>, a: seq<Pin>, b: seq<Pin>, x: Pin)
    requires Interleaves(s, a, b)
    ensures Interleaves(s + [x], a + [x], b)
  {
    assert (s + [x])[..|s|] == s && (a + [x])[..|a|] == a;
  }

  lemma InterleavesDrop(s: seq<Pin>, a: seq<Pin>, b: seq<Pin>, x: Pin)
    requires Interleaves(s, a, b)
    ensures Interleaves(s + [x], a, b + [x])
  {
    assert (s + [x])[..|s|] == s && (b + [x])[..|b|] == b;
  }

  /** The pass splits its input into kept and redundant pins, both in input order. */
  lemma {:induction false} RunPartitions(pins: seq<Pin>)
    ensures Interleaves(pins, Run(pins).kept, Run(pins).redundant)
    decreases |pins|
  {
    if pins != [] {
      var init, p := pins[..|pins| - 1], pins[|pins| - 1];
      RunPartitions(init);
      RunLast(pins);
      if KeepByHistory(Run(init).kept, p) {
        InterleavesKeep(init, Run(init).kept, Run(init).redundant, p);
      } else {
        InterleavesDrop(init, Run(init).kept, Run(init).redundant, p);
      }
    }
  }

  /** No pin is lost or invented. */
  lemma RunPermutes(pins: seq<Pin>)
    ensures multiset(pins) == multiset(Run(pins).kept) + multiset(Run(pins).redundant)
  {
    RunPartitions(pins);
    InterleavesMultiset(pins, Run(pins).kept, Run(pins).redundant);
  }

  /** A time-sorted input gives a time-sorted kept list. */
  lemma {:induction false} RunKeptSorted(pins: seq<Pin>)
    requires SortedByTime(pins)
    ensures SortedByTime(Run(pins).kept)
    decreases |pins|
  {
    if pins != [] {
      var init, p := pins[..|pins| - 1], pins[|pins| - 1];
      RunKeptSorted(init);
      RunLast(pins);
      var k0 := Run(init).kept;
      RunPermutes(init);
      forall x | x in k0 ensures x.time <= p.time {
        assert x in multiset(k0);
        assert x in multiset(init);
      }
    }
  }

  /** Every pin of `k` passes the rule after the pins before it. */
  predicate SelfKept(k: seq<Pin>) {
    forall i :: 0 <= i < |k| ==> KeepByHistory(k[..i], k[i])
  }

  lemma {:induction false} RunKeptIsSelfKept(pins: seq<Pin>)
    ensures SelfKept(Run(pins).kept)
    decreases |pins|
  {
    if pins != [] {
      var init, p := pins[..|pins| - 1], pins[|pins| - 1];
      RunKeptIsSelfKept(init);
      RunLast(pins);
      if KeepByHistory(Run(init).kept, p) {
        SelfKeptExtend(Run(init).kept, p);
      }
    }
  }

  /** A pin that passes the rule after a self-kept list extends it to a self-kept list. */
  lemma SelfKeptExtend(k0: seq<Pin>, p: Pin)
    requires SelfKept(k0) && KeepByHistory(k0, p)
    ensures SelfKept(k0 + [p])
  {
    var k := k0 + [p];
    forall i | 0 <= i < |k| ensures KeepByHistory(k[..i], k[i]) {
      if i < |k0| {
        assert k[..i] == k0[..i] && k[i] == k0[i];
      } else {
        assert k[..i] == k0 && k[i] == p;
      }
    }
  }

  lemma {:induction false} SelfKeptPasses(k: seq<Pin>)
    requires SelfKept(k)
    ensures Run(k).kept == k && Run(k).redundant == []
    decreases |k|
  {
    if k != [] {
      var init, p := k[..|k| - 1], k[|k| - 1];
      assert SelfKept(init) by {
        forall i | 0 <= i < |init| ensures KeepByHistory(init[..i], init[i]) {
          assert init[..i] == k[..i];
        }
      }
      SelfKeptPasses(init);
      RunLast(k);
    }
  }

  /** Filtering twice removes nothing more: the kept pins are all kept again. */
  lemma RunIdempotent(pins: seq<Pin>)
    ensures Run(Run(pins).kept).kept == Run(pins).kept
    ensures Run(Run(pins).kept).redundant == []
  {
    RunKeptIsSelfKept(pins);
    SelfKeptPasses(Run(pins).kept);
  }

  // ---------------------------------------------------------------------------------------
  // The loop itself.

  /** The range-for search of one "last message" list. */
  method FindEntry(t: seq<LastMessage>, p: Pin) returns (r: Option<nat>)
    ensures r == Find(t, p)
  {
    var i := 0;
    while i < |t|
      invariant 0 <= i <= |t|
      invariant forall j :: 0 <= j < i ==> !Matches(t[j], p)
    {
      if Matches(t[i], p) {
        return Some(i);
      }
      i := i + 1;
    }
    return None;
  }

  /** The key pressure, control change, channel pressure and pitch bend cases. */
  method UpdateValueList(t: seq<LastMessage>, p: Pin) returns (t': seq<LastMessage>, keep: bool)
    ensures (t', keep) == ValueStep(t, p)
  {
    var found := FindEntry(t, p);
    match found
    case None =>
      t', keep := t + [Entry(p)], true;
    case Some(j) =>
      var e := t[j];
      var kind := Kind(p.status);
      t', keep := t, false;
      if kind == ChannelPressure {
        if e.data1 != p.data1 {
          t', keep := t[j := e.(data1 := p.data1)], true;
        }
      } else if kind == PitchBend {
        if e.data1 != p.data1 || e.data2 != p.data2 {
          t', keep := t[j := e.(data1 := p.data1, data2 := p.data2)], true;
        }
      } else if e.data2 != p.data2 {
        t', keep := t[j := e.(data2 := p.data2)], true;
      }
  }

  /**
    The clean-up loop over the sorted pins: returns what stays in `midiToProcess`, what went to
    `midiRedundant`, and the note-on list left at the end.
   */
  method RemoveRedundant(pins: seq<Pin>) returns (kept: seq<Pin>, redundant: seq<Pin>, noteOns: seq<LastMessage>)
    ensures kept == Run(pins).kept && redundant == Run(pins).redundant
    ensures noteOns == Run(pins).tables.noteOn
    ensures Interleaves(pins, kept, redundant)
    ensures NoteTableAgrees(noteOns, kept)
  {
    var noteOnList, kpList, ccList, cpList, pbList := [], [], [], [], [];
    kept, redundant := [], [];
    var i := 0;
    while i < |pins|
      invariant 0 <= i <= |pins|
      invariant Run(pins[..i]) == FilterState(kept, redundant, Tables(noteOnList, kpList, ccList, cpList, pbList))
    {
      var p := pins[i];
      var keep := true;
      if IsChannelStatus(p.status) {
        var kind := Kind(p.status);
        if kind == NoteOff {
          var found := FindEntry(noteOnList, p);
          match found
          case Some(j) => noteOnList := noteOnList[..j] + noteOnList[j + 1..];
          case None => keep := false;
        } else if kind == NoteOn {
          var found := FindEntry(noteOnList, p);
          match found
          case Some(j) =>
            var e := noteOnList[j];
            if (e.data2 == 0 && p.data2 > 0) || (e.data2 > 0 && p.data2 == 0) {
              noteOnList := noteOnList[j := e.(data2 := p.data2)];
            } else {
              keep := false;
            }
          case None => noteOnList := noteOnList + [Entry(p)];
        } else if kind == KeyPressure {
          kpList, keep := UpdateValueList(kpList, p);
        } else if kind == ControlChange {
          ccList, keep := UpdateValueList(ccList, p);
        } else if kind == ChannelPressure {
          cpList, keep := UpdateValueList(cpList, p);
        } else if kind == PitchBend {
          pbList, keep := UpdateValueList(pbList, p);
        }
      }
      if keep {
        kept := kept + [p];
      } else {
        redundant := redundant + [p];
      }
      assert pins[..i + 1][..i] == pins[..i];
      i := i + 1;
    }
    assert pins[..|pins|] == pins;
    noteOns := noteOnList;
    RunAgrees(pins);
    RunPartitions(pins);
  }

  // ---------------------------------------------------------------------------------------
  // Switching off the notes still on at the end.

  /**
    The Note Off appended for a note-on entry: status `(status & 0x0F) | 0x80`, the entry's note
    number, velocity 0, at the time of the last kept pin.
   */
  function ClosingNoteOff(e: LastMessage, time: real): (r: Pin)
    ensures Kind(r.status) == NoteOff && Channel(r.status) == Channel(e.status)
    ensures r.device == e.device && r.data1 == e.data1 && r.data2 == 0 && r.size == 3 && r.time == time
  {
    Pin(time, e.device, 3, Channel(e.status) + NoteOff, e.data1, 0)
  }

  /** One closing Note Off per entry, in list order. */
  function ClosingNoteOffs(t: seq<LastMessage>, time: real): (r: seq<Pin>)
    ensures |r| == |t|
  {
    if t == [] then [] else ClosingNoteOffs(t[..|t| - 1], time) + [ClosingNoteOff(t[|t| - 1], time)]
  }

  lemma {:induction false} ClosingNoteOffAt(t: seq<LastMessage>, time: real, i: nat)
    requires i < |t|
    ensures ClosingNoteOffs(t, time)[i] == ClosingNoteOff(t[i], time)
    decreases |t|
  {
    if i < |t| - 1 {
      ClosingNoteOffAt(t[..|t| - 1], time, i);
    }
  }

  /**
    The intended outcome of the closing step: nothing to close after an empty pass, otherwise
    the kept pins followed by one Note Off per note-on entry at the last kept pin's time.
   */
  function Closed(kept: seq<Pin>, t: seq<LastMessage>): seq<Pin> {
    if kept == [] then [] else kept + ClosingNoteOffs(t, kept[|kept| - 1].time)
  }

  /** The closing step as written: it reads the time of `midiToProcess.back()` unconditionally. */
  method CloseNotesAsWritten(kept: seq<Pin>, noteOns: seq<LastMessage>) returns (out: seq<Pin>)
    requires |kept| > 0
    ensures out == kept + ClosingNoteOffs(noteOns, kept[|kept| - 1].time)
  {
    var lastTime := kept[|kept| - 1].time;
    out := kept;
    var i := 0;
    while i < |noteOns|
      invariant 0 <= i <= |noteOns|
      invariant out == kept + ClosingNoteOffs(noteOns[..i], lastTime)
    {
      out := out + [ClosingNoteOff(noteOns[i], lastTime)];
      assert noteOns[..i + 1][..i] == noteOns[..i];
      i := i + 1;
    }
    assert noteOns[..|noteOns|] == noteOns;
  }

  /** The closing step with the empty list guarded. */
  method CloseNotes(kept: seq<Pin>, noteOns: seq<LastMessage>) returns (out: seq<Pin>)
    ensures out == Closed(kept, noteOns)
  {
    if |kept| == 0 {
      return [];
    }
    out := CloseNotesAsWritten(kept, noteOns);
  }

  /** Every entry of an agreeing note-on list is a note that is on, with the entry's velocity. */
  lemma EntriesAreOn(t: seq<LastMessage>, h: seq<Pin>)
    requires NoteTableAgrees(t, h)
    ensures forall i :: 0 <= i < |t| ==> NoteState(h, EntryKey(t[i])) == Some(t[i].data2)
  {
    forall i | 0 <= i < |t| ensures NoteState(h, EntryKey(t[i])) == Some(t[i].data2) {
      LookupFirst(t, i, EntryKey(t[i]));
    }
  }

  lemma FirstEntryIsOn(t: seq<LastMessage>, h: seq<Pin>)
    requires NoteTableAgrees(t, h) && t != []
    ensures NoteState(h, EntryKey(t[0])).Some?
  {
    EntriesAreOn(t, h);
  }

  /** Nothing is on before anything was kept. */
  lemma NothingKeptNothingOn(t: seq<LastMessage>)
    requires NoteTableAgrees(t, [])
    ensures t == []
  {
    if t != [] {
      FirstEntryIsOn(t, []);
      assert false;
    }
  }

  /** Appending the closing Note Offs switches off exactly the keys that have an entry. */
  lemma {:induction false} ClosingNoteState(a: seq<Pin>, t: seq<LastMessage>, time: real, key: Key)
    requires AllOfKind(t, NoteOn)
    ensures NoteState(a + ClosingNoteOffs(t, time), key) ==
              if forall i :: 0 <= i < |t| ==> EntryKey(t[i]) != key then NoteState(a, key) else None
    decreases |t|
  {
    if t == [] {
      assert a + [] == a;
    } else {
      var init, e := t[..|t| - 1], t[|t| - 1];
      ClosingNoteState(a, init, time, key);
      assert a + ClosingNoteOffs(t, time) == (a + ClosingNoteOffs(init, time)) + [ClosingNoteOff(e, time)];
      NoteStateAppend(a + ClosingNoteOffs(init, time), ClosingNoteOff(e, time), key);
      assert PinKey(ClosingNoteOff(e, time)) == EntryKey(e);
      assert forall i :: 0 <= i < |init| ==> init[i] == t[i];
    }
  }

  /** After the closing step every note of every device and channel is off. */
  lemma NoNoteLeftOn(kept: seq<Pin>, t: seq<LastMessage>, key: Key)
    requires NoteTableAgrees(t, kept)
    ensures NoteState(Closed(kept, t), key) == None
  {
    if kept != [] {
      ClosingNoteState(kept, t, kept[|kept| - 1].time, key);
      LookupNone(t, key);
    }
  }

  /**
    The closing step appends exactly one Note Off per note still on, after all kept pins;
    nothing is lost when nothing was kept, because then no note is on.
   */
  lemma ClosedShape(kept: seq<Pin>, t: seq<LastMessage>)
    requires NoteTableAgrees(t, kept)
    ensures |Closed(kept, t)| == |kept| + |t| && Closed(kept, t)[..|kept|] == kept
    ensures forall i :: 0 <= i < |t| ==> Closed(kept, t)[|kept| + i] == ClosingNoteOff(t[i], kept[|kept| - 1].time)
  {
    if kept == [] {
      NothingKeptNothingOn(t);
    } else {
      forall i | 0 <= i < |t| ensures Closed(kept, t)[|kept| + i] == ClosingNoteOff(t[i], kept[|kept| - 1].time) {
        ClosingNoteOffAt(t, kept[|kept| - 1].time, i);
      }
    }
  }

  /** The closing Note Offs carry the last time, so a sorted list stays sorted. */
  lemma ClosedSorted(kept: seq<Pin>, t: seq<LastMessage>)
    requires SortedByTime(kept)
    ensures SortedByTime(Closed(kept, t))
  {
    if kept != [] {
      var time := kept[|kept| - 1].time;
      var c := Closed(kept, t);
      forall i | |kept| <= i < |c| ensures c[i].time == time {
        ClosingNoteOffAt(t, time, i - |kept|);
      }
      assert forall i :: 0 <= i < |kept| ==> c[i] == kept[i];
    }
  }

  /** A note can only be on if some kept pin played it. */
  lemma {:induction false} NoteOnWasPlayed(h: seq<Pin>, key: Key)
    requires NoteState(h, key).Some?
    ensures exists q :: q in h && PinKey(q) == key
    decreases |h|
  {
    var q := h[|h| - 1];
    if !(IsNote(q) && PinKey(q) == key) {
      NoteOnWasPlayed(h[..|h| - 1], key);
      var w :| w in h[..|h| - 1] && PinKey(w) == key;
      assert w in h;
    }
  }

  /** The closing Note Offs go to devices that kept pins went to. */
  lemma ClosedKeepsRoutable(kept: seq<Pin>, t: seq<LastMessage>, n: nat)
    requires NoteTableAgrees(t, kept)
    requires forall p :: p in kept ==> Sized(p) && p.device < n
    ensures forall p :: p in Closed(kept, t) ==> Sized(p) && p.device < n
  {
    if kept != [] {
      var time := kept[|kept| - 1].time;
      var c := ClosingNoteOffs(t, time);
      EntriesAreOn(t, kept);
      forall p | p in Closed(kept, t) ensures Sized(p) && p.device < n {
        if p !in kept {
          assert p in c;
          var i :| 0 <= i < |c| && c[i] == p;
          ClosingNoteOffAt(t, time, i);
          NoteOnWasPlayed(kept, EntryKey(t[i]));
        }
      }
    }
  }

  /**
    A lone Note Off is redundant, so the pass keeps nothing and the closing step as written
    reads the back of an empty list.
   */
  lemma LoneNoteOffKeepsNothing()
    ensures Run([Pin(0.0, 0, 3, 0x80, 60, 0)]).kept == []
  {
    var p := Pin(0.0, 0, 3, 0x80, 60, 0);
    assert [p][..0] == [];
  }
}
