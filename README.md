# JsonMidiPlayer in Dafny

This project models the two players of the JsonMidiPlayer repository, plus its Python loader.
Both players receive a JSON play list and send its MIDI messages, in time order, to the MIDI
output ports.

- **Input.** Every JSON file whose `"filetype"` is the player's own contributes the elements of
  its `"content"` array. An element is kept when its time is non-negative and its status byte is
  of a known kind whose data bytes are in range. It is then routed by its device names, tried in order: the first name that occurs in
  some output port's name picks the first such port (`MidiMessages`, `PlayListInput`).
- **Order.** The kept messages ("pins") are put in time order by a stable sort (`TimeSort`).
- **JSON MIDI player** (`JsonMidiPlayer`, src/JsonMidiPlayer.cpp). Redundant messages are removed
  next (`RedundancyFilter`):
  - a Note Off for a note that is not on;
  - a Note On that neither switches a note on nor off;
  - a Key Pressure, Control Change, Channel Pressure or Pitch Bend that repeats the last value.

  A Note Off is then added at the end for every note still on. Then the messages are played,
  and every port is closed.
- **MIDI JSON player** (`MidiJsonPlayer`, src/MidiJsonPlayer.cpp). It has no clean-up. Each
  device has a gate in front of the MIDI output and a keyboard bitmap.
- **Loader** (`LibraryLoader`, python_ctypes.py). It picks the shared library's file name by
  operating system, builds its path next to the script, and refuses a missing file.

Each file keeps the form of its source:
- The classification, device matching, sort, redundancy rule and loader are functions with
  lemmas.
- The loops that do them in the C++ are methods proved equal to those functions:
  - `FindDevice`
  - `Insert`/`SortByTime`
  - `FindEntry`, `UpdateValueList` and `RemoveRedundant`
  - `CloseNotes`
  - the collecting loops and playback loops
- The devices and pins are classes.
- The keyboard bitmap is an array.

The JSON MIDI player's source and its header disagree:
- `src/JsonMidiPlayer.cpp` builds the playable pins with a six-argument constructor (size,
  status and two data bytes) and the closing Note Offs with a five-argument one. It reads pins
  with `getMidiMessage()`.
- `MidiDevice::sendMessage` takes a pointer and a size in the `.cpp`.
- The header declares a vector-based `MidiPin` and a one-argument `sendMessage`.

The model follows the `.cpp` for `PlayList`, and the header for its `MidiPin` class. The
closing Note Off is built with its third data byte 0, because nothing in the header states
otherwise.

The players' pins refer to devices by pointer; the model's `Pin` values refer to them by their
index in the device list. Devices are objects whose `openedPort` flag and `sent` log (the
messages handed to RtMidi, oldest first) the methods update.

## Model

| member | source | states |
|---|---|---|
| MidiMessages.ToByte | src/JsonMidiPlayer.cpp:136 | the status byte stored in an `unsigned char` is congruent to the JSON integer modulo 256, and equal to it when it already fits |
| MidiMessages.ToInt | src/JsonMidiPlayer.cpp:140-141 | a data byte stored in a 32-bit `int` is congruent to the JSON integer modulo 2^32, within the `int` range, and equal to it when it already fits |
| MidiMessages.Classify | src/JsonMidiPlayer.cpp:131-190 | an element yields a message exactly when it is playable. The message's status byte is the element's (stored in an `unsigned char`), and its data bytes are the element's after they are stored in an `int` and range-checked there. Its size is 3 for channel messages and Song Position, 2 for MTC Quarter Frame and Song Select, 1 for real-time and Tune Request. Channel data bytes are below 0x80. The data bytes a kind does not read are 0 |
| MidiMessages.WrappedDataByteKept | src/JsonMidiPlayer.cpp:140-145 | a first data byte of 2^32 + 64 is stored as 64, passes the range check, and the Note On is played |
| MidiMessages.SentToAppend | src/JsonMidiPlayer.cpp:424-434 | playing one more pin adds its bytes to the log of its own device and to no other |
| PlayListInput.ContainsIsSubstring | src/JsonMidiPlayer.cpp:194 | `name.find(deviceName) != npos` holds exactly when the wanted name occurs in the port name at some offset |
| PlayListInput.FirstDeviceFor | src/JsonMidiPlayer.cpp:193-194 | the inner loop: the first port from `from` on whose name contains the wanted name, or none when no such port exists |
| PlayListInput.FirstMatch | src/JsonMidiPlayer.cpp:192-199 | the nested loop with `goto skip_to`: the first wanted name, in order, that matches any port, with the first port it matches. None exactly when no pair matches |
| PlayListInput.DeviceFor | src/JsonMidiPlayer.cpp:192-199 | some device is chosen exactly when some wanted name matches some port; the chosen one is the first port of the first wanted name that matches |
| PlayListInput.FindDevice | src/JsonMidiPlayer.cpp:192-199 | the two loops compute `DeviceFor` |
| PlayListInput.ElementPinIff | src/JsonMidiPlayer.cpp:127-199 | about `ElementPin`: an element becomes a pin exactly when it is playable, a port matches, and that port is or can be opened. The pin keeps the element's time and is well formed |
| PlayListInput.ElementBytes | src/JsonMidiPlayer.cpp:131-196 | a pin made from an element hands to RtMidi the element's status byte followed by exactly the JSON data fields its kind reads: `data_byte_1` and `data_byte_2` for channel messages and Song Position, `data_byte` for MTC Quarter Frame and Song Select, none for real-time and Tune Request |
| PlayListInput.ContentPinsWellFormed | src/JsonMidiPlayer.cpp:127-203 | a file contributes at most one pin per element, each well formed |
| PlayListInput.CollectedWellFormed | src/JsonMidiPlayer.cpp:99-206 | every collected pin has a non-negative time, a ready device in range, a known status byte and the size that status gives |
| PlayListInput.OtherFileTypesIgnored | src/JsonMidiPlayer.cpp:115-116 | a file of another file type adds nothing |
| PlayListInput.ElementSelected | src/JsonMidiPlayer.cpp:192-196 | the device `openPort` is called on, if any, is one of the devices |
| PlayListInput.ContentSelected | src/JsonMidiPlayer.cpp:127-203 | the devices tried by a file's elements are devices in range |
| PlayListInput.Selected | src/JsonMidiPlayer.cpp:99-206 | the devices tried by all files are devices in range |
| PlayListInput.SelectedAreTheTargets | src/MidiJsonPlayer.cpp:150-165 | when every port opens, a device is asked to open exactly when some pin is routed to it |
| PlayListInput.ContentStep | src/JsonMidiPlayer.cpp:127-203 | one more element adds its own pin and its own tried device, and nothing else |
| PlayListInput.CollectedStep | src/JsonMidiPlayer.cpp:99-206 | one more file adds its pins and tried devices when it has the player's type, and nothing otherwise |
| TimeSort.InsertByTime | src/JsonMidiPlayer.cpp:211 | inserting adds one element |
| TimeSort.InsertElements | src/JsonMidiPlayer.cpp:211 | every pin after insertion is the new pin or one of the old ones |
| TimeSort.InsertPermutes | src/JsonMidiPlayer.cpp:211 | insertion adds exactly the new pin to the multiset |
| TimeSort.InsertKeepsSorted | src/JsonMidiPlayer.cpp:211 | insertion into a time-sorted list keeps it time-sorted |
| TimeSort.StableSortByTime | src/JsonMidiPlayer.cpp:211 | the sort keeps the length |
| TimeSort.StableSortPermutes | src/JsonMidiPlayer.cpp:211 | the sorted list is a permutation of the input |
| TimeSort.StableSortSorted | src/JsonMidiPlayer.cpp:211 | the sorted list is ordered by time |
| TimeSort.AtTimeAppend | src/JsonMidiPlayer.cpp:211 | the pins at one time in a concatenation are those of each part, in order |
| TimeSort.AtTimeSingle | src/JsonMidiPlayer.cpp:211 | a single pin is at time t exactly when its time is t |
| TimeSort.InsertKeepsTies | src/JsonMidiPlayer.cpp:211 | insertion puts the new pin after every pin of the same time |
| TimeSort.StableSortKeepsTies | src/JsonMidiPlayer.cpp:211 | `std::list::sort` is stable: pins of equal time keep their input order |
| TimeSort.InsertStepBack | src/JsonMidiPlayer.cpp:211 | moving the insertion point back over a later pin keeps the result |
| TimeSort.InsertStops | src/JsonMidiPlayer.cpp:211 | the new pin goes right after the last pin not later than it |
| TimeSort.Insert | src/JsonMidiPlayer.cpp:211 | the insertion loop computes `InsertByTime` |
| TimeSort.SortByTime | src/MidiJsonPlayer.cpp:176 | the sort loop computes the stable sort |
| RedundancyFilter.Find | src/JsonMidiPlayer.cpp:225-233 | the first entry that `MidiLastMessage::operator==` matches the pin with, or none when no entry matches |
| RedundancyFilter.FindEntry | src/JsonMidiPlayer.cpp:262-271 | the scan over a last-message list computes `Find` |
| RedundancyFilter.UpdateValueList | src/JsonMidiPlayer.cpp:298-387 | the Key Pressure, Control Change, Channel Pressure and Pitch Bend cases, as one step on their list |
| RedundancyFilter.NoteStateAppend | src/JsonMidiPlayer.cpp:260-297 | the reference note state: after a Note Off of a key the key is off; after a Note On it is on with that velocity; other pins leave it alone |
| RedundancyFilter.LastValueAppend | src/JsonMidiPlayer.cpp:298-387 | the reference last value per kind and key: the tracked byte(s) of the latest pin of that kind and key |
| RedundancyFilter.LookupNone | src/JsonMidiPlayer.cpp:262-271 | a list has no entry for a key exactly when no entry has that key; a found entry has it |
| RedundancyFilter.LookupFirst | src/JsonMidiPlayer.cpp:262-271 | the first entry with the key is the one found |
| RedundancyFilter.LookupAppend | src/JsonMidiPlayer.cpp:293-295 | appending an entry for a first-timer finds it, and only for its own key |
| RedundancyFilter.LookupUpdate | src/JsonMidiPlayer.cpp:282 | updating the found entry changes the lookup of its key only |
| RedundancyFilter.LookupRemove | src/JsonMidiPlayer.cpp:267 | erasing an entry from a list with unique keys removes its key and no other |
| RedundancyFilter.FindIsLookup | src/JsonMidiPlayer.cpp:225-233 | about `Matches` (`operator==`): on a list of one kind, the device plus channel (plus key for notes and key pressure) match of `operator==` is a lookup by key |
| RedundancyFilter.NoteAgreementIgnoresOthers | src/JsonMidiPlayer.cpp:255-259 | pins other than notes leave the note table in agreement with the history |
| RedundancyFilter.ValueAgreementIgnoresOthers | src/JsonMidiPlayer.cpp:259 | pins of another kind leave a value table in agreement |
| RedundancyFilter.NoteOffStepAgrees | src/JsonMidiPlayer.cpp:260-274 | about `NoteOffStep`: a Note Off is kept exactly when its key is on; the table then still agrees with the kept history |
| RedundancyFilter.NoteOnStepAgrees | src/JsonMidiPlayer.cpp:275-297 | about `NoteOnStep`: a Note On is kept when its key is off (never played, or switched off by a kept Note Off), or when the velocity goes from 0 to non-zero or back; the table still agrees |
| RedundancyFilter.ValueStepAgrees | src/JsonMidiPlayer.cpp:298-387 | about `ValueStep`: a value message is kept exactly when its tracked byte(s) differ from the last kept value of its kind and key; the table still agrees |
| RedundancyFilter.StepFollowsHistory | src/JsonMidiPlayer.cpp:250-399 | about `Step`: one step of the list-based loop keeps or drops a pin exactly as the history-based rule says, and keeps the tables in agreement |
| RedundancyFilter.RunAgrees | src/JsonMidiPlayer.cpp:250-399 | about `Run`: after any prefix, every table agrees with the pins kept so far |
| RedundancyFilter.RunKeepsByHistory | src/JsonMidiPlayer.cpp:250-399 | each pin is kept or made redundant exactly by the history-based rule applied to the pins kept before it |
| RedundancyFilter.OthersAlwaysKept | src/JsonMidiPlayer.cpp:389-396 | Program Change and messages that are not channel messages are always kept and leave the five lists unchanged |
| RedundancyFilter.RunLast | src/JsonMidiPlayer.cpp:250-399 | the last pin of a list is kept or made redundant exactly as the history rule says after the pins before it |
| RedundancyFilter.InterleavesMultiset | src/JsonMidiPlayer.cpp:272-273 | an interleaving has the length and multiset of its two parts |
| RedundancyFilter.InterleavesKeep | src/JsonMidiPlayer.cpp:268 | a pin left in place extends the kept side |
| RedundancyFilter.InterleavesDrop | src/JsonMidiPlayer.cpp:272-273 | a pin erased into `midiRedundant` extends the redundant side |
| RedundancyFilter.RunPartitions | src/JsonMidiPlayer.cpp:250-399 | the kept and redundant lists interleave to give the input: no pin is lost, duplicated or reordered |
| RedundancyFilter.RunPermutes | src/JsonMidiPlayer.cpp:250-399 | the input is the multiset union of the kept and the redundant pins |
| RedundancyFilter.RunKeptSorted | src/JsonMidiPlayer.cpp:250-399 | erasing from a time-sorted list leaves it time-sorted |
| RedundancyFilter.RunKeptIsSelfKept | src/JsonMidiPlayer.cpp:250-399 | every kept pin passes the rule against the kept pins before it |
| RedundancyFilter.SelfKeptExtend | src/JsonMidiPlayer.cpp:250-399 | a pin passing the rule after a self-kept list extends it to a self-kept list |
| RedundancyFilter.SelfKeptPasses | src/JsonMidiPlayer.cpp:250-399 | a list every pin of which passes the rule goes through the filter unchanged |
| RedundancyFilter.RunIdempotent | src/JsonMidiPlayer.cpp:250-399 | filtering the kept pins again keeps them all and drops nothing |
| RedundancyFilter.RemoveRedundant | src/JsonMidiPlayer.cpp:250-399 | the loop over `midiToProcess` computes the kept list, the redundant list and the notes left on; these interleave to give the input; the note table agrees with the kept pins |
| RedundancyFilter.ClosingNoteOff | src/JsonMidiPlayer.cpp:405-408 | the added pin is a three-byte Note Off on the note's channel, device and key, at the given time |
| RedundancyFilter.ClosingNoteOffs | src/JsonMidiPlayer.cpp:404-409 | one Note Off per note still on |
| RedundancyFilter.ClosingNoteOffAt | src/JsonMidiPlayer.cpp:404-409 | the i-th added pin closes the i-th note still on |
| RedundancyFilter.CloseNotesAsWritten | src/JsonMidiPlayer.cpp:401-409 | as written, for a non-empty list: the kept pins followed by one Note Off, at the last pin's time, per note still on |
| RedundancyFilter.CloseNotes | src/JsonMidiPlayer.cpp:401-409 | the closing step with the empty-list case guarded |
| RedundancyFilter.EntriesAreOn | src/JsonMidiPlayer.cpp:293-295 | every entry of the note-on list is a note that is on, with its velocity |
| RedundancyFilter.NothingKeptNothingOn | src/JsonMidiPlayer.cpp:401-402 | with nothing kept, no note is on: the guarded empty case loses no Note Off |
| RedundancyFilter.ClosingNoteState | src/JsonMidiPlayer.cpp:404-409 | after the closing Note Offs, a note with an entry is off and the other notes are as before |
| RedundancyFilter.NoNoteLeftOn | src/JsonMidiPlayer.cpp:403-409 | after the closing step, no note of any device, channel and key is on |
| RedundancyFilter.ClosedShape | src/JsonMidiPlayer.cpp:401-409 | the output is the kept pins followed, in list order, by the Note Off of each note still on, at the last kept time |
| RedundancyFilter.ClosedSorted | src/JsonMidiPlayer.cpp:401-409 | the closing Note Offs, at the last time, keep the list time-sorted |
| RedundancyFilter.NoteOnWasPlayed | src/JsonMidiPlayer.cpp:293-295 | a note that is on was played by some kept pin |
| RedundancyFilter.ClosedKeepsRoutable | src/JsonMidiPlayer.cpp:407-408 | the added Note Offs go to devices that kept pins use, with three bytes |
| RedundancyFilter.LoneNoteOffKeepsNothing | src/JsonMidiPlayer.cpp:260-274 | a play list holding only a Note Off keeps nothing, so the closing step meets an empty list |
| JsonMidiPlayer.MidiDevice.OpenPort | src/JsonMidiPlayer.cpp:3-19 | an open port stays open; a closed one opens when RtMidi succeeds; returns whether it is open, which `isPortOpened` then reports |
| JsonMidiPlayer.MidiDevice.ClosePort | src/JsonMidiPlayer.cpp:21-31 | the port ends closed, `isPortOpened` reports it closed, and nothing is sent |
| JsonMidiPlayer.MidiDevice.SendMessage | src/JsonMidiPlayer.cpp:41-43 | the message is handed to the output and the port state is unchanged |
| JsonMidiPlayer.MidiDevice.constructor | include/JsonMidiPlayer.hpp:66-67 | a new device has its port closed and has sent nothing |
| JsonMidiPlayer.MidiPin.constructor | include/JsonMidiPlayer.hpp:109-115 | a new pin has its time, device and message, priority 0xFF by default, delay -1 |
| JsonMidiPlayer.MidiPin.PluckTooth | include/JsonMidiPlayer.hpp:129-132 | the message goes to the pin's device; without a device nothing happens |
| JsonMidiPlayer.MidiPin.SetDelayTime | include/JsonMidiPlayer.hpp:134-140 | the delay `getDelayTime` reads back is the one set, and the message is untouched |
| JsonMidiPlayer.MidiPin.SetStatusByte | include/JsonMidiPlayer.hpp:142-152 | byte 0 is replaced and nothing else: `getStatusByte` reads back the new status, and `getDataByte(n)` is unchanged for every data byte n |
| JsonMidiPlayer.AccessorsRead | include/JsonMidiPlayer.hpp:146-160 | on a pin holding a message's bytes, `getStatusByte`, `getAction`, `getChannel`, `getDataByte()` (byte 1 by default) and `getDataByte(2)` give the status, its kind, its channel and the data bytes the filter compares |
| JsonMidiPlayer.MidiPin.GetChannel | include/JsonMidiPlayer.hpp:154-156 | `& 0x0F`: a value below 16 congruent to the status byte modulo 16 |
| JsonMidiPlayer.MidiPin.GetAction | include/JsonMidiPlayer.hpp:158-160 | `& 0xF0`: the multiple of 16 at or below the status byte, within 16 of it |
| JsonMidiPlayer.ActionAndChannelMakeStatus | include/JsonMidiPlayer.hpp:154-160 | action plus channel give back the status byte |
| JsonMidiPlayer.TakeElement | src/JsonMidiPlayer.cpp:127-202 | one element: the pin `ElementPin` gives, and the matched device's port opened when it can be |
| JsonMidiPlayer.TakeFile | src/JsonMidiPlayer.cpp:114-204 | one file: nothing unless of the player's type, else the pins of its elements in order; ports opened exactly on the devices tried |
| JsonMidiPlayer.CollectPins | src/JsonMidiPlayer.cpp:98-206 | the file loop computes `Collected`; exactly the tried devices whose port can open end open; nothing is sent |
| JsonMidiPlayer.Playback | src/JsonMidiPlayer.cpp:414-435 | every pin is played once, in order: each device's log grows by the bytes of its pins; `midiProcessed` ends as the input |
| JsonMidiPlayer.CloseAll | include/JsonMidiPlayer.hpp:68 | the destructors close every port and send nothing |
| JsonMidiPlayer.PlayedListIsClean | src/JsonMidiPlayer.cpp:211-409 | the list played is time-sorted, leaves no note on, and has only well-sized pins for existing devices |
| JsonMidiPlayer.CollectedRoutable | src/JsonMidiPlayer.cpp:192-199 | every collected pin is for an existing device and has one to three bytes |
| JsonMidiPlayer.PlayList | src/JsonMidiPlayer.cpp:63-455 | 1 with nothing played when no port is available. Otherwise 0: what is played is the sorted, filtered and closed collection, and the redundant list is what the filter dropped. The played list is time-sorted and leaves no note on. Each device receives exactly the bytes of its pins, in order. Every port ends closed |
| MidiJsonPlayer.KeyByte | include/MidiJsonPlayer.hpp:78-79 | the slot's byte, after `unsigned char` wrap-around, is always one of the first 32 |
| MidiJsonPlayer.KeyBit | include/MidiJsonPlayer.hpp:80 | the slot's bit is below 8 |
| MidiJsonPlayer.ReleaseMaskIsComplement | include/MidiJsonPlayer.hpp:98 | `~0b10000000 >> bit` (an arithmetic shift of the `int` -129), cut to a byte, is the complement of `0b10000000 >> bit` |
| MidiJsonPlayer.PressedSetsOneBit | include/MidiJsonPlayer.hpp:90 | `|=` sets the key's bit and leaves the other seven |
| MidiJsonPlayer.ReleasedClearsOneBit | include/MidiJsonPlayer.hpp:98 | `&=` with the release mask clears the key's bit and leaves the other seven |
| MidiJsonPlayer.SlotsAlias | include/MidiJsonPlayer.hpp:78 | channel c and c + 2 share slots, and key k + 128 of a channel is key k of the next |
| MidiJsonPlayer.NoteTestsNeverHold | include/MidiJsonPlayer.hpp:107-112 | `midi_message[1] & 0xF0 == 0x80` and `... == 0x90` are always 0, because `==` binds tighter than `&` |
| MidiJsonPlayer.MidiDevice.constructor | include/MidiJsonPlayer.hpp:26-28 | closed, nothing sent, no key pressed in the 256-byte bitmap |
| MidiJsonPlayer.MidiDevice.OpenPort | include/MidiJsonPlayer.hpp:53-59 | the port ends open, `getOpenedPort` then gives 1, nothing is sent |
| MidiJsonPlayer.MidiDevice.ClosePort | include/MidiJsonPlayer.hpp:61-71 | the port ends closed, `getOpenedPort` then gives 0, nothing is sent |
| MidiJsonPlayer.KeysAlias | include/MidiJsonPlayer.hpp:77-83 | `isKeyPressed` answers alike for channels c and c + 2, and for key k + 128 of a channel and key k of the next |
| MidiJsonPlayer.MidiDevice.PressKey | include/MidiJsonPlayer.hpp:85-91 | the slot's byte gets its bit set; no other byte changes; the key reads back as pressed; every key in another slot reads as before |
| MidiJsonPlayer.MidiDevice.ReleaseKey | include/MidiJsonPlayer.hpp:93-99 | the slot's byte gets its bit cleared; no other byte changes; the key reads back as released; every key in another slot reads as before |
| MidiJsonPlayer.MidiDevice.SendMessage | include/MidiJsonPlayer.hpp:101-129 | a message of more than three bytes is dropped; any other is forwarded as its first `size` bytes; port and bitmap are unchanged |
| MidiJsonPlayer.MidiPin.constructor | include/MidiJsonPlayer.hpp:141-142 | the pin holds its time, device, size and three bytes |
| MidiJsonPlayer.MidiMessageIsBytes | include/MidiJsonPlayer.hpp:138-150 | a pin holding a model pin's fields hands its gate the same bytes the JSON MIDI player sends for that pin |
| MidiJsonPlayer.MidiPin.PluckTooth | include/MidiJsonPlayer.hpp:148-151 | the message goes through the device's gate; without a device nothing happens |
| MidiJsonPlayer.TakeElement | src/MidiJsonPlayer.cpp:86-165 | one element: the pin `ElementPin` gives with every port ready, and the matched device's port opened |
| MidiJsonPlayer.TakeFile | src/MidiJsonPlayer.cpp:73-166 | one file: nothing unless of the player's type, else its pins in order; the tried devices end open |
| MidiJsonPlayer.CollectPins | src/MidiJsonPlayer.cpp:56-168 | the file loop computes `Collected` with every port ready; exactly the tried devices end open; nothing is sent |
| MidiJsonPlayer.Playback | src/MidiJsonPlayer.cpp:180-198 | every pin goes through its device's gate once, in order: each log grows by the bytes of its pins |
| MidiJsonPlayer.PlayList | src/MidiJsonPlayer.cpp:22-205 | 1 when no port is available. Otherwise 0, and every collected pin is for an existing device with one to three bytes. Each device receives exactly the bytes of its pins, in time order. The tried devices end open |
| LibraryLoader.LibName | python_ctypes.py:27-32 | "Windows" gives the `.dll`, "Darwin" the `.dylib`, and any other system the `.so`, each in both directions |
| LibraryLoader.JoinShape | python_ctypes.py:35 | `os.path.join` keeps the directory as a prefix and the part as a suffix, with at most one separator added between them |
| LibraryLoader.DirPart | python_ctypes.py:21 | the script's directory, with at most one separator added, is a prefix |
| LibraryLoader.LibPathShape | python_ctypes.py:21-35 | the path is the script's directory followed by a tail that depends on the system alone, so moving the script changes only the prefix |
| LibraryLoader.LoadsOnlyTheSystemLibrary | python_ctypes.py:21-42 | loading goes ahead exactly when the file exists; the file loaded is then the system's library, under the script's directory; otherwise `FileNotFoundError` names that same path |

## Left out

- RtMidi itself: port enumeration and `canOpenMidiPort` are the given device list. Whether `openPort` succeeds is a parameter of the JSON MIDI player, one fixed answer per device for the whole run. RtMidi is asked again for every element routed to a still-closed port, and a port that fails once and then succeeds is not modelled. The MIDI JSON player's `openPort` has no `catch`, so a failure there would throw out of `PlayList`; it is taken to succeed. What `sendMessage` receives is the `sent` log.
- JSON parsing: the input is already-parsed files and elements. A field of an element that is missing, null, a string, an array or an object is `None`, and the element is skipped. A boolean field is taken as the number 0 or 1, as nlohmann converts it. A JSON parse error of the whole text is not modelled.
- Device names that are not strings: each is converted to `std::string` outside the per-element `try` (src/JsonMidiPlayer.cpp:192, src/MidiJsonPlayer.cpp:151). The `type_error` thrown there escapes `PlayList`, because the outer handler catches only `parse_error`. The model's device names are strings, so this case cannot be expressed.
- Top-level entries that are not objects: `jsonData["filetype"]` throws a `type_error` (src/JsonMidiPlayer.cpp:106, src/MidiJsonPlayer.cpp:64), and the handler there catches only `parse_error`, so it too escapes `PlayList`. The model's files always have a file type and a content, so this case cannot be expressed.
- The clock and the sleeps of the playback loops, the delay statistics and all console output: they change no message and no order.
- `MidiJsonPlayer.MidiDevice`'s destructor: its body is not part of this model. The JSON MIDI player's destructor is `CloseAll`.
- Move constructors and move assignments: they only transfer ownership.
- main.cpp, support/sleep_code.cpp, and the ctypes export headers are not part of this model. Neither are the `CDLL` load, symbol binding and foreign call of python_ctypes.py.
- Pins refer to devices by index rather than by pointer, so the aliasing of device pointers is captured only through `Distinct`.
- `MidiJsonPlayer.MidiDevice.SendMessage`: the note branches of `sendMessage` are unreachable (`NoteTestsNeverHold`), and they are kept as proven-dead branches. The index `midi_message[1] & 0x0F` they would use is therefore not modelled.
- `LibraryLoader.Join`: drive-relative Windows paths such as `C:` are not modelled. An absolute script directory never takes that form.
- `MidiMessages.ToByte`: the status byte is an integer; a fractional JSON status byte, which the cast to `unsigned char` truncates, is not modelled.
- `MidiMessages.Classify`: the data-byte fields are JSON integers, wrapped into a 32-bit `int` by `ToInt`. A fractional data byte, which the cast to `int` truncates toward zero (so `100.5` is kept as 100), is not modelled, nor is a floating-point value outside the `int` range, whose conversion C++ leaves undefined.

## Findings

| source | as written | input that shows it | evidently intended | confidence | as-written member | corrected member |
|---|---|---|---|---|---|---|
| src/JsonMidiPlayer.cpp:402 | `midiToProcess.back()` is read with no check; it is undefined on an empty list | a play list where the filter keeps nothing: a lone Note Off (`LoneNoteOffKeepsNothing`), or no playable element | with nothing kept there is nothing to close; the played list is empty | not executed | RedundancyFilter.CloseNotesAsWritten | RedundancyFilter.CloseNotes |
