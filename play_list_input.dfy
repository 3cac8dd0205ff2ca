/**
  The front half of `PlayList`, shared by both players: which JSON elements become pins,
  and on which output device. Device names are matched by substring, first name first.
 */
module PlayListInput {
  import opened Wrappers
  import opened MidiMessages

  /** One entry of the top-level JSON array: its "filetype" (a string or absent) and its "content". */
  datatype JsonFile = JsonFile(fileType: Option<string>, content: seq<Element>)

  /** `hay.find(needle) != std::string::npos`: `needle` occurs in `hay` (the empty string occurs everywhere). */
  predicate Contains(hay: string, needle: string)
    decreases |hay|
  {
    needle <= hay || (|hay| > 0 && Contains(hay[1..], needle))
  }

  /** `Contains` is substring search: the needle is a prefix of some suffix of the haystack. */
  lemma {:induction false} ContainsIsSubstring(hay: string, needle: string)
    ensures Contains(hay, needle) <==> exists k :: 0 <= k <= |hay| && needle <= hay[k..]
  {
    if needle <= hay {
      assert hay[0..] == hay;
    } else if |hay| > 0 {
      ContainsIsSubstring(hay[1..], needle);
      if Contains(hay[1..], needle) {
        var k :| 0 <= k <= |hay[1..]| && needle <= hay[1..][k..];
        assert hay[1..][k..] == hay[k + 1..];
      }
      if exists k :: 0 <= k <= |hay| && needle <= hay[k..] {
        var k :| 0 <= k <= |hay| && needle <= hay[k..];
        assert k != 0 by { assert hay[0..] == hay; }
        assert hay[1..][k - 1..] == hay[k..];
      }
    }
  }

  /**
    Device `j` is the one the nested search of `PlayList` stops at for name `i`: name `i`
    occurs in device `j`'s name, in no earlier device's, and no earlier name occurs in any device.
   */
  predicate IsFirstMatch(wanted: seq<string>, devices: seq<string>, i: nat, j: nat) {
    && i < |wanted| && j < |devices|
    && Contains(devices[j], wanted[i])
    && (forall j' :: 0 <= j' < j ==> !Contains(devices[j'], wanted[i]))
    && (forall i', j' :: 0 <= i' < i && 0 <= j' < |devices| ==> !Contains(devices[j'], wanted[i']))
  }

  /** The first device, in `devices` order, whose name contains `name`. */
  function FirstDeviceFor(name: string, devices: seq<string>, from: nat): (r: Option<nat>)
    requires from <= |devices|
    ensures r.Some? ==> from <= r.value < |devices| && Contains(devices[r.value], name)
                        && forall j :: from <= j < r.value ==> !Contains(devices[j], name)
    ensures r.None? ==> forall j :: from <= j < |devices| ==> !Contains(devices[j], name)
    decreases |devices| - from
  {
    if from == |devices| then None
    else if Contains(devices[from], name) then Some(from)
    else FirstDeviceFor(name, devices, from + 1)
  }

  /**
    The device lookup of both players: the names are tried in order and, for each, the devices
    in order; the first (name, device) pair whose device name contains the name wins.
    Returns the indices of that name and that device.
   */
  function FirstMatch(wanted: seq<string>, devices: seq<string>, from: nat): (r: Option<(nat, nat)>)
    requires from <= |wanted|
    requires forall i', j' :: 0 <= i' < from && 0 <= j' < |devices| ==> !Contains(devices[j'], wanted[i'])
    ensures r.Some? ==> from <= r.value.0 && IsFirstMatch(wanted, devices, r.value.0, r.value.1)
    ensures r.None? <==> forall i, j :: 0 <= i < |wanted| && 0 <= j < |devices| ==> !Contains(devices[j], wanted[i])
    decreases |wanted| - from
  {
    if from == |wanted| then None
    else
      match FirstDeviceFor(wanted[from], devices, 0)
      case Some(j) => Some((from, j))
      case None => FirstMatch(wanted, devices, from + 1)
  }

  /** The device a name list selects, if any. */
  function DeviceFor(wanted: seq<string>, devices: seq<string>): (r: Option<nat>)
    ensures r.Some? <==> exists i :: 0 <= i < |wanted| && exists j :: 0 <= j < |devices| && Contains(devices[j], wanted[i])
    ensures r.Some? ==> r.value < |devices| && exists i :: IsFirstMatch(wanted, devices, i, r.value)
  {
    match FirstMatch(wanted, devices, 0)
    case Some((_, j)) => Some(j)
    case None => None
  }

  /**
    The pin one element yields: it must classify, some device must match, and that device
    must be ready (its port open or openable); otherwise nothing.
   */
  function ElementPin(e: Element, devices: seq<string>, ready: seq<bool>): Option<Pin>
    requires |ready| == |devices|
  {
    match Classify(e)
    case None => None
    case Some(m) =>
      match DeviceFor(e.deviceNames, devices)
      case None => None
      case Some(j) =>
        if ready[j] then Some(Pin(e.timeMs.value, j, m.size, m.status, m.data1, m.data2)) else None
  }

  /** The pins of one file's elements, pushed in element order. */
  function ContentPins(content: seq<Element>, devices: seq<string>, ready: seq<bool>): seq<Pin>
    requires |ready| == |devices|
  {
    if content == [] then []
    else
      var last := content[|content| - 1];
      ContentPins(content[..|content| - 1], devices, ready)
        + match ElementPin(last, devices, ready) case Some(p) => [p] case None => []
  }

  /** The pins of all files whose "filetype" is `fileType`, in file order. */
  function Collected(files: seq<JsonFile>, fileType: string, devices: seq<string>, ready: seq<bool>): seq<Pin>
    requires |ready| == |devices|
  {
    if files == [] then []
    else
      var last := files[|files| - 1];
      Collected(files[..|files| - 1], fileType, devices, ready)
        + if last.fileType == Some(fileType) then ContentPins(last.content, devices, ready) else []
  }

  /** What every collected pin satisfies. */
  predicate WellFormedPin(p: Pin, devices: seq<string>, ready: seq<bool>)
    requires |ready| == |devices|
  {
    && p.time >= 0.0
    && p.device < |devices| && ready[p.device]
    && IsKnownStatus(p.status) && p.size == SizeOf(p.status) && 1 <= p.size <= 3
  }

  /** An element yields a pin exactly when it is playable and a ready device matches it. */
  lemma ElementPinIff(e: Element, devices: seq<string>, ready: seq<bool>)
    requires |ready| == |devices|
    ensures ElementPin(e, devices, ready).Some? <==>
              Playable(e) && DeviceFor(e.deviceNames, devices).Some? && ready[DeviceFor(e.deviceNames, devices).value]
    ensures ElementPin(e, devices, ready).Some? ==>
              var p := ElementPin(e, devices, ready).value;
              p.time == e.timeMs.value && WellFormedPin(p, devices, ready)
  {
  }

  /**
    What a pin made from an element hands to the MIDI output: the element's status byte, then
    the data fields of the JSON element that its kind reads, in order, and nothing else.
   */
  lemma ElementBytes(e: Element, devices: seq<string>, ready: seq<bool>)
    requires |ready| == |devices| && ElementPin(e, devices, ready).Some?
    ensures Sized(ElementPin(e, devices, ready).value)
    ensures var s, b := ToByte(e.statusByte.value), Bytes(ElementPin(e, devices, ready).value);
            && (IsChannelStatus(s) || s == SongPosition ==> b == [s, ToInt(e.dataByte1.value), ToInt(e.dataByte2.value)])
            && (IsOneDataByteCommon(s) ==> b == [s, ToInt(e.dataByte.value)])
            && (IsRealTimeStatus(s) || s == TuneRequest ==> b == [s])
  {
  }

  /** At most one pin per element, and each pin well formed. */
  lemma {:induction false} ContentPinsWellFormed(content: seq<Element>, devices: seq<string>, ready: seq<bool>)
    requires |ready| == |devices|
    ensures |ContentPins(content, devices, ready)| <= |content|
    ensures forall p :: p in ContentPins(content, devices, ready) ==> WellFormedPin(p, devices, ready)
  {
    if content != [] {
      ContentPinsWellFormed(content[..|content| - 1], devices, ready);
      ElementPinIff(content[|content| - 1], devices, ready);
    }
  }

  /** Every collected pin is well formed (non-negative time, a ready device, a known status of its size). */
  lemma {:induction false} CollectedWellFormed(files: seq<JsonFile>, fileType: string, devices: seq<string>, ready: seq<bool>)
    requires |ready| == |devices|
    ensures forall p :: p in Collected(files, fileType, devices, ready) ==> WellFormedPin(p, devices, ready)
  {
    if files != [] {
      CollectedWellFormed(files[..|files| - 1], fileType, devices, ready);
      ContentPinsWellFormed(files[|files| - 1].content, devices, ready);
    }
  }

  /** Files of another type contribute nothing. */
  lemma OtherFileTypesIgnored(files: seq<JsonFile>, f: JsonFile, fileType: string, devices: seq<string>, ready: seq<bool>)
    requires |ready| == |devices|
    requires f.fileType != Some(fileType)
    ensures Collected(files + [f], fileType, devices, ready) == Collected(files, fileType, devices, ready)
  {
    assert (files + [f])[..|files + [f]| - 1] == files;
  }

  /** The device whose port the element loop tries to open for `e`: the one a playable element selects. */
  function ElementSelected(e: Element, devices: seq<string>): (r: set<nat>)
    ensures forall j :: j in r ==> j < |devices|
  {
    if Classify(e).Some? && DeviceFor(e.deviceNames, devices).Some? then {DeviceFor(e.deviceNames, devices).value} else {}
  }

  function ContentSelected(content: seq<Element>, devices: seq<string>): (r: set<nat>)
    ensures forall j :: j in r ==> j < |devices|
  {
    if content == [] then {}
    else ContentSelected(content[..|content| - 1], devices) + ElementSelected(content[|content| - 1], devices)
  }

  function Selected(files: seq<JsonFile>, fileType: string, devices: seq<string>): (r: set<nat>)
    ensures forall j :: j in r ==> j < |devices|
  {
    if files == [] then {}
    else
      var f := files[|files| - 1];
      Selected(files[..|files| - 1], fileType, devices)
        + if f.fileType == Some(fileType) then ContentSelected(f.content, devices) else {}
  }

  /** With every device ready, each selected device receives at least one pin, and only those. */
  lemma {:induction false} SelectedAreTheTargets(content: seq<Element>, devices: seq<string>, ready: seq<bool>, j: nat)
    requires |ready| == |devices| && forall i :: 0 <= i < |ready| ==> ready[i]
    ensures j in ContentSelected(content, devices) <==> exists p :: p in ContentPins(content, devices, ready) && p.device == j
  {
    if content != [] {
      var init, e := content[..|content| - 1], content[|content| - 1];
      SelectedAreTheTargets(init, devices, ready, j);
      var tail := match ElementPin(e, devices, ready) case Some(p) => [p] case None => [];
      assert ContentPins(content, devices, ready) == ContentPins(init, devices, ready) + tail;
      if j in ContentSelected(content, devices) && j !in ContentSelected(init, devices) {
        assert ElementPin(e, devices, ready).value in tail;
      }
    }
  }

  /** One more element adds its own pin and its own tried device, and nothing else. */
  lemma ContentStep(content: seq<Element>, k: nat, devices: seq<string>, ready: seq<bool>)
    requires k < |content| && |ready| == |devices|
    ensures ContentPins(content[..k + 1], devices, ready) ==
              ContentPins(content[..k], devices, ready) +
                match ElementPin(content[k], devices, ready) case Some(p) => [p] case None => []
    ensures ContentSelected(content[..k + 1], devices) ==
              ContentSelected(content[..k], devices) + ElementSelected(content[k], devices)
  {
    assert content[..k + 1][..k] == content[..k];
  }

  /** One more file adds its pins and tried devices when it is of the wanted type, and nothing otherwise. */
  lemma CollectedStep(files: seq<JsonFile>, i: nat, fileType: string, devices: seq<string>, ready: seq<bool>)
    requires i < |files| && |ready| == |devices|
    ensures Collected(files[..i + 1], fileType, devices, ready) ==
              Collected(files[..i], fileType, devices, ready) +
                if files[i].fileType == Some(fileType) then ContentPins(files[i].content, devices, ready) else []
    ensures Selected(files[..i + 1], fileType, devices) ==
              Selected(files[..i], fileType, devices) +
                if files[i].fileType == Some(fileType) then ContentSelected(files[i].content, devices) else {}
  {
    assert files[..i + 1][..i] == files[..i];
  }

  /**
    The nested search of both `PlayList`s (names outer, devices inner, stop at the first hit),
    as the loops the source runs.
   */
  method FindDevice(wanted: seq<string>, devices: seq<string>) returns (r: Option<nat>)
    ensures r == DeviceFor(wanted, devices)
  {
    var i := 0;
    while i < |wanted|
      invariant 0 <= i <= |wanted|
      invariant forall i', j' :: 0 <= i' < i && 0 <= j' < |devices| ==> !Contains(devices[j'], wanted[i'])
      invariant DeviceFor(wanted, devices) ==
                  match FirstMatch(wanted, devices, i) case Some((_, j)) => Some(j) case None => None
    {
      var j := 0;
      while j < |devices|
        invariant 0 <= j <= |devices|
        invariant forall j' :: 0 <= j' < j ==> !Contains(devices[j'], wanted[i])
        invariant FirstDeviceFor(wanted[i], devices, 0) == FirstDeviceFor(wanted[i], devices, j)
      {
        if Contains(devices[j], wanted[i]) {
          return Some(j);
        }
        j := j + 1;
      }
      i := i + 1;
    }
    return None;
  }
}