/** The two search rules of psychopy/sound/__init__.py: the loop that picks
    the audio library when the package is imported, and `_bestDriver`, which
    picks an output device by the preferred driver names.

    The preference lists (`prefs.general['audioLib']` and
    `prefs.general['audioDriver']`) are parameters. Importing a backend
    module is a parameter too: `load(b)` is `Pass` when the import succeeds
    and `Fail(e)` with the exception it raises otherwise:
    DependencyError when the library a backend needs is missing, or any
    other exception, such as ImportError, which the loop lets through. */
module SoundLib {
  import opened Wrappers
  import opened Text

  /** The backend modules the package knows. */
  datatype Backend = PyoLib | SoundDeviceLib | PygameLib | PySoundCardLib

  /** The preference name that selects a backend. */
  function BackendName(b: Backend): string {
    match b
    case PyoLib => "pyo"
    case SoundDeviceLib => "sounddevice"
    case PygameLib => "pygame"
    case PySoundCardLib => "pysoundcard"
  }

  /** The `if`/`elif` chain on the library name: exact, case-sensitive
      comparison; any other name has no backend. */
  function BackendNamed(name: string): (r: Option<Backend>)
    ensures r.Some? ==> BackendName(r.value) == name
    ensures r.None? ==> forall b: Backend :: BackendName(b) != name
  {
    if name == "pyo" then Some(PyoLib)
    else if name == "sounddevice" then Some(SoundDeviceLib)
    else if name == "pygame" then Some(PygameLib)
    else if name == "pysoundcard" then Some(PySoundCardLib)
    else None
  }

  /** What the import leaves behind: `audioLib` and the backend whose
      `Sound` class and `init` function the package then exports. */
  datatype Selection = Selection(audioLib: string, backend: Backend)

  /** The outcome of the selection loop over the names in order. An unknown
      name raises ValueError, which nothing catches; a backend whose import
      raises DependencyError is passed over; any other import error
      propagates; the first backend that imports is chosen; a list with no
      such backend ends in DependencyError. */
  function SelectionOf(prefs: seq<string>, load: Backend -> Outcome): (r: Result<Selection>)
    ensures r.Ok? ==> r.value.audioLib in prefs
    ensures r.Ok? ==> BackendNamed(r.value.audioLib) == Some(r.value.backend) && load(r.value.backend) == Pass
    ensures r == Err(DependencyError) ==> forall j :: 0 <= j < |prefs| ==> PassedOver(prefs[j], load)
    decreases |prefs|
  {
    if prefs == [] then Err(DependencyError)
    else
      match BackendNamed(prefs[0])
      case None => Err(ValueError)
      case Some(b) =>
        match load(b)
        case Pass => Ok(Selection(prefs[0], b))
        case Fail(e) =>
          if e == DependencyError then
            var rest := SelectionOf(prefs[1..], load);
            assert forall j :: 1 <= j < |prefs| ==> prefs[j] == prefs[1..][j - 1];
            rest
          else Err(e)
  }

  /** A name the loop moves past: a known backend whose import raised
      DependencyError. */
  predicate PassedOver(name: string, load: Backend -> Outcome) {
    BackendNamed(name).Some? && load(BackendNamed(name).value) == Fail(DependencyError)
  }

  /** When the name at `i` is the first one the loop does not move past, the
      selection is decided there: ValueError for an unknown name, the backend
      when it imports, and the import's own exception otherwise. */
  lemma {:induction false} SelectionAtFirstAttempt(prefs: seq<string>, load: Backend -> Outcome, i: nat)
    requires i < |prefs|
    requires forall j :: 0 <= j < i ==> PassedOver(prefs[j], load)
    requires !PassedOver(prefs[i], load)
    ensures BackendNamed(prefs[i]).None? ==> SelectionOf(prefs, load) == Err(ValueError)
    ensures BackendNamed(prefs[i]).Some? && load(BackendNamed(prefs[i]).value).Pass? ==>
              SelectionOf(prefs, load) == Ok(Selection(prefs[i], BackendNamed(prefs[i]).value))
    ensures BackendNamed(prefs[i]).Some? && load(BackendNamed(prefs[i]).value).Fail? ==>
              SelectionOf(prefs, load) == Err(load(BackendNamed(prefs[i]).value).error)
    decreases i
  {
    if i > 0 {
      assert PassedOver(prefs[0], load);
      forall j | 0 <= j < i - 1 ensures PassedOver(prefs[1..][j], load) {
        assert prefs[1..][j] == prefs[j + 1];
      }
      SelectionAtFirstAttempt(prefs[1..], load, i - 1);
    }
  }

  /** When the loop moves past every name, including when there are none,
      the import fails with DependencyError. */
  lemma {:induction false} SelectionWhenAllPassedOver(prefs: seq<string>, load: Backend -> Outcome)
    requires forall j :: 0 <= j < |prefs| ==> PassedOver(prefs[j], load)
    ensures SelectionOf(prefs, load) == Err(DependencyError)
    decreases |prefs|
  {
    if prefs != [] {
      assert PassedOver(prefs[0], load);
      forall j | 0 <= j < |prefs| - 1 ensures PassedOver(prefs[1..][j], load) {
        assert prefs[1..][j] == prefs[j + 1];
      }
      SelectionWhenAllPassedOver(prefs[1..], load);
    }
  }

  /** The module-level `for` loop with its `break`, and the test after it. */
  method SelectAudioLib(prefs: seq<string>, load: Backend -> Outcome) returns (r: Result<Selection>)
    ensures r == SelectionOf(prefs, load)
  {
    var audioLib: Option<Selection> := None;
    var i := 0;
    while i < |prefs|
      invariant 0 <= i <= |prefs|
      invariant SelectionOf(prefs[i..], load) == SelectionOf(prefs, load)
    {
      var thisLibName := prefs[i];
      var backend: Backend;
      if thisLibName == "pyo" {
        backend := PyoLib;
      } else if thisLibName == "sounddevice" {
        backend := SoundDeviceLib;
      } else if thisLibName == "pygame" {
        backend := PygameLib;
      } else if thisLibName == "pysoundcard" {
        backend := PySoundCardLib;
      } else {
        return Err(ValueError);
      }
      var imported := load(backend);
      if imported.Pass? {
        audioLib := Some(Selection(thisLibName, backend));
        break;
      }
      if imported.error != DependencyError {
        return Err(imported.error);
      }
      assert prefs[i..][1..] == prefs[i + 1..];
      i := i + 1;
    }
    if audioLib.None? {
      assert prefs[i..] == [];
      return Err(DependencyError);
    }
    return Ok(audioLib.value);
  }

  /** A device name as the sound library reports it: text that decodes in
      the file-system encoding, or bytes that do not. */
  datatype DeviceName = Decoded(text: string) | Undecodable

  /** What `_bestDriver` returns: a device name and its ID, `(None, None)`,
      or the exception it lets through. */
  datatype DriverSearch = Chosen(driver: string, outputID: int) | NoneFound | Raised(error: Exception)

  /** The preference as it is matched: 'directsound', in any case, stands
      for the devices named 'Primary Sound'. */
  function DriverAlias(pref: string): string {
    if Lower(pref) == "directsound" then "Primary Sound" else pref
  }

  /** A device answers a preference when its name decodes and, lower-cased,
      contains the lower-cased (aliased) preference. */
  predicate DeviceMatches(pref: string, dev: DeviceName)
    ensures dev.Undecodable? ==> !DeviceMatches(pref, dev)
    ensures dev.Decoded? && Lower(dev.text) == Lower(DriverAlias(pref)) ==> DeviceMatches(pref, dev)
  {
    dev.Decoded? && (ContainsItself(Lower(dev.text)); Contains(Lower(dev.text), Lower(DriverAlias(pref))))
  }

  /** The inner loop from device `d` on: the first device that answers
      `pref` decides, and its ID is read from `devIDs` by the same index
      (IndexError when `devIDs` is shorter); no answer gives NoneFound. */
  function ScanDevices(pref: string, devNames: seq<DeviceName>, devIDs: seq<int>, d: nat): (r: DriverSearch)
    requires d <= |devNames|
    ensures r.Raised? ==> r.error == IndexError
    decreases |devNames| - d
  {
    if d == |devNames| then NoneFound
    else if DeviceMatches(pref, devNames[d]) then
      if d < |devIDs| then Chosen(devNames[d].text, devIDs[d]) else Raised(IndexError)
    else ScanDevices(pref, devNames, devIDs, d + 1)
  }

  /** The outer loop: the preferences in order, each scanning every device. */
  function BestDriverOf(prefs: seq<string>, devNames: seq<DeviceName>, devIDs: seq<int>): (r: DriverSearch)
    ensures r.Raised? ==> r.error == IndexError
    decreases |prefs|
  {
    if prefs == [] then NoneFound
    else
      var here := ScanDevices(prefs[0], devNames, devIDs, 0);
      if here.NoneFound? then BestDriverOf(prefs[1..], devNames, devIDs) else here
  }

  /** The scan from `d` ends at the first answering device `m`. */
  lemma {:induction false} ScanDevicesAtFirst(pref: string, devNames: seq<DeviceName>, devIDs: seq<int>, d: nat, m: nat)
    requires d <= m < |devNames|
    requires DeviceMatches(pref, devNames[m])
    requires forall e :: d <= e < m ==> !DeviceMatches(pref, devNames[e])
    ensures ScanDevices(pref, devNames, devIDs, d) ==
              if m < |devIDs| then Chosen(devNames[m].text, devIDs[m]) else Raised(IndexError)
    decreases m - d
  {
    if d < m {
      ScanDevicesAtFirst(pref, devNames, devIDs, d + 1, m);
    }
  }

  /** A scan that meets no answering device finds nothing. */
  lemma {:induction false} ScanDevicesNone(pref: string, devNames: seq<DeviceName>, devIDs: seq<int>, d: nat)
    requires d <= |devNames|
    requires forall e :: d <= e < |devNames| ==> !DeviceMatches(pref, devNames[e])
    ensures ScanDevices(pref, devNames, devIDs, d) == NoneFound
    decreases |devNames| - d
  {
    if d < |devNames| {
      ScanDevicesNone(pref, devNames, devIDs, d + 1);
    }
  }

  /** The search is preference-major: when preference `p` is the first with
      an answering device and `m` is its first such device, the result is
      that device's name and ID, or IndexError when `devIDs` has no entry
      at `m`. */
  lemma {:induction false} BestDriverAtFirstMatch(prefs: seq<string>, devNames: seq<DeviceName>, devIDs: seq<int>, p: nat, m: nat)
    requires p < |prefs| && m < |devNames|
    requires forall q, e :: 0 <= q < p && 0 <= e < |devNames| ==> !DeviceMatches(prefs[q], devNames[e])
    requires DeviceMatches(prefs[p], devNames[m])
    requires forall e :: 0 <= e < m ==> !DeviceMatches(prefs[p], devNames[e])
    ensures BestDriverOf(prefs, devNames, devIDs) ==
              if m < |devIDs| then Chosen(devNames[m].text, devIDs[m]) else Raised(IndexError)
    decreases p
  {
    if p == 0 {
      ScanDevicesAtFirst(prefs[0], devNames, devIDs, 0, m);
    } else {
      forall e | 0 <= e < |devNames| ensures !DeviceMatches(prefs[0], devNames[e]) {
        assert 0 < p;
      }
      ScanDevicesNone(prefs[0], devNames, devIDs, 0);
      forall q, e | 0 <= q < p - 1 && 0 <= e < |devNames|
        ensures !DeviceMatches(prefs[1..][q], devNames[e])
      {
        assert prefs[1..][q] == prefs[q + 1];
      }
      assert prefs[1..][p - 1] == prefs[p];
      BestDriverAtFirstMatch(prefs[1..], devNames, devIDs, p - 1, m);
    }
  }

  /** With no preference answered by any device, including an empty
      preference list, the result is `(None, None)`. */
  lemma {:induction false} BestDriverWithoutMatch(prefs: seq<string>, devNames: seq<DeviceName>, devIDs: seq<int>)
    requires forall q, e :: 0 <= q < |prefs| && 0 <= e < |devNames| ==> !DeviceMatches(prefs[q], devNames[e])
    ensures BestDriverOf(prefs, devNames, devIDs) == NoneFound
    decreases |prefs|
  {
    if prefs != [] {
      forall e | 0 <= e < |devNames| ensures !DeviceMatches(prefs[0], devNames[e]) {
        assert 0 < |prefs|;
      }
      ScanDevicesNone(prefs[0], devNames, devIDs, 0);
      forall q, e | 0 <= q < |prefs| - 1 && 0 <= e < |devNames|
        ensures !DeviceMatches(prefs[1..][q], devNames[e])
      {
        assert prefs[1..][q] == prefs[q + 1];
      }
      BestDriverWithoutMatch(prefs[1..], devNames, devIDs);
    }
  }

  /** A chosen device answers one of the preferences, and its ID is the
      entry of `devIDs` at the device's own index. */
  lemma {:induction false} BestDriverChosenMatches(prefs: seq<string>, devNames: seq<DeviceName>, devIDs: seq<int>)
    requires BestDriverOf(prefs, devNames, devIDs).Chosen?
    ensures exists q, e :: 0 <= q < |prefs| && 0 <= e < |devNames| && e < |devIDs| &&
              DeviceMatches(prefs[q], devNames[e]) &&
              BestDriverOf(prefs, devNames, devIDs) == Chosen(devNames[e].text, devIDs[e])
    decreases |prefs|
  {
    var here := ScanDevices(prefs[0], devNames, devIDs, 0);
    if here.NoneFound? {
      BestDriverChosenMatches(prefs[1..], devNames, devIDs);
      var q, e :| 0 <= q < |prefs| - 1 && 0 <= e < |devNames| && e < |devIDs| &&
                  DeviceMatches(prefs[1..][q], devNames[e]) &&
                  BestDriverOf(prefs[1..], devNames, devIDs) == Chosen(devNames[e].text, devIDs[e]);
      assert prefs[1..][q] == prefs[q + 1];
    } else {
      var e := ScanChosenMatches(prefs[0], devNames, devIDs, 0);
    }
  }

  /** The device a scan chooses answers the preference; `e` is its index. */
  lemma {:induction false} ScanChosenMatches(pref: string, devNames: seq<DeviceName>, devIDs: seq<int>, d: nat) returns (e: nat)
    requires d <= |devNames|
    requires ScanDevices(pref, devNames, devIDs, d).Chosen?
    ensures d <= e < |devNames| && e < |devIDs| && DeviceMatches(pref, devNames[e])
    ensures ScanDevices(pref, devNames, devIDs, d) == Chosen(devNames[e].text, devIDs[e])
    decreases |devNames| - d
  {
    if DeviceMatches(pref, devNames[d]) {
      e := d;
    } else {
      e := ScanChosenMatches(pref, devNames, devIDs, d + 1);
    }
  }

  /** 'directsound' in any spelling searches for 'primary sound'. */
  lemma DirectSoundAlias(pref: string, dev: DeviceName)
    requires Lower(pref) == "directsound"
    ensures DeviceMatches(pref, dev) <==> dev.Decoded? && Contains(Lower(dev.text), "primary sound")
  {
    assert Lower("Primary Sound") == "primary sound";
  }

  /** `_bestDriver`: two nested loops that return from inside the inner one
      at the first answering device, and `(None, None)` after the outer one. */
  method BestDriver(preferredDrivers: seq<string>, devNames: seq<DeviceName>, devIDs: seq<int>) returns (r: DriverSearch)
    ensures r == BestDriverOf(preferredDrivers, devNames, devIDs)
  {
    var p := 0;
    while p < |preferredDrivers|
      invariant 0 <= p <= |preferredDrivers|
      invariant BestDriverOf(preferredDrivers[p..], devNames, devIDs) == BestDriverOf(preferredDrivers, devNames, devIDs)
    {
      var prefDriver := preferredDrivers[p];
      if Lower(prefDriver) == "directsound" {
        prefDriver := "Primary Sound";
      }
      var devN := 0;
      while devN < |devNames|
        invariant 0 <= devN <= |devNames|
        invariant ScanDevices(preferredDrivers[p], devNames, devIDs, devN) == ScanDevices(preferredDrivers[p], devNames, devIDs, 0)
      {
        var devString := devNames[devN];
        if devString.Decoded? {
          var ds := Lower(devString.text);
          if Contains(ds, Lower(prefDriver)) {
            var audioDriver := devString.text;
            if devN >= |devIDs| {
              return Raised(IndexError);
            }
            var outputID := devIDs[devN];
            return Chosen(audioDriver, outputID);
          }
        }
        devN := devN + 1;
      }
      assert preferredDrivers[p..][1..] == preferredDrivers[p + 1..];
      p := p + 1;
    }
    assert preferredDrivers[p..] == [];
    return NoneFound;
  }
}
