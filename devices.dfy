/** The Hatch Rest device helpers: credentials from the environment, the JSON form of a
    device, lookup by id, audio-track resolution and the volume and track setters.
    The device library is outside the model: the device list it returns (or the error
    it raises) and its built-in track tables are inputs, and a setter call is recorded
    as a `Command` instead of being performed. */
module Devices {
  import opened Wrappers
  import opened Json
  import Strings

  // ---- exceptions ----

  /** The exceptions these helpers let escape, split the way the web layer tells them
      apart: `ValueError`, which it maps to an HTTP status, and anything else. */
  datatype Raise = ValueError(msg: string) | OtherError(msg: string)

  /** A helper call: the value it returns or the exception it raises. */
  datatype Outcome<+T> = Returned(value: T) | Raised(error: Raise)

  // ---- credentials ----

  const CredentialsMessage: string := "Set HATCH_EMAIL" + " and HATCH_PASSWORD" + " in .env" + " or environment"

  /** An environment variable that is unset or set to the empty string. */
  predicate Missing(v: Option<string>)
  {
    v.None? || v.value == ""
  }

  /** `get_credentials`: both variables must be set and non-empty. */
  function Credentials(email: Option<string>, password: Option<string>): (r: Outcome<(string, string)>)
    ensures r.Raised? <==> Missing(email) || Missing(password)
    ensures r.Raised? ==> r.error == ValueError(CredentialsMessage)
    ensures r.Returned? ==> email == Some(r.value.0) && password == Some(r.value.1)
    ensures r.Returned? ==> r.value.0 != "" && r.value.1 != ""
  {
    if Missing(email) || Missing(password) then Raised(ValueError(CredentialsMessage))
    else Returned((email.value, password.value))
  }

  // ---- devices as the library reports them ----

  /** An audio track: an enum member with a `name`, or an object known only by `str()`. */
  datatype Track = Track(name: Option<string>, text: string)

  /** `getattr(track, "name", str(track))`. */
  function TrackLabel(t: Track): string
  {
    if t.name.Some? then t.name.value else t.text
  }

  /** A device object. Each `Option` is an attribute that the object may lack (`None`)
      or carry with some value, Python `None` included; `audioTracks` is the
      `audio_tracks` attribute with every falsy form (absent, `None`, empty) as `[]`. */
  datatype Device = Device(
    kind: string,                 // type(device).__name__
    name: Option<Value>,
    deviceName: Option<Value>,
    deviceId: Option<Value>,
    thingName: Option<Value>,
    isOnline: Option<Value>,
    volume: Option<Value>,
    isPlaying: Option<Value>,
    audioTrack: Option<Track>,
    audioTracks: seq<Track>,
    isMini: bool,                 // an instance of the library's RestMini class
    canSetVolume: bool,           // has a set_volume method
    canSetTrack: bool)            // has a set_audio_track method

  /** `getattr(device, attribute, None)`. */
  function Attr(a: Option<Value>): Value
  {
    if a.Some? then a.value else Null
  }

  /** The id a device is known by: `device_id`, or `thing_name` when that is falsy. */
  function DeviceId(d: Device): (v: Value)
    ensures Truthy(Attr(d.deviceId)) ==> v == Attr(d.deviceId)
    ensures !Truthy(Attr(d.deviceId)) ==> v == Attr(d.thingName)
  {
    Or(Attr(d.deviceId), Attr(d.thingName))
  }

  /** The display name: `name`, else `device_name`, else "Unknown"; never falsy. */
  function DeviceName(d: Device): (v: Value)
    ensures Truthy(v)
    ensures Truthy(Attr(d.name)) ==> v == Attr(d.name)
    ensures !Truthy(Attr(d.name)) && Truthy(Attr(d.deviceName)) ==> v == Attr(d.deviceName)
    ensures !Truthy(Attr(d.name)) && !Truthy(Attr(d.deviceName)) ==> v == Str("Unknown")
  {
    Or(Or(Attr(d.name), Attr(d.deviceName)), Str("Unknown"))
  }

  /** The keys every device dict has. */
  const BaseKeys: set<string> := {"name", "device_id", "model", "is_online"}

  /** `if hasattr(device, attribute): d[key] = value`. */
  function PutIf(o: Object, key: string, v: Option<Value>): (r: Object)
    ensures forall k :: k in r <==> k in o || (k == key && v.Some?)
    ensures forall k :: k in o && k != key ==> r[k] == o[k]
    ensures v.Some? ==> r[key] == v.value
  {
    if v.Some? then o[key := v.value] else o
  }

  /** `_device_to_dict`: four keys always, and `volume`, `is_playing` and `audio_track`
      exactly when the device has that attribute. */
  function DeviceToDict(d: Device): (o: Object)
    ensures forall k :: k in o <==>
      (k in BaseKeys || (k == "volume" && d.volume.Some?) || (k == "is_playing" && d.isPlaying.Some?)
       || (k == "audio_track" && d.audioTrack.Some?))
  {
    var base := map["name" := DeviceName(d), "device_id" := DeviceId(d), "model" := Str(d.kind),
                    "is_online" := Attr(d.isOnline)];
    var shown := if d.audioTrack.Some? then Some(Str(TrackLabel(d.audioTrack.value))) else None;
    PutIf(PutIf(PutIf(base, "volume", d.volume), "is_playing", d.isPlaying), "audio_track", shown)
  }

  /** What each key of the dict holds: the display name, the id, the model and the
      online flag; the volume and playing state when present, None otherwise; and the
      current track's label. */
  lemma DeviceToDictFields(d: Device)
    ensures var o := DeviceToDict(d);
      && Get(o, "name") == DeviceName(d) && Get(o, "device_id") == DeviceId(d)
      && Get(o, "model") == Str(d.kind) && Get(o, "is_online") == Attr(d.isOnline)
      && Get(o, "volume") == Attr(d.volume) && Get(o, "is_playing") == Attr(d.isPlaying)
      && (d.audioTrack.Some? ==> Get(o, "audio_track") == Str(TrackLabel(d.audioTrack.value)))
  {
  }

  // ---- which device a call addresses ----

  /** What a call needs of the device it addresses besides its id. */
  datatype Capability = AnyDevice | VolumeControl | TrackControl

  predicate Addresses(d: Device, id: string, need: Capability)
  {
    DeviceId(d) == Str(id)
    && (need == VolumeControl ==> d.canSetVolume)
    && (need == TrackControl ==> d.canSetTrack)
  }

  /** The first device, in list order, that the call addresses. */
  function FirstTarget(devices: seq<Device>, id: string, need: Capability, from: nat := 0): (r: Option<nat>)
    requires from <= |devices|
    ensures r.Some? ==> from <= r.value < |devices| && Addresses(devices[r.value], id, need)
    ensures r.Some? ==> forall j :: from <= j < r.value ==> !Addresses(devices[j], id, need)
    ensures r.None? <==> forall j :: from <= j < |devices| ==> !Addresses(devices[j], id, need)
    decreases |devices| - from
  {
    if from == |devices| then None
    else if Addresses(devices[from], id, need) then Some(from)
    else FirstTarget(devices, id, need, from + 1)
  }

  /** The first match is the only index that matches with no match before it. */
  lemma FirstTargetUnique(devices: seq<Device>, id: string, need: Capability, i: nat)
    requires i < |devices| && Addresses(devices[i], id, need)
    requires forall j :: 0 <= j < i ==> !Addresses(devices[j], id, need)
    ensures FirstTarget(devices, id, need) == Some(i)
  {
  }

  // ---- listing and looking up devices ----

  /** What the library's device listing gives: the devices, or the error it raises. */
  datatype Fetch = Listed(devices: seq<Device>) | AuthFailed(msg: string) | RateLimited(msg: string)
                 | Failed(msg: string)

  /** `get_devices` turns the library's AuthError and RateError into ValueError and lets
      any other error through. */
  function ListingError(fetch: Fetch): Raise
    requires !fetch.Listed?
  {
    match fetch
    case AuthFailed(m) => ValueError("Hatch login failed (bad credentials): " + m)
    case RateLimited(m) => ValueError("Hatch rate limit: " + m)
    case Failed(m) => OtherError(m)
  }

  /** `get_devices`: credentials first, then the listing, then every device as a dict,
      in the library's order. */
  method GetDevices(email: Option<string>, password: Option<string>, fetch: Fetch)
    returns (r: Outcome<seq<Object>>)
    ensures Missing(email) || Missing(password) ==> r == Raised(ValueError(CredentialsMessage))
    ensures !Missing(email) && !Missing(password) && !fetch.Listed? ==> r == Raised(ListingError(fetch))
    ensures !Missing(email) && !Missing(password) && fetch.Listed? ==>
      r.Returned? && |r.value| == |fetch.devices|
      && forall i :: 0 <= i < |fetch.devices| ==> r.value[i] == DeviceToDict(fetch.devices[i])
  {
    var creds := Credentials(email, password);
    if creds.Raised? {
      return Raised(creds.error);
    }
    if !fetch.Listed? {
      return Raised(ListingError(fetch));
    }
    var out: seq<Object> := [];
    for i := 0 to |fetch.devices|
      invariant |out| == i
      invariant forall j :: 0 <= j < i ==> out[j] == DeviceToDict(fetch.devices[j])
    {
      out := out + [DeviceToDict(fetch.devices[i])];
    }
    r := Returned(out);
  }

  /** Searching the device dicts by their `device_id` entry finds what searching the
      devices by their id finds. */
  lemma DictSearch(devices: seq<Device>, dicts: seq<Object>, id: string, i: nat)
    requires |dicts| == |devices| && forall j :: 0 <= j < |devices| ==> dicts[j] == DeviceToDict(devices[j])
    requires i <= |dicts| && forall j :: 0 <= j < i ==> Get(dicts[j], "device_id") != Str(id)
    ensures i < |dicts| && Get(dicts[i], "device_id") == Str(id) ==> FirstTarget(devices, id, AnyDevice) == Some(i)
    ensures i == |dicts| ==> FirstTarget(devices, id, AnyDevice) == None
  {
    forall j | 0 <= j < i
      ensures !Addresses(devices[j], id, AnyDevice)
    {
      assert Get(dicts[j], "device_id") == DeviceId(devices[j]);
    }
    if i < |dicts| && Get(dicts[i], "device_id") == Str(id) {
      assert Get(dicts[i], "device_id") == DeviceId(devices[i]);
      FirstTargetUnique(devices, id, AnyDevice, i);
    }
  }

  /** The loop of `get_device_by_id`: the index of the first dict whose `device_id`
      entry equals `id`. */
  method FindByDeviceId(dicts: seq<Object>, id: string) returns (found: Option<nat>)
    ensures found.Some? ==> found.value < |dicts| && Get(dicts[found.value], "device_id") == Str(id)
    ensures found.Some? ==> forall j :: 0 <= j < found.value ==> Get(dicts[j], "device_id") != Str(id)
    ensures found.None? ==> forall j :: 0 <= j < |dicts| ==> Get(dicts[j], "device_id") != Str(id)
  {
    for i := 0 to |dicts|
      invariant forall j :: 0 <= j < i ==> Get(dicts[j], "device_id") != Str(id)
    {
      if Get(dicts[i], "device_id") == Str(id) {
        return Some(i);
      }
    }
    found := None;
  }

  /** `get_device_by_id`: the dict of the first device whose id matches, or None; the
      errors of `get_devices` pass through. */
  method GetDeviceById(email: Option<string>, password: Option<string>, fetch: Fetch, id: string)
    returns (r: Outcome<Option<Object>>)
    ensures Missing(email) || Missing(password) ==> r == Raised(ValueError(CredentialsMessage))
    ensures !Missing(email) && !Missing(password) && !fetch.Listed? ==> r == Raised(ListingError(fetch))
    ensures !Missing(email) && !Missing(password) && fetch.Listed? ==>
      r == Returned(match FirstTarget(fetch.devices, id, AnyDevice)
                    case None => None
                    case Some(i) => Some(DeviceToDict(fetch.devices[i])))
  {
    var listed := GetDevices(email, password, fetch);
    if listed.Raised? {
      return Raised(listed.error);
    }
    var dicts := listed.value;
    var found := FindByDeviceId(dicts, id);
    if found.Some? {
      DictSearch(fetch.devices, dicts, id, found.value);
      return Returned(Some(dicts[found.value]));
    }
    DictSearch(fetch.devices, dicts, id, |dicts|);
    r := Returned(None);
  }

  // ---- setters ----

  /** A setter call made on the `device`-th listed device. */
  datatype Command = VolumeTo(device: nat, level: real) | TrackTo(device: nat, track: Track)

  /** `set_volume`: the first listed device with this id that has `set_volume` gets the
      call and its dict is returned; None when there is none. Errors of the listing are
      not translated here. */
  method SetVolume(email: Option<string>, password: Option<string>, fetch: Fetch, id: string, level: real)
    returns (r: Outcome<Option<Object>>, sent: Option<Command>)
    ensures Missing(email) || Missing(password) ==> r == Raised(ValueError(CredentialsMessage)) && sent == None
    ensures !Missing(email) && !Missing(password) && !fetch.Listed? ==>
      r == Raised(OtherError(fetch.msg)) && sent == None
    ensures !Missing(email) && !Missing(password) && fetch.Listed? ==>
      match FirstTarget(fetch.devices, id, VolumeControl)
      case None => r == Returned(None) && sent == None
      case Some(i) => r == Returned(Some(DeviceToDict(fetch.devices[i]))) && sent == Some(VolumeTo(i, level))
  {
    var creds := Credentials(email, password);
    if creds.Raised? {
      return Raised(creds.error), None;
    }
    if !fetch.Listed? {
      return Raised(OtherError(fetch.msg)), None;
    }
    var devices := fetch.devices;
    for i := 0 to |devices|
      invariant forall j :: 0 <= j < i ==> !Addresses(devices[j], id, VolumeControl)
    {
      if DeviceId(devices[i]) == Str(id) && devices[i].canSetVolume {
        FirstTargetUnique(devices, id, VolumeControl, i);
        return Returned(Some(DeviceToDict(devices[i]))), Some(VolumeTo(i, level));
      }
    }
    r, sent := Returned(None), None;
  }

  /** The library's built-in track tables, used when a device lists none of its own. */
  datatype Library = Library(miniTracks: seq<Track>, plusTracks: seq<Track>)

  /** The tracks a device offers: its own `audio_tracks`, else the table for its model. */
  function AvailableTracks(d: Device, lib: Library): (ts: seq<Track>)
    ensures d.audioTracks != [] ==> ts == d.audioTracks
    ensures d.audioTracks == [] ==> ts == if d.isMini then lib.miniTracks else lib.plusTracks
  {
    if d.audioTracks != [] then d.audioTracks else if d.isMini then lib.miniTracks else lib.plusTracks
  }

  /** The text a track name is compared by: stripped, then lower-cased. */
  function TrackKey(name: string): string
  {
    Strings.Lower(Strings.Strip(name))
  }

  /** Whether a track answers to a requested name, ignoring case. */
  predicate Answers(t: Track, key: string)
  {
    Strings.Lower(TrackLabel(t)) == key
  }

  /** The first track, in list order, that answers to `key`. */
  function FirstTrack(ts: seq<Track>, key: string, from: nat := 0): (r: Option<nat>)
    requires from <= |ts|
    ensures r.Some? ==> from <= r.value < |ts| && Answers(ts[r.value], key)
    ensures r.Some? ==> forall j :: from <= j < r.value ==> !Answers(ts[j], key)
    ensures r.None? <==> forall j :: from <= j < |ts| ==> !Answers(ts[j], key)
    decreases |ts| - from
  {
    if from == |ts| then None
    else if Answers(ts[from], key) then Some(from)
    else FirstTrack(ts, key, from + 1)
  }

  lemma FirstTrackUnique(ts: seq<Track>, key: string, i: nat)
    requires i < |ts| && Answers(ts[i], key)
    requires forall j :: 0 <= j < i ==> !Answers(ts[j], key)
    ensures FirstTrack(ts, key) == Some(i)
  {
  }

  /** The track a device resolves a requested name to, if any. */
  function Resolution(d: Device, name: string, lib: Library): Option<Track>
  {
    var ts := AvailableTracks(d, lib);
    match FirstTrack(ts, TrackKey(name))
    case None => None
    case Some(i) => Some(ts[i])
  }

  /** `_resolve_audio_track`: the first offered track whose lower-cased name equals the
      stripped, lower-cased request. */
  method ResolveAudioTrack(d: Device, name: string, lib: Library) returns (r: Option<Track>)
    ensures r == Resolution(d, name, lib)
    ensures r.Some? ==> r.value in AvailableTracks(d, lib) && Strings.Lower(TrackLabel(r.value)) == TrackKey(name)
    ensures r.None? ==> forall t :: t in AvailableTracks(d, lib) ==> Strings.Lower(TrackLabel(t)) != TrackKey(name)
  {
    var tracks := AvailableTracks(d, lib);
    var key := TrackKey(name);
    for i := 0 to |tracks|
      invariant forall j :: 0 <= j < i ==> !Answers(tracks[j], key)
    {
      if Strings.Lower(TrackLabel(tracks[i])) == key {
        FirstTrackUnique(tracks, key, i);
        return Some(tracks[i]);
      }
    }
    r := None;
  }

  /** `repr()` of a track name, for names without quotes or backslashes. */
  function Quoted(s: string): string
  {
    "'" + s + "'"
  }

  const UnknownTrackPrefix: string := "Unknown audio track"

  function UnknownTrackMessage(name: string): (m: string)
    ensures |m| >= |UnknownTrackPrefix| && m[..|UnknownTrackPrefix|] == UnknownTrackPrefix
  {
    UnknownTrackPrefix + ": " + Quoted(name)
  }

  /** `set_audio_track`: devices without this id or without `set_audio_track` are
      skipped; the first remaining one resolves the name, and an unknown name raises
      ValueError there instead of moving on. None when no device qualifies. */
  method SetAudioTrack(email: Option<string>, password: Option<string>, fetch: Fetch, lib: Library,
                       id: string, name: string)
    returns (r: Outcome<Option<Object>>, sent: Option<Command>)
    ensures Missing(email) || Missing(password) ==> r == Raised(ValueError(CredentialsMessage)) && sent == None
    ensures !Missing(email) && !Missing(password) && !fetch.Listed? ==>
      r == Raised(OtherError(fetch.msg)) && sent == None
    ensures !Missing(email) && !Missing(password) && fetch.Listed? ==>
      match FirstTarget(fetch.devices, id, TrackControl)
      case None => r == Returned(None) && sent == None
      case Some(i) =>
        match Resolution(fetch.devices[i], name, lib)
        case None => r == Raised(ValueError(UnknownTrackMessage(name))) && sent == None
        case Some(t) => r == Returned(Some(DeviceToDict(fetch.devices[i]))) && sent == Some(TrackTo(i, t))
  {
    var creds := Credentials(email, password);
    if creds.Raised? {
      return Raised(creds.error), None;
    }
    if !fetch.Listed? {
      return Raised(OtherError(fetch.msg)), None;
    }
    var devices := fetch.devices;
    for i := 0 to |devices|
      invariant forall j :: 0 <= j < i ==> !Addresses(devices[j], id, TrackControl)
    {
      if DeviceId(devices[i]) != Str(id) || !devices[i].canSetTrack {
        continue;
      }
      FirstTargetUnique(devices, id, TrackControl, i);
      var track := ResolveAudioTrack(devices[i], name, lib);
      if track.None? {
        return Raised(ValueError(UnknownTrackMessage(name))), None;
      }
      return Returned(Some(DeviceToDict(devices[i]))), Some(TrackTo(i, track.value));
    }
    r, sent := Returned(None), None;
  }
}
