/** The camera-control half of the program (class CamCtrl, which holds no
    state of its own): the thirteen-field control record, its JSON
    configuration file with load-or-create semantics, the fixed-order batch
    of control calls, and the control-support query.

    A JSON document is the map from member name to integer that jsoncpp
    would parse; the file system is a map from file name to such a
    document, with the names that cannot be opened for reading or for
    writing. Device calls are abstract, as in module Cam: their outcomes
    are parameters, and each call is appended to the ImageGetter's Log. */
module Controls {
  import opened V4l2
  import Cam

  /** struct CameraControls. */
  datatype CameraControls = CameraControls(
    brightness: int,
    contrast: int,
    saturation: int,
    hue: int,
    autoWhiteBalance: int,
    gamma: int,
    gain: int,
    powerLineFrequency: int,
    whiteBalanceTemperature: int,
    sharpness: int,
    backlightCompensation: int,
    exposureAuto: int,
    exposureTimeAbsolute: int)

  /** The member initialisers of struct CameraControls. */
  const Defaults := CameraControls(0, 32, 64, 0, 1, 100, 0, 1, 4600, 3, 1, 3, 157)

  /** A parsed JSON object: member name to integer value. */
  type Json = map<string, int>

  /** The member names of the configuration file, one per field, in field order. */
  const ConfigKeys: seq<string> := [
    "brightness", "contrast", "saturation", "hue", "autoWhiteBalance", "gamma", "gain",
    "powerLineFrequency", "whiteBalanceTemperature", "sharpness", "backlightCompensation",
    "exposureAuto", "exposureTimeAbsolute"
  ]

  /** The field of the record that a configuration member holds. */
  function ConfigValue(c: CameraControls, key: string): int {
    if key == "brightness" then c.brightness
    else if key == "contrast" then c.contrast
    else if key == "saturation" then c.saturation
    else if key == "hue" then c.hue
    else if key == "autoWhiteBalance" then c.autoWhiteBalance
    else if key == "gamma" then c.gamma
    else if key == "gain" then c.gain
    else if key == "powerLineFrequency" then c.powerLineFrequency
    else if key == "whiteBalanceTemperature" then c.whiteBalanceTemperature
    else if key == "sharpness" then c.sharpness
    else if key == "backlightCompensation" then c.backlightCompensation
    else if key == "exposureAuto" then c.exposureAuto
    else if key == "exposureTimeAbsolute" then c.exposureTimeAbsolute
    else 0
  }

  /** The JSON object create_cam_config_file builds: one member per field. */
  function ToJson(c: CameraControls): (doc: Json)
    ensures doc.Keys == set k | k in ConfigKeys
  {
    map key | key in ConfigKeys :: ConfigValue(c, key)
  }

  /** `doc[key].asInt()`: a missing member reads as null, whose asInt is 0. */
  function AsInt(doc: Json, key: string): int {
    if key in doc then doc[key] else 0
  }

  /** The record read_cam_config_file assigns from a parsed file: the
      field of each member name holds what the document has under it. */
  function FromJson(doc: Json): (c: CameraControls)
    ensures forall k :: k in ConfigKeys ==> ConfigValue(c, k) == AsInt(doc, k)
  {
    CameraControls(
      AsInt(doc, "brightness"),
      AsInt(doc, "contrast"),
      AsInt(doc, "saturation"),
      AsInt(doc, "hue"),
      AsInt(doc, "autoWhiteBalance"),
      AsInt(doc, "gamma"),
      AsInt(doc, "gain"),
      AsInt(doc, "powerLineFrequency"),
      AsInt(doc, "whiteBalanceTemperature"),
      AsInt(doc, "sharpness"),
      AsInt(doc, "backlightCompensation"),
      AsInt(doc, "exposureAuto"),
      AsInt(doc, "exposureTimeAbsolute"))
  }

  // What the reader finds under each member name of ToJson's result, in
  // small groups so that each proof stays small.
  lemma PictureMembersRead(c: CameraControls)
    ensures var doc := ToJson(c);
      AsInt(doc, "brightness") == c.brightness
      && AsInt(doc, "contrast") == c.contrast
  {
  }

  lemma ColourMembersRead(c: CameraControls)
    ensures var doc := ToJson(c);
      AsInt(doc, "saturation") == c.saturation
      && AsInt(doc, "hue") == c.hue
  {
  }

  lemma WhiteBalanceMembersRead(c: CameraControls)
    ensures var doc := ToJson(c);
      AsInt(doc, "autoWhiteBalance") == c.autoWhiteBalance
      && AsInt(doc, "whiteBalanceTemperature") == c.whiteBalanceTemperature
  {
  }

  lemma GainMembersRead(c: CameraControls)
    ensures var doc := ToJson(c);
      AsInt(doc, "gamma") == c.gamma
      && AsInt(doc, "gain") == c.gain
  {
  }

  lemma LightMembersRead(c: CameraControls)
    ensures var doc := ToJson(c);
      AsInt(doc, "powerLineFrequency") == c.powerLineFrequency
      && AsInt(doc, "backlightCompensation") == c.backlightCompensation
  {
  }

  lemma SharpnessMembersRead(c: CameraControls)
    ensures var doc := ToJson(c);
      AsInt(doc, "sharpness") == c.sharpness
  {
  }

  lemma ExposureMembersRead(c: CameraControls)
    ensures var doc := ToJson(c);
      AsInt(doc, "exposureAuto") == c.exposureAuto
      && AsInt(doc, "exposureTimeAbsolute") == c.exposureTimeAbsolute
  {
  }

  /** Reading what was written restores every field: the writer and the
      reader use the same thirteen member names. */
  lemma ConfigRoundTrip(c: CameraControls)
    ensures FromJson(ToJson(c)) == c
  {
    PictureMembersRead(c);
    ColourMembersRead(c);
    WhiteBalanceMembersRead(c);
    GainMembersRead(c);
    LightMembersRead(c);
    SharpnessMembersRead(c);
    ExposureMembersRead(c);
  }

  /** The reader looks at no member outside the thirteen the writer
      produces: two documents that agree on those read the same. */
  lemma FromJsonReadsOnlyConfigKeys(d1: Json, d2: Json)
    requires forall k :: k in ConfigKeys ==> AsInt(d1, k) == AsInt(d2, k)
    ensures FromJson(d1) == FromJson(d2)
  {
    assert forall i :: 0 <= i < |ConfigKeys| ==> AsInt(d1, ConfigKeys[i]) == AsInt(d2, ConfigKeys[i]);
  }

  /** A member the document lacks reads as 0, whatever the field's
      initialiser: jsoncpp's `asInt` of a null value. */
  lemma MissingMembersReadZero(doc: Json)
    ensures forall k :: k in ConfigKeys && k !in doc ==> ConfigValue(FromJson(doc), k) == 0
  {
  }

  /** An existing file without members loads as all zeros, not as the
      member initialisers of the record. */
  lemma EmptyDocumentIsNotDefaults()
    ensures FromJson(map[]) == CameraControls(0, 0, 0, 0, 0, 0, 0, 0, 0, 0, 0, 0, 0)
    ensures FromJson(map[]) != Defaults
  {
  }

  /** The files the configuration code can see. */
  datatype FileStore = FileStore(files: map<string, Json>, unreadable: set<string>, unwritable: set<string>)

  /** The outcome of writing a file, and the file system after it. */
  datatype Written = Written(ok: bool, store: FileStore)

  /** create_cam_config_file: write the record as a JSON object, creating
      or truncating the file. Fails, writing nothing, when the file cannot
      be opened for writing. */
  function CreateCamConfigFile(fs: FileStore, filename: string, controls: CameraControls): (w: Written)
    ensures w.ok <==> filename !in fs.unwritable
    ensures !w.ok ==> w.store == fs
    ensures w.ok ==> filename in w.store.files && FromJson(w.store.files[filename]) == controls
    ensures w.ok ==> w.store.files.Keys == fs.files.Keys + {filename}
    ensures forall other :: other in fs.files && other != filename ==>
      other in w.store.files && w.store.files[other] == fs.files[other]
    ensures w.store.unreadable == fs.unreadable && w.store.unwritable == fs.unwritable
  {
    ConfigRoundTrip(controls);
    if filename in fs.unwritable then
      Written(false, fs)
    else
      Written(true, fs.(files := fs.files[filename := ToJson(controls)]))
  }

  /** read_cam_config_file: when the file opens, assign every field from
      its members and report success; otherwise report failure and leave
      the record as it was. */
  method ReadCamConfigFile(fs: FileStore, filename: string, controls: CameraControls)
    returns (ok: bool, result: CameraControls)
    ensures ok <==> filename in fs.files && filename !in fs.unreadable
    ensures !ok ==> result == controls
    ensures ok ==> result == FromJson(fs.files[filename])
  {
    if filename !in fs.files || filename in fs.unreadable {
      return false, controls;
    }
    var configJson := fs.files[filename];
    result := controls;
    result := result.(brightness := AsInt(configJson, "brightness"));
    result := result.(contrast := AsInt(configJson, "contrast"));
    result := result.(saturation := AsInt(configJson, "saturation"));
    result := result.(hue := AsInt(configJson, "hue"));
    result := result.(autoWhiteBalance := AsInt(configJson, "autoWhiteBalance"));
    result := result.(gamma := AsInt(configJson, "gamma"));
    result := result.(gain := AsInt(configJson, "gain"));
    result := result.(powerLineFrequency := AsInt(configJson, "powerLineFrequency"));
    result := result.(whiteBalanceTemperature := AsInt(configJson, "whiteBalanceTemperature"));
    result := result.(sharpness := AsInt(configJson, "sharpness"));
    result := result.(backlightCompensation := AsInt(configJson, "backlightCompensation"));
    result := result.(exposureAuto := AsInt(configJson, "exposureAuto"));
    result := result.(exposureTimeAbsolute := AsInt(configJson, "exposureTimeAbsolute"));
    ok := true;
  }

  /** load_cam_config: read the file when it exists, otherwise create it
      from the record passed in (which is then left unchanged). */
  method LoadCamConfig(fs: FileStore, filename: string, controls: CameraControls)
    returns (ok: bool, store: FileStore, result: CameraControls)
    ensures filename in fs.files ==>
      store == fs
      && (ok <==> filename !in fs.unreadable)
      && result == (if ok then FromJson(fs.files[filename]) else controls)
    ensures filename !in fs.files ==>
      result == controls && Written(ok, store) == CreateCamConfigFile(fs, filename, controls)
  {
    if filename in fs.files {
      store := fs;
      ok, result := ReadCamConfigFile(fs, filename, controls);
    } else {
      var w := CreateCamConfigFile(fs, filename, controls);
      ok, store, result := w.ok, w.store, controls;
    }
  }

  /** Loading a missing configuration twice: the first load creates the
      file from the record given, and the second, whatever record it is
      handed, reads back exactly that record, unless the file was not
      created or cannot be opened for reading. */
  method LoadTwice(fs: FileStore, filename: string, first: CameraControls, second: CameraControls)
    returns (created: bool, reread: bool, loaded: CameraControls)
    requires filename !in fs.files
    ensures created <==> filename !in fs.unwritable
    ensures created && filename !in fs.unreadable ==> reread && loaded == first
    ensures !created || filename in fs.unreadable ==> !reread && loaded == second
  {
    var store, firstResult;
    created, store, firstResult := LoadCamConfig(fs, filename, first);
    var again;
    reread, again, loaded := LoadCamConfig(store, filename, second);
  }

  /** What a call does to the device's control values: only VIDIOC_S_CTRL
      writes one; every other call, VIDIOC_G_CTRL included, leaves them. */
  function ControlEffect(values: map<bv32, int>, call: Request): map<bv32, int> {
    if call.SetControl? then values[call.id := call.value] else values
  }

  /** The control values after a sequence of calls, issued in order. */
  function Replay(values: map<bv32, int>, calls: seq<Request>): map<bv32, int>
    decreases |calls|
  {
    if calls == [] then values else Replay(ControlEffect(values, calls[0]), calls[1..])
  }

  /** A sequence of calls none of which is VIDIOC_S_CTRL changes no control. */
  lemma {:induction false} ReplayWithoutWrites(values: map<bv32, int>, calls: seq<Request>)
    requires forall call :: call in calls ==> !call.SetControl?
    ensures Replay(values, calls) == values
    decreases |calls|
  {
    if calls != [] {
      assert calls[0] in calls;
      assert forall call :: call in calls[1..] ==> call in calls;
      ReplayWithoutWrites(values, calls[1..]);
    }
  }

  /** set_camera_control: issues VIDIOC_G_CTRL, which reads the control,
      so the device's value is never changed. The outcome only decides
      which message is printed, so nothing is returned. */
  method SetCameraControl(g: Cam.ImageGetter, id: bv32, value: int)
    modifies g`Log
    ensures g.Log == old(g.Log) + [GetControl(id, value)]
    ensures g.controlValues == ControlEffect(old(g.controlValues), GetControl(id, value)) == old(g.controlValues)
  {
    g.Log := g.Log + [GetControl(id, value)];
  }

  /** The control ids set_camera_controls sends, in its order. */
  const BatchIds: seq<bv32> := [
    CID_BRIGHTNESS, CID_CONTRAST, CID_SATURATION, CID_HUE, CID_AUTO_WHITE_BALANCE,
    CID_GAMMA, CID_GAIN, CID_POWER_LINE_FREQUENCY, CID_WHITE_BALANCE_TEMPERATURE,
    CID_SHARPNESS, CID_BACKLIGHT_COMPENSATION, CID_EXPOSURE_AUTO
  ]

  /** The calls set_camera_controls issues for a record, in order: twelve
      VIDIOC_G_CTRL calls with the ids of BatchIds in that order, each
      carrying the field of the configuration member in the same place of
      ConfigKeys. */
  function ControlBatch(c: CameraControls): (batch: seq<Request>)
    ensures |batch| == |BatchIds| == 12
    ensures forall i {:trigger BatchIds[i]} :: 0 <= i < |batch| ==> batch[i].GetControl? && batch[i].id == BatchIds[i]
    ensures forall i {:trigger ConfigKeys[i]} :: 0 <= i < |batch| ==> batch[i].GetControl? && batch[i].value == ConfigValue(c, ConfigKeys[i])
  {
    [
      GetControl(CID_BRIGHTNESS, c.brightness),
      GetControl(CID_CONTRAST, c.contrast),
      GetControl(CID_SATURATION, c.saturation),
      GetControl(CID_HUE, c.hue),
      GetControl(CID_AUTO_WHITE_BALANCE, c.autoWhiteBalance),
      GetControl(CID_GAMMA, c.gamma),
      GetControl(CID_GAIN, c.gain),
      GetControl(CID_POWER_LINE_FREQUENCY, c.powerLineFrequency),
      GetControl(CID_WHITE_BALANCE_TEMPERATURE, c.whiteBalanceTemperature),
      GetControl(CID_SHARPNESS, c.sharpness),
      GetControl(CID_BACKLIGHT_COMPENSATION, c.backlightCompensation),
      GetControl(CID_EXPOSURE_AUTO, c.exposureAuto)
    ]
  }

  /** Replaying the whole batch on any control values leaves them as they
      were: the batch only reads controls. */
  lemma BatchWritesNoControl(values: map<bv32, int>, c: CameraControls)
    ensures Replay(values, ControlBatch(c)) == values
  {
    var batch := ControlBatch(c);
    forall call | call in batch
      ensures !call.SetControl?
    {
      var i :| 0 <= i < |batch| && batch[i] == call;
    }
    ReplayWithoutWrites(values, batch);
  }

  /** The absolute exposure time is never sent: no call of the batch names
      its id, and the batch does not depend on its value. */
  lemma ExposureTimeNeverSent(c: CameraControls, t: int)
    ensures forall q :: q in ControlBatch(c) ==> q.id != CID_EXPOSURE_ABSOLUTE
    ensures ControlBatch(c.(exposureTimeAbsolute := t)) == ControlBatch(c)
  {
  }

  /** set_camera_controls: one call per control, in the fixed order; a
      failed call does not stop the ones after it. */
  method SetCameraControls(g: Cam.ImageGetter, controls: CameraControls)
    modifies g`Log
    ensures g.Log == old(g.Log) + ControlBatch(controls)
    ensures g.controlValues == old(g.controlValues)
  {
    SetCameraControl(g, CID_BRIGHTNESS, controls.brightness);
    SetCameraControl(g, CID_CONTRAST, controls.contrast);
    SetCameraControl(g, CID_SATURATION, controls.saturation);
    SetCameraControl(g, CID_HUE, controls.hue);
    SetCameraControl(g, CID_AUTO_WHITE_BALANCE, controls.autoWhiteBalance);
    SetCameraControl(g, CID_GAMMA, controls.gamma);
    SetCameraControl(g, CID_GAIN, controls.gain);
    SetCameraControl(g, CID_POWER_LINE_FREQUENCY, controls.powerLineFrequency);
    SetCameraControl(g, CID_WHITE_BALANCE_TEMPERATURE, controls.whiteBalanceTemperature);
    SetCameraControl(g, CID_SHARPNESS, controls.sharpness);
    SetCameraControl(g, CID_BACKLIGHT_COMPENSATION, controls.backlightCompensation);
    SetCameraControl(g, CID_EXPOSURE_AUTO, controls.exposureAuto);
  }

  /** The decision of is_control_supported over VIDIOC_QUERYCTRL's reply
      (the control's flags on success): supported exactly when the query
      succeeded and the DISABLED bit, bit 0, is clear (the flags are even). */
  function ControlSupported(reply: Reply<bv32>): (supported: bool)
    ensures supported <==> reply.Succeeded? && reply.value % 2 == 0
  {
    match reply
    case Failed => false
    case Succeeded(flags) => flags & CTRL_FLAG_DISABLED == 0
  }

  /** is_control_supported: one VIDIOC_QUERYCTRL for the id, then the decision. */
  method IsControlSupported(g: Cam.ImageGetter, id: bv32, reply: Reply<bv32>) returns (supported: bool)
    modifies g`Log
    ensures g.Log == old(g.Log) + [QueryControl(id)]
    ensures supported == ControlSupported(reply)
  {
    g.Log := g.Log + [QueryControl(id)];
    if reply.Failed? {
      return false;
    }
    if reply.value & CTRL_FLAG_DISABLED != 0 {
      return false;
    }
    return true;
  }

  /** The ids check_camera_capabilities queries, in its order. */
  const CapabilityIds: seq<bv32> := [
    CID_BRIGHTNESS, CID_CONTRAST, CID_SATURATION, CID_HUE, CID_AUTO_WHITE_BALANCE,
    CID_DO_WHITE_BALANCE, CID_GAMMA, CID_GAIN, CID_POWER_LINE_FREQUENCY,
    CID_WHITE_BALANCE_TEMPERATURE, CID_SHARPNESS, CID_BACKLIGHT_COMPENSATION, CID_EXPOSURE_AUTO
  ]

  /** One VIDIOC_QUERYCTRL per id, in order. */
  function QueryRequests(ids: seq<bv32>): seq<Request> {
    seq(|ids|, i requires 0 <= i < |ids| => QueryControl(ids[i]))
  }

  /** Querying two lists of ids one after the other issues the queries of
      the first, then those of the second. */
  lemma QueryRequestsSplit(a: seq<bv32>, b: seq<bv32>)
    ensures QueryRequests(a + b) == QueryRequests(a) + QueryRequests(b)
  {
  }

  /** The loop of check_camera_capabilities: is_control_supported for each
      id in order, collecting the verdicts it prints. */
  method QueryControls(g: Cam.ImageGetter, ids: seq<bv32>, replies: bv32 -> Reply<bv32>)
    returns (report: seq<bool>)
    modifies g`Log
    ensures g.Log == old(g.Log) + QueryRequests(ids)
    ensures |report| == |ids|
    ensures forall i :: 0 <= i < |ids| ==> report[i] == ControlSupported(replies(ids[i]))
  {
    report := [];
    for i := 0 to |ids|
      invariant g.Log == old(g.Log) + QueryRequests(ids[..i])
      invariant |report| == i
      invariant forall k :: 0 <= k < i ==> report[k] == ControlSupported(replies(ids[k]))
    {
      var supported := IsControlSupported(g, ids[i], replies(ids[i]));
      assert ids[..i + 1] == ids[..i] + [ids[i]];
      QueryRequestsSplit(ids[..i], [ids[i]]);
      report := report + [supported];
    }
    assert ids[..|ids|] == ids;
  }

  /** check_camera_capabilities: open the device again into `g.fd`
      (dropping whatever descriptor it held), and, if that worked, query
      every id of CapabilityIds in order and close the new descriptor.
      The per-id verdicts it prints are returned as `report`. */
  method CheckCameraCapabilities(g: Cam.ImageGetter, device: string, openReply: Reply<nat>,
                                 replies: bv32 -> Reply<bv32>)
    returns (report: seq<bool>)
    requires g.Valid()
    modifies g`fd, g`fdOpen, g`openDescriptors, g`Log
    ensures g.Valid()
    ensures g.fd == if openReply.Succeeded? then openReply.value else -1
    ensures !g.fdOpen && g.openDescriptors == old(g.openDescriptors)
    ensures openReply.Failed? ==> g.Log == old(g.Log) + [Open(device)] && report == []
    ensures openReply.Succeeded? ==>
      g.Log == old(g.Log) + [Open(device)] + QueryRequests(CapabilityIds) + [Close]
    ensures openReply.Succeeded? ==>
      |report| == |CapabilityIds|
      && forall i :: 0 <= i < |report| ==> report[i] == ControlSupported(replies(CapabilityIds[i]))
  {
    g.Log := g.Log + [Open(device)];
    if openReply.Failed? {
      g.fd, g.fdOpen := -1, false;
      return [];
    }
    g.fd, g.fdOpen, g.openDescriptors := openReply.value, true, g.openDescriptors + 1;

    report := QueryControls(g, CapabilityIds, replies);

    g.Log := g.Log + [Close];
    g.fdOpen, g.openDescriptors := false, g.openDescriptors - 1;
  }
}
