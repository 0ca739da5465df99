/**
 * Request logic of the device tracker's HTTP endpoints (devicetracker_httpd.cc).
 *
 * Everything the endpoints call but do not define is a parameter: URL tokenising,
 * suffix handling, the serialiser lookup, key and MAC parsing (each with an error
 * flag), integer scanning, child-path lookup and the regex worker are fields of
 * `Collaborators`; the device table is a value. Responses are described rather than
 * written: the status code, what would be handed to the serialiser, and the device
 * mutation requested, if any.
 */
module DeviceTrackerHttpd {
  import opened Wrappers

  /** A device key (device_key); only its identity matters here. */
  type DeviceKey = nat

  /** A MAC address (mac_addr); only its identity matters here. */
  type Mac = nat

  /** The parts of a tracked device the endpoints look at. */
  datatype Device = Device(key: DeviceKey, mac: Mac, lastTime: int)

  /** A parsed key or MAC: parsing never fails outright, it sets an error flag. */
  datatype ParsedKey = ParsedKey(key: DeviceKey, error: bool)
  datatype ParsedMac = ParsedMac(mac: Mac, error: bool)

  /** A value of the structured (JSON) command dictionary of a POST. */
  datatype Value =
    | Str(str: string)
    | Num(num: int)
    | Arr(items: seq<Value>)
    | Dict(entries: map<string, Value>)
    | Other

  /** The functions the endpoints call whose definitions are not part of this model. */
  datatype Collaborators = Collaborators(
    tokenize: string -> seq<string>,                      // str_tokenize(path, "/")
    stripSuffix: string -> string,                        // httpd_strip_suffix
    getSuffix: string -> string,                          // httpd->get_suffix
    canSerialize: string -> bool,                         // httpd_can_serialize
    parseKey: string -> ParsedKey,                        // device_key(string)
    parseMac: string -> ParsedMac,                        // mac_addr(string)
    scanLong: string -> Option<int>,                      // sscanf(s, "%ld", ...) == 1
    hasChildPath: (Device, seq<string>) -> bool,          // get_child_path(path) != NULL
    regexFilter: (Value, seq<Device>) -> seq<Device>)     // devicetracker_pcre_worker

  /**
   * The device table: the key map, the devices in the order a worker visits them,
   * and the MAC multimap in its iteration order.
   */
  datatype DeviceTable = DeviceTable(
    byKey: map<DeviceKey, Device>,
    devices: seq<Device>,
    macMap: seq<(Mac, Device)>)

  /** One entry of a `fields` projection list: a field path and an optional new name. */
  datatype FieldSpec = FieldSpec(path: string, rename: Option<string>)

  /** A device summarised by a projection list (SummarizeSingletracker_element, not modelled). */
  datatype Summary = Summary(device: Device, fields: seq<FieldSpec>)

  /** What is handed to the serialiser. */
  datatype Payload =
    | EkjsonLines(devices: seq<Device>)
    | Element(device: Device)
    | ChildElement(device: Device, path: seq<string>)
    | DeviceVector(devices: seq<Device>)
    | SummaryElement(summary: Summary)
    | SummaryVector(summaries: seq<Summary>)

  /** The body of a response: nothing, a short error message, serialised data, or "OK". */
  datatype Body = NoBody | ErrorText | Serialized(format: string, payload: Payload) | Acknowledged

  /** A change to a device requested through the endpoints. */
  datatype Mutation =
    | SetUserName(device: Device, name: string)
    | SetTag(device: Device, tag: string, content: string)

  datatype Response = Response(code: nat, body: Body, mutation: Option<Mutation>)

  /** The status a connection keeps unless a handler sets another. */
  const HTTP_OK: nat := 200
  const HTTP_BAD_REQUEST: nat := 400
  const HTTP_SERVER_ERROR: nat := 500

  const ALL_DEVICES_EKJSON: string := "/devices/all_devices.ekjson"

  function FetchDevice(table: DeviceTable, key: DeviceKey): Option<Device>
  {
    if key in table.byKey then Some(table.byKey[key]) else None
  }

  /* ---------------------------------------------------------------- MAC multimap */

  /** The devices the multimap holds under `mac`, in iteration order (equal_range). */
  function EqualRange(mm: seq<(Mac, Device)>, mac: Mac): seq<Device>
  {
    if mm == [] then []
    else
      var n := |mm| - 1;
      EqualRange(mm[..n], mac) + (if mm[n].0 == mac then [mm[n].1] else [])
  }

  /** The number of multimap entries under `mac` (multimap::count). */
  function MacCount(mm: seq<(Mac, Device)>, mac: Mac): nat
  {
    if mm == [] then 0
    else
      var n := |mm| - 1;
      MacCount(mm[..n], mac) + (if mm[n].0 == mac then 1 else 0)
  }

  /** A by-MAC lookup returns as many devices as the multimap counts under that MAC. */
  lemma {:induction false} EqualRangeSize(mm: seq<(Mac, Device)>, mac: Mac)
    ensures |EqualRange(mm, mac)| == MacCount(mm, mac)
  {
    if mm != [] {
      EqualRangeSize(mm[..|mm| - 1], mac);
    }
  }

  /** A device is in the lookup for `mac` iff the multimap pairs it with `mac`. */
  lemma {:induction false} EqualRangeMembers(mm: seq<(Mac, Device)>, mac: Mac, d: Device)
    ensures d in EqualRange(mm, mac) <==> (mac, d) in mm
  {
    if mm != [] {
      var n := |mm| - 1;
      assert mm == mm[..n] + [mm[n]];
      EqualRangeMembers(mm[..n], mac, d);
    }
  }

  /** Collect the devices of equal_range(mac), one push_back per entry. */
  method CollectByMac(mm: seq<(Mac, Device)>, mac: Mac) returns (devs: seq<Device>)
    ensures devs == EqualRange(mm, mac)
  {
    devs := [];
    var i := 0;
    while i < |mm|
      invariant 0 <= i <= |mm|
      invariant devs == EqualRange(mm[..i], mac)
    {
      assert mm[..i + 1][..i] == mm[..i];
      if mm[i].0 == mac {
        devs := devs + [mm[i].1];
      }
      i := i + 1;
    }
    assert mm[..|mm|] == mm;
  }

  /* ---------------------------------------------------------------- last-time filter */

  /** The timestamp of a last-time query: a negative value counts back from `now`. */
  function Threshold(lastts: int, now: int): int
  {
    if lastts < 0 then now + lastts else lastts
  }

  /** The worker predicate of a last-time query: seen strictly after the threshold. */
  predicate SeenAfter(d: Device, threshold: int)
  {
    d.lastTime > threshold
  }

  /** The devices a last-time worker matches, in the order it visits them. */
  function DevicesSeenAfter(devs: seq<Device>, threshold: int): seq<Device>
  {
    if devs == [] then []
    else
      var n := |devs| - 1;
      DevicesSeenAfter(devs[..n], threshold) + (if SeenAfter(devs[n], threshold) then [devs[n]] else [])
  }

  /** A last-time query lists a device iff it is in the table and was seen strictly after the threshold. */
  lemma {:induction false} DevicesSeenAfterMembers(devs: seq<Device>, threshold: int, d: Device)
    ensures |DevicesSeenAfter(devs, threshold)| <= |devs|
    ensures d in DevicesSeenAfter(devs, threshold) <==> d in devs && SeenAfter(d, threshold)
  {
    if devs != [] {
      var n := |devs| - 1;
      assert devs == devs[..n] + [devs[n]];
      DevicesSeenAfterMembers(devs[..n], threshold, d);
    }
  }

  /** The filter keeps visiting order: filtering a concatenation filters each part in turn. */
  lemma {:induction false} DevicesSeenAfterAppend(a: seq<Device>, b: seq<Device>, threshold: int)
    ensures DevicesSeenAfter(a + b, threshold) == DevicesSeenAfter(a, threshold) + DevicesSeenAfter(b, threshold)
  {
    if b == [] {
      assert a + b == a;
    } else {
      var n := |b| - 1;
      assert (a + b)[..|a| + n] == a + b[..n];
      assert (a + b)[|a| + n] == b[n];
      DevicesSeenAfterAppend(a, b[..n], threshold);
    }
  }

  /**
   * A negative timestamp -s selects the devices seen during the last s seconds before
   * `now`; a non-negative one is an absolute time.
   */
  lemma ThresholdMeaning(lastts: int, now: int, d: Device)
    ensures lastts < 0 ==> (SeenAfter(d, Threshold(lastts, now)) <==> now - d.lastTime < -lastts)
    ensures lastts >= 0 ==> (SeenAfter(d, Threshold(lastts, now)) <==> d.lastTime > lastts)
  {
  }

  /* ---------------------------------------------------------------- fields list */

  /** How one `fields` entry is read: selected, rejected, or skipped. */
  datatype FieldEntry = Select(spec: FieldSpec) | Malformed | Ignored

  /**
   * A string selects that field; an array must be exactly [field, rename] of strings;
   * any other value is skipped.
   */
  function ClassifyField(v: Value): FieldEntry
  {
    match v
    case Str(s) => Select(FieldSpec(s, None))
    case Arr(xs) =>
      if exists x :: x in xs && !x.Str? then Malformed
      else if |xs| != 2 then Malformed
      else Select(FieldSpec(xs[0].str, Some(xs[1].str)))
    case _ => Ignored
  }

  /** The projection list a `fields` array yields, or None when the request is rejected. */
  function FieldsSpec(items: seq<Value>): Option<seq<FieldSpec>>
  {
    if items == [] then Some([])
    else
      var n := |items| - 1;
      match FieldsSpec(items[..n])
      case None => None
      case Some(prev) =>
        match ClassifyField(items[n])
        case Malformed => None
        case Ignored => Some(prev)
        case Select(f) => Some(prev + [f])
  }

  /** The fields list is rejected iff one of its entries is malformed. */
  lemma {:induction false} FieldsSpecRejects(items: seq<Value>)
    ensures FieldsSpec(items).None? <==> exists i :: 0 <= i < |items| && ClassifyField(items[i]).Malformed?
  {
    if items != [] {
      var n := |items| - 1;
      FieldsSpecRejects(items[..n]);
      assert forall i :: 0 <= i < n ==> items[..n][i] == items[i];
    }
  }

  /** In particular an array entry whose length is not 2 rejects the whole list. */
  lemma BadRenamePairRejects(items: seq<Value>, i: nat)
    requires i < |items| && items[i].Arr? && |items[i].items| != 2
    ensures FieldsSpec(items) == None
  {
    FieldsSpecRejects(items);
  }

  /** Read the `fields` array entry by entry, appending one projection per selected entry. */
  method ParseFields(items: seq<Value>) returns (r: Option<seq<FieldSpec>>)
    ensures r == FieldsSpec(items)
  {
    var summaryVec: seq<FieldSpec> := [];
    var i := 0;
    while i < |items|
      invariant 0 <= i <= |items|
      invariant FieldsSpec(items[..i]) == Some(summaryVec)
    {
      assert items[..i + 1][..i] == items[..i];
      match items[i] {
        case Str(s) =>
          summaryVec := summaryVec + [FieldSpec(s, None)];
        case Arr(xs) =>
          if exists x :: x in xs && !x.Str? {
            FieldsSpecRejects(items[..i + 1]);
            FieldsSpecRejects(items);
            return None;
          }
          if |xs| != 2 {
            FieldsSpecRejects(items[..i + 1]);
            FieldsSpecRejects(items);
            return None;
          }
          summaryVec := summaryVec + [FieldSpec(xs[0].str, Some(xs[1].str))];
        case _ =>
      }
      i := i + 1;
    }
    assert items[..|items|] == items;
    r := Some(summaryVec);
  }

  /** One summary per device, in the order of the devices (the summarising loop). */
  function Summaries(devs: seq<Device>, fields: seq<FieldSpec>): seq<Summary>
  {
    seq(|devs|, i requires 0 <= i < |devs| => Summary(devs[i], fields))
  }

  method SummarizeDevices(devs: seq<Device>, fields: seq<FieldSpec>) returns (out: seq<Summary>)
    ensures out == Summaries(devs, fields)
    ensures |out| == |devs| && forall i :: 0 <= i < |devs| ==> out[i].device == devs[i]
  {
    out := [];
    var i := 0;
    while i < |devs|
      invariant 0 <= i <= |devs|
      invariant out == Summaries(devs[..i], fields)
    {
      out := out + [Summary(devs[i], fields)];
      i := i + 1;
    }
    assert devs[..|devs|] == devs;
  }

  /* ---------------------------------------------------------------- batch MAC query */

  /** The MACs of a `devices` list, or None when an entry is not a string or does not parse. */
  function ParseMacList(env: Collaborators, items: seq<Value>): Option<seq<Mac>>
  {
    if items == [] then Some([])
    else
      var n := |items| - 1;
      match ParseMacList(env, items[..n])
      case None => None
      case Some(prev) =>
        if items[n].Str? && !env.parseMac(items[n].str).error
        then Some(prev + [env.parseMac(items[n].str).mac])
        else None
  }

  /** The MACs a batch request asks for, or None when the request is rejected. */
  function RequestedMacs(env: Collaborators, command: map<string, Value>): Option<seq<Mac>>
  {
    if "devices" !in command then None
    else match command["devices"]
      case Arr(items) => ParseMacList(env, items)
      case _ => None
  }

  /** A `devices` list is accepted iff every entry is a string holding a valid MAC. */
  lemma {:induction false} ParseMacListRejects(env: Collaborators, items: seq<Value>)
    ensures ParseMacList(env, items).None? <==>
      exists i :: 0 <= i < |items| && (!items[i].Str? || env.parseMac(items[i].str).error)
    ensures ParseMacList(env, items).Some? ==> |ParseMacList(env, items).value| == |items|
  {
    if items != [] {
      var n := |items| - 1;
      ParseMacListRejects(env, items[..n]);
      assert forall i :: 0 <= i < n ==> items[..n][i] == items[i];
    }
  }

  /** The devices of every listed MAC, grouped by MAC in the order the MACs were listed. */
  function GroupByMacs(mm: seq<(Mac, Device)>, macs: seq<Mac>): seq<Device>
  {
    if macs == [] then []
    else
      var n := |macs| - 1;
      GroupByMacs(mm, macs[..n]) + EqualRange(mm, macs[n])
  }

  /** Listing MACs a then b returns a's devices first, then b's. */
  lemma {:induction false} GroupByMacsAppend(mm: seq<(Mac, Device)>, a: seq<Mac>, b: seq<Mac>)
    ensures GroupByMacs(mm, a + b) == GroupByMacs(mm, a) + GroupByMacs(mm, b)
  {
    if b == [] {
      assert a + b == a;
    } else {
      var n := |b| - 1;
      assert (a + b)[..|a| + n] == a + b[..n];
      assert (a + b)[|a| + n] == b[n];
      GroupByMacsAppend(mm, a, b[..n]);
    }
  }

  /** A device is returned iff the multimap pairs it with one of the listed MACs. */
  lemma {:induction false} GroupByMacsMembers(mm: seq<(Mac, Device)>, macs: seq<Mac>, d: Device)
    ensures d in GroupByMacs(mm, macs) <==> exists m :: m in macs && (m, d) in mm
  {
    if macs != [] {
      var n := |macs| - 1;
      assert macs == macs[..n] + [macs[n]];
      GroupByMacsMembers(mm, macs[..n], d);
      EqualRangeMembers(mm, macs[n], d);
    }
  }

  /**
   * The batch MAC endpoint: 500 and nothing collected when the `devices` key is missing
   * or any MAC is bad; otherwise 200 and the devices of each MAC in the order listed.
   * What is then summarised and serialised is not modelled.
   */
  method MultimacEndpHandler(env: Collaborators, table: DeviceTable, command: map<string, Value>)
    returns (code: nat, retDevices: seq<Device>)
    ensures code == HTTP_SERVER_ERROR <==> RequestedMacs(env, command).None?
    ensures code == HTTP_SERVER_ERROR ==> retDevices == []
    ensures code == HTTP_OK ==> retDevices == GroupByMacs(table.macMap, RequestedMacs(env, command).value)
    ensures code == HTTP_OK || code == HTTP_SERVER_ERROR
  {
    if "devices" !in command || !command["devices"].Arr? {
      return HTTP_SERVER_ERROR, [];
    }
    var maclist := command["devices"].items;
    var macs: seq<Mac> := [];
    var i := 0;
    while i < |maclist|
      invariant 0 <= i <= |maclist|
      invariant ParseMacList(env, maclist[..i]) == Some(macs)
    {
      assert maclist[..i + 1][..i] == maclist[..i];
      if !maclist[i].Str? || env.parseMac(maclist[i].str).error {
        ParseMacListRejects(env, maclist[..i + 1]);
        ParseMacListRejects(env, maclist);
        return HTTP_SERVER_ERROR, [];
      }
      macs := macs + [env.parseMac(maclist[i].str).mac];
      i := i + 1;
    }
    assert maclist[..|maclist|] == maclist;

    retDevices := [];
    var j := 0;
    while j < |macs|
      invariant 0 <= j <= |macs|
      invariant retDevices == GroupByMacs(table.macMap, macs[..j])
    {
      assert macs[..j + 1][..j] == macs[..j];
      var found := CollectByMac(table.macMap, macs[j]);
      retDevices := retDevices + found;
      j := j + 1;
    }
    assert macs[..|macs|] == macs;
    code := HTTP_OK;
  }

  /* ---------------------------------------------------------------- path verification */

  /** The path is /devices/<family>/...: at least three tokens, the second one "devices". */
  predicate InFamily(t: seq<string>, family: string)
  {
    |t| >= 3 && t[1] == "devices" && t[2] == family
  }

  /**
   * Whether the tracker claims a request (httpd_verify_path): only GET and POST requests
   * for well-formed /devices/ paths whose identifier parses, whose suffix can be
   * serialised and whose target exists are accepted.
   */
  function VerifyPath(env: Collaborators, table: DeviceTable, path: string, verb: string): (ok: bool)
    ensures verb != "GET" && verb != "POST" ==> !ok
    ensures verb == "GET" && path == ALL_DEVICES_EKJSON ==> ok
    ensures ok && !(verb == "GET" && path == ALL_DEVICES_EKJSON) ==>
      var t := env.tokenize(path);
      |t| >= 5 && t[1] == "devices" && t[2] in {"by-key", "by-mac", "last-time"}
    ensures verb == "GET" && path != ALL_DEVICES_EKJSON && InFamily(env.tokenize(path), "by-key") ==>
      var t := env.tokenize(path);
      (ok <==> (|t| >= 5 && !env.parseKey(t[3]).error && env.canSerialize(t[4])
                && env.parseKey(t[3]).key in table.byKey && env.stripSuffix(t[4]) == "device"
                && (|t| > 5 ==> env.hasChildPath(table.byKey[env.parseKey(t[3]).key], t[5..]))))
    ensures verb == "POST" && InFamily(env.tokenize(path), "by-key") ==>
      var t := env.tokenize(path);
      (ok <==> (|t| >= 5 && !env.parseKey(t[3]).error && env.canSerialize(t[4])
                && env.parseKey(t[3]).key in table.byKey
                && env.stripSuffix(t[4]) in {"device", "set_name", "set_tag"}))
    ensures (verb == "POST" || (verb == "GET" && path != ALL_DEVICES_EKJSON)) && InFamily(env.tokenize(path), "by-mac") ==>
      var t := env.tokenize(path);
      (ok <==> (|t| >= 5 && env.canSerialize(t[4]) && !env.parseMac(t[3]).error
                && MacCount(table.macMap, env.parseMac(t[3]).mac) > 0))
    ensures verb == "GET" && path != ALL_DEVICES_EKJSON && InFamily(env.tokenize(path), "last-time") ==>
      var t := env.tokenize(path);
      (ok <==> (|t| >= 5 && env.scanLong(t[3]).Some? && (t[4] == "devices.ekjson" || env.canSerialize(t[4]))))
    ensures verb == "POST" && InFamily(env.tokenize(path), "last-time") ==>
      var t := env.tokenize(path);
      (ok <==> (|t| >= 5 && env.scanLong(t[3]).Some? && env.canSerialize(t[4])))
  {
    if verb == "GET" then
      if path == ALL_DEVICES_EKJSON then true
      else
        var t := env.tokenize(path);
        if |t| < 2 then false
        else if t[1] != "devices" then false
        else if |t| < 3 then false
        else if t[2] == "by-key" then
          if |t| < 5 then false
          else
            var key := env.parseKey(t[3]);
            if key.error then false
            else if !env.canSerialize(t[4]) then false
            else match FetchDevice(table, key.key)
              case None => false
              case Some(dev) =>
                if env.stripSuffix(t[4]) == "device" then
                  if |t| > 5 then env.hasChildPath(dev, t[5..]) else true
                else false
        else if t[2] == "by-mac" then VerifyByMac(env, table, t)
        else if t[2] == "last-time" then
          if |t| < 5 then false
          else if env.scanLong(t[3]).None? then false
          else if t[4] == "devices.ekjson" then true
          else env.canSerialize(t[4])
        else false
    else if verb == "POST" then
      var t := env.tokenize(path);
      if |t| < 2 then false
      else if t[1] != "devices" then false
      else if |t| < 4 then false
      else if t[2] == "last-time" then
        if |t| < 5 then false
        else if env.scanLong(t[3]).None? then false
        else env.canSerialize(t[4])
      else if t[2] == "by-key" then
        if |t| < 5 then false
        else
          var key := env.parseKey(t[3]);
          if key.error then false
          else if !env.canSerialize(t[4]) then false
          else if FetchDevice(table, key.key).None? then false
          else
            var target := env.stripSuffix(t[4]);
            target == "device" || target == "set_name" || target == "set_tag"
      else if t[2] == "by-mac" then VerifyByMac(env, table, t)
      else false
    else false
  }

  /** The by-MAC branch shared by GET and POST verification. */
  function VerifyByMac(env: Collaborators, table: DeviceTable, t: seq<string>): bool
  {
    if |t| < 5 then false
    else if !env.canSerialize(t[4]) then false
    else
      var mac := env.parseMac(t[3]);
      if mac.error then false
      else MacCount(table.macMap, mac.mac) > 0
  }

  /* ---------------------------------------------------------------- GET responses */

  /**
   * The response to a GET (httpd_create_stream_response). Other methods get nothing;
   * only failures on a by-key path set an error status.
   */
  function CreateStreamResponse(env: Collaborators, table: DeviceTable, path: string, verb: string, now: int)
    : (r: Response)
    ensures r.mutation == None
    ensures r.code == HTTP_OK || r.code == HTTP_SERVER_ERROR
    ensures r.body.Serialized? ==> r.code == HTTP_OK
    ensures r.code == HTTP_SERVER_ERROR ==>
      verb == "GET" && path != ALL_DEVICES_EKJSON && InFamily(env.tokenize(path), "by-key")
    ensures verb != "GET" ==> r.body == NoBody
    ensures verb == "GET" && path == ALL_DEVICES_EKJSON ==> r.body == Serialized("ekjson", EkjsonLines(table.devices))
  {
    if verb != "GET" then Response(HTTP_OK, NoBody, None)
    else if path == ALL_DEVICES_EKJSON then
      Response(HTTP_OK, Serialized("ekjson", EkjsonLines(table.devices)), None)
    else
      var t := env.tokenize(path);
      if |t| < 2 then Response(HTTP_OK, NoBody, None)
      else if t[1] != "devices" then Response(HTTP_OK, NoBody, None)
      else if |t| < 5 then Response(HTTP_OK, NoBody, None)
      else if t[2] == "by-key" then StreamByKey(env, table, t)
      else if t[2] == "by-mac" then
        if !env.canSerialize(t[4]) then Response(HTTP_OK, NoBody, None)
        else
          var mac := env.parseMac(t[3]);
          if mac.error then Response(HTTP_OK, NoBody, None)
          else Response(HTTP_OK, Serialized(env.getSuffix(t[4]), DeviceVector(EqualRange(table.macMap, mac.mac))), None)
      else if t[2] == "last-time" then
        match env.scanLong(t[3])
        case None => Response(HTTP_OK, NoBody, None)
        case Some(lastts) =>
          var threshold := Threshold(lastts, now);
          if !env.canSerialize(t[4]) then Response(HTTP_OK, NoBody, None)
          else Response(HTTP_OK, Serialized(env.getSuffix(t[4]), DeviceVector(DevicesSeenAfter(table.devices, threshold))), None)
      else Response(HTTP_OK, NoBody, None)
  }

  /** The by-key branch of a GET. The key's error flag is not consulted here. */
  function StreamByKey(env: Collaborators, table: DeviceTable, t: seq<string>): Response
    requires |t| >= 5
  {
    if !env.canSerialize(t[4]) then Response(HTTP_SERVER_ERROR, NoBody, None)
    else match FetchDevice(table, env.parseKey(t[3]).key)
      case None => Response(HTTP_SERVER_ERROR, ErrorText, None)
      case Some(dev) =>
        if env.stripSuffix(t[4]) == "device" then
          if |t| > 5 then
            if !env.hasChildPath(dev, t[5..]) then Response(HTTP_SERVER_ERROR, ErrorText, None)
            else Response(HTTP_OK, Serialized(env.getSuffix(t[4]), ChildElement(dev, t[5..])), None)
          else Response(HTTP_OK, Serialized(env.getSuffix(t[4]), Element(dev)), None)
        else Response(HTTP_SERVER_ERROR, ErrorText, None)
  }

  /** A GET by-key request naming no device is refused with 500 and nothing is serialised. */
  lemma StreamByKeyMissingDevice(env: Collaborators, table: DeviceTable, path: string, now: int)
    requires path != ALL_DEVICES_EKJSON
    requires var t := env.tokenize(path);
      |t| >= 5 && InFamily(t, "by-key") && env.canSerialize(t[4]) && env.parseKey(t[3]).key !in table.byKey
    ensures CreateStreamResponse(env, table, path, "GET", now) == Response(HTTP_SERVER_ERROR, ErrorText, None)
  {
  }

  /**
   * A GET by-key request for the `device` target of an existing device serialises that
   * device, or the sub-element a child path names; an unknown child path or any other
   * target answers 500.
   */
  lemma StreamByKeyDevice(env: Collaborators, table: DeviceTable, path: string, now: int, dev: Device)
    requires path != ALL_DEVICES_EKJSON
    requires var t := env.tokenize(path);
      |t| >= 5 && InFamily(t, "by-key") && env.canSerialize(t[4]) &&
      FetchDevice(table, env.parseKey(t[3]).key) == Some(dev)
    ensures var t := env.tokenize(path);
      var r := CreateStreamResponse(env, table, path, "GET", now);
      (env.stripSuffix(t[4]) == "device" && |t| == 5 ==>
        r == Response(HTTP_OK, Serialized(env.getSuffix(t[4]), Element(dev)), None)) &&
      (env.stripSuffix(t[4]) == "device" && |t| > 5 && env.hasChildPath(dev, t[5..]) ==>
        r == Response(HTTP_OK, Serialized(env.getSuffix(t[4]), ChildElement(dev, t[5..])), None)) &&
      (env.stripSuffix(t[4]) == "device" && |t| > 5 && !env.hasChildPath(dev, t[5..]) ==>
        r == Response(HTTP_SERVER_ERROR, ErrorText, None)) &&
      (env.stripSuffix(t[4]) != "device" ==> r == Response(HTTP_SERVER_ERROR, ErrorText, None))
  {
  }

  /**
   * A GET by-mac request with a serialisable suffix and a well-formed MAC lists exactly
   * the devices the multimap holds under that MAC: as many as it counts, each one paired
   * with the MAC.
   */
  lemma StreamByMacLists(env: Collaborators, table: DeviceTable, path: string, now: int, mac: Mac)
    requires path != ALL_DEVICES_EKJSON
    requires var t := env.tokenize(path);
      |t| >= 5 && InFamily(t, "by-mac") && env.canSerialize(t[4]) &&
      env.parseMac(t[3]) == ParsedMac(mac, false)
    ensures var t := env.tokenize(path);
      var r := CreateStreamResponse(env, table, path, "GET", now);
      r.code == HTTP_OK && r.body.Serialized? && r.body.format == env.getSuffix(t[4]) &&
      r.body.payload.DeviceVector? &&
      |r.body.payload.devices| == MacCount(table.macMap, mac) &&
      forall d :: d in r.body.payload.devices <==> (mac, d) in table.macMap
  {
    EqualRangeSize(table.macMap, mac);
    forall d
      ensures d in EqualRange(table.macMap, mac) <==> (mac, d) in table.macMap
    {
      EqualRangeMembers(table.macMap, mac, d);
    }
  }

  /**
   * A GET last-time request returns exactly the devices seen strictly after its threshold
   * (now + t for a negative t), in the order the worker visits them.
   */
  lemma {:induction false} StreamLastTimeLists(env: Collaborators, table: DeviceTable, path: string, now: int)
    requires path != ALL_DEVICES_EKJSON
    requires var t := env.tokenize(path);
      |t| >= 5 && InFamily(t, "last-time") && env.scanLong(t[3]).Some? && env.canSerialize(t[4])
    ensures var t := env.tokenize(path);
      var r := CreateStreamResponse(env, table, path, "GET", now);
      var threshold := Threshold(env.scanLong(t[3]).value, now);
      r.code == HTTP_OK && r.body.Serialized? && r.body.payload.DeviceVector? &&
      |r.body.payload.devices| <= |table.devices| &&
      forall d :: d in r.body.payload.devices <==> d in table.devices && d.lastTime > threshold
  {
    var t := env.tokenize(path);
    var threshold := Threshold(env.scanLong(t[3]).value, now);
    var listed := DevicesSeenAfter(table.devices, threshold);
    forall d
      ensures d in listed <==> d in table.devices && d.lastTime > threshold
    {
      DevicesSeenAfterMembers(table.devices, threshold, d);
    }
    DevicesSeenAfterMembers(table.devices, threshold, Device(0, 0, 0));
  }

  /**
   * A GET the tracker accepted is served with data. For a last-time path this needs
   * the suffix to be serialisable: verification also accepts "devices.ekjson" without
   * asking, while the response for a non-serialisable suffix is empty.
   */
  lemma AcceptedGetIsServed(env: Collaborators, table: DeviceTable, path: string, now: int)
    requires VerifyPath(env, table, path, "GET")
    requires path != ALL_DEVICES_EKJSON && InFamily(env.tokenize(path), "last-time") ==>
      env.canSerialize(env.tokenize(path)[4])
    ensures CreateStreamResponse(env, table, path, "GET", now).code == HTTP_OK
    ensures CreateStreamResponse(env, table, path, "GET", now).body.Serialized?
  {
  }

  /* ---------------------------------------------------------------- POST responses */

  /** The options a POST command dictionary carries. */
  datatype PostOptions = PostOptions(fields: seq<FieldSpec>, regex: Option<Value>, postTs: int)

  /**
   * Read the command dictionary: the `fields` list (an array), the optional `regex`, and
   * the optional numeric `last_time`, relative to `now` when negative. None rejects the
   * request.
   */
  function ParseCommand(command: map<string, Value>, now: int): Option<PostOptions>
  {
    var fields :=
      if "fields" !in command then Some([])
      else match command["fields"]
        case Arr(items) => FieldsSpec(items)
        case _ => None;
    if fields.None? then None
    else if "last_time" in command && !command["last_time"].Num? then None
    else
      var regex := if "regex" in command then Some(command["regex"]) else None;
      var postTs := if "last_time" in command then Threshold(command["last_time"].num, now) else 0;
      Some(PostOptions(fields.value, regex, postTs))
  }

  const REJECT: Response := Response(HTTP_BAD_REQUEST, ErrorText, None)
  const ACKNOWLEDGE: Response := Response(HTTP_OK, Acknowledged, None)

  /**
   * The response to a completed POST (httpd_post_complete). `command` is the parsed
   * `json` variable, None when it is missing or does not parse.
   */
  function PostComplete(env: Collaborators, table: DeviceTable, url: string,
                        command: Option<map<string, Value>>, hasSession: bool, now: int): (r: Response)
    ensures r.code == HTTP_OK || r.code == HTTP_BAD_REQUEST
    ensures r.code == HTTP_BAD_REQUEST ==> r == REJECT
    ensures |env.tokenize(url)| < 4 || command.None? ==> r == REJECT
    ensures command.Some? && ParseCommand(command.value, now).None? ==> r == REJECT
    ensures r.mutation.Some? ==> hasSession && r.body == Acknowledged && command.Some?
    ensures r.mutation.Some? ==>
      var t := env.tokenize(url);
      InFamily(t, "by-key") && |t| >= 5 && env.canSerialize(t[4]) &&
      FetchDevice(table, env.parseKey(t[3]).key) == Some(r.mutation.value.device)
    ensures r.mutation.Some? && r.mutation.value.SetUserName? ==>
      env.stripSuffix(env.tokenize(url)[4]) == "set_name" &&
      "username" in command.value && command.value["username"] == Str(r.mutation.value.name)
    ensures r.mutation.Some? && r.mutation.value.SetTag? ==>
      env.stripSuffix(env.tokenize(url)[4]) == "set_tag" &&
      "tagname" in command.value && command.value["tagname"] == Str(r.mutation.value.tag) &&
      "tagvalue" in command.value && command.value["tagvalue"] == Str(r.mutation.value.content)
  {
    var t := env.tokenize(url);
    if |t| < 4 then REJECT
    else if command.None? then REJECT
    else match ParseCommand(command.value, now)
      case None => REJECT
      case Some(opts) =>
        if t[1] != "devices" then ACKNOWLEDGE
        else if t[2] == "by-mac" then PostByMac(env, table, t, opts)
        else if t[2] == "by-key" then PostByKey(env, table, t, command.value, opts, hasSession)
        else if t[2] == "last-time" then PostLastTime(env, table, t, opts, now)
        else ACKNOWLEDGE
  }

  /** The by-MAC branch of a POST: summaries of every device under the MAC. */
  function PostByMac(env: Collaborators, table: DeviceTable, t: seq<string>, opts: PostOptions): Response
    requires |t| >= 4
  {
    if |t| < 5 then REJECT
    else if !env.canSerialize(t[4]) then REJECT
    else
      var mac := env.parseMac(t[3]);
      if mac.error then REJECT
      else if MacCount(table.macMap, mac.mac) == 0 then REJECT
      else if env.stripSuffix(t[4]) == "devices" then
        var devs := EqualRange(table.macMap, mac.mac);
        Response(HTTP_OK, Serialized(env.getSuffix(t[4]), SummaryVector(Summaries(devs, opts.fields))), None)
      else REJECT
  }

  /**
   * The by-key branch of a POST: a summary of the device, or a name or tag change that
   * needs a session and its keys in the command. The key's error flag is not consulted;
   * any other target falls through to "OK".
   */
  function PostByKey(env: Collaborators, table: DeviceTable, t: seq<string>,
                     command: map<string, Value>, opts: PostOptions, hasSession: bool): Response
    requires |t| >= 4
  {
    if |t| < 5 then REJECT
    else if !env.canSerialize(t[4]) then REJECT
    else match FetchDevice(table, env.parseKey(t[3]).key)
      case None => REJECT
      case Some(dev) =>
        var target := env.stripSuffix(t[4]);
        if target == "device" then
          Response(HTTP_OK, Serialized(env.getSuffix(t[4]), SummaryElement(Summary(dev, opts.fields))), None)
        else if target == "set_name" then
          if !hasSession then REJECT
          else if "username" !in command then REJECT
          else if !command["username"].Str? then REJECT
          else Response(HTTP_OK, Acknowledged, Some(SetUserName(dev, command["username"].str)))
        else if target == "set_tag" then
          if !hasSession then REJECT
          else if "tagname" !in command then REJECT
          else if "tagvalue" !in command then REJECT
          else if !command["tagname"].Str? || !command["tagvalue"].Str? then REJECT
          else Response(HTTP_OK, Acknowledged, Some(SetTag(dev, command["tagname"].str, command["tagvalue"].str)))
        else ACKNOWLEDGE
  }

  /**
   * The last-time branch of a POST: the devices seen after the threshold, narrowed by
   * the regex worker when a regex is given, summarised in order.
   */
  function PostLastTime(env: Collaborators, table: DeviceTable, t: seq<string>, opts: PostOptions, now: int)
    : Response
    requires |t| >= 4
  {
    if |t| < 5 then REJECT
    else if env.scanLong(t[3]).None? || !env.canSerialize(t[4]) then REJECT
    else
      var threshold := Threshold(env.scanLong(t[3]).value, now);
      var timeDevs := DevicesSeenAfter(table.devices, threshold);
      var regexDevs := if opts.regex.Some? then env.regexFilter(opts.regex.value, timeDevs) else timeDevs;
      Response(HTTP_OK, Serialized(env.getSuffix(t[4]), SummaryVector(Summaries(regexDevs, opts.fields))), None)
  }

  /** A `fields` entry that is an array of length other than 2 rejects the POST with 400. */
  lemma PostRejectsBadRenamePair(env: Collaborators, table: DeviceTable, url: string,
                                 command: map<string, Value>, hasSession: bool, now: int, i: nat)
    requires "fields" in command && command["fields"].Arr?
    requires i < |command["fields"].items| && command["fields"].items[i].Arr?
    requires |command["fields"].items[i].items| != 2
    ensures PostComplete(env, table, url, Some(command), hasSession, now).code == HTTP_BAD_REQUEST
  {
    BadRenamePairRejects(command["fields"].items, i);
  }

  /**
   * Without a regex, a POST last-time request summarises exactly the time-filtered
   * devices, in order, each with the requested fields.
   */
  lemma PostLastTimeWithoutRegex(env: Collaborators, table: DeviceTable, url: string,
                                 command: map<string, Value>, hasSession: bool, now: int)
    requires var t := env.tokenize(url);
      |t| >= 5 && InFamily(t, "last-time") && env.scanLong(t[3]).Some? && env.canSerialize(t[4])
    requires ParseCommand(command, now).Some? && "regex" !in command
    ensures var t := env.tokenize(url);
      var r := PostComplete(env, table, url, Some(command), hasSession, now);
      var timeDevs := DevicesSeenAfter(table.devices, Threshold(env.scanLong(t[3]).value, now));
      r.code == HTTP_OK && r.body.Serialized? && r.body.payload.SummaryVector? &&
      |r.body.payload.summaries| == |timeDevs| &&
      forall i :: 0 <= i < |timeDevs| ==>
        r.body.payload.summaries[i].device == timeDevs[i] &&
        r.body.payload.summaries[i].fields == ParseCommand(command, now).value.fields
  {
  }

  /**
   * With a regex, a POST last-time request summarises exactly the devices the regex
   * worker keeps out of the time-filtered ones, in its order, each with the requested
   * fields.
   */
  lemma PostLastTimeWithRegex(env: Collaborators, table: DeviceTable, url: string,
                              command: map<string, Value>, hasSession: bool, now: int)
    requires var t := env.tokenize(url);
      |t| >= 5 && InFamily(t, "last-time") && env.scanLong(t[3]).Some? && env.canSerialize(t[4])
    requires ParseCommand(command, now).Some? && "regex" in command
    ensures var t := env.tokenize(url);
      var r := PostComplete(env, table, url, Some(command), hasSession, now);
      var timeDevs := DevicesSeenAfter(table.devices, Threshold(env.scanLong(t[3]).value, now));
      var kept := env.regexFilter(command["regex"], timeDevs);
      r.code == HTTP_OK && r.body.Serialized? && r.body.payload.SummaryVector? &&
      |r.body.payload.summaries| == |kept| &&
      forall i :: 0 <= i < |kept| ==>
        r.body.payload.summaries[i].device == kept[i] &&
        r.body.payload.summaries[i].fields == ParseCommand(command, now).value.fields
  {
  }

  /**
   * A POST by-mac request for the `devices` target summarises exactly the devices the
   * multimap holds under the MAC, in its order, each with the requested fields.
   */
  lemma PostByMacSummaries(env: Collaborators, table: DeviceTable, url: string,
                           command: map<string, Value>, hasSession: bool, now: int, mac: Mac)
    requires var t := env.tokenize(url);
      |t| >= 5 && InFamily(t, "by-mac") && env.canSerialize(t[4]) &&
      env.parseMac(t[3]) == ParsedMac(mac, false) && MacCount(table.macMap, mac) > 0 &&
      env.stripSuffix(t[4]) == "devices"
    requires ParseCommand(command, now).Some?
    ensures var t := env.tokenize(url);
      var r := PostComplete(env, table, url, Some(command), hasSession, now);
      var fields := ParseCommand(command, now).value.fields;
      r.code == HTTP_OK && r.body.Serialized? && r.body.format == env.getSuffix(t[4]) &&
      r.body.payload.SummaryVector? &&
      |r.body.payload.summaries| == MacCount(table.macMap, mac) &&
      (forall i :: 0 <= i < |r.body.payload.summaries| ==>
        (mac, r.body.payload.summaries[i].device) in table.macMap &&
        r.body.payload.summaries[i].fields == fields) &&
      forall d :: (mac, d) in table.macMap ==> Summary(d, fields) in r.body.payload.summaries
  {
    var devs := EqualRange(table.macMap, mac);
    var fields := ParseCommand(command, now).value.fields;
    EqualRangeSize(table.macMap, mac);
    forall i | 0 <= i < |devs|
      ensures (mac, devs[i]) in table.macMap
    {
      EqualRangeMembers(table.macMap, mac, devs[i]);
    }
    forall d | (mac, d) in table.macMap
      ensures Summary(d, fields) in Summaries(devs, fields)
    {
      EqualRangeMembers(table.macMap, mac, d);
      var i :| 0 <= i < |devs| && devs[i] == d;
      assert Summaries(devs, fields)[i] == Summary(d, fields);
    }
  }

  /** A POST by-key request for the `device` target of an existing device summarises that device. */
  lemma PostByKeyDeviceSummary(env: Collaborators, table: DeviceTable, url: string,
                               command: map<string, Value>, hasSession: bool, now: int, dev: Device)
    requires var t := env.tokenize(url);
      |t| >= 5 && InFamily(t, "by-key") && env.canSerialize(t[4]) &&
      FetchDevice(table, env.parseKey(t[3]).key) == Some(dev) && env.stripSuffix(t[4]) == "device"
    requires ParseCommand(command, now).Some?
    ensures var t := env.tokenize(url);
      PostComplete(env, table, url, Some(command), hasSession, now) ==
        Response(HTTP_OK, Serialized(env.getSuffix(t[4]),
                 SummaryElement(Summary(dev, ParseCommand(command, now).value.fields))), None)
  {
  }

  /**
   * Setting a name or a tag without a valid session never changes a device; on a by-key
   * path the request is refused with 400 ("login required" is thrown and caught).
   */
  lemma NoSessionNoMutation(env: Collaborators, table: DeviceTable, url: string,
                            command: Option<map<string, Value>>, now: int)
    ensures PostComplete(env, table, url, command, false, now).mutation == None
    ensures var t := env.tokenize(url);
      InFamily(t, "by-key") && |t| >= 5 && env.stripSuffix(t[4]) in {"set_name", "set_tag"} ==>
        PostComplete(env, table, url, command, false, now) == REJECT
  {
  }

  /**
   * A set_name request whose command lacks `username` fails and changes nothing; on a
   * by-key path it is refused with 400.
   */
  lemma SetNameNeedsUsername(env: Collaborators, table: DeviceTable, url: string,
                             command: map<string, Value>, hasSession: bool, now: int)
    requires var t := env.tokenize(url); |t| >= 5 && env.stripSuffix(t[4]) == "set_name"
    requires "username" !in command
    ensures PostComplete(env, table, url, Some(command), hasSession, now).mutation == None
    ensures InFamily(env.tokenize(url), "by-key") ==>
      PostComplete(env, table, url, Some(command), hasSession, now) == REJECT
  {
  }

  /** A by-key set_tag request whose command lacks `tagname` or `tagvalue` is refused with 400. */
  lemma SetTagNeedsTagKeys(env: Collaborators, table: DeviceTable, url: string,
                           command: map<string, Value>, hasSession: bool, now: int)
    requires var t := env.tokenize(url);
      InFamily(t, "by-key") && |t| >= 5 && env.stripSuffix(t[4]) == "set_tag"
    requires "tagname" !in command || "tagvalue" !in command
    ensures PostComplete(env, table, url, Some(command), hasSession, now) == REJECT
  {
  }

  /**
   * A well-formed set_name request from a valid session, naming an existing device,
   * renames exactly that device to the `username` string and answers "OK".
   */
  lemma SetNameApplied(env: Collaborators, table: DeviceTable, url: string,
                       command: map<string, Value>, now: int, dev: Device, name: string)
    requires var t := env.tokenize(url);
      InFamily(t, "by-key") && |t| >= 5 && env.stripSuffix(t[4]) == "set_name" &&
      env.canSerialize(t[4]) && FetchDevice(table, env.parseKey(t[3]).key) == Some(dev)
    requires ParseCommand(command, now).Some?
    requires "username" in command && command["username"] == Str(name)
    ensures PostComplete(env, table, url, Some(command), true, now) ==
      Response(HTTP_OK, Acknowledged, Some(SetUserName(dev, name)))
  {
  }

  /**
   * A well-formed set_tag request from a valid session, naming an existing device, sets
   * exactly the `tagname` tag of that device to the `tagvalue` string and answers "OK".
   */
  lemma SetTagApplied(env: Collaborators, table: DeviceTable, url: string,
                      command: map<string, Value>, now: int, dev: Device, tag: string, content: string)
    requires var t := env.tokenize(url);
      InFamily(t, "by-key") && |t| >= 5 && env.stripSuffix(t[4]) == "set_tag" &&
      env.canSerialize(t[4]) && FetchDevice(table, env.parseKey(t[3]).key) == Some(dev)
    requires ParseCommand(command, now).Some?
    requires "tagname" in command && command["tagname"] == Str(tag)
    requires "tagvalue" in command && command["tagvalue"] == Str(content)
    ensures PostComplete(env, table, url, Some(command), true, now) ==
      Response(HTTP_OK, Acknowledged, Some(SetTag(dev, tag, content)))
  {
  }
}
