/**
 * The Meraki CMX location webhook: a view that answers the vendor's GET
 * challenge with the configured validator, checks each POSTed payload in a
 * fixed order, and turns every observation of an accepted payload into one
 * presence update handed to the device tracker's `see` callback.
 */
module MerakiDeviceTracker {
  import opened Wrappers
  import opened JsonValue

  // ---------------------------------------------------------------------
  // Constants
  // ---------------------------------------------------------------------

  const Version1: string := "2.0"
  const Version2: string := "2.1"
  const DevicesSeen: string := "DevicesSeen"
  const BluetoothDevicesSeen: string := "BluetoothDevicesSeen"

  /** The vendor's marker for an unknown coordinate. */
  const NaN: Json := JStr("NaN")

  const HttpBadRequest: int := 400
  const HttpUnprocessableEntity: int := 422

  /**
   * The keys of the attribute dictionary: six copied from an observation and
   * `ap_mac`, taken from the request.
   */
  datatype AttributeKey = Os | Manufacturer | Ipv4 | Ipv6 | SeenTime | Ssid | ApMac {
    /** The dictionary key as a string. */
    function Name(): string {
      match this
      case Os => "os"
      case Manufacturer => "manufacturer"
      case Ipv4 => "ipv4"
      case Ipv6 => "ipv6"
      case SeenTime => "seenTime"
      case Ssid => "ssid"
      case ApMac => "ap_mac"
    }
  }

  /** Distinct keys are distinct dictionary strings, so the map on keys is the source's dictionary. */
  lemma NameInjective(a: AttributeKey, b: AttributeKey)
    ensures a.Name() == b.Name() <==> a == b
  {
    if a != b {
      assert |a.Name()| != |b.Name()| || a.Name()[0] != b.Name()[0] || a.Name()[3] != b.Name()[3];
    }
  }

  /** The keys the code copies from an observation. */
  const ObservationKeys: set<AttributeKey> := {Os, Manufacturer, Ipv4, Ipv6, SeenTime, Ssid}

  // ---------------------------------------------------------------------
  // Data model
  // ---------------------------------------------------------------------

  /** The view's configuration: the GET validator and the shared secret. */
  datatype Config = Config(validator: string, secret: string)

  /**
   * One entry of `data.observations`. Keys the code reads with `[...]` are
   * plain fields; keys it reads with `.get` are optional.
   */
  datatype Observation = Observation(
    clientMac: string,
    lat: Json,
    lng: Json,
    unc: Json,
    name: Option<Json>,
    os: Option<Json>,
    manufacturer: Option<Json>,
    ipv4: Option<Json>,
    ipv6: Option<Json>,
    seenTime: Option<Json>,
    ssid: Option<Json>)

  /** The decoded POST body: top-level `secret`, `version`, `type` and the `data` section. */
  datatype Payload = Payload(
    secret: Option<Json>,
    version: Json,
    kind: Json,
    apMac: Json,
    observations: seq<Observation>)

  /** What `request.json()` produced: a payload, or a decoding failure. */
  datatype Body = Malformed | Parsed(payload: Payload)

  datatype SourceType = Router

  /** The keyword arguments of one `async_see` call. */
  datatype PresenceUpdate = PresenceUpdate(
    gps: Option<(Json, Json)>,
    mac: string,
    devId: string,
    hostName: Json,
    sourceType: SourceType,
    gpsAccuracy: Option<int>,
    attributes: map<AttributeKey, Json>)

  datatype Rejection = InvalidJson | NoSecret | InvalidSecret | InvalidVersion | InvalidDeviceType

  /** The decision taken on a POST. */
  datatype Verdict =
    | Reject(reason: Rejection)
    | NothingToDo
    | Dispatch(apMac: Json, observations: seq<Observation>)

  /** What the view returns: a JSON message with a status, or no body (status 200). */
  datatype Response = JsonMessage(message: string, status: int) | NoBody

  // ---------------------------------------------------------------------
  // Validation chain
  // ---------------------------------------------------------------------

  /** The payload carries a truthy secret. */
  predicate SecretPresent(p: Payload) {
    p.secret.Some? && Truthy(p.secret.value)
  }

  predicate SecretMatches(secret: string, p: Payload) {
    p.secret == Some(JStr(secret))
  }

  predicate VersionKnown(p: Payload) {
    p.version == JStr(Version1) || p.version == JStr(Version2)
  }

  predicate KindKnown(p: Payload) {
    p.kind in {JStr(DevicesSeen), JStr(BluetoothDevicesSeen)}
  }

  /** Every check passes: the body parsed, the secret is present and equal, version and type are known. */
  predicate Accepted(secret: string, body: Body) {
    && body.Parsed?
    && SecretPresent(body.payload)
    && SecretMatches(secret, body.payload)
    && VersionKnown(body.payload)
    && KindKnown(body.payload)
  }

  /**
   * The checks of a POST in their order; the first one that fails decides.
   * Each rejection holds exactly when every earlier check passed and its own failed.
   */
  function Validate(secret: string, body: Body): (v: Verdict)
    ensures v == Reject(InvalidJson) <==> body.Malformed?
    ensures v == Reject(NoSecret) <==> body.Parsed? && !SecretPresent(body.payload)
    ensures v == Reject(InvalidSecret) <==>
      body.Parsed? && SecretPresent(body.payload) && !SecretMatches(secret, body.payload)
    ensures v == Reject(InvalidVersion) <==>
      body.Parsed? && SecretPresent(body.payload) && SecretMatches(secret, body.payload)
      && !VersionKnown(body.payload)
    ensures v == Reject(InvalidDeviceType) <==>
      body.Parsed? && SecretPresent(body.payload) && SecretMatches(secret, body.payload)
      && VersionKnown(body.payload) && !KindKnown(body.payload)
    ensures v == NothingToDo <==> Accepted(secret, body) && |body.payload.observations| == 0
    ensures v.Dispatch? <==> Accepted(secret, body) && |body.payload.observations| > 0
    ensures v.Dispatch? ==>
      v.apMac == body.payload.apMac && v.observations == body.payload.observations
  {
    match body
    case Malformed => Reject(InvalidJson)
    case Parsed(p) =>
      if !SecretPresent(p) then Reject(NoSecret)
      else if p.secret.value != JStr(secret) then Reject(InvalidSecret)
      else if p.version != JStr(Version1) && p.version != JStr(Version2) then Reject(InvalidVersion)
      else if p.kind !in [JStr(DevicesSeen), JStr(BluetoothDevicesSeen)] then Reject(InvalidDeviceType)
      else if |p.observations| == 0 then NothingToDo
      else Dispatch(p.apMac, p.observations)
  }

  /** The HTTP answer to a verdict. */
  function ResponseOf(v: Verdict): (r: Response)
    ensures v.Reject? <==> r.JsonMessage?
    ensures r.JsonMessage? ==>
      r.status == (if v.reason == InvalidJson then HttpBadRequest else HttpUnprocessableEntity)
    ensures v == Reject(InvalidJson) ==> r.message == "Invalid JSON"
    ensures v == Reject(NoSecret) ==> r.message == "No secret"
    ensures v == Reject(InvalidSecret) ==> r.message == "Invalid secret"
    ensures v == Reject(InvalidVersion) ==> r.message == "Invalid version"
    ensures v == Reject(InvalidDeviceType) ==> r.message == "Invalid device type"
  {
    match v
    case Reject(InvalidJson) => JsonMessage("Invalid JSON", HttpBadRequest)
    case Reject(NoSecret) => JsonMessage("No secret", HttpUnprocessableEntity)
    case Reject(InvalidSecret) => JsonMessage("Invalid secret", HttpUnprocessableEntity)
    case Reject(InvalidVersion) => JsonMessage("Invalid version", HttpUnprocessableEntity)
    case Reject(InvalidDeviceType) => JsonMessage("Invalid device type", HttpUnprocessableEntity)
    case NothingToDo => NoBody
    case Dispatch(_, _) => NoBody
  }

  /**
   * A missing or wrong secret decides the verdict on its own: version, type,
   * access-point MAC and observations are never looked at.
   */
  lemma SecretCheckedFirst(secret: string, p: Payload, version: Json, kind: Json, apMac: Json,
                           observations: seq<Observation>)
    requires !SecretPresent(p) || !SecretMatches(secret, p)
    ensures Validate(secret, Parsed(p)).Reject?
    ensures Validate(secret, Parsed(p.(version := version, kind := kind, apMac := apMac,
                                         observations := observations)))
         == Validate(secret, Parsed(p))
  {
  }

  /** With an empty configured secret no POST gets past the secret checks. */
  lemma EmptySecretRejectsAll(body: Body)
    ensures Validate("", body).Reject?
  {
  }

  // ---------------------------------------------------------------------
  // Observation normaliser
  // ---------------------------------------------------------------------

  /** The observation's value for an attribute key, if present; `ap_mac` is not one of its keys. */
  function Lookup(o: Observation, key: AttributeKey): (r: Option<Json>)
  {
    match key
    case Os => o.os
    case Manufacturer => o.manufacturer
    case Ipv4 => o.ipv4
    case Ipv6 => o.ipv6
    case SeenTime => o.seenTime
    case Ssid => o.ssid
    case ApMac => None
  }

  /** An optional observation field is present and truthy. */
  predicate Provided(f: Option<Json>) {
    f.Some? && Truthy(f.value)
  }

  predicate CoordinatesUnknown(o: Observation) {
    o.lat == NaN || o.lng == NaN
  }

  /** Adds the field under `key` when it is present and truthy. */
  function PutIfProvided(attrs: map<AttributeKey, Json>, key: AttributeKey, f: Option<Json>)
    : map<AttributeKey, Json>
  {
    if Provided(f) then attrs[key := f.value] else attrs
  }

  /**
   * The attributes reported for an observation, filled in the code's order:
   * the six observation fields when truthy, then `ap_mac` when truthy.
   */
  function Attributes(o: Observation, apMac: Json): (attrs: map<AttributeKey, Json>)
    ensures ApMac in attrs <==> Truthy(apMac)
    ensures ApMac in attrs ==> attrs[ApMac] == apMac
  {
    var attrs := PutIfProvided(map[], Os, o.os);
    var attrs := PutIfProvided(attrs, Manufacturer, o.manufacturer);
    var attrs := PutIfProvided(attrs, Ipv4, o.ipv4);
    var attrs := PutIfProvided(attrs, Ipv6, o.ipv6);
    var attrs := PutIfProvided(attrs, SeenTime, o.seenTime);
    var attrs := PutIfProvided(attrs, Ssid, o.ssid);
    if Truthy(apMac) then attrs[ApMac := apMac] else attrs
  }

  /** One key of the attribute dictionary is present exactly when its value is truthy. */
  lemma AttributesHas(o: Observation, apMac: Json, k: AttributeKey)
    ensures k in Attributes(o, apMac) <==> if k == ApMac then Truthy(apMac) else Provided(Lookup(o, k))
  {
    match k
    case Os =>
    case Manufacturer =>
    case Ipv4 =>
    case Ipv6 =>
    case SeenTime =>
    case Ssid =>
    case ApMac =>
  }

  /** A key present in the attribute dictionary holds its value from the observation or the request. */
  lemma AttributesValue(o: Observation, apMac: Json, k: AttributeKey)
    requires k in Attributes(o, apMac)
    ensures Some(Attributes(o, apMac)[k]) == if k == ApMac then Some(apMac) else Lookup(o, k)
  {
    match k
    case Os =>
    case Manufacturer =>
    case Ipv4 =>
    case Ipv6 =>
    case SeenTime =>
    case Ssid =>
    case ApMac =>
  }

  /**
   * The attributes are exactly the keys whose value is truthy in the
   * observation, with that value, and `ap_mac` when the request's is truthy.
   */
  lemma AttributesExact(o: Observation, apMac: Json)
    ensures forall k :: k in Attributes(o, apMac) <==>
      if k == ApMac then Truthy(apMac) else Provided(Lookup(o, k))
    ensures forall k :: k in Attributes(o, apMac) ==>
      Some(Attributes(o, apMac)[k]) == if k == ApMac then Some(apMac) else Lookup(o, k)
  {
    forall k: AttributeKey ensures k in Attributes(o, apMac) <==>
      if k == ApMac then Truthy(apMac) else Provided(Lookup(o, k))
    {
      AttributesHas(o, apMac, k);
    }
    forall k | k in Attributes(o, apMac) ensures
      Some(Attributes(o, apMac)[k]) == if k == ApMac then Some(apMac) else Lookup(o, k)
    {
      AttributesValue(o, apMac, k);
    }
  }

  /**
   * The presence update one observation becomes. `intOfFloat` is Python's
   * `int(float(x))`, with `None` for the `ValueError` the code catches.
   */
  function ToUpdate(o: Observation, apMac: Json, intOfFloat: Json -> Option<int>): (u: PresenceUpdate)
    ensures u.mac == o.clientMac && u.devId == o.clientMac && u.sourceType == Router
    ensures u.gps.None? <==> u.gpsAccuracy.None?
    ensures u.gps.None? <==> CoordinatesUnknown(o)
    ensures u.gps.Some? ==> u.gps.value == (o.lat, o.lng)
    ensures u.gpsAccuracy.Some? ==> u.gpsAccuracy.value == intOfFloat(o.unc).GetOr(0)
    ensures u.hostName == if o.name.Some? then o.name.value else JStr(o.clientMac)
    ensures u.attributes == Attributes(o, apMac)
  {
    var accuracy := intOfFloat(o.unc).GetOr(0);
    PresenceUpdate(
      gps := if CoordinatesUnknown(o) then None else Some((o.lat, o.lng)),
      mac := o.clientMac,
      devId := o.clientMac,
      hostName := o.name.GetOr(JStr(o.clientMac)),
      sourceType := Router,
      gpsAccuracy := if CoordinatesUnknown(o) then None else Some(accuracy),
      attributes := Attributes(o, apMac))
  }

  /** The updates a list of observations becomes, one per observation and in order. */
  function NormalizeAll(observations: seq<Observation>, apMac: Json, intOfFloat: Json -> Option<int>)
    : (updates: seq<PresenceUpdate>)
    ensures |updates| == |observations|
    ensures forall k :: 0 <= k < |observations| ==>
      updates[k] == ToUpdate(observations[k], apMac, intOfFloat)
  {
    if observations == [] then []
    else [ToUpdate(observations[0], apMac, intOfFloat)]
         + NormalizeAll(observations[1..], apMac, intOfFloat)
  }

  /** Normalising one more observation of a list appends that observation's update. */
  lemma NormalizeAllStep(observations: seq<Observation>, i: nat, apMac: Json,
                         intOfFloat: Json -> Option<int>)
    requires i < |observations|
    ensures NormalizeAll(observations[..i + 1], apMac, intOfFloat)
         == NormalizeAll(observations[..i], apMac, intOfFloat) + [ToUpdate(observations[i], apMac, intOfFloat)]
  {
    assert observations[..i + 1] == observations[..i] + [observations[i]];
    NormalizeAllAppend(observations[..i], [observations[i]], apMac, intOfFloat);
  }

  lemma {:induction false} NormalizeAllAppend(a: seq<Observation>, b: seq<Observation>, apMac: Json,
                                             intOfFloat: Json -> Option<int>)
    ensures NormalizeAll(a + b, apMac, intOfFloat)
         == NormalizeAll(a, apMac, intOfFloat) + NormalizeAll(b, apMac, intOfFloat)
  {
    if a == [] {
      assert a + b == b;
    } else {
      assert (a + b)[1..] == a[1..] + b;
      NormalizeAllAppend(a[1..], b, apMac, intOfFloat);
    }
  }

  /** Every update a POST dispatches, in dispatch order. */
  function Dispatched(secret: string, body: Body, intOfFloat: Json -> Option<int>)
    : (updates: seq<PresenceUpdate>)
    ensures !Accepted(secret, body) ==> updates == []
    ensures Accepted(secret, body) ==> |updates| == |body.payload.observations|
    ensures Accepted(secret, body) ==> forall k :: 0 <= k < |updates| ==>
      updates[k] == ToUpdate(body.payload.observations[k], body.payload.apMac, intOfFloat)
  {
    match Validate(secret, body)
    case Dispatch(apMac, observations) => NormalizeAll(observations, apMac, intOfFloat)
    case _ => []
  }

  /**
   * One observation with known coordinates and an SSID, under a truthy
   * access-point MAC: one update, named after the MAC, with both attributes.
   * With `lat` set to "NaN" the same observation loses its position and accuracy.
   */
  lemma ExampleDispatch(intOfFloat: Json -> Option<int>)
    requires intOfFloat(JStr("5.0")) == Some(5)
    ensures var o := Observation("11:22", JStr("40.1"), JStr("-3.7"), JStr("5.0"),
                                 None, None, None, None, None, None, Some(JStr("Guest")));
            var body := Parsed(Payload(Some(JStr("s1")), JStr("2.0"), JStr("DevicesSeen"),
                                       JStr("AA:BB"), [o]));
            && Dispatched("s1", body, intOfFloat)
               == [PresenceUpdate(Some((JStr("40.1"), JStr("-3.7"))), "11:22", "11:22", JStr("11:22"),
                                  Router, Some(5), map[Ssid := JStr("Guest"), ApMac := JStr("AA:BB")])]
            && ToUpdate(o.(lat := NaN), JStr("AA:BB"), intOfFloat)
               == ToUpdate(o, JStr("AA:BB"), intOfFloat).(gps := None, gpsAccuracy := None)
  {
    var o := Observation("11:22", JStr("40.1"), JStr("-3.7"), JStr("5.0"),
                         None, None, None, None, None, None, Some(JStr("Guest")));
    var body := Parsed(Payload(Some(JStr("s1")), JStr("2.0"), JStr("DevicesSeen"), JStr("AA:BB"), [o]));
    assert Accepted("s1", body);
    var attrs := Attributes(o, JStr("AA:BB"));
    assert attrs == map[Ssid := JStr("Guest"), ApMac := JStr("AA:BB")];
    var u := ToUpdate(o, JStr("AA:BB"), intOfFloat);
    assert Dispatched("s1", body, intOfFloat) == [u];
  }

  // ---------------------------------------------------------------------
  // The view and the presence sink
  // ---------------------------------------------------------------------

  /** The device tracker's `see` callback, recorded as the list of calls made to it. */
  class Sink {
    var log: seq<PresenceUpdate>

    constructor ()
      ensures log == []
    {
      log := [];
    }

    method See(u: PresenceUpdate)
      modifies this
      ensures log == old(log) + [u]
    {
      log := log + [u];
    }
  }

  class MerakiView {
    const validator: string
    const secret: string
    const sink: Sink

    constructor (config: Config, sink: Sink)
      ensures validator == config.validator && secret == config.secret && this.sink == sink
    {
      validator := config.validator;
      secret := config.secret;
      this.sink := sink;
    }

    /** The vendor's URL challenge: answered with the validator, nothing else happens. */
    method Get() returns (body: string)
      ensures body == validator
    {
      body := validator;
    }

    /**
     * A CMX POST: the response is decided by the check chain, and the sink
     * receives one update per observation of an accepted payload and nothing
     * otherwise.
     */
    method Post(body: Body, intOfFloat: Json -> Option<int>) returns (response: Response)
      modifies sink
      ensures response == ResponseOf(Validate(secret, body))
      ensures sink.log == old(sink.log) + Dispatched(secret, body, intOfFloat)
    {
      var verdict := Validate(secret, body);
      response := ResponseOf(verdict);
      if verdict.Dispatch? {
        Handle(verdict.apMac, verdict.observations, intOfFloat);
      }
    }

    /** Builds and dispatches the update of each observation in turn. */
    method Handle(apMac: Json, observations: seq<Observation>, intOfFloat: Json -> Option<int>)
      modifies sink
      ensures sink.log == old(sink.log) + NormalizeAll(observations, apMac, intOfFloat)
    {
      var i := 0;
      while i < |observations|
        invariant 0 <= i <= |observations|
        invariant sink.log == old(sink.log) + NormalizeAll(observations[..i], apMac, intOfFloat)
      {
        var update := BuildUpdate(observations[i], apMac, intOfFloat);
        ghost var done := NormalizeAll(observations[..i], apMac, intOfFloat);
        sink.See(update);
        NormalizeAllStep(observations, i, apMac, intOfFloat);
        assert sink.log == old(sink.log) + (done + [update]);
        i := i + 1;
      }
      assert observations[..i] == observations;
    }
  }

  /** The body of the dispatch loop for one observation. */
  method BuildUpdate(obs: Observation, apMac: Json, intOfFloat: Json -> Option<int>)
    returns (update: PresenceUpdate)
    ensures update == ToUpdate(obs, apMac, intOfFloat)
  {
    var lat := obs.lat;
    var lng := obs.lng;
    var accuracy: Option<int>;
    var parsed := intOfFloat(obs.unc);
    if parsed.Some? {
      accuracy := Some(parsed.value);
    } else {
      accuracy := Some(0);
    }
    var mac := obs.clientMac;
    var gpsLocation: Option<(Json, Json)>;
    if lat == NaN || lng == NaN {
      gpsLocation := None;
      accuracy := None;
    } else {
      gpsLocation := Some((lat, lng));
    }
    var deviceName := if obs.name.Some? then obs.name.value else JStr(mac);
    var attrs := BuildAttributes(obs, apMac);
    update := PresenceUpdate(gpsLocation, mac, mac, deviceName, Router, accuracy, attrs);
  }

  /** The attribute dictionary, filled by conditional insertion. */
  method BuildAttributes(obs: Observation, apMac: Json) returns (attrs: map<AttributeKey, Json>)
    ensures attrs == Attributes(obs, apMac)
  {
    attrs := map[];
    if Provided(obs.os) { attrs := attrs[Os := obs.os.value]; }
    ghost var step := PutIfProvided(map[], Os, obs.os);
    assert attrs == step;
    if Provided(obs.manufacturer) { attrs := attrs[Manufacturer := obs.manufacturer.value]; }
    step := PutIfProvided(step, Manufacturer, obs.manufacturer);
    assert attrs == step;
    if Provided(obs.ipv4) { attrs := attrs[Ipv4 := obs.ipv4.value]; }
    step := PutIfProvided(step, Ipv4, obs.ipv4);
    assert attrs == step;
    if Provided(obs.ipv6) { attrs := attrs[Ipv6 := obs.ipv6.value]; }
    step := PutIfProvided(step, Ipv6, obs.ipv6);
    assert attrs == step;
    if Provided(obs.seenTime) { attrs := attrs[SeenTime := obs.seenTime.value]; }
    step := PutIfProvided(step, SeenTime, obs.seenTime);
    assert attrs == step;
    if Provided(obs.ssid) { attrs := attrs[Ssid := obs.ssid.value]; }
    step := PutIfProvided(step, Ssid, obs.ssid);
    assert attrs == step;
    if Truthy(apMac) { attrs := attrs[ApMac := apMac]; }
  }
}
