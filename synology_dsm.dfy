/**
 * Setting up and unloading a Synology DSM config entry: the one-off
 * migrations of device identifiers and entry data, the translation of the
 * NAS API's setup errors, the choice of update coordinators from the APIs the
 * NAS offers, and the per-entry record kept in the host's data store.
 */
module SynologyDsm {
  import opened Wrappers
  import opened JsonValue

  // ---------------------------------------------------------------------
  // Constants (defined by the host, the integration's constants and the SDK)
  // ---------------------------------------------------------------------

  const Domain: string := "synology_dsm"
  const ConfMac: string := "mac"
  const ConfVerifySsl: string := "verify_ssl"
  const DefaultVerifySsl: bool := false
  const ExceptionDetails: string := "details"
  const ExceptionUnknown: string := "unknown"
  const CameraApiKey: string := "SYNO.SurveillanceStation.Camera"
  const InfoApiKey: string := "SYNO.SurveillanceStation.Info"
  const HomeModeApiKey: string := "SYNO.SurveillanceStation.HomeMode"

  /** The separator the identifier migration joins with. */
  const Separator: char := '_'

  // ---------------------------------------------------------------------
  // "_".join and its inverse
  // ---------------------------------------------------------------------

  /** Python's `sep.join(parts)`: the parts in order, with `sep` between neighbours. */
  function Join(sep: string, parts: seq<string>): (s: string)
    ensures |parts| == 0 ==> s == ""
    ensures |parts| >= 1 ==> parts[0] <= s
    ensures |parts| >= 2 ==> parts[0] + sep <= s
  {
    if |parts| == 0 then ""
    else if |parts| == 1 then parts[0]
    else parts[0] + sep + Join(sep, parts[1..])
  }

  /** Python's `s.split("_")`: the pieces between separators, always at least one. */
  function Split(s: string): (parts: seq<string>)
    ensures |parts| >= 1
  {
    if |s| == 0 then [""]
    else if s[0] == Separator then [""] + Split(s[1..])
    else var rest := Split(s[1..]); [[s[0]] + rest[0]] + rest[1..]
  }

  lemma {:induction false} SplitWithoutSeparator(p: string)
    requires Separator !in p
    ensures Split(p) == [p]
  {
    if |p| > 0 {
      assert Separator !in p[1..];
      SplitWithoutSeparator(p[1..]);
      assert [p[0]] + p[1..] == p;
    }
  }

  lemma {:induction false} SplitAfterPiece(p: string, t: string)
    requires Separator !in p
    ensures Split(p + [Separator] + t) == [p] + Split(t)
  {
    if |p| == 0 {
      assert p + [Separator] + t == [Separator] + t;
      assert ([Separator] + t)[1..] == t;
    } else {
      var s := p + [Separator] + t;
      assert s[0] == p[0] && s[1..] == p[1..] + [Separator] + t;
      assert Separator !in p[1..];
      SplitAfterPiece(p[1..], t);
      assert [p[0]] + p[1..] == p;
    }
  }

  /** Splitting at a separator splits the text before it and the text after it independently. */
  lemma {:induction false} SplitAround(p: string, t: string)
    ensures Split(p + [Separator] + t) == Split(p) + Split(t)
  {
    var s := p + [Separator] + t;
    if |p| == 0 {
      assert s == [Separator] + t;
      assert s[1..] == t;
    } else {
      assert s[0] == p[0] && s[1..] == p[1..] + [Separator] + t;
      SplitAround(p[1..], t);
      if p[0] != Separator {
        var head := Split(p[1..]);
        assert Split(s[1..]) == head + Split(t);
        assert Split(s) == [[p[0]] + head[0]] + (head[1..] + Split(t));
        assert Split(p) == [[p[0]] + head[0]] + head[1..];
      }
    }
  }

  /** The pieces of every part, in order: what splitting the parts one by one gives. */
  function SplitEach(parts: seq<string>): (r: seq<string>)
    ensures |r| >= |parts|
  {
    if |parts| == 0 then [] else Split(parts[0]) + SplitEach(parts[1..])
  }

  /**
   * Splitting a `_`-join is splitting each joined part: the pieces of the
   * first part, then those of the second, and so on, whatever the parts hold.
   */
  lemma {:induction false} SplitJoinEach(parts: seq<string>)
    requires |parts| >= 1
    ensures Split(Join([Separator], parts)) == SplitEach(parts)
  {
    if |parts| == 1 {
      assert parts[1..] == [];
    } else {
      SplitJoinEach(parts[1..]);
      SplitAround(parts[0], Join([Separator], parts[1..]));
    }
  }

  /** Joining pieces that contain no separator and splitting again gives the pieces back. */
  lemma {:induction false} SplitJoin(parts: seq<string>)
    requires |parts| >= 1
    requires forall k :: 0 <= k < |parts| ==> Separator !in parts[k]
    ensures Split(Join([Separator], parts)) == parts
  {
    if |parts| == 1 {
      SplitWithoutSeparator(parts[0]);
    } else {
      SplitJoin(parts[1..]);
      SplitAfterPiece(parts[0], Join([Separator], parts[1..]));
      assert [parts[0]] + parts[1..] == parts;
    }
  }

  // ---------------------------------------------------------------------
  // Device identifier migration
  // ---------------------------------------------------------------------

  /** A device identifier: a tuple of string components. */
  type Identifier = seq<string>

  /** A device of the registry, as listed for the config entry when setup starts. */
  datatype DeviceEntry = DeviceEntry(id: string, identifiers: seq<Identifier>)

  /**
   * An identifier of more than two components becomes the pair of its first
   * component and the `_`-join of the others; a shorter one is kept.
   */
  function RewriteIdentifier(ident: Identifier): (r: Identifier)
    ensures |ident| <= 2 ==> r == ident
    ensures |ident| > 2 ==> |r| == 2 && r[0] == ident[0]
  {
    if |ident| > 2 then [ident[0], Join([Separator], ident[1..])] else ident
  }

  /**
   * The components an identifier was rewritten from can be recovered from the
   * rewritten pair, as long as none of the joined components held a `_`.
   */
  lemma RewriteRecoverable(ident: Identifier)
    requires |ident| > 2
    requires forall k :: 1 <= k < |ident| ==> Separator !in ident[k]
    ensures var r := RewriteIdentifier(ident); [r[0]] + Split(r[1]) == ident
  {
    var tail := ident[1..];
    assert forall k :: 0 <= k < |tail| ==> Separator !in tail[k] by {
      forall k | 0 <= k < |tail| ensures Separator !in tail[k] {
        assert tail[k] == ident[k + 1];
      }
    }
    SplitJoin(tail);
    assert [ident[0]] + tail == ident;
  }

  /**
   * For every long identifier, whatever its components hold, splitting the
   * rewritten pair's second component gives the pieces of the joined
   * components, in order.
   */
  lemma RewriteSplitsEach(ident: Identifier)
    requires |ident| > 2
    ensures var r := RewriteIdentifier(ident); r[0] == ident[0] && Split(r[1]) == SplitEach(ident[1..])
  {
    SplitJoinEach(ident[1..]);
  }

  /**
   * The identifiers a device has after the migration: looking only at its
   * first identifier, a long one replaces the whole set by its rewrite.
   */
  function MigrateDevice(identifiers: seq<Identifier>): (r: seq<Identifier>)
    requires |identifiers| > 0
    ensures |r| > 0 && |r[0]| <= 2
    ensures |identifiers[0]| <= 2 ==> r == identifiers
    ensures |identifiers[0]| > 2 ==> r == [RewriteIdentifier(identifiers[0])]
  {
    if |identifiers[0]| > 2 then [RewriteIdentifier(identifiers[0])] else identifiers
  }

  lemma MigrateDeviceIdempotent(identifiers: seq<Identifier>)
    requires |identifiers| > 0
    ensures MigrateDevice(MigrateDevice(identifiers)) == MigrateDevice(identifiers)
  {
  }

  /** Each listed device is in the registry with the identifiers it was listed with. */
  predicate Listed(registry: map<string, seq<Identifier>>, devices: seq<DeviceEntry>) {
    forall k :: 0 <= k < |devices| ==>
      devices[k].id in registry && registry[devices[k].id] == devices[k].identifiers
      && |devices[k].identifiers| > 0
  }

  function IdsOf(devices: seq<DeviceEntry>): set<string> {
    set k | 0 <= k < |devices| :: devices[k].id
  }

  /** The registry after migrating the devices whose ids are in `ids`. */
  function MigratedRegistry(registry: map<string, seq<Identifier>>, ids: set<string>)
    : (r: map<string, seq<Identifier>>)
    requires forall id :: id in ids ==> id in registry && |registry[id]| > 0
    ensures r.Keys == registry.Keys
    ensures forall id :: id in registry && id !in ids ==> r[id] == registry[id]
    ensures forall id :: id in ids ==> r[id] == MigrateDevice(registry[id])
  {
    map id | id in registry :: if id in ids then MigrateDevice(registry[id]) else registry[id]
  }

  /** Running the migration again, on any of the devices already migrated, changes nothing. */
  lemma MigrationIdempotent(registry: map<string, seq<Identifier>>, ids: set<string>, again: set<string>)
    requires forall id :: id in ids ==> id in registry && |registry[id]| > 0
    requires again <= ids
    ensures MigratedRegistry(MigratedRegistry(registry, ids), again) == MigratedRegistry(registry, ids)
  {
    var once := MigratedRegistry(registry, ids);
    forall id | id in again ensures MigrateDevice(once[id]) == once[id] {
      MigrateDeviceIdempotent(registry[id]);
    }
  }

  /** The host's device registry: the identifiers of each device, by device id. */
  class DeviceRegistry {
    var identifiers: map<string, seq<Identifier>>

    constructor (identifiers: map<string, seq<Identifier>>)
      ensures this.identifiers == identifiers
    {
      this.identifiers := identifiers;
    }

    /** Replaces a device's identifiers. */
    method UpdateDevice(id: string, newIdentifiers: seq<Identifier>)
      requires id in identifiers
      modifies this
      ensures identifiers == old(identifiers)[id := newIdentifiers]
    {
      identifiers := identifiers[id := newIdentifiers];
    }
  }

  /** Migrating one more device updates the registry at that device only. */
  lemma MigratedRegistryStep(registry: map<string, seq<Identifier>>, ids: set<string>, id: string)
    requires forall i :: i in ids ==> i in registry && |registry[i]| > 0
    requires id in registry && |registry[id]| > 0
    ensures MigratedRegistry(registry, ids + {id})
         == MigratedRegistry(registry, ids)[id := MigrateDevice(registry[id])]
  {
  }

  /** Migrating one more device whose first identifier is short changes nothing. */
  lemma MigratedRegistryShortStep(registry: map<string, seq<Identifier>>, ids: set<string>, id: string)
    requires forall i :: i in ids ==> i in registry && |registry[i]| > 0
    requires id in registry && |registry[id]| > 0 && |registry[id][0]| <= 2
    ensures MigratedRegistry(registry, ids + {id}) == MigratedRegistry(registry, ids)
  {
    MigratedRegistryStep(registry, ids, id);
  }

  lemma IdsOfExtend(devices: seq<DeviceEntry>, i: nat)
    requires i < |devices|
    ensures IdsOf(devices[..i + 1]) == IdsOf(devices[..i]) + {devices[i].id}
  {
    assert forall k :: 0 <= k < i ==> devices[..i + 1][k] == devices[..i][k];
  }

  /** Popping the head of a long first identifier and joining the rest is the device's migration. */
  lemma PopJoinMigrates(identifiers: seq<Identifier>)
    requires |identifiers| > 0 && |identifiers[0]| > 2
    ensures [[identifiers[0][0], Join([Separator], identifiers[0][1..])]] == MigrateDevice(identifiers)
  {
  }

  /** One pass of the migration loop: rewrites a device whose first identifier is long. */
  method MigrateOneDevice(registry: DeviceRegistry, device: DeviceEntry)
    requires device.id in registry.identifiers && |device.identifiers| > 0
    modifies registry
    ensures |device.identifiers[0]| > 2 ==>
      registry.identifiers == old(registry.identifiers)[device.id := MigrateDevice(device.identifiers)]
    ensures |device.identifiers[0]| <= 2 ==> registry.identifiers == old(registry.identifiers)
  {
    var oldIdentifier := device.identifiers[0];
    if |oldIdentifier| > 2 {
      var head := oldIdentifier[0];
      oldIdentifier := oldIdentifier[1..];
      var newIdentifier := [[head, Join([Separator], oldIdentifier)]];
      PopJoinMigrates(device.identifiers);
      registry.UpdateDevice(device.id, newIdentifier);
    }
  }

  /** The identifier migration loop of setup, over the entry's devices as listed. */
  method MigrateIdentifiers(registry: DeviceRegistry, devices: seq<DeviceEntry>)
    requires Listed(registry.identifiers, devices)
    modifies registry
    ensures registry.identifiers == MigratedRegistry(old(registry.identifiers), IdsOf(devices))
  {
    ghost var before := registry.identifiers;
    ghost var done: set<string> := {};
    var i := 0;
    while i < |devices|
      invariant 0 <= i <= |devices|
      invariant done == IdsOf(devices[..i])
      invariant forall id :: id in done ==> id in before && |before[id]| > 0
      invariant registry.identifiers == MigratedRegistry(before, done)
    {
      var device := devices[i];
      assert device.id in before && before[device.id] == device.identifiers;
      if |device.identifiers[0]| > 2 {
        MigratedRegistryStep(before, done, device.id);
      } else {
        MigratedRegistryShortStep(before, done, device.id);
      }
      MigrateOneDevice(registry, device);
      IdsOfExtend(devices, i);
      done := done + {device.id};
      i := i + 1;
    }
    assert devices[..i] == devices;
  }

  // ---------------------------------------------------------------------
  // Entry data migrations
  // ---------------------------------------------------------------------

  /** `verify_ssl` gets the default when it is missing or `None`; nothing else changes. */
  function WithVerifySsl(data: map<string, Json>): (r: map<string, Json>)
    ensures ConfVerifySsl in r && r[ConfVerifySsl] != JNull
    ensures ConfVerifySsl !in data || data[ConfVerifySsl] == JNull ==>
      r[ConfVerifySsl] == JBool(DefaultVerifySsl)
    ensures ConfVerifySsl in data && data[ConfVerifySsl] != JNull ==> r == data
    ensures forall k :: k != ConfVerifySsl ==> (k in r <==> k in data)
    ensures forall k :: k != ConfVerifySsl && k in data ==> r[k] == data[k]
  {
    if Get(data, ConfVerifySsl, JNull) == JNull then data[ConfVerifySsl := JBool(DefaultVerifySsl)]
    else data
  }

  lemma WithVerifySslIdempotent(data: map<string, Json>)
    ensures WithVerifySsl(WithVerifySsl(data)) == WithVerifySsl(data)
  {
  }

  /** `mac` gets the NAS's MAC list when it is missing or falsy; nothing else changes. */
  function WithMac(data: map<string, Json>, macs: Json): (r: map<string, Json>)
    ensures ConfMac in r
    ensures ConfMac !in data || !Truthy(data[ConfMac]) ==> r[ConfMac] == macs
    ensures ConfMac in data && Truthy(data[ConfMac]) ==> r == data
    ensures forall k :: k != ConfMac ==> (k in r <==> k in data)
    ensures forall k :: k != ConfMac && k in data ==> r[k] == data[k]
  {
    if !Truthy(Get(data, ConfMac, JNull)) then data[ConfMac := macs] else data
  }

  /** Once a truthy MAC list is stored, later setups keep it. */
  lemma WithMacIdempotent(data: map<string, Json>, macs: Json, later: Json)
    requires Truthy(macs)
    ensures WithMac(WithMac(data, macs), later) == WithMac(data, macs)
  {
  }

  /** The host's config entry: its unique id and its stored data. */
  class ConfigEntry {
    const uniqueId: string
    var data: map<string, Json>

    constructor (uniqueId: string, data: map<string, Json>)
      ensures this.uniqueId == uniqueId && this.data == data
    {
      this.uniqueId := uniqueId;
      this.data := data;
    }

    /** The `verify_ssl` migration, done through `async_update_entry`. */
    method MigrateVerifySsl()
      modifies this
      ensures data == WithVerifySsl(old(data))
    {
      if Get(data, ConfVerifySsl, JNull) == JNull {
        data := data[ConfVerifySsl := JBool(DefaultVerifySsl)];
      }
    }

    /** Filling in the MAC list, done through `async_update_entry`. */
    method FillMac(macs: Json)
      modifies this
      ensures data == WithMac(old(data), macs)
    {
      if !Truthy(Get(data, ConfMac, JNull)) {
        data := data[ConfMac := macs];
      }
    }
  }

  // ---------------------------------------------------------------------
  // Setup errors
  // ---------------------------------------------------------------------

  /** How the NAS API's setup ended: ready, or raising one of the two exception families. */
  datatype ApiSetup = ApiReady | ApiAuthFailed(arg0: Json) | ApiConnectionFailed(arg0: Json)

  /**
   * What setup raises: `ConfigEntryAuthFailed` with the message `"reason: "`
   * followed by the details, or `ConfigEntryNotReady` with the details as its
   * message, or with no message when the switch coordinator's own setup fails.
   */
  datatype SetupError = AuthFailed(reason: Json) | NotReady(message: Option<Json>)

  /**
   * The details of an SDK exception: the `details` entry of its first argument
   * when that is a non-empty dictionary (`unknown` when the entry is missing),
   * and `unknown` for any other first argument.
   */
  function ErrorDetails(arg0: Json): (d: Json)
    ensures arg0.JObj? && ExceptionDetails in arg0.fields ==> d == arg0.fields[ExceptionDetails]
    ensures !(arg0.JObj? && ExceptionDetails in arg0.fields) ==> d == JStr(ExceptionUnknown)
  {
    if Truthy(arg0) && arg0.JObj? then Get(arg0.fields, ExceptionDetails, JStr(ExceptionUnknown))
    else JStr(ExceptionUnknown)
  }

  // ---------------------------------------------------------------------
  // Coordinators and the per-entry record
  // ---------------------------------------------------------------------

  datatype Coordinator = CentralCoordinator | CameraCoordinator | SwitchCoordinator

  /** The record setup stores for an entry: the central coordinator and the optional two. */
  datatype SynologyData = SynologyData(
    central: Coordinator,
    cameras: Option<Coordinator>,
    switches: Option<Coordinator>)

  predicate SwitchesAvailable(apis: set<string>) {
    InfoApiKey in apis && HomeModeApiKey in apis
  }

  /** The coordinators for the APIs the NAS offers. */
  function SelectCoordinators(apis: set<string>): (d: SynologyData)
    ensures d.central == CentralCoordinator
    ensures d.cameras.Some? <==> CameraApiKey in apis
    ensures d.switches.Some? <==> InfoApiKey in apis && HomeModeApiKey in apis
    ensures d.cameras.Some? ==> d.cameras.value == CameraCoordinator
    ensures d.switches.Some? ==> d.switches.value == SwitchCoordinator
  {
    SynologyData(
      CentralCoordinator,
      if CameraApiKey in apis then Some(CameraCoordinator) else None,
      if SwitchesAvailable(apis) then Some(SwitchCoordinator) else None)
  }

  /**
   * How setup ends, given how the API setup and the switch coordinator's setup
   * went: the record to store, or the error raised.
   */
  function SetupOutcome(api: ApiSetup, apis: set<string>, switchSetupOk: bool)
    : (r: Result<SynologyData, SetupError>)
    ensures api.ApiAuthFailed? ==> r == Failure(AuthFailed(ErrorDetails(api.arg0)))
    ensures api.ApiConnectionFailed? ==> r == Failure(NotReady(Some(ErrorDetails(api.arg0))))
    ensures api.ApiReady? && SwitchesAvailable(apis) && !switchSetupOk ==> r == Failure(NotReady(None))
    ensures r.Success? <==> api.ApiReady? && (SwitchesAvailable(apis) ==> switchSetupOk)
    ensures r.Success? ==> r.value == SelectCoordinators(apis)
  {
    match api
    case ApiAuthFailed(arg0) => Failure(AuthFailed(ErrorDetails(arg0)))
    case ApiConnectionFailed(arg0) => Failure(NotReady(Some(ErrorDetails(arg0))))
    case ApiReady =>
      if SwitchesAvailable(apis) && !switchSetupOk then Failure(NotReady(None))
      else Success(SelectCoordinators(apis))
  }

  /** The host's data store, by domain; this integration keeps its records under `Domain`. */
  type Store = map<string, map<string, SynologyData>>

  /** The store after putting an entry's record under the domain, creating the domain's map if needed. */
  function Stored(store: Store, uniqueId: string, record: SynologyData): (r: Store)
    ensures Domain in r && uniqueId in r[Domain] && r[Domain][uniqueId] == record
    ensures forall k :: k != uniqueId ==>
      (k in r[Domain] <==> Domain in store && k in store[Domain])
    ensures forall k :: k != uniqueId && Domain in store && k in store[Domain] ==>
      r[Domain][k] == store[Domain][k]
    ensures forall dom :: dom != Domain ==> (dom in r <==> dom in store)
    ensures forall dom :: dom != Domain && dom in store ==> r[dom] == store[dom]
  {
    var records := if Domain in store then store[Domain] else map[];
    store[Domain := records[uniqueId := record]]
  }

  /** After unloading: the entry's record is removed exactly when the platforms unloaded. */
  function Unloaded(store: Store, uniqueId: string, unloadOk: bool): (r: Store)
    requires unloadOk ==> Domain in store && uniqueId in store[Domain]
    ensures !unloadOk ==> r == store
    ensures unloadOk ==> Domain in r && uniqueId !in r[Domain]
    ensures unloadOk ==> forall k :: k != uniqueId ==>
      (k in r[Domain] <==> k in store[Domain])
    ensures unloadOk ==> forall k :: k != uniqueId && k in store[Domain] ==>
      r[Domain][k] == store[Domain][k]
    ensures forall dom :: dom != Domain ==> (dom in r <==> dom in store)
    ensures forall dom :: dom != Domain && dom in store ==> r[dom] == store[dom]
  {
    if unloadOk then store[Domain := store[Domain] - {uniqueId}] else store
  }

  /**
   * Unloading an entry that setup stored gives back the store from before
   * setup, except that a domain map the first setup created stays, empty.
   */
  lemma UnloadUndoesSetup(store: Store, uniqueId: string, record: SynologyData)
    requires Domain in store ==> uniqueId !in store[Domain]
    ensures Unloaded(Stored(store, uniqueId, record), uniqueId, true)
         == store[Domain := if Domain in store then store[Domain] else map[]]
    ensures Domain in store ==> Unloaded(Stored(store, uniqueId, record), uniqueId, true) == store
  {
    var r := Unloaded(Stored(store, uniqueId, record), uniqueId, true);
    var want := store[Domain := if Domain in store then store[Domain] else map[]];
    assert r[Domain] == want[Domain];
    if Domain in store {
      assert want == store;
    }
  }

  /** The host's data store. */
  class HassData {
    var store: Store

    constructor (store: Store)
      ensures this.store == store
    {
      this.store := store;
    }

    /** Puts an entry's record under the domain. */
    method Store(uniqueId: string, record: SynologyData)
      modifies this
      ensures store == Stored(old(store), uniqueId, record)
    {
      var records := if Domain in store then store[Domain] else map[];
      store := store[Domain := records[uniqueId := record]];
    }

    /** Removes an entry's record from the domain's map. */
    method Pop(uniqueId: string)
      requires Domain in store && uniqueId in store[Domain]
      modifies this
      ensures store == Unloaded(old(store), uniqueId, true)
    {
      store := store[Domain := store[Domain] - {uniqueId}];
    }
  }

  datatype SetupResult = Loaded | Raised(error: SetupError)

  /**
   * `async_setup_entry`. The SDK calls and the host services are inputs: the
   * entry's devices as listed by the registry, how the API setup ended, the
   * NAS's MAC list, the APIs it offers and whether the switch coordinator's
   * setup succeeded.
   */
  method SetupEntry(hass: HassData, entry: ConfigEntry, registry: DeviceRegistry,
                    devices: seq<DeviceEntry>, api: ApiSetup, macs: Json,
                    availableApis: set<string>, switchSetupOk: bool)
    returns (result: SetupResult)
    requires Listed(registry.identifiers, devices)
    modifies hass, entry, registry
    ensures registry.identifiers == MigratedRegistry(old(registry.identifiers), IdsOf(devices))
    ensures entry.data == if api.ApiReady? then WithMac(WithVerifySsl(old(entry.data)), macs)
                          else WithVerifySsl(old(entry.data))
    ensures var outcome := SetupOutcome(api, availableApis, switchSetupOk);
      && (outcome.Success? ==> result == Loaded && hass.store == Stored(old(hass.store), entry.uniqueId, outcome.value))
      && (outcome.Failure? ==> result == Raised(outcome.error) && hass.store == old(hass.store))
  {
    MigrateIdentifiers(registry, devices);
    entry.MigrateVerifySsl();

    match api {
      case ApiAuthFailed(arg0) =>
        return Raised(AuthFailed(ErrorDetails(arg0)));
      case ApiConnectionFailed(arg0) =>
        return Raised(NotReady(Some(ErrorDetails(arg0))));
      case ApiReady =>
    }

    entry.FillMac(macs);

    var cameras: Option<Coordinator> := None;
    if CameraApiKey in availableApis {
      cameras := Some(CameraCoordinator);
    }
    var switches: Option<Coordinator> := None;
    if InfoApiKey in availableApis && HomeModeApiKey in availableApis {
      switches := Some(SwitchCoordinator);
      if !switchSetupOk {
        return Raised(NotReady(None));
      }
    }

    var record := SynologyData(CentralCoordinator, cameras, switches);
    assert record == SelectCoordinators(availableApis);
    hass.Store(entry.uniqueId, record);
    result := Loaded;
  }

  /** `async_unload_entry`: `platformsUnloaded` is what unloading the platforms returned. */
  method UnloadEntry(hass: HassData, entry: ConfigEntry, platformsUnloaded: bool)
    returns (unloadOk: bool)
    requires platformsUnloaded ==> Domain in hass.store && entry.uniqueId in hass.store[Domain]
    modifies hass
    ensures unloadOk == platformsUnloaded
    ensures hass.store == Unloaded(old(hass.store), entry.uniqueId, unloadOk)
  {
    unloadOk := platformsUnloaded;
    if unloadOk {
      hass.Pop(entry.uniqueId);
    }
  }
}
