# Meraki CMX webhook and Synology DSM entry lifecycle, modelled in Dafny

This project models two pieces of decision logic from two Home Assistant
integrations and proves properties of them.

**Meraki CMX location webhook** (`meraki_tracker.dfy`, module `MerakiDeviceTracker`).
The view answers the vendor's GET challenge with the configured validator.
On POST it runs a fixed chain of checks: JSON parse, secret present, secret
equal, API version, event type, non-empty observations. The first check that
fails decides the response (400 for bad JSON, 422 for the other rejections).
A request with no observations is accepted with no body, and nothing more
happens. For an accepted
request with observations, every observation becomes exactly one presence
update, dispatched to the device tracker's `see` callback in list order. The
callback is modelled as a `Sink` object that records the calls made to it.
The POST body is a `Payload` datatype with optional fields; values are JSON
values (`json_value.dfy`) with Python truthiness.

**Synology DSM config entry** (`synology_dsm.dfy`, module `SynologyDsm`).
Setup first migrates device identifiers: an identifier tuple of more than two
components becomes `(head, "_".join(tail))`. It then fills in a missing
`verify_ssl` entry-data value. Next it turns the SDK's setup exceptions into
auth-failed or not-ready errors, with details taken from the exception's
first argument. After that it fills in a missing MAC list, picks the camera
and switch coordinators from the APIs the NAS offers, and stores the entry's
record in the host data store under the entry's unique id. Unloading removes
that record only when the platforms unloaded. The device registry, the config
entry and the host data store are classes whose fields the methods update.
Pure functions state what each step computes. All SDK and host calls are inputs.

Three behaviours of the code the model does not smooth over:
- The payload is logged in full before anything is redacted. No redaction property is stated.
- Only `ValueError` from the accuracy conversion falls back to 0. A missing `unc` raises a `KeyError`, which is outside the model.
- Updates are dispatched in observation order.

## Model

| member | source | states |
|---|---|---|
| `MerakiDeviceTracker.MerakiView.constructor` | homeassistant/components/meraki/device_tracker.py:53-57 | the view keeps the configured validator and secret, and the `see` sink it is given |
| `MerakiDeviceTracker.MerakiView.Get` | homeassistant/components/meraki/device_tracker.py:59-61 | GET returns exactly the validator and changes nothing (the method has no frame) |
| `MerakiDeviceTracker.Validate` | homeassistant/components/meraki/device_tracker.py:63-89 | each rejection (bad JSON, no secret, wrong secret, version outside {"2.0","2.1"}, type outside {"DevicesSeen","BluetoothDevicesSeen"}) holds exactly when every earlier check passed and its own failed; "nothing to do" exactly when all checks pass and there are no observations; otherwise the observations and apMac are handed on unchanged |
| `MerakiDeviceTracker.ResponseOf` | homeassistant/components/meraki/device_tracker.py:65-88 | a rejection answers with its JSON message ("Invalid JSON", "No secret", "Invalid secret", "Invalid version", "Invalid device type"), status 400 for bad JSON and 422 for every other rejection; acceptance answers with no body |
| `MerakiDeviceTracker.SecretCheckedFirst` | homeassistant/components/meraki/device_tracker.py:70-75 | with a missing, falsy or unequal secret the verdict is a rejection that does not depend on version, type, apMac or observations |
| `MerakiDeviceTracker.EmptySecretRejectsAll` | homeassistant/components/meraki/device_tracker.py:70-75 | with an empty configured secret every POST is rejected |
| `MerakiDeviceTracker.Dispatched` | homeassistant/components/meraki/device_tracker.py:86-94 | a rejected request dispatches nothing; an accepted one dispatches one update per observation, the k-th being the k-th observation's update (so none for an empty list) |
| `MerakiDeviceTracker.MerakiView.Post` | homeassistant/components/meraki/device_tracker.py:63-89 | the response is the check chain's, and the sink log grows by exactly the dispatched updates |
| `MerakiDeviceTracker.MerakiView.Handle` | homeassistant/components/meraki/device_tracker.py:92-143 | the loop appends the normalised update of each observation to the sink, in order |
| `MerakiDeviceTracker.Sink.See` | homeassistant/components/meraki/device_tracker.py:133-143 | one `async_see` call appends its update to the recorded calls |
| `MerakiDeviceTracker.BuildUpdate` | homeassistant/components/meraki/device_tracker.py:97-143 | the loop body for one observation computes exactly the update its specification describes |
| `MerakiDeviceTracker.ToUpdate` | homeassistant/components/meraki/device_tracker.py:97-117 | mac = dev_id = clientMac and source type router; gps and accuracy are absent together, exactly when lat or lng is the string "NaN"; otherwise gps is (lat, lng) verbatim and accuracy is the converted unc or 0 when conversion raises ValueError; host_name is the name when present, else the MAC |
| `MerakiDeviceTracker.Attributes` | homeassistant/components/meraki/device_tracker.py:114-131 | the six observation fields are inserted when truthy, in the code's order, then ap_mac; ap_mac is present exactly when the request's apMac is truthy, and holds that value |
| `MerakiDeviceTracker.AttributesExact` | homeassistant/components/meraki/device_tracker.py:114-131 | the attribute keys are exactly those of os/manufacturer/ipv4/ipv6/seenTime/ssid that are truthy in the observation, with their values, plus ap_mac exactly when the request's apMac is truthy |
| `MerakiDeviceTracker.NameInjective` | homeassistant/components/meraki/device_tracker.py:114-131 | two attribute keys have the same dictionary string exactly when they are the same key |
| `MerakiDeviceTracker.BuildAttributes` | homeassistant/components/meraki/device_tracker.py:114-131 | the conditional insertions build exactly that attribute dictionary |
| `MerakiDeviceTracker.NormalizeAll` | homeassistant/components/meraki/device_tracker.py:94-143 | one update per observation, same length, k-th update from k-th observation |
| `MerakiDeviceTracker.NormalizeAllAppend` | homeassistant/components/meraki/device_tracker.py:94-143 | normalising a concatenation is concatenating the normalisations |
| `MerakiDeviceTracker.NormalizeAllStep` | homeassistant/components/meraki/device_tracker.py:94-143 | normalising one more observation appends exactly that observation's update |
| `MerakiDeviceTracker.ExampleDispatch` | homeassistant/components/meraki/device_tracker.py:97-143 | a concrete request: one update with gps ("40.1","-3.7"), accuracy 5, host name the MAC, attributes {ssid, ap_mac}; with lat "NaN" only gps and accuracy change, both to absent |
| `SynologyDsm.Join` | homeassistant/components/synology_dsm/__init__.py:50 | Python's `sep.join`: "" for no parts; the result starts with the first part, followed by the separator when there is a second part |
| `SynologyDsm.SplitJoin` | homeassistant/components/synology_dsm/__init__.py:50 | splitting a join at `_` gives the parts back when no part contains `_` |
| `SynologyDsm.SplitJoinEach` | homeassistant/components/synology_dsm/__init__.py:50 | for any parts, splitting their `_`-join gives the pieces of each part in turn |
| `SynologyDsm.RewriteIdentifier` | homeassistant/components/synology_dsm/__init__.py:48-51 | a tuple of more than 2 components becomes a pair that keeps the first component; one of 2 or fewer is untouched |
| `SynologyDsm.RewriteRecoverable` | homeassistant/components/synology_dsm/__init__.py:48-51 | the rewritten pair is (first component, the remaining components joined in order), recoverable by splitting when they hold no `_` |
| `SynologyDsm.RewriteSplitsEach` | homeassistant/components/synology_dsm/__init__.py:48-51 | for every long identifier, whatever its components hold, the pair keeps the first component and its second splits into the pieces of the remaining components, in order |
| `SynologyDsm.MigrateDevice` | homeassistant/components/synology_dsm/__init__.py:47-55 | only the device's first identifier is examined; a long one replaces the device's identifiers by the single rewritten pair, leaving a first identifier of at most 2 components; otherwise nothing changes |
| `SynologyDsm.MigrateDeviceIdempotent` | homeassistant/components/synology_dsm/__init__.py:47-55 | migrating a device twice is migrating it once |
| `SynologyDsm.MigratedRegistry` | homeassistant/components/synology_dsm/__init__.py:43-55 | the registry keeps its device ids; listed devices are migrated and all others keep their identifiers |
| `SynologyDsm.MigratedRegistryStep` | homeassistant/components/synology_dsm/__init__.py:46-55 | migrating one more device changes the registry at that device only |
| `SynologyDsm.MigrationIdempotent` | homeassistant/components/synology_dsm/__init__.py:46-55 | running the migration again over already-migrated devices changes nothing |
| `SynologyDsm.DeviceRegistry.UpdateDevice` | homeassistant/components/synology_dsm/__init__.py:55 | the device's identifiers are replaced and no other device changes |
| `SynologyDsm.MigrateOneDevice` | homeassistant/components/synology_dsm/__init__.py:48-55 | a device whose first identifier is long gets its migrated identifiers; any other device leaves the registry unchanged |
| `SynologyDsm.MigrateIdentifiers` | homeassistant/components/synology_dsm/__init__.py:42-55 | the loop leaves the registry exactly as the migration of the listed devices |
| `SynologyDsm.WithVerifySsl` | homeassistant/components/synology_dsm/__init__.py:58-61 | verify_ssl is set to the default exactly when missing or None, is never None afterwards, and every other key and value is preserved |
| `SynologyDsm.WithVerifySslIdempotent` | homeassistant/components/synology_dsm/__init__.py:58-61 | the verify_ssl migration is idempotent |
| `SynologyDsm.ConfigEntry.MigrateVerifySsl` | homeassistant/components/synology_dsm/__init__.py:58-61 | the entry's data becomes the verify_ssl migration of its old data |
| `SynologyDsm.WithMac` | homeassistant/components/synology_dsm/__init__.py:84-88 | mac is set to the NAS's MAC list exactly when missing or falsy, and every other key and value is preserved |
| `SynologyDsm.WithMacIdempotent` | homeassistant/components/synology_dsm/__init__.py:84-88 | once a truthy MAC list is stored, later setups keep it whatever the NAS reports |
| `SynologyDsm.ConfigEntry.FillMac` | homeassistant/components/synology_dsm/__init__.py:84-88 | the entry's data becomes the MAC fill of its old data |
| `SynologyDsm.ErrorDetails` | homeassistant/components/synology_dsm/__init__.py:67-78 | details are the first argument's `details` entry when it is a dict holding one, and "unknown" otherwise (not a dict, empty, or no such entry) |
| `SynologyDsm.SelectCoordinators` | homeassistant/components/synology_dsm/__init__.py:94-109 | a camera coordinator exists iff the camera API is available; a switch coordinator exists iff both the info and home-mode APIs are |
| `SynologyDsm.SetupOutcome` | homeassistant/components/synology_dsm/__init__.py:64-120 | auth failures raise auth-failed with the details, connection failures raise not-ready with the details, a failing switch setup raises not-ready with no message; setup succeeds exactly otherwise, with the coordinators the APIs select |
| `SynologyDsm.Stored` | homeassistant/components/synology_dsm/__init__.py:121 | the record is stored under the unique id, creating the domain's map if needed; other records and other domains are preserved |
| `SynologyDsm.HassData.Store` | homeassistant/components/synology_dsm/__init__.py:121 | the store becomes the stored-record update of its old value |
| `SynologyDsm.Unloaded` | homeassistant/components/synology_dsm/__init__.py:130-134 | the unique id's record is removed exactly when the platforms unloaded; every other key and domain is unchanged |
| `SynologyDsm.HassData.Pop` | homeassistant/components/synology_dsm/__init__.py:133 | the store loses exactly the entry's record |
| `SynologyDsm.UnloadUndoesSetup` | homeassistant/components/synology_dsm/__init__.py:121-134 | a successful unload after storing a new record gives back the store from before setup when the domain's map already existed; on a first setup the only difference is that the domain's map stays behind, empty |
| `SynologyDsm.SetupEntry` | homeassistant/components/synology_dsm/__init__.py:38-125 | identifiers are migrated and verify_ssl defaulted whatever follows; the MAC is filled only once the API is ready; the result is the setup outcome, and the record is stored only on success |
| `SynologyDsm.UnloadEntry` | homeassistant/components/synology_dsm/__init__.py:128-134 | returns what the platform unload returned and removes the record exactly then |

## Left out

- HTTP framework: view registration (`async_setup_scanner`), `HomeAssistantView`, `json_message` and `request.json()`. A body that does not decode is the `Malformed` input. A body that decodes to something other than an object is not modelled.
- Logging is left out, including the full-payload log before any check and the nested `data["data"]["secret"] = "hidden"` write. Nothing reads that dictionary after the write.
- `hass.async_create_task` and fire-and-forget scheduling are not modelled. A dispatch is an append to the sink's log.
- `int(float(unc))` is the parameter `intOfFloat`, where `None` stands for the caught `ValueError`. Float parsing is not modelled.
- Exceptions the accuracy conversion raises besides `ValueError` are not modelled: `TypeError` for null or containers, `OverflowError` for infinity, `KeyError` for a missing `unc`. The conversion runs before the "NaN" test, so in the source these abort the loop even for unknown coordinates.
- Missing required keys raise `KeyError` when the code reaches them: `version`, `type`, `data`, `observations`, `apMac`, `clientMac`, `location`, `lat`, `lng`. The model makes them required fields, so these failures cannot be expressed. Where the code never reads a key, the model's verdict does not depend on its value: `SecretCheckedFirst` shows that a failed secret check ignores version, type, apMac and observations, and `Validate`'s ensures show that an accepted request with no observations never reads apMac.
- The model's observations are always a list. A JSON `null` there is not represented.
- `clientMac` is a string, so `str(mac)` is the MAC itself. Other types are not modelled.
- The attribute dictionary is a map, so insertion order is not modelled.
- The configuration schemas are not modelled.
- Synology SDK and host services are not modelled: `SynoApi`, coordinator construction and first refresh (whose own failures are not modelled), `async_setup_services`, `async_setup_platforms`, the update listener and reload, `api.async_unload`, and the executor job that reads `network.macs`. Their results are inputs.
- The device registry's set of identifiers is a sequence, and "the first" is element 0. Set iteration order is not modelled.
- A device with no identifiers makes `next(iter(...))` raise. `SetupEntry` requires every listed device to have one.
- Identifier components are strings, so `str(x)` is `x`. Other component types are not modelled.
- An SDK exception without arguments would raise `IndexError` at `err.args[0]`; the model's exception always carries a first argument. Which exception family an SDK error belongs to is an input.
- SynologyDsm.SetupOutcome: the auth-failed error carries the details value rather than the text `"reason: " + str(details)`, because Python's `str()` of an arbitrary JSON value is not modelled.
- An SDK exception outside both the auth-failed and the connection-failed families propagates out of `async_setup_entry` in the source, and so does a non-connection exception from the switch coordinator's setup. `ApiSetup` and the `switchSetupOk` input have no variant for either.
- `entry.unique_id` is a string; a missing unique id (`None`) is not modelled.
- SynologyDsm.Unloaded and SynologyDsm.UnloadEntry require the entry's record to be in the store when the platforms unloaded. The `KeyError` that `hass.data[DOMAIN][entry.unique_id]` raises for a missing record is not modelled; the host unloads only entries it loaded.
- The constants `DEFAULT_VERIFY_SSL`, `EXCEPTION_DETAILS`, `EXCEPTION_UNKNOWN`, `CONF_MAC`, `CONF_VERIFY_SSL`, `DOMAIN` and the three Surveillance Station API keys are defined in files that are not part of this model. They take assumed values (`False`, `"details"`, `"unknown"`, `"mac"`, `"verify_ssl"`, `"synology_dsm"`, `"SYNO.SurveillanceStation.Camera"`/`.Info`/`.HomeMode`). No property depends on these values.
