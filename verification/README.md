# tangogql core, modelled in Dafny

tangogql is a GraphQL front end to a Tango control system. This project
models the logic at its core and proves properties of that model:

- **Event accumulation** (`EventKeeping`). `EventKeeper` holds pending
  values in a two-level dict from event type to attribute name. `put`
  overwrites, so the last value wins. `get` drains the pending dict and
  folds what it drained into a `latest` snapshot. The class keeps the
  source's fields. Python dicts are insertion-ordered association lists
  (`Dicts`), because the config resolver's output order follows dict
  order.
- **Subscription resolvers** (`Subscription`):
  - the last-`/` split of an attribute name;
  - the config-event batch built from one drain;
  - the unsubscribe resolvers working on a listener registry, a class with
    a `map` field;
  - the change-event resolver's partition into push-subscribed and polled
    attributes, and the order of events within one polling round.
- **Listener** (`Listener`):
  - `error_str`, `format_value`, `format_value_event` and
    `format_config_event`;
  - `TaurusWebAttribute.eventReceived`, a class that updates its cached
    fields and offers a `{"type", "data"}` record to a bounded queue. The
    queue drops the record when it is full.
- **Configuration** (`ConfigFile`): validation of the parsed JSON
  configuration, and the `ConfigError` message.
- **HTTP routes** (`Routes`):
  - `ClientInfo`;
  - the request context built from token claims;
  - the `/db` handler's choice between a 401 and a JSON body.
- **Client actions** (`Actions`): the Redux action creators and the
  entity-id functions. The attribute id is the inverse of the server's
  last-`/` split.

Tango device calls become abstract outcomes passed in as data:
- subscribing either succeeds with an event id or is refused (DevFailed);
- `get_events` is a sequence of readings;
- `read` either succeeds or fails.

The clock reading of `EventKeeper.put` is the `now` parameter. The JSON
value type `Values.Json` stands for the parsed JSON and Python values the
code inspects. `Values.Truthy` gives their truthiness.

## Model

| member | source | states |
|---|---|---|
| Dicts.GetSet | tangogql/schema/subscription.py:171 | Assigning `d[k] = v` makes `k` map to `v` and leaves every other key's value unchanged. |
| Dicts.Set | tangogql/schema/subscription.py:171 | Assigning to an existing key keeps the key order; a new key is appended at the end. |
| Dicts.SetDistinct | tangogql/schema/subscription.py:171 | Assignment never duplicates a key. |
| Dicts.GetUpdate | tangogql/schema/subscription.py:178 | After `d.update(o)` a key of `o` has `o`'s value; every other key keeps its value in `d`. |
| Dicts.UpdateDistinct | tangogql/schema/subscription.py:178 | `update` never duplicates a key. |
| EventKeeping.PutEntryLookup | tangogql/schema/subscription.py:169-171 | After `put(model, action, v)`, the pending entry for `(action, model)` is `v`; every other entry is unchanged. |
| EventKeeping.PutEntryWellFormed | tangogql/schema/subscription.py:169-172 | `put` keeps the two-level dict free of duplicate keys. |
| EventKeeping.MergeAllLookup | tangogql/schema/subscription.py:177-178 | After folding a drain into `latest`, a drained `(type, model)` has its drained value; any other entry keeps its previous value. |
| EventKeeping.MergeAllWellFormed | tangogql/schema/subscription.py:177-178 | Folding a drain into `latest` keeps it free of duplicate keys. |
| EventKeeping.FoldDrained | tangogql/schema/subscription.py:177-178 | The loop of `get` leaves the snapshot equal to the fold of every drained entry, in drain order, into the old snapshot. It stays free of duplicate keys. |
| EventKeeping.PendingIsLastPut | tangogql/schema/subscription.py:169-171 | After any sequence of puts, the pending value of `(action, model)` is the value of the last put to that pair. Earlier values are lost, none invented. |
| EventKeeping.EventKeeper.constructor | tangogql/schema/subscription.py:164-167 | All three dicts start empty. |
| EventKeeping.EventKeeper.Put | tangogql/schema/subscription.py:169-172 | `events` and `timestamps` get the entry for `(action, model)`, with `value` and the clock reading respectively; `latest` is unchanged. |
| EventKeeping.EventKeeper.Get | tangogql/schema/subscription.py:174-179 | Returns exactly the pending dict and leaves it empty. `latest` becomes the fold of the drained entries into its old value. Timestamps are untouched. |
| EventKeeping.DeliveredOnce | tangogql/schema/subscription.py:169-179 | A value just put is returned by the next `get`; a second `get` with no `put` between returns an empty dict. |
| Subscription.LastSlash | tangogql/schema/subscription.py:113 | Finds the last `/` in a name, or reports that there is none. |
| Subscription.RSplitSlash | tangogql/schema/subscription.py:113 | `rsplit('/', 1)` unpacks into two parts iff the name has a `/`. The parts joined by `/` give back the name, and the second part holds no `/`. |
| Subscription.RSplitJoin | tangogql/schema/subscription.py:113 | Splitting `device + "/" + name` gives back `(device, name)` when `name` holds no `/`. |
| Subscription.MakeConfigData | tangogql/schema/subscription.py:115-121 | `ConfigData` is built iff all six fields are present, from exactly those fields. Otherwise it is the KeyError of the first absent field in keyword order (description, label, unit, format, data_format, data_type). |
| Subscription.EntryEvent | tangogql/schema/subscription.py:113-126 | One entry passes iff its name holds a `/` and, for "CONFIG", its value has all six fields. A slash-less name raises ValueError whatever the type. A splittable "CONFIG" entry missing a field raises the KeyError of the first absent field. Only a "CONFIG" entry builds an event, and that event describes it. |
| Subscription.AllCompleteConcat | tangogql/schema/subscription.py:111-121 | Entries have all fields iff both halves of a concatenation do. |
| Subscription.EntriesBatchOk | tangogql/schema/subscription.py:112-121 | One event type's entries give a batch iff every name splits and, for "CONFIG", every value has all six fields. |
| Subscription.EntriesBatchShape | tangogql/schema/subscription.py:112-126 | A "CONFIG" dict gives one event per entry, in order, each describing its entry; any other type's dict adds nothing. |
| Subscription.ConfigBatchOk | tangogql/schema/subscription.py:111-126 | A drain builds a batch without error iff every attribute name of every type holds a `/`, and every "CONFIG" value has all six fields. The split comes before the type test. |
| Subscription.ConfigBatchShape | tangogql/schema/subscription.py:111-126 | A built batch has one event per "CONFIG" entry, in dict order. Each event carries the device and name from the last-`/` split and the entry's fields. |
| Subscription.ConfigRound | tangogql/schema/subscription.py:108-128 | One round drains the keeper and folds the drain into `latest`, leaving the timestamps unchanged. It yields the batch only when it is non-empty. A missing field or an unsplittable name is the error. |
| Subscription.HeldNamesWithout | tangogql/schema/subscription.py:135-140 | Removing a name not requested does not change which requested names are cleared. |
| Subscription.UnsubLoopSpec | tangogql/schema/subscription.py:135-140 | The loop deletes exactly the names it reports removed, each registered with a truthy listener, and nothing else. A KeyError names a requested name that is absent or already deleted. With no KeyError, the removed names are the held requested names in request order. |
| Subscription.UnsubLoopStops | tangogql/schema/subscription.py:135-140 | The loop raises KeyError at the first request whose name is unregistered or was deleted by an earlier request, and at no other. The deletions made before it stay made and are the held names requested before it, in request order. |
| Subscription.UnsubLoopOutcome | tangogql/schema/subscription.py:135-140 | The loop runs through without KeyError iff no request names an unregistered or already deleted name. |
| Subscription.MissingNameRaises | tangogql/schema/subscription.py:134-141 | With a non-empty registry, any requested name that is not registered makes the resolver raise KeyError. |
| Subscription.ListenerRegistry.constructor | tangogql/schema/subscription.py:45-46 | The registry starts empty. |
| Subscription.ListenerRegistry.Register | tangogql/schema/subscription.py:103-106 | Every model is registered with its own listener. Other registrations are unchanged. |
| Subscription.ListenerRegistry.Unsubscribe | tangogql/schema/subscription.py:132-156 | An empty registry gives "No attribute to unsubscribe" and is unchanged. Otherwise the registry and message follow the loop: "Unsubscribed: [...]" with the deleted names, or a KeyError that keeps the deletions already made. The cleared listeners are the deleted names. |
| Subscription.Partition | tangogql/schema/subscription.py:74-83 | Every model goes to `subs` (with its event id) or `poll`, in model order, following its subscribe outcome. A model whose proxy cannot be built is the error. |
| Subscription.PartitionCount | tangogql/schema/subscription.py:77-83 | Each model lands in exactly one of the two lists: their lengths add up to the number of models. |
| Subscription.SubscribedListed | tangogql/schema/subscription.py:80-81 | A model whose subscription succeeded is in `subs` with its event id. |
| Subscription.RefusedPolled | tangogql/schema/subscription.py:82-83 | A model whose subscription raised DevFailed is in `poll`. |
| Subscription.ChangeEventFrom | tangogql/schema/subscription.py:58-72 | The event carries the proxy's device and attribute names, the reading's value, set value and quality, and its time in seconds. |
| Subscription.ChangeEventIdentifies | tangogql/schema/subscription.py:58-72 | Equal events come from the same proxy and carry the same value, set value and quality. |
| Subscription.PushedEventsCount | tangogql/schema/subscription.py:87-90 | Every pushed notification yields exactly one event. |
| Subscription.PolledEventsCount | tangogql/schema/subscription.py:92-94 | Each polled attribute yields at most one event per round. All of them yield one exactly when no read fails. |
| Subscription.ChangeRound | tangogql/schema/subscription.py:86-94 | Given the `subs` and `poll` lists, one round yields every pushed event first, subscription by subscription and notification by notification. Then come the polled reads in order, up to the first failing read, whose failure ends the stream. |
| Subscription.FirstRound | tangogql/schema/subscription.py:74-94 | The setup loop followed by one round: an unresolvable model is the error, and otherwise the round runs over exactly the `subs` and `poll` the setup built from the models, in model order. |
| Listener.StateName | listener.py:19 | `str` of a state names that state and reads back as it. |
| Listener.QualityName | listener.py:29 | `str` of a quality names that quality and reads back as it. |
| Listener.FormatValue | listener.py:17-22 | A DevState type gives a string. Otherwise an array gives its bytes, and any other value comes back unchanged. |
| Listener.ErrorStr | listener.py:10-14 | A DevFailed gives text that parses back into the reason and description of the first entry of its stack, when the reason holds no `]`. Any other error gives its `str`. |
| Listener.FormatValueEvent | listener.py:25-31 | For a DevState attribute the value and write value read back as their states. For any other attribute an array becomes its raw bytes and any other value is sent unchanged. The quality reads back as the event's quality; the time is the event's time in seconds. |
| Listener.DisplayUnit | listener.py:38 | "No unit" becomes ""; every other unit passes through unchanged. |
| Listener.FormatConfigEvent | listener.py:34-41 | The config record copies description, label and format, and maps the unit through the "No unit" rule. |
| Listener.FormatConfigIdempotent | listener.py:34-41 | Formatting a config record a second time changes nothing. |
| Listener.EventRecord | listener.py:58-73 | The record's data has exactly one key, the attribute's name. An Error event gives "ERROR" with `error_str`, a Config event gives "CONFIG" with the config record, and anything else gives "CHANGE" with the value record. |
| Listener.BoundedQueue.constructor | listener.py:74-77 | An empty queue with the given `maxsize`, where 0 means unbounded. |
| Listener.BoundedQueue.PutNowait | listener.py:74-77 | A queue with room appends the record at the end. A full queue reports it and is unchanged. |
| Listener.TaurusWebAttribute.constructor | listener.py:47-52 | Stores name and queue; the time is 0 and both cached events are None. |
| Listener.TaurusWebAttribute.EventReceived | listener.py:56-77 | An Error event changes no cached field. A Config event sets only `last_config_event`. Any other event sets `_last_time` to the seconds of its time and `last_value_event` to the value record. The record is appended when the queue has room and dropped when it is full. |
| ConfigFile.ConfigErrorMessage | tangogql/config.py:29-31 | The message is "Config error: " followed by the reason. |
| ConfigFile.ConfigErrorMessageInjective | tangogql/config.py:29-31 | Distinct reasons give distinct messages. |
| ConfigFile.LoadConfig | tangogql/config.py:9-26 | A missing secret, then a non-string secret, then a non-string group, each give their ConfigError, checked in that order. Groups default to `[]`. On success the secret and groups are stored as given. |
| ConfigFile.LoadConfigStores | tangogql/config.py:21-26 | A loaded config holds the file's secret, and its groups or `[]` when they are absent. |
| ConfigFile.StringGroupsAccepted | tangogql/config.py:21-23 | A `required_groups` that is a string such as "admin" passes the check and is stored as a string. |
| ConfigFile.StrictGroupsAreNames | tangogql/config.py:21-26 | The corrected loader accepts only a list of strings as groups, and stores exactly those strings. |
| ConfigFile.StrictAgreesOnLists | tangogql/config.py:9-26 | When groups are not a string or an object, the corrected loader accepts and rejects exactly as the code does, with the same error and stored values. |
| Routes.NewClientInfo | tangogql/routes.py:83-92 | A user that is neither None nor a string is a TypeError, checked first. Then a non-list groups value is a TypeError. Otherwise both are stored as given. |
| Routes.BuildContext | tangogql/routes.py:95-110 | An invalid token gives an anonymous client with no groups. Otherwise user and groups come from the "username" and "groups" claims, defaulting to None and `[]`, with ClientInfo's checks. The context carries the app's config. |
| Routes.AnonymousWithoutClaims | tangogql/routes.py:104-108 | Claims with neither "username" nor "groups" give an anonymous client with no groups. |
| Routes.HasAuthError | tangogql/routes.py:59-62 | The search finds an AuthError iff some error wraps one. |
| Routes.AssembleResponse | tangogql/routes.py:57-67 | Any error wrapping an AuthError gives 401 whatever else there is. Otherwise the body has "errors" iff there are errors, holding the deduplicated parsed errors, and "data" iff the data is truthy. |
| Actions.ActionTypesDistinct | js/actions.js:6-10 | The five action types are pairwise distinct. |
| Actions.ReceiveData | js/actions.js:13-15 | A reducer reads the action back as a RECEIVE of exactly the given data. |
| Actions.ReceiveChange | js/actions.js:17-19 | A reducer reads the action back as a CHANGE of exactly the given data. |
| Actions.ReceiveConfig | js/actions.js:21-23 | A reducer reads the action back as a CONFIG of exactly the given data. |
| Actions.AddAttributeListener | js/actions.js:25-28 | The data has exactly the keys device and attribute, and a reducer reads the action back as an ADD_ATTRIBUTE_LISTENER of exactly the given device and attribute. |
| Actions.RemoveAttributeListener | js/actions.js:30-33 | The data has exactly the key model, and a reducer reads the action back as a REMOVE_ATTRIBUTE_LISTENER of exactly the given model. |
| Actions.CreateInjective | js/actions.js:13-33 | No two creators make the same action, and no creator makes the same action from different arguments. |
| Actions.DecodeCreate | js/actions.js:13-33 | Every action a reducer reads as some creator's is exactly the action that creator makes from the arguments read. |
| Actions.GetName | js/actions.js:38 | A device's id is its name. |
| Actions.GetDomainId | js/actions.js:41 | A domain's id is its name. |
| Actions.GetPropertyId | js/actions.js:39 | A property id splits at its last `/` back into device and name when the name has no `/`. |
| Actions.GetAttributeId | js/actions.js:40 | The server's last-`/` split of an attribute id gives back its device and name when the name has no `/`. |
| Actions.SplitIsAttributeId | js/actions.js:40 | Any name that splits is the attribute id of its two parts. |
| Actions.AttributeIdInjective | js/actions.js:40 | Attributes whose names hold no `/` have distinct ids. |
| Actions.SlashInNameCollides | js/actions.js:40 | A `/` in an attribute name lets two different attributes share an id. |
| Actions.GetFamilyId | js/actions.js:42 | A family id splits at its last `/` back into domain and name when the name has no `/`. |
| Actions.GetMemberId | js/actions.js:43 | A member id splits at its last `/` into its family's id and its own name when the name has no `/`. |
| Actions.AttributeIdNamesDevice | js/actions.js:38-40 | Splitting the id of a device's attribute at its last `/` gives that device's id and the attribute's name, when the name has no `/`. |
| Actions.PropertyIdNamesDevice | js/actions.js:38-39 | Splitting the id of a device's property at its last `/` gives that device's id and the property's name, when the name has no `/`. |
| Actions.FamilyIdNamesDomain | js/actions.js:41-42 | Splitting the id of a domain's family at its last `/` gives that domain's id and the family's name, when the name has no `/`. |

## Left out

- Async generator machinery: `yield`, the `while True` and `while config_listeners` loops, and `asyncio.sleep` are not modelled. Each is modelled as one round (`ConfigRound`, `ChangeRound`). The `StopAsyncIteration` cleanup, which unsubscribes events, is not modelled.
- PyTango and Taurus calls are left out. `AttributeProxy`, `subscribe_event`, `get_events`, `read`, `unsubscribe_event` and `Attribute.addListener/removeListener` appear only as the outcomes they produce. `clear()` appears as the list of cleared names.
- `time.time()` is the `now` parameter of `EventKeeper.Put`.
- `totime()` is an exact real, not a float. `str()` of floats is not modelled; `str()` of integers, negative ones included, is.
- `ndarray.tobytes()` is carried as the raw bytes of the array value.
- `str(evt.quality)` is the quality's name.
- `Subscription.ListRepr` quotes names with single quotes but does not model Python's `repr` escaping of quotes and backslashes inside a name.
- graphene's object types are plain datatypes. Whether graphene accepts the `event_type` keyword of `ConfigEvent` is not modelled.
- The composition of a `TaurusWebAttribute` with an `EventKeeper` as its queue is left out. `EventKeeper` has no `put_nowait`, and each class is modelled against its own interface.
- Only the empty-registry branch of the change-event unsubscribe is reachable in the code, because nothing adds to `change_listeners`. Both registries are modelled by the same `ListenerRegistry` class.
- The HTTP and websocket plumbing is left out: the aiohttp routes, static files, the websocket handler, reading the request body, `tangoschema.execute` and the middlewares, and `json.dumps`.
- `Routes.BuildContext` takes the corrected `StrictConfig` (see "## Findings") as the application's configuration. `_build_context` reads only the secret, for `jwt.decode` (tangogql/routes.py:100), and otherwise passes the configuration through (tangogql/routes.py:109). Both loaders store the secret alike, so nothing it does depends on which loader produced the configuration.
- `jwt.decode` (RFC 7519) is the `decoded` parameter of `Routes.BuildContext`. A missing or invalid token is `None`.
- `ErrorParser.parse` and `remove_duplicated_errors` are the function parameters of `Routes.AssembleResponse`.
- `json.load` is not modelled: `LoadConfig` takes the parsed value.
- The Lokka client and the `fetch*` query functions (js/actions.js:64-176) are left out, because they are network I/O. The normalizr schemas and `dataDispatcher` (js/actions.js:45-80) are left out as a foreign library. The id functions are modelled.
- `print` calls are left out.
- Actions.GetName and Actions.GetDomainId are field reads: the id is the `name` field, and nothing beyond that is proved of them. The entities' other fields (a device's properties and attributes, a domain's families, js/actions.js:52-58) are not modelled; the cross-entity lemmas state how the ids link the tables.
- Listener.ErrorStr reads `err[0]` (listener.py:12) as the first entry of the DevFailed's error stack. This assumes PyTango's `DevFailed` supports indexing under Python 3; if it does not, `error_str` raises TypeError for every DevFailed, and that exception is not modelled.
- Subscription.ChangeRound takes every item `get_events` returns to carry a reading. A PyTango error event carries `attr_value` None, and `change_event_from` would then raise AttributeError at subscription.py:62; that exception is not modelled.
- Listener.EventRecord and Listener.TaurusWebAttribute.EventReceived require `WellTyped`: an Error event carries an error and a Change or Periodic event carries a reading. The code reads `evt_value.time` at listener.py:67 without a check, so a change event without a reading would raise AttributeError; the model takes Taurus to deliver well-typed events and does not model that exception.
- `Subscription.ChangeRound`: a failing `proxy.read()` raises DevFailed and ends the stream, as the code does. This differs from a design in which read errors are reported in-band.

## Findings

| source | as written | input that shows it | evidently intended | confidence | as-written member | corrected member |
|---|---|---|---|---|---|---|
| tangogql/config.py:21-23 | `all(isinstance(group, str) for group in required_groups)` iterates any iterable, so a string or an object passes (characters and keys are strings) and is stored as the groups | `{"secret": "s", "required_groups": "admin"}` loads with groups `"admin"` | `required_groups` must be a list of strings | medium, not executed | ConfigFile.StringGroupsAccepted | ConfigFile.StrictGroupsAreNames |
