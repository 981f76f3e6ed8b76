# farm_influxdb: server resolution and server-list editing

This project is a Dafny model of the two pieces of logic in the farm_influxdb
Drupal module that can be stated on their own.

1. **Client resolution.** `InfluxdbServerClientFactory` takes a server id, a
   data stream type id or a data stream and produces the option bundle an
   InfluxDB client is built from. It finds the type's `server_id` setting and
   rejects a PHP-empty one. Then it takes the first stored server whose `id`
   is that string, and rejects an unknown id. Finally it merges the caller's
   options with PHP's array union. `InfluxdbBase::getClient` delegates to the
   factory.
2. **Server-list editing.** `InfluxdbSettingsForm` does four things with the
   server list:
   - it seeds the form state's list from configuration;
   - it shows each row with a title and default values;
   - it appends and removes rows in place;
   - it saves the list back to configuration unchanged.

The code is split into these modules:

- `Wrappers` (wrappers.dfy) holds `Option` and `Result`.
- `Php` (php.dfy) holds the PHP value rules the code depends on. It models
  scalar values, `isset`, `empty`, `??`, string conversion and the array
  union `+`. It also models integer-keyed arrays (`KeyedList`): keys in
  iteration order, entries, and the next free index used by `$a[] = ...`.
  `unset` is modelled on the same arrays.
- `ClientFactory` (client_factory.dfy) models the factory. The stored server
  list is read once in the constructor and never changed, so the factory is a
  datatype value and each resolution is a function. The result is the merged
  option array, not an SDK object.
- `DataStreamTypePlugin` (influxdb_base.dfy) models the plugin base class. It
  is a value that holds the factory it was given at construction.
- `SettingsForm` (settings_form.dfy) models the form. The form state and the
  configuration object are classes whose `servers` field the handlers
  reassign. `BuildForm` loops over the rows the way the source's `foreach`
  does.

## Model

| member | source | states |
|---|---|---|
| `ClientFactory.NewFactory` | src/InfluxdbServerClientFactory.php:34-36 | The server list is read once at construction, in the configured list's iteration order. A null `servers` setting fails, because the property is typed `array`. |
| `ClientFactory.Matches` | src/InfluxdbServerClientFactory.php:59-61 | A record matches exactly when its `id`, read as null when missing, is the requested string. The comparison is `===`, so an id stored as an integer never matches. |
| `ClientFactory.FilterById` | src/InfluxdbServerClientFactory.php:59-61 | The filter keeps only records whose `id` is set and identical to the requested string, and takes them from the stored list. The result is empty exactly when no record matches. |
| `ClientFactory.FilterStartsWithFirstMatch` | src/InfluxdbServerClientFactory.php:59-64 | `reset()` of the filtered list returns the first record in list order whose id matches. |
| `ClientFactory.FirstMatchExists` | src/InfluxdbServerClientFactory.php:63-67 | If any record has the id, a first such record exists, so the call does not throw. |
| `ClientFactory.InfluxdbServerClientFactory.CreateClientFromServerConfig` | src/InfluxdbServerClientFactory.php:58-73 | The call fails exactly when no record has the id, and the error is "server not found" for that id. On success the result carries the requested id and includes every option key. |
| `ClientFactory.ResolvesToFirstMatch` | src/InfluxdbServerClientFactory.php:59-71 | The result is the array union of the first matching record with the options. |
| `ClientFactory.LaterDuplicateIgnored` | src/InfluxdbServerClientFactory.php:63-64 | With no options, a later record that repeats the id but differs from the first is never the result. `ResolvesToFirstMatch` covers any options. |
| `ClientFactory.EmptyOptionsGiveStoredRecord` | src/InfluxdbServerClientFactory.php:58-71 | With no options, the result is the first matching stored record, unchanged. |
| `ClientFactory.ResolvedWithoutOptionsIsStored` | src/InfluxdbServerClientFactory.php:58-71 | With no options, a successful result is one of the stored records, namely the one at the first position holding the id. |
| `ClientFactory.StoredValuesWin` | src/InfluxdbServerClientFactory.php:70-71 | The result's keys are the record's keys plus the option keys. Every stored key keeps its stored value, and an option only supplies a key the record lacks. |
| `ClientFactory.StoredValueShadowsOption` | src/InfluxdbServerClientFactory.php:52-71 | Example: a stored timeout of 10 is kept when the caller passes a timeout of 30, although the comment says options override. |
| `ClientFactory.InfluxdbServerClientFactory.CreateClientWithOverrides` | src/InfluxdbServerClientFactory.php:52-70 | Corrected merge: the same failure cases, and every option appears in the result with the caller's value. |
| `ClientFactory.OverridesApplyToFirstMatch` | src/InfluxdbServerClientFactory.php:52-64 | The corrected merge puts the options over the first matching record. |
| `ClientFactory.MergesAgreeWithoutCollisions` | src/InfluxdbServerClientFactory.php:70-71 | When the options and the record share no key, the code as written and the corrected merge give the same result. |
| `ClientFactory.ConfiguredServerId` | src/InfluxdbServerClientFactory.php:105-112 | A missing type fails. A PHP-empty `server_id` (absent, "", "0", 0, false) fails with the type's label. Otherwise the call succeeds, and the server id passed on is the setting as a string, which is neither "" nor "0". |
| `ClientFactory.InfluxdbServerClientFactory.CreateClientFromDataStreamType` | src/InfluxdbServerClientFactory.php:104-115 | A missing type, or a type with an empty `server_id`, fails with the matching error. A successful result carries the type's server id. |
| `ClientFactory.TypeResolutionDelegates` | src/InfluxdbServerClientFactory.php:114 | With a non-empty setting, resolving by type gives the same result as resolving by that server id with the same options. |
| `ClientFactory.MissingServerIdSkipsLookup` | src/InfluxdbServerClientFactory.php:108-112 | With an empty `server_id`, any two factories give the same error whatever servers they hold, so no server lookup happens. |
| `ClientFactory.InfluxdbServerClientFactory.CreateClientFromDataStream` | src/InfluxdbServerClientFactory.php:86-91 | A stream whose type is missing, or has an empty `server_id`, fails with the type-level error. Otherwise the result is exactly that of resolving the type's server id, as a string, with the same options. |
| `ClientFactory.FailureIndependentOfOptions` | src/InfluxdbServerClientFactory.php:86-115 | Whether resolution fails, and with which error, does not depend on the options. |
| `ClientFactory.Message` | src/InfluxdbServerClientFactory.php:66-111 | The not-found message names the requested id, and the missing-setting message names the type's label. |
| `DataStreamTypePlugin.InfluxdbBase.GetClient` | src/Plugin/DataStream/DataStreamType/InfluxdbBase.php:55-57 | A successful result is a stored server record itself, with no options merged: the first record in list order whose id is the type's server id. The factory's errors come through unchanged. |
| `DataStreamTypePlugin.GetClientIgnoresOptions` | src/Plugin/DataStream/DataStreamType/InfluxdbBase.php:56 | The result of getClient does not depend on the options passed. |
| `DataStreamTypePlugin.GetClientDropsOptions` | src/Plugin/DataStream/DataStreamType/InfluxdbDataStreamTypeInterface.php:18-19 | Example: a bucket passed in the options is missing from the result, against the interface's promise that options override the server config. |
| `DataStreamTypePlugin.InfluxdbBase.GetClientWithOptions` | src/Plugin/DataStream/DataStreamType/InfluxdbDataStreamTypeInterface.php:18-24 | Corrected getClient: the result is the options unioned over the server record getClient returns, so every option appears with the caller's value and every other key comes from the server config. It succeeds and fails exactly when getClient does, with the same errors. |
| `Php.ArrayUnion` | src/InfluxdbServerClientFactory.php:71 | `$left + $right` has the keys of both arrays. Every key of the left array keeps its value, and the right array supplies only the keys the left array lacks. |
| `Php.UnionWithEmpty` | src/InfluxdbServerClientFactory.php:58-71 | A union with the default `[]` on either side changes nothing. |
| `Php.IsEmpty` | src/InfluxdbServerClientFactory.php:109 | `empty()` holds for a scalar exactly when its string form is "" or "0". |
| `Php.ToPhpString` | src/InfluxdbServerClientFactory.php:114 | String conversion: null and false give "", true gives "1", a string is itself. An integer gives its decimal digits without leading zeros (0 gives "0"), with "-" in front when negative, and the digits read back as the number. |
| `Php.Coalesce` | src/Form/InfluxdbSettingsForm.php:131-137 | `??` keeps a non-null value and otherwise gives the default. The result is never null when the default is not null. |
| `Php.NatToDecimal` | src/Form/InfluxdbSettingsForm.php:165 | A server number is printed as decimal digits without leading zeros. |
| `Php.DecimalRoundTrip` | src/Form/InfluxdbSettingsForm.php:165 | Reading the printed number back gives the number. |
| `Php.Values` | src/InfluxdbServerClientFactory.php:59 | The records of a keyed list are listed in iteration order, one per key. |
| `Php.Append` | src/Form/InfluxdbSettingsForm.php:164-167 | `$servers[] = ...` adds exactly one entry, under a key greater than every existing key, and keeps the other entries unchanged. In iteration order the new record comes last. |
| `Php.Unset` | src/Form/InfluxdbSettingsForm.php:185 | `unset($servers[$delta])` removes only that key. No other key or entry changes and nothing is renumbered. The iteration order is the old one with that key cut out. Removing an absent key changes nothing. |
| `Php.Without` | src/Form/InfluxdbSettingsForm.php:185 | Removing a key from the iteration order removes only that key and keeps the order free of repeats. For a key that occurs once, the result is the old order with that one position cut out, so the other keys keep their relative order. |
| `Php.UnsetKeepsValueOrder` | src/Form/InfluxdbSettingsForm.php:185 | After `unset`, the remaining records are visited in the same relative order, with only the removed record cut out. |
| `Php.UnsetUndoesAppend` | src/Form/InfluxdbSettingsForm.php:164-185 | Unsetting the key an append just used restores the keys, their order and the entries. |
| `SettingsForm.NewServerRecord` | src/Form/InfluxdbSettingsForm.php:164-167 | A new record is labelled "Server N+1" for a list of N servers, has `verifySSL` true, and holds no other key, so it has no id and shows the default timeout. |
| `SettingsForm.RowFor` | src/Form/InfluxdbSettingsForm.php:74-138 | A row's title is the details title of its record, and its id, label, URL, token, org and bucket fields show the record's values. It shows timeout 10 and `verifySSL` true when they are missing; present values are shown unchanged, and neither field is shown as null. |
| `SettingsForm.DetailsTitle` | src/Form/InfluxdbSettingsForm.php:74-79 | The title starts with the label. It is longer than the label exactly when the id is not PHP-empty, and then it ends with " (id)". |
| `SettingsForm.InfluxdbSettingsForm.BuildForm` | src/Form/InfluxdbSettingsForm.php:39-155 | The form state's list is seeded from configuration, or `[]` when configuration has none, and only when it is not yet set. One row is built per server, in list order. |
| `SettingsForm.InfluxdbSettingsForm.AddServer` | src/Form/InfluxdbSettingsForm.php:160-172 | The list gets the new record appended and the form is marked for rebuild. A null list throws in `count()` and nothing changes. |
| `SettingsForm.InfluxdbSettingsForm.RemoveServer` | src/Form/InfluxdbSettingsForm.php:177-190 | The entry at `delta` is removed and the form is marked for rebuild. A null list stays null. |
| `SettingsForm.InfluxdbSettingsForm.SubmitForm` | src/Form/InfluxdbSettingsForm.php:202-208 | Configuration receives the form state's list unchanged, or `[]` when it is null. |
| `SettingsForm.AddedServerComesLast` | src/Form/InfluxdbSettingsForm.php:163-170 | addServer keeps every existing entry and puts one record after all of them. That record is labelled "Server N" with N one more than the old count, and has `verifySSL` true. |
| `SettingsForm.RemoveUndoesAdd` | src/Form/InfluxdbSettingsForm.php:163-185 | Removing the row that addServer just appended gives back the same keys, order and entries. |
| `SettingsForm.RemoveAbsentIsNoOp` | src/Form/InfluxdbSettingsForm.php:184-185 | Removing a key that is not in the list changes nothing. |
| `SettingsForm.RemoveThenAddRepeatsLabel` | src/Form/InfluxdbSettingsForm.php:165-185 | Labels count rows rather than keys. If a remaining row is already labelled with the current count, removing another row and adding one gives two rows with the same label. |

## Left out

- The InfluxDB SDK and `InfluxdbServerClient` are not part of this model. A resolution returns the merged option array that would be passed to the client's constructor.
- The connectivity test is not part of this model. It is live network I/O through the SDK.
- Render arrays, the AJAX callback `updateServers`, widget types and `#required` or machine-name validation are left out, because they are UI framework glue. The same goes for `getFormId`, `getEditableConfigNames` and the status message from `parent::submitForm`.
- Translation is left out. The label that addServer writes is a translatable markup object in the source; here it is the plain string "Server N".
- The dependency-injection `create()` methods are left out, because they only wire up the container.
- The config factory is reduced to the `servers` value of one configuration object, and saving is the assignment to it. `DataStreamType::load` is reduced to a map from type id to label and `server_id` setting. A data stream is reduced to the id of the type it references.
- A type id that does not load ends in an error value (`TypeNotLoaded`) that stands for PHP's fatal "method call on null". Its message is the one `createClientFromDataStreamType` raises, at `getThirdPartySetting()`. Through `createClientFromDataStream` a dangling type reference fails one step earlier, at `->id()`, with a different message; the model gives both paths the same error.
- The row title is always a string here. When the id is empty the source uses `$label` unconverted, which is null for a missing label and a translatable markup object for a fresh row; the displayed text is the same.
- Records are maps, so key order inside a record is not modelled. In PHP the union puts the stored keys first and the option keys after them.
- Only null, booleans, integers and strings are modelled as values. Floats and nested arrays are left out, and list keys are integers only.
- A `server_id` that is not a string is converted with PHP's string conversion, as coercive typing does for the `string` parameter.
- A form-state list carries PHP's next free index with it. When Drupal rebuilds form values from submitted input, PHP builds a new array and the index starts again from the largest key. That rebuild is not modelled; every append still uses a key above all existing keys.
- Reading a missing key in a row, which gives a PHP warning and null, is modelled as null.
- `removeServer` reads the row's key from the triggering element's `#array_parents`; here the key is a parameter.
- `SettingsForm.InfluxdbSettingsForm.AddServer`: when the list is null, PHP 8 throws a TypeError from `count()`. The model returns `false` and changes nothing; it does not model the exception propagating.

## Findings

| source | as written | input that shows it | evidently intended | confidence | as-written member | corrected member |
|---|---|---|---|---|---|---|
| src/InfluxdbServerClientFactory.php:70-71 | `$server + $options` keeps the stored value when a key appears in both | stored `[{id: "main", timeout: 10}]`, server id "main", options `{timeout: 30}`: the result has timeout 10 | `$options + $server`, so options override the server config, as the comments at lines 52-53 and 70 say | high; not executed | `ClientFactory.StoredValueShadowsOption` | `ClientFactory.InfluxdbServerClientFactory.CreateClientWithOverrides` |
| src/Plugin/DataStream/DataStreamType/InfluxdbBase.php:56 | `getClient` calls `createClientFromDataStream($data_stream)` without `$options` | stored `[{id: "main", url: ...}]`, a type "sensor" whose `server_id` is "main", options `{bucket: "farm"}`: the result has no bucket | pass `$options` on, so they override the server config as the interface documents (InfluxdbDataStreamTypeInterface.php:18-19); passing them on alone still leaves stored values winning because of the first row, so the corrected member also uses the corrected merge | high; not executed | `DataStreamTypePlugin.GetClientDropsOptions` | `DataStreamTypePlugin.InfluxdbBase.GetClientWithOptions` |
