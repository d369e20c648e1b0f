# Ethology — a verified model of the trait pipeline

Ethology is a Minecraft mod that explains a mob's behaviour as a list of "traits". It reads
the mob's AI: the goals in its goal and target selectors, and the sensors, memories and
activities of its brain. Each object found is mapped to a trait through a data-driven catalog,
registered inspectors and parsers, or a generic reflective heuristic. A hostility and
environment classifier computes stat traits, though the analysis never calls it. The result is a `MobScopedInfo`: stats plus two
id-deduplicated lists, capabilities and current states.

The server answers client scan requests through a per-player token-bucket rate limiter and a
per-type archetype cache. The client keeps a database of results with a 5-second freshness
window for instance scans. A data generator writes the catalog's trait files and their
translations. The journal screen lists likely mobs and debounces selections before scanning.

This project models that core in Dafny, one module per source file:

| module | source file |
|---|---|
| `ScopedInfo`, `Wire` | `api/MobScopedInfo.java` and its buffer encoding |
| `RequestScan` | `network/RequestScanPayload.java` |
| `PacketHandler` | `network/EthologyPacketHandler.java` |
| `Database` | `core/EthologyDatabase.java` |
| `Classifier` | `core/EcologicalClassifier.java` |
| `TraitManager` | `core/EthologyTraitManager.java` |
| `Reflection` | `core/EthologyReflection.java` |
| `GenericInspector` | `core/GenericGoalInspector.java` |
| `VanillaGoalInspectors` | `core/VanillaGoalInspectors.java` |
| `VanillaBrainInspectors` | `core/VanillaBrainInspectors.java` |
| `Registries` | `core/EthologyRegistries.java` |
| `GoalParserRegistry` | `core/GoalParserRegistry.java` |
| `GoalParser` | `core/GoalParser.java` |
| `BrainParser` | `core/BrainParser.java` |
| `EntityAnalyzer` | `core/EntityAnalyzer.java` |
| `EthologyScanner` | `core/EthologyScanner.java` |
| `TraitProvider` | `datagen/EthologyTraitProvider.java` |
| `Gui` | `client/gui/EthologyScreen.java`, `client/gui/MobListWidget.java` |

Shared value modules sit underneath:
- `Wrappers`: `Option`.
- `Text`: lower-casing, substring search, integer and hex printing.
- `Location`: resource locations and UUIDs.
- `Classes`: a class hierarchy as a parent map with a depth measure, so superclass walks terminate.
- `World`: goals, brains, entity types and living entities as plain descriptions, and field values.
- `Traits`: the trait record.

How the model takes the source's form:
- Code that updates fields in place is a class whose methods are proved against a specification
  function. Examples are the info accumulator, the rate limiter, the scan handler, the
  database, the trait manager, the field scanner, the registries, the data generator and the
  screen and list.
- Loops are `while`/`for` loops with invariants.
- Pure decisions (inspectors, scores, key derivation) are functions with lemmas.
- A Java `null` or a thrown exception is `None`.
- The clock (`System.currentTimeMillis`), the server level, the network connection and the
  debug switch are parameters.

## Model

| member | source | states |
|---|---|---|
| Reflection.MatchingFields | src/main/java/com/kjmaster/ethology/core/EthologyReflection.java:93-105 | the fields one class contributes to a scan are never more than it declares |
| Reflection.MatchingFieldsExact | src/main/java/com/kjmaster/ethology/core/EthologyReflection.java:93-105 | a declared field is kept exactly when the sought type is assignable from its type and it can be made accessible; a field that fails `setAccessible` is excluded |
| Reflection.MatchingFieldsStep | src/main/java/com/kjmaster/ethology/core/EthologyReflection.java:93-105 | one iteration of the declared-field loop appends that field and only when it is kept |
| Reflection.ChainFieldsStep | src/main/java/com/kjmaster/ethology/core/EthologyReflection.java:92-107 | the superclass walk collects a class's own fields before those of its superclasses |
| Reflection.ScanSound | src/main/java/com/kjmaster/ethology/core/EthologyReflection.java:88-109 | every field a scan returns is a kept field declared by a class on the walk |
| Reflection.ScanComplete | src/main/java/com/kjmaster/ethology/core/EthologyReflection.java:88-109 | every kept field of every class on the walk (up to but excluding `Object`) is returned |
| Reflection.ValuesIn | src/main/java/com/kjmaster/ethology/core/EthologyReflection.java:63-72 | reading the cached fields keeps at most one value per field, dropping reads that throw and values that are not instances |
| Reflection.FirstIsHeadOfValues | src/main/java/com/kjmaster/ethology/core/EthologyReflection.java:30-74 | the first-field lookup returns exactly the head of what the all-fields lookup returns |
| Reflection.AllOfType | src/main/java/com/kjmaster/ethology/core/EthologyReflection.java:57-74 | a null target gives the empty list; otherwise no more values than the scan has fields |
| Reflection.FirstOfType | src/main/java/com/kjmaster/ethology/core/EthologyReflection.java:30-47 | empty when no field value matches, else the first matching value |
| Reflection.FieldScanner.constructor | src/main/java/com/kjmaster/ethology/core/EthologyReflection.java:19 | the field cache starts empty |
| Reflection.FieldScanner.ScanForFields | src/main/java/com/kjmaster/ethology/core/EthologyReflection.java:88-109 | the nested loops return exactly the walk's kept fields, own class first |
| Reflection.FieldScanner.ScanDeclaredFields | src/main/java/com/kjmaster/ethology/core/EthologyReflection.java:93-105 | the inner loop returns exactly one class's kept fields in declaration order |
| Reflection.FieldScanner.GetCachedFields | src/main/java/com/kjmaster/ethology/core/EthologyReflection.java:79-83 | the answer is always the scan of the pair; a cached pair leaves the cache unchanged and a new one is memoised |
| Reflection.FieldScanner.GetFirstFieldOfType | src/main/java/com/kjmaster/ethology/core/EthologyReflection.java:30-47 | the loop returns the first readable instance value of the cached fields, and the cache stays consistent |
| Reflection.FieldScanner.GetAllFieldsOfType | src/main/java/com/kjmaster/ethology/core/EthologyReflection.java:57-74 | the loop returns every readable instance value of the cached fields, in order |
| Reflection.FieldScanner.ClearCache | src/main/java/com/kjmaster/ethology/core/EthologyReflection.java:115-117 | the cache is empty afterwards |
| Registries.Lookup | src/main/java/com/kjmaster/ethology/core/EthologyRegistries.java:26-28 | a lookup finds a value exactly when the key is registered, and it is the registered value |
| Registries.PutThenGet | src/main/java/com/kjmaster/ethology/core/EthologyRegistries.java:22-28 | a registration is seen by the next lookup of its key and by no other key |
| Registries.EthologyRegistries.constructor | src/main/java/com/kjmaster/ethology/core/EthologyRegistries.java:16-19 | all four tables start empty |
| Registries.EthologyRegistries.RegisterGoal | src/main/java/com/kjmaster/ethology/core/EthologyRegistries.java:22-24 | a goal inspector overwrites any earlier one for exactly that class |
| Registries.EthologyRegistries.GetGoalInspector | src/main/java/com/kjmaster/ethology/core/EthologyRegistries.java:26-28 | an exact-class lookup, with no superclass walk |
| Registries.EthologyRegistries.RegisterSensor | src/main/java/com/kjmaster/ethology/core/EthologyRegistries.java:31-33 | a sensor inspector overwrites any earlier one for that sensor type |
| Registries.EthologyRegistries.GetSensorInspector | src/main/java/com/kjmaster/ethology/core/EthologyRegistries.java:35-37 | found exactly when that sensor type is registered |
| Registries.EthologyRegistries.RegisterMemory | src/main/java/com/kjmaster/ethology/core/EthologyRegistries.java:40-42 | a memory inspector overwrites any earlier one for that memory type |
| Registries.EthologyRegistries.GetMemoryInspector | src/main/java/com/kjmaster/ethology/core/EthologyRegistries.java:44-46 | found exactly when that memory type is registered |
| Registries.EthologyRegistries.RegisterActivity | src/main/java/com/kjmaster/ethology/core/EthologyRegistries.java:49-51 | an activity inspector overwrites any earlier one for that activity |
| Registries.EthologyRegistries.GetActivityInspector | src/main/java/com/kjmaster/ethology/core/EthologyRegistries.java:53-55 | found exactly when that activity is registered |
| Database.FreshEntry | src/main/java/com/kjmaster/ethology/core/EthologyDatabase.java:38-46 | only a cached UUID can be returned, and then with its cached info |
| Database.FreshWindow | src/main/java/com/kjmaster/ethology/core/EthologyDatabase.java:38-46 | an entry registered at time t is returned exactly while now - t < 5000 ms |
| Database.OtherEntriesUnaffected | src/main/java/com/kjmaster/ethology/core/EthologyDatabase.java:21-46 | registering one UUID leaves every other UUID's freshness unchanged |
| Database.StaleStaysStale | src/main/java/com/kjmaster/ethology/core/EthologyDatabase.java:38-46 | without new registrations, an entry that is stale stays stale at every later time |
| Database.EthologyDatabase.constructor | src/main/java/com/kjmaster/ethology/core/EthologyDatabase.java:12-19 | all maps start empty and the scanned flag is false |
| Database.EthologyDatabase.Get | src/main/java/com/kjmaster/ethology/core/EthologyDatabase.java:31-33 | found exactly when the type has been registered |
| Database.EthologyDatabase.Register | src/main/java/com/kjmaster/ethology/core/EthologyDatabase.java:21-29 | the type maps to the info; an info with a UUID is also cached and stamped, so it is fresh at that instant; an info without one leaves the cache alone; cache and stamps keep the same keys |
| Database.EthologyDatabase.SetScanned | src/main/java/com/kjmaster/ethology/core/EthologyDatabase.java:56-58 | the flag takes the given value |
| Database.EthologyDatabase.Clear | src/main/java/com/kjmaster/ethology/core/EthologyDatabase.java:60-65 | every map is empty and the scanned flag is false |
| Traits.Keyed | src/main/java/com/kjmaster/ethology/core/EthologyTraitManager.java:92 | a keyed trait carries the given id, icon stack, key, arguments and category, and shows its key as its title |
| Traits.Titled | src/main/java/com/kjmaster/ethology/api/MobTrait.java:9 | a titled trait carries the given icon, title and description |
| Traits.AddByTitle | src/main/java/com/kjmaster/ethology/core/BrainParser.java:51-55 | a trait is appended exactly when no trait with its title is present; afterwards its title is present and titles stay unique |
| Traits.AddAllByTitleAppend | src/main/java/com/kjmaster/ethology/core/BrainParser.java:51-55 | offering two batches in turn equals offering their concatenation |
| Traits.AddAllByTitleOneMore | src/main/java/com/kjmaster/ethology/core/BrainParser.java:51-55 | offering one more trait after a batch is one more title-checked append |
| Traits.AddAllByTitleKeepsUnique | src/main/java/com/kjmaster/ethology/core/EntityAnalyzer.java:104-108 | however many traits are offered, no title appears twice |
| Traits.AddAllByTitleCovers | src/main/java/com/kjmaster/ethology/core/GoalParserRegistry.java:69-73 | every offered title ends up present, and the earlier list is kept as a prefix |
| Wire.TraitTokens | src/main/java/com/kjmaster/ethology/api/MobScopedInfo.java:88 | one token per trait, in list order |
| Wire.EncodeTraits | src/main/java/com/kjmaster/ethology/api/MobScopedInfo.java:88 | a written list is its count followed by its elements |
| Wire.TraitsFrom | src/main/java/com/kjmaster/ethology/api/MobScopedInfo.java:108 | reading n traits succeeds only with n tokens available and yields n traits |
| Wire.DecodeTraits | src/main/java/com/kjmaster/ethology/api/MobScopedInfo.java:108 | a read list ends right after its count and its elements |
| Wire.TraitsFromTokens | src/main/java/com/kjmaster/ethology/api/MobScopedInfo.java:108 | reading traits where their tokens lie gives exactly those traits |
| Wire.NoMoreTraits | src/main/java/com/kjmaster/ethology/api/MobScopedInfo.java:108 | once k traits cannot be read, no longer list can be read |
| Wire.TokensAtSplit | src/main/java/com/kjmaster/ethology/api/MobScopedInfo.java:73-92 | a concatenation lying in the stream means each part lies there, one after the other |
| Wire.DecodeEncodedTraits | src/main/java/com/kjmaster/ethology/api/MobScopedInfo.java:88-108 | a list written anywhere in a stream reads back unchanged and the reader stops right after it |
| Wire.OptionalUuidTokens | src/main/java/com/kjmaster/ethology/api/MobScopedInfo.java:77-80 | the flag plus a UUID only when present |
| Wire.DecodeOptionalUuid | src/main/java/com/kjmaster/ethology/api/MobScopedInfo.java:98-100 | a UUID is consumed exactly when the flag is true |
| Wire.DecodeEncodedOptionalUuid | src/main/java/com/kjmaster/ethology/api/MobScopedInfo.java:77-100 | an optional UUID reads back unchanged |
| Wire.ByteBuf.constructor | src/main/java/com/kjmaster/ethology/api/MobScopedInfo.java:94 | a buffer over the given tokens with its reader at the start |
| Wire.ByteBuf.Write | src/main/java/com/kjmaster/ethology/api/MobScopedInfo.java:74 | a write appends one token |
| Wire.ByteBuf.ReadLocation | src/main/java/com/kjmaster/ethology/api/MobScopedInfo.java:95 | a read returns the token at the reader and advances only on success |
| Wire.ByteBuf.ReadBool | src/main/java/com/kjmaster/ethology/api/MobScopedInfo.java:98 | as for locations, for the boolean flag |
| Wire.ByteBuf.ReadUuid | src/main/java/com/kjmaster/ethology/api/MobScopedInfo.java:99 | as for locations, for a UUID |
| Wire.ByteBuf.ReadDouble | src/main/java/com/kjmaster/ethology/api/MobScopedInfo.java:102-105 | as for locations, for a stat |
| Wire.ByteBuf.WriteTraits | src/main/java/com/kjmaster/ethology/api/MobScopedInfo.java:88 | the loop appends exactly the encoded list |
| Wire.ByteBuf.ReadTraits | src/main/java/com/kjmaster/ethology/api/MobScopedInfo.java:108 | the loop succeeds exactly when the list decodes, and then returns it and stops after it |
| Wire.WriteOptionalUuid | src/main/java/com/kjmaster/ethology/api/MobScopedInfo.java:77-80 | appends the flag and, when present, the UUID |
| Wire.ReadOptionalUuid | src/main/java/com/kjmaster/ethology/api/MobScopedInfo.java:98-100 | succeeds exactly when the optional UUID decodes, and returns it |
| RequestScan.Encode | src/main/java/com/kjmaster/ethology/network/RequestScanPayload.java:21-25 | three tokens with an instance, two without |
| RequestScan.Decode | src/main/java/com/kjmaster/ethology/network/RequestScanPayload.java:27-32 | a decoded request ends exactly its encoding's length after where it started |
| RequestScan.DecodeEncoded | src/main/java/com/kjmaster/ethology/network/RequestScanPayload.java:21-32 | a request written anywhere in a stream reads back unchanged |
| RequestScan.RoundTrip | src/main/java/com/kjmaster/ethology/network/RequestScanPayload.java:16-32 | reading what was written gives back every payload, consuming all of it |
| RequestScan.FlagDecidesUuid | src/main/java/com/kjmaster/ethology/network/RequestScanPayload.java:29-31 | a false flag gives no instance and reads no UUID; a true one reads exactly one UUID and fails without it |
| RequestScan.Write | src/main/java/com/kjmaster/ethology/network/RequestScanPayload.java:21-25 | appends exactly the encoding |
| RequestScan.Read | src/main/java/com/kjmaster/ethology/network/RequestScanPayload.java:27-32 | succeeds exactly when the stream decodes, and returns that request |
| ScopedInfo.AddById | src/main/java/com/kjmaster/ethology/api/MobScopedInfo.java:41-56 | a trait is appended exactly when no trait with its id is present |
| ScopedInfo.AddAllAppend | src/main/java/com/kjmaster/ethology/api/MobScopedInfo.java:109 | adding two batches in turn equals adding their concatenation |
| ScopedInfo.AddAllByIdOneMore | src/main/java/com/kjmaster/ethology/api/MobScopedInfo.java:109 | adding one more trait after a batch is one more id-checked append |
| ScopedInfo.FirstById | src/main/java/com/kjmaster/ethology/api/MobScopedInfo.java:50-56 | absent exactly when no entry has the id; otherwise an entry of the list with that id |
| ScopedInfo.AddByIdKeepsUnique | src/main/java/com/kjmaster/ethology/api/MobScopedInfo.java:41-48 | an id-checked add keeps ids unique |
| ScopedInfo.AddAllKeepsUnique | src/main/java/com/kjmaster/ethology/api/MobScopedInfo.java:109-113 | after any sequence of adds, no two entries share an id |
| ScopedInfo.HasIdTail | src/main/java/com/kjmaster/ethology/api/MobScopedInfo.java:50-52 | skipping a head with another id does not change whether the id is present |
| ScopedInfo.FirstByIdAppend | src/main/java/com/kjmaster/ethology/api/MobScopedInfo.java:50-52 | the first entry with an id in a concatenation comes from the first part when it has one |
| ScopedInfo.AddAllKeepsFirst | src/main/java/com/kjmaster/ethology/api/MobScopedInfo.java:109-113 | adding a batch keeps, for every id, the first entry the list and the batch together have |
| ScopedInfo.AddAllOfUnique | src/main/java/com/kjmaster/ethology/api/MobScopedInfo.java:109-113 | traits whose ids are all new are appended unchanged |
| ScopedInfo.EncodeHeader | src/main/java/com/kjmaster/ethology/api/MobScopedInfo.java:74-85 | the id, the optional UUID and four stats |
| ScopedInfo.EncodeInfo | src/main/java/com/kjmaster/ethology/api/MobScopedInfo.java:73-92 | the header followed by the two counted lists |
| ScopedInfo.DecodeHeader | src/main/java/com/kjmaster/ethology/api/MobScopedInfo.java:95-105 | a decoded header advances the reader and yields an info with empty lists |
| ScopedInfo.DecodeInfo | src/main/java/com/kjmaster/ethology/api/MobScopedInfo.java:94-116 | a decoded info advances the reader, has id-unique lists and no title-keyed traits |
| ScopedInfo.DecodeEncodedHeader | src/main/java/com/kjmaster/ethology/api/MobScopedInfo.java:73-105 | a written header reads back with its id, UUID and stats |
| ScopedInfo.DecodeEncoded | src/main/java/com/kjmaster/ethology/api/MobScopedInfo.java:73-116 | an info written anywhere reads back with its lists passed through the id-deduplicating add |
| ScopedInfo.DecodeWritten | src/main/java/com/kjmaster/ethology/api/MobScopedInfo.java:73-116 | the same, from the start of a buffer |
| ScopedInfo.RoundTrip | src/main/java/com/kjmaster/ethology/api/MobScopedInfo.java:28-31 | reading what was written reproduces every wire field when the lists are already id-unique; title-keyed traits are not on the wire |
| ScopedInfo.DuplicatesCollapseToFirst | src/main/java/com/kjmaster/ethology/api/MobScopedInfo.java:108-113 | a written list with duplicate ids reads back with, for each id, its first occurrence |
| ScopedInfo.MobScopedInfo.constructor | src/main/java/com/kjmaster/ethology/api/MobScopedInfo.java:33-35 | a fresh info has its id, no UUID, zero stats and empty lists |
| ScopedInfo.MobScopedInfo.AddCapability | src/main/java/com/kjmaster/ethology/api/MobScopedInfo.java:41-43 | the id-checked append on capabilities; nothing else changes |
| ScopedInfo.MobScopedInfo.AddCurrentState | src/main/java/com/kjmaster/ethology/api/MobScopedInfo.java:46-48 | the id-checked append on current states; nothing else changes |
| ScopedInfo.MobScopedInfo.AddTrait | src/main/java/com/kjmaster/ethology/core/BrainParser.java:53 | a plain append to the title-keyed list |
| ScopedInfo.MobScopedInfo.SetUuid | src/main/java/com/kjmaster/ethology/api/MobScopedInfo.java:60 | sets the UUID only |
| ScopedInfo.MobScopedInfo.SetMaxHealth | src/main/java/com/kjmaster/ethology/api/MobScopedInfo.java:63 | sets that stat only |
| ScopedInfo.MobScopedInfo.SetAttackDamage | src/main/java/com/kjmaster/ethology/api/MobScopedInfo.java:65 | sets that stat only |
| ScopedInfo.MobScopedInfo.SetMovementSpeed | src/main/java/com/kjmaster/ethology/api/MobScopedInfo.java:67 | sets that stat only |
| ScopedInfo.MobScopedInfo.SetArmor | src/main/java/com/kjmaster/ethology/api/MobScopedInfo.java:69 | sets that stat only |
| ScopedInfo.MobScopedInfo.AddAllCapabilities | src/main/java/com/kjmaster/ethology/api/MobScopedInfo.java:109 | the loop leaves the capabilities as the batch fed through the id-checked add |
| ScopedInfo.MobScopedInfo.AddAllCurrentStates | src/main/java/com/kjmaster/ethology/api/MobScopedInfo.java:113 | the loop leaves the states as the batch fed through the id-checked add |
| ScopedInfo.Write | src/main/java/com/kjmaster/ethology/api/MobScopedInfo.java:73-92 | appends exactly the encoding of the info's wire fields |
| ScopedInfo.ReadHeader | src/main/java/com/kjmaster/ethology/api/MobScopedInfo.java:95-105 | succeeds exactly when the header decodes, giving a new info with those fields |
| ScopedInfo.ReadHeaderFields | src/main/java/com/kjmaster/ethology/api/MobScopedInfo.java:95-105 | the reads succeed exactly when the header decodes, returning its fields and leaving the cursor just after it |
| ScopedInfo.NewWithHeader | src/main/java/com/kjmaster/ethology/api/MobScopedInfo.java:96-105 | a new info with the given id, uuid and stats and empty lists |
| ScopedInfo.Read | src/main/java/com/kjmaster/ethology/api/MobScopedInfo.java:94-116 | succeeds exactly when the whole info decodes, giving a new valid info equal to the decoded value |
| TraitManager.Catalog.Put | src/main/java/com/kjmaster/ethology/core/EthologyTraitManager.java:62-68 | storing under a key is seen by that key's lookup and by no other key's |
| TraitManager.TypeOfString | src/main/java/com/kjmaster/ethology/core/EthologyTraitManager.java:52-58 | a recognised type is never STAT and its name is the lower-cased string |
| TraitManager.TypeOfStringInverse | src/main/java/com/kjmaster/ethology/core/EthologyTraitManager.java:52-58 | every type but STAT is recognised from its name in any letter case, and only from that |
| TraitManager.ParseTrait | src/main/java/com/kjmaster/ethology/core/EthologyTraitManager.java:78-93 | fails exactly when the icon is missing or malformed; otherwise the trait has the file's location as id, the given type, the named item as icon when it is registered and not air and a barrier otherwise, and the file's key or else the fallback key built from the type and path |
| TraitManager.LoadFromAppend | src/main/java/com/kjmaster/ethology/core/EthologyTraitManager.java:45-73 | loading two batches in turn equals loading their concatenation |
| TraitManager.SkippedEntryIsIgnored | src/main/java/com/kjmaster/ethology/core/EthologyTraitManager.java:70-72 | an entry that fails to load changes nothing: the others load as if it were absent |
| TraitManager.UnknownTypeIsSkipped | src/main/java/com/kjmaster/ethology/core/EthologyTraitManager.java:57 | an entry with an unrecognised type is not loaded |
| TraitManager.OtherKeysLeaveLookup | src/main/java/com/kjmaster/ethology/core/EthologyTraitManager.java:62-68 | entries placed under other keys never disturb a key's trait |
| TraitManager.LastEntryWins | src/main/java/com/kjmaster/ethology/core/EthologyTraitManager.java:62-68 | the last entry loaded under a key is the one the key returns |
| TraitManager.EthologyTraitManager.constructor | src/main/java/com/kjmaster/ethology/core/EthologyTraitManager.java:29-36 | the four tables start empty |
| TraitManager.EthologyTraitManager.Apply | src/main/java/com/kjmaster/ethology/core/EthologyTraitManager.java:39-76 | after clearing, the loop leaves exactly the catalog of the entries loaded in order, whatever was there before |
| TraitManager.EthologyTraitManager.LoadOne | src/main/java/com/kjmaster/ethology/core/EthologyTraitManager.java:45-72 | one entry either puts its parsed trait under the key its type and target select, or, when any step would throw, leaves all four tables as they were |
| TraitManager.EthologyTraitManager.GetActivityTrait | src/main/java/com/kjmaster/ethology/core/EthologyTraitManager.java:97-99 | the activity table's trait for the activity's registry key |
| TraitManager.EthologyTraitManager.GetSensorTrait | src/main/java/com/kjmaster/ethology/core/EthologyTraitManager.java:101-103 | the sensor table's trait for the sensor type's registry key |
| TraitManager.EthologyTraitManager.GetMemoryTrait | src/main/java/com/kjmaster/ethology/core/EthologyTraitManager.java:105-107 | the memory table's trait for the memory type's registry key |
| TraitManager.EthologyTraitManager.GetGoalTrait | src/main/java/com/kjmaster/ethology/core/EthologyTraitManager.java:109-119 | empty exactly when no class on the walk up from the goal class (excluding `Object`) is registered by name; otherwise the trait of the most-derived registered one |
| Classes.SubtypeThroughInterface | src/main/java/com/kjmaster/ethology/core/EntityAnalyzer.java:94 | with closed interface lists, a subtype of an interface is a subtype of every interface that interface extends, as `instanceof` is |
| Classes.Chain | src/main/java/com/kjmaster/ethology/core/EthologyTraitManager.java:110-118 | the walk never visits `Object` and starts with the class itself |
| Classes.LastSegment | src/main/java/com/kjmaster/ethology/core/VanillaGoalInspectors.java:213 | the longest suffix of a binary class name that holds no '.' or '$': everything after the last separator |
| Classes.DropLeadingDigits | src/main/java/com/kjmaster/ethology/core/GoalParser.java:56 | what follows the longest leading run of digits: the dropped part is all digits and the rest does not start with one |
| Classes.SimpleName | src/main/java/com/kjmaster/ethology/core/VanillaGoalInspectors.java:213 | a simple name is no longer than the class name, has no '.' or '$' in it, and does not start with a digit (the compiler's number of a local or anonymous class is dropped) |
| Classes.SimpleNameOf | src/main/java/com/kjmaster/ethology/core/GoalParser.java:56 | `getSimpleName` of every binary-name shape: "a.b.Goal" gives "Goal", a member class "Outer$Inner" gives "Inner", a local class "Outer$1Local" gives "Local", an anonymous class "Outer$1" gives "" |
| Classes.FirstKeyed | src/main/java/com/kjmaster/ethology/core/EthologyTraitManager.java:110-118 | absent exactly when no class of the walk is registered; otherwise the entry of a registered class with none registered before it |
| Classes.WalkMostDerived | src/main/java/com/kjmaster/ethology/core/EthologyTraitManager.java:110-118 | the superclass loop returns the entry of the most-derived registered class |
| Location.IndexOf | src/main/java/com/kjmaster/ethology/core/EthologyTraitManager.java:63 | the position of the first occurrence of a character, absent exactly when it does not occur |
| Location.ParseLocation | src/main/java/com/kjmaster/ethology/core/EthologyTraitManager.java:63-65 | a parsed location has a non-empty namespace and only legal characters |
| Location.ParsePrinted | src/main/java/com/kjmaster/ethology/core/EthologyTraitManager.java:63-65 | a well-formed location printed and parsed again is the same location |
| Location.UuidString | src/main/java/com/kjmaster/ethology/core/VanillaBrainInspectors.java:123 | `UUID.toString`'s 8-4-4-4-12 layout: 36 characters, dashes at 8, 13, 18 and 23, lower-case hexadecimal digits elsewhere, the first eight being the top 32 bits of the high half and each later group the matching bits of its half |
| Text.ToLower | src/main/java/com/kjmaster/ethology/core/EthologyTraitManager.java:52 | same length, each character lower-cased |
| Text.ToLowerAppend | src/main/java/com/kjmaster/ethology/client/gui/MobListWidget.java:49 | lower-casing distributes over concatenation |
| Text.ReplaceChar | src/main/java/com/kjmaster/ethology/datagen/EthologyTraitProvider.java:194 | same length, each occurrence of one character replaced and every other kept |
| Text.HexDigits | src/main/java/com/kjmaster/ethology/core/VanillaBrainInspectors.java:123 | exactly the requested number of characters, each a lower-case hexadecimal digit |
| Text.HexDigitsValue | src/main/java/com/kjmaster/ethology/core/VanillaBrainInspectors.java:123 | the digits read back: `width` digits of `n` denote `n mod 16^width` |
| Text.LexTotal | src/main/java/com/kjmaster/ethology/client/gui/MobListWidget.java:47 | any two strings are ordered one way or the other |
| Text.LexTransitive | src/main/java/com/kjmaster/ethology/client/gui/MobListWidget.java:47 | the string order is transitive |
| World.StackOf | src/main/java/com/kjmaster/ethology/core/EthologyTraitManager.java:80-81 | a new stack holds its item and is empty exactly for air |
| World.EntityRegistry.Get | src/main/java/com/kjmaster/ethology/network/EthologyPacketHandler.java:105 | the type registered under the key, or the registry's default type for any other key; the default is a parameter of the model (the game's registry uses the pig) |
| World.GetIn | src/main/java/com/kjmaster/ethology/network/EthologyPacketHandler.java:105-108 | a registered key gives a type of the registry with that key; any other gives the default |
| GoalParserRegistry.ParserTrait | src/main/java/com/kjmaster/ethology/core/GoalParserRegistry.java:42-67 | the tempt parser always yields "Temptable", with the ingredient's first stack as icon or else wheat; the avoid parser yields "Fearful" naming the avoided class exactly when that class is not null; the target parser yields "Hostile" exactly for a player target and "Hunter" otherwise, and fails on a null target |
| GoalParserRegistry.AddUniqueTrait | src/main/java/com/kjmaster/ethology/core/GoalParserRegistry.java:69-73 | the trait list becomes the title-checked append |
| GoalParserRegistry.Parse | src/main/java/com/kjmaster/ethology/core/GoalParserRegistry.java:43-66 | succeeds exactly when the parser's trait exists, then adds it by title; a failing parser leaves the info untouched |
| GoalParserRegistry.OwnClassWins | src/main/java/com/kjmaster/ethology/core/GoalParserRegistry.java:29-39 | a parser registered for the goal's own class wins over any registered for a superclass |
| GoalParserRegistry.DefaultParserFound | src/main/java/com/kjmaster/ethology/core/GoalParserRegistry.java:29-67 | with the built-in parsers, a goal class gets one exactly when a tempt, avoid or nearest-attackable goal class is on its superclass walk |
| GoalParserRegistry.GoalParserRegistry.constructor | src/main/java/com/kjmaster/ethology/core/GoalParserRegistry.java:42-67 | the registry starts with the three built-in parsers |
| GoalParserRegistry.GoalParserRegistry.Register | src/main/java/com/kjmaster/ethology/core/GoalParserRegistry.java:24-26 | a parser overwrites any earlier one for exactly that class |
| GoalParserRegistry.GoalParserRegistry.GetParser | src/main/java/com/kjmaster/ethology/core/GoalParserRegistry.java:29-39 | the parser of the most-derived registered class on the walk; empty exactly when no class on it is registered |
| GoalParser.Unwrap | src/main/java/com/kjmaster/ethology/core/GoalParser.java:69-75 | the loop strips every wrapper layer and returns the innermost goal; a plain goal is returned as it is |
| GoalParser.DebugTrait | src/main/java/com/kjmaster/ethology/core/GoalParser.java:54-60 | the placeholder is an `ethology:debug_` goal trait named after the lower-cased simple class name, with a barrier icon |
| GoalParser.OwnOf | src/main/java/com/kjmaster/ethology/core/GoalParser.java:51-61 | the consumer receives at most one trait per goal |
| GoalParser.ParsedOf | src/main/java/com/kjmaster/ethology/core/GoalParser.java:64-66 | a parser contributes at most one trait per goal |
| GoalParser.ParseGoalStep | src/main/java/com/kjmaster/ethology/core/GoalParser.java:47-67 | one more goal succeeds exactly when its parser does not throw, and then extends the consumer's batch by its catalog or debug trait and the parser batch by its parser trait |
| GoalParser.ParseAllSnoc | src/main/java/com/kjmaster/ethology/core/GoalParser.java:26-28 | the pass over one more goal is the pass over the others, then that goal |
| GoalParser.ParseAllSucceeds | src/main/java/com/kjmaster/ethology/core/GoalParser.java:26-32 | a pass fails exactly when some goal's parser throws |
| GoalParser.ParseAllValue | src/main/java/com/kjmaster/ethology/core/GoalParser.java:26-32 | after a successful pass the consumer's list has received every own trait through its id check and the trait list every parser trait through its title check, in goal order, and nothing else changed |
| GoalParser.ParseAllEffect | src/main/java/com/kjmaster/ethology/core/GoalParser.java:26-32 | both of the above together |
| GoalParser.ParsePrefixFails | src/main/java/com/kjmaster/ethology/core/GoalParser.java:26-32 | once a prefix of the goals fails, the whole pass fails |
| GoalParser.Running | src/main/java/com/kjmaster/ethology/core/GoalParser.java:40-44 | the running entries are never more than the entries |
| GoalParser.RunningExact | src/main/java/com/kjmaster/ethology/core/GoalParser.java:40-44 | an entry is considered exactly when it is in the selector and running |
| GoalParser.RunningPrefix | src/main/java/com/kjmaster/ethology/core/GoalParser.java:40-44 | the running entries of a prefix come first among all running entries |
| GoalParser.CapabilitiesEffect | src/main/java/com/kjmaster/ethology/core/GoalParser.java:22-33 | for a Mob the capability pass succeeds exactly when no parser of either selector throws, and then feeds the own traits of the goal selector and then the target selector to the capabilities and the parser traits to the trait list, leaving states, UUID, id and stats unchanged |
| GoalParser.CurrentStateEffect | src/main/java/com/kjmaster/ethology/core/GoalParser.java:35-45 | for a Mob the state pass consults only running goal-selector entries (the target selector never matters), feeds their own traits to the current states and their parser traits to the trait list, and leaves capabilities, UUID, id and stats unchanged |
| GoalParser.Feed | src/main/java/com/kjmaster/ethology/core/GoalParser.java:27 | the consumer is the id-checked add to the capabilities or to the current states |
| GoalParser.FeedOwn | src/main/java/com/kjmaster/ethology/core/GoalParser.java:51-61 | the consumer receives the catalog trait of the most-derived registered class, else the debug placeholder in debug mode, else nothing |
| GoalParser.ParseGoal | src/main/java/com/kjmaster/ethology/core/GoalParser.java:47-67 | the catalog trait of the most-derived registered class (or the debug placeholder) goes to the consumer, then the registered parser runs whether or not the catalog had an entry; the result is the specification's |
| GoalParser.ParseGoals | src/main/java/com/kjmaster/ethology/core/GoalParser.java:26-32 | the loop over a selector's entries reaches the specification's result and stops at the first parser that throws |
| GoalParser.ParseCapabilities | src/main/java/com/kjmaster/ethology/core/GoalParser.java:22-33 | nothing for a non-Mob; otherwise the goal selector, then the target selector, into the capabilities |
| GoalParser.ParseCurrentState | src/main/java/com/kjmaster/ethology/core/GoalParser.java:35-45 | nothing for a non-Mob; otherwise the running goal-selector entries into the current states |
| GoalParser.ParseRunningGoals | src/main/java/com/kjmaster/ethology/core/GoalParser.java:40-44 | the loop visits only running entries and reaches the specification's result |
| BrainParser.Hits | src/main/java/com/kjmaster/ethology/core/BrainParser.java:28-30 | at most one catalog trait per key consulted |
| BrainParser.HitsAppend | src/main/java/com/kjmaster/ethology/core/BrainParser.java:16-21 | the traits of consecutive key batches are the concatenation of each batch's traits |
| BrainParser.HitsExact | src/main/java/com/kjmaster/ethology/core/BrainParser.java:36-40 | a trait is offered exactly when one of the consulted keys looks it up |
| BrainParser.SensorKeys | src/main/java/com/kjmaster/ethology/core/BrainParser.java:36 | one sensor key per sensor type, in order |
| BrainParser.MemoryKeys | src/main/java/com/kjmaster/ethology/core/BrainParser.java:44 | one memory key per memory entry, in order |
| BrainParser.ActivityKeysIn | src/main/java/com/kjmaster/ethology/core/BrainParser.java:26 | one activity key per activity of a priority map, in order |
| BrainParser.ActivityKeysSound | src/main/java/com/kjmaster/ethology/core/BrainParser.java:25-32 | every activity key consulted belongs to an activity of some priority map |
| BrainParser.ActivityKeysComplete | src/main/java/com/kjmaster/ethology/core/BrainParser.java:25-32 | every activity of every priority map is consulted |
| BrainParser.ActivityKeysExact | src/main/java/com/kjmaster/ethology/core/BrainParser.java:25-32 | the activity keys consulted are exactly those of the brain's activities |
| BrainParser.SensorHitsExact | src/main/java/com/kjmaster/ethology/core/BrainParser.java:35-41 | a trait is offered by the sensor pass exactly when some sensor type of the brain looks it up |
| BrainParser.MemoryHitsExact | src/main/java/com/kjmaster/ethology/core/BrainParser.java:43-49 | a trait is offered by the memory pass exactly when some memory type of the brain looks it up |
| BrainParser.ActivityHitsExact | src/main/java/com/kjmaster/ethology/core/BrainParser.java:23-33 | a trait is offered by the activity pass exactly when some activity of the brain looks it up |
| BrainParser.BrainTraitsExact | src/main/java/com/kjmaster/ethology/core/BrainParser.java:16-49 | a trait is offered by the brain pass exactly when the catalog holds it for one of the brain's sensor types, memory types or activities |
| BrainParser.BrainSpec | src/main/java/com/kjmaster/ethology/core/BrainParser.java:16-21 | the brain pass changes only the trait list, and keeps its titles unique |
| BrainParser.OfferStep | src/main/java/com/kjmaster/ethology/core/BrainParser.java:28-30 | one more key offers its catalog trait, if any, through the title check |
| BrainParser.ParseSensors | src/main/java/com/kjmaster/ethology/core/BrainParser.java:35-41 | the loop offers the catalog trait of every sensor type, in order, through the title check |
| BrainParser.ParseMemories | src/main/java/com/kjmaster/ethology/core/BrainParser.java:43-49 | the loop offers the catalog trait of every memory type, in order, through the title check |
| BrainParser.ParseActivitySet | src/main/java/com/kjmaster/ethology/core/BrainParser.java:26-31 | the inner loop offers the catalog trait of every activity of one priority map |
| BrainParser.ParseActivities | src/main/java/com/kjmaster/ethology/core/BrainParser.java:23-33 | the nested loops offer the catalog trait of every activity of every priority map, in order |
| BrainParser.Parse | src/main/java/com/kjmaster/ethology/core/BrainParser.java:16-21 | sensors, then memories, then activities are offered through the title check, and titles stay unique |
| Classifier.CreateTrait | src/main/java/com/kjmaster/ethology/core/EcologicalClassifier.java:111-119 | the trait is `ethology:classifier_<suffix>` with key `ethology.trait.stat.<suffix>`, the icon's stack, no arguments and type STAT |
| Classifier.EnvironmentTraits | src/main/java/com/kjmaster/ethology/core/EcologicalClassifier.java:33-48 | "aquatic" is added exactly for a pathfinder mob with water-bound or amphibious navigation, "aerial" exactly for a flying animal, and nothing else |
| Classifier.GoalScore | src/main/java/com/kjmaster/ethology/core/EcologicalClassifier.java:72-94 | no target goal lowers the score |
| Classifier.SelectorScore | src/main/java/com/kjmaster/ethology/core/EcologicalClassifier.java:71-95 | the goal part of the score is never negative |
| Classifier.SelectorScoreBound | src/main/java/com/kjmaster/ethology/core/EcologicalClassifier.java:71-95 | no single target goal contributes more than the whole selector |
| Classifier.BaseScore | src/main/java/com/kjmaster/ethology/core/EcologicalClassifier.java:55-68 | category and damage together give between 0 and 70 |
| Classifier.HostilityScore | src/main/java/com/kjmaster/ethology/core/EcologicalClassifier.java:53-95 | the score is never negative |
| Classifier.ScoreIgnoresGoalSelector | src/main/java/com/kjmaster/ethology/core/EcologicalClassifier.java:71-95 | the goal selector never affects the score; only the target selector does |
| Classifier.Band | src/main/java/com/kjmaster/ethology/core/EcologicalClassifier.java:102-108 | hostile exactly at 80 or more, neutral exactly from 20 to 79, passive exactly below 20 |
| Classifier.HostilityTraits | src/main/java/com/kjmaster/ethology/core/EcologicalClassifier.java:50-109 | nothing exactly for a type that cannot be summoned; otherwise exactly one band, that of the score |
| Classifier.PlayerTargeterIsHostile | src/main/java/com/kjmaster/ethology/core/EcologicalClassifier.java:76-80 | a summonable Mob with a target goal aimed exactly at players is classified hostile |
| Classifier.ComputeScore | src/main/java/com/kjmaster/ethology/core/EcologicalClassifier.java:53-95 | the score loop computes the hostility score |
| Classifier.AnalyzeEnvironment | src/main/java/com/kjmaster/ethology/core/EcologicalClassifier.java:33-48 | the environment traits are added to the capabilities through the id check |
| Classifier.AnalyzeHostility | src/main/java/com/kjmaster/ethology/core/EcologicalClassifier.java:50-109 | the hostility traits are added to the capabilities through the id check |
| Classifier.Classify | src/main/java/com/kjmaster/ethology/core/EcologicalClassifier.java:28-31 | environment traits, then hostility traits, go to the capabilities; nothing else changes |
| GenericInspector.FirstOccurrence | src/main/java/com/kjmaster/ethology/core/GenericGoalInspector.java:80 | the index of an element's first occurrence: it holds the element and no earlier index does |
| GenericInspector.Distinct | src/main/java/com/kjmaster/ethology/core/GenericGoalInspector.java:80 | the result holds each element of the input exactly once, nothing else, and in the order of their first occurrences in the input (which determines it) |
| GenericInspector.Take | src/main/java/com/kjmaster/ethology/core/GenericGoalInspector.java:80 | a prefix of the input of length n, or the whole input when it is shorter |
| GenericInspector.FirstTypeAssignableTo | src/main/java/com/kjmaster/ethology/core/GenericGoalInspector.java:102-104 | empty exactly when no registered type's base class is a subtype of the class; otherwise the first registered type whose base class is |
| GenericInspector.EntityName | src/main/java/com/kjmaster/ethology/core/GenericGoalInspector.java:100-108 | the description of the first fitting registered type, else the simple name with every "Entity" removed |
| GenericInspector.EntityNames | src/main/java/com/kjmaster/ethology/core/GenericGoalInspector.java:89-95 | at most one name per reflected class value (which names, and in what order, is stated by EntityNamesFromLivingClasses and EntityNamesComplete) |
| GenericInspector.EntityNamesPrefix | src/main/java/com/kjmaster/ethology/core/GenericGoalInspector.java:89-95 | the names collected from the first fields are a prefix of the names of all fields |
| GenericInspector.EntityNamesComplete | src/main/java/com/kjmaster/ethology/core/GenericGoalInspector.java:89-95 | every reflected class value that is a living entity contributes its entity name, placed right after the names of the fields before it, so the names follow field order |
| GenericInspector.EntityNamesFromLivingClasses | src/main/java/com/kjmaster/ethology/core/GenericGoalInspector.java:89-95 | every entity name comes from a reflected class that is a living entity |
| GenericInspector.ItemArgs | src/main/java/com/kjmaster/ethology/core/GenericGoalInspector.java:52-81 | the first min(3, n) of the n distinct names in order of first occurrence (ingredient fields, then stacks, then items); empty exactly when those fields yield no name |
| GenericInspector.EntityArgs | src/main/java/com/kjmaster/ethology/core/GenericGoalInspector.java:83-98 | the first min(3, n) of the n distinct names, in order of first occurrence, of the living-entity classes the goal holds; empty exactly when it holds none |
| GenericInspector.GenericInspection | src/main/java/com/kjmaster/ethology/core/GenericGoalInspector.java:22-50 | nothing exactly when both scans are empty; the item trait whenever item names exist; the target trait only when there are none; every trait is a goal trait with one to three arguments |
| GenericInspector.ScanForItems | src/main/java/com/kjmaster/ethology/core/GenericGoalInspector.java:52-81 | the three reflective reads and their collecting loops compute the item arguments |
| GenericInspector.CollectEntityNames | src/main/java/com/kjmaster/ethology/core/GenericGoalInspector.java:89-95 | the loop returns one name for each class value that is a living-entity subtype, in field order, and nothing else |
| GenericInspector.ScanForEntities | src/main/java/com/kjmaster/ethology/core/GenericGoalInspector.java:83-98 | the reflective read and its collecting loop compute the entity arguments |
| GenericInspector.Inspect | src/main/java/com/kjmaster/ethology/core/GenericGoalInspector.java:22-50 | the entity scan runs only when the item scan found nothing, and the result is the inspector's decision |
| VanillaGoalInspectors.Args | src/main/java/com/kjmaster/ethology/core/VanillaGoalInspectors.java:191-204 | exactly one name: the first stack's name of a non-empty ingredient, "Food" for an empty one, "Items" for any other predicate |
| VanillaGoalInspectors.EntityNameFromClass | src/main/java/com/kjmaster/ethology/core/VanillaGoalInspectors.java:206-214 | "Unknown" for null, "Players" for a player class, else the description of the first fitting registered type, else the simple name without a trailing "Entity" |
| VanillaGoalInspectors.Inspect | src/main/java/com/kjmaster/ethology/core/VanillaGoalInspectors.java:28-187 | every trait is a goal trait in the mod's namespace; the unconditional inspectors always answer with no arguments; the tempt, breed, avoid and aggressive inspectors answer exactly for goals of their class (the aggressive one also needs a non-null target type) with one argument; the aggressive trait is the player variant exactly when the target is a player class; each inspector's id, icon and translation key, and as the single argument of breed, avoid and aggressive the entity name of the partner, avoided or target class |
| VanillaGoalInspectors.TemptTrait | src/main/java/com/kjmaster/ethology/core/VanillaGoalInspectors.java:28-40 | a trait exactly for a tempt goal: "vanilla_tempt" with a wheat icon, the temptable key, and the name of the goal's items as its one argument |
| VanillaGoalInspectors.BreedTrait | src/main/java/com/kjmaster/ethology/core/VanillaGoalInspectors.java:42-53 | a trait exactly for a breed goal: "vanilla_breed" with a heart-of-the-sea icon, the breed key, and the entity name of the partner class as its one argument |
| VanillaGoalInspectors.AvoidTrait | src/main/java/com/kjmaster/ethology/core/VanillaGoalInspectors.java:55-66 | a trait exactly for an avoid goal: "vanilla_avoid" with a barrier icon, the fearful key, and the entity name of the avoided class as its one argument |
| VanillaGoalInspectors.AggressiveTrait | src/main/java/com/kjmaster/ethology/core/VanillaGoalInspectors.java:156-171 | a trait exactly for a nearest-attackable-target goal with a non-null target type: the player variant (id and iron-sword icon) when the target is a player class, else the mob variant (crossbow icon), the aggressive key, and the target's entity name as its one argument |
| VanillaGoalInspectors.UnconditionalTrait | src/main/java/com/kjmaster/ethology/core/VanillaGoalInspectors.java:70-187 | an unconditional inspector's trait carries its own id, icon and key from the table, no arguments, and the goal category |
| VanillaGoalInspectors.InspectorIdsDistinct | src/main/java/com/kjmaster/ethology/core/VanillaGoalInspectors.java:28-187 | no two inspectors produce the same trait id, so the id check of `addCapability` never hides one inspector's trait behind another's |
| VanillaBrainInspectors.InspectSensor | src/main/java/com/kjmaster/ethology/core/VanillaBrainInspectors.java:21-41 | a sensor inspector always answers, with a sensor trait without arguments |
| VanillaBrainInspectors.ValueArg | src/main/java/com/kjmaster/ethology/core/VanillaBrainInspectors.java:49-54 | the position as "x, y, z" for the position memories, the first eight characters of the UUID for angry-at, and a failed cast for a value of the other kind |
| VanillaBrainInspectors.InspectMemory | src/main/java/com/kjmaster/ethology/core/VanillaBrainInspectors.java:45-135 | nothing for another memory type; for its own type, the capability trait without arguments when no value is present, and the "set" trait with the value's one argument when one is |
| VanillaBrainInspectors.PresentAndAbsentIdsDiffer | src/main/java/com/kjmaster/ethology/core/VanillaBrainInspectors.java:45-135 | a present and an absent value never give traits with the same id, so both can sit in one id-deduplicated list |
| EntityAnalyzer.ExtractStats | src/main/java/com/kjmaster/ethology/core/EntityAnalyzer.java:76-85 | each stat is overwritten with the attribute's current value exactly when the entity has that attribute; nothing else changes |
| EntityAnalyzer.FallbacksAppendUnique | src/main/java/com/kjmaster/ethology/core/EntityAnalyzer.java:87-102 | the fallbacks only append, and never give a title twice |
| EntityAnalyzer.AppendTitle | src/main/java/com/kjmaster/ethology/core/EntityAnalyzer.java:94-99 | after one more trait, a title is present exactly when it was, or is that trait's |
| EntityAnalyzer.FallbackTitle | src/main/java/com/kjmaster/ethology/core/EntityAnalyzer.java:87-102 | after the fallbacks a title is present exactly when it was already, or is one of the four fallback titles whose condition holds ("Passive" only when nothing at all was found before) |
| EntityAnalyzer.FallbackTitles | src/main/java/com/kjmaster/ethology/core/EntityAnalyzer.java:87-102 | "Aquatic" exactly for a water animal or water breather that is not an armor stand, "Aerial" exactly for a flying animal, "Hostile" exactly for an enemy, "Passive" exactly for a non-enemy animal or ambient creature with an otherwise empty trait list |
| EntityAnalyzer.ApplyFallbacks | src/main/java/com/kjmaster/ethology/core/EntityAnalyzer.java:87-102 | the trait list becomes the fallbacks' result |
| EntityAnalyzer.BeforeGoalsValue | src/main/java/com/kjmaster/ethology/core/EntityAnalyzer.java:51-66 | before the goal passes the info has the type key, the UUID, the stats the entity has (zero otherwise), empty id lists, and the brain traits (only with memories) as its title-unique trait list |
| EntityAnalyzer.InstanceAnalysisSucceeds | src/main/java/com/kjmaster/ethology/core/EntityAnalyzer.java:51-74 | an instance analysis fails exactly when the entity is a Mob and some goal's parser throws |
| EntityAnalyzer.RunningParsersSucceed | src/main/java/com/kjmaster/ethology/core/GoalParser.java:34-44 | the running goals are drawn from the goal selector, so when no available goal's parser throws, neither does any running goal's |
| EntityAnalyzer.InstanceAnalysisValue | src/main/java/com/kjmaster/ethology/core/EntityAnalyzer.java:51-74 | a successful analysis has the type key, UUID and stats; as capabilities the catalog traits of both selectors; as current states those of the running goals; as traits the brain traits, then the parser traits, then the fallbacks |
| EntityAnalyzer.InstanceAnalysisUnique | src/main/java/com/kjmaster/ethology/core/EntityAnalyzer.java:51-74 | a successful analysis has no repeated capability id, state id or title |
| EntityAnalyzer.AnalyzeInstance | src/main/java/com/kjmaster/ethology/core/EntityAnalyzer.java:51-74 | returns a new info exactly when the analysis succeeds, and then one equal to the analysis |
| EntityAnalyzer.NewInstanceInfo | src/main/java/com/kjmaster/ethology/core/EntityAnalyzer.java:51-66 | the new info is valid, carries the entity's UUID and type key, and holds exactly the state the analysis has before its goal passes |
| EntityAnalyzer.RunGoalPasses | src/main/java/com/kjmaster/ethology/core/EntityAnalyzer.java:68-71 | reports success exactly when neither goal pass has a throwing parser, and then leaves the info as the capability pass, the current-state pass and the fallbacks give it |
| EntityAnalyzer.ArchetypeAnalysis | src/main/java/com/kjmaster/ethology/core/EntityAnalyzer.java:26-46 | nothing and no discard for a type tagged no-analysis or not summonable; for a created living entity the instance analysis, discarded exactly when it succeeds; a non-living creation is discarded and gives nothing; a null or throwing creation gives nothing |
| EntityAnalyzer.AnalyzeArchetype | src/main/java/com/kjmaster/ethology/core/EntityAnalyzer.java:26-46 | returns a new info and reports the discard exactly as the archetype analysis says; a result carries the created entity's UUID |
| EthologyScanner.MergeEffect | src/main/java/com/kjmaster/ethology/core/EthologyScanner.java:54-63 | a merge keeps everything local except the capabilities; for every id those answer as the local list followed by the cached list; cached states never enter; unique ids stay unique |
| EthologyScanner.ScanEntity | src/main/java/com/kjmaster/ethology/core/EthologyScanner.java:20-36 | nothing without a level; otherwise a successful analysis is registered under the type and cached under the created entity's UUID, stamped now, with every other type, UUID and stamp unchanged; a failed one leaves the database alone; a type-only request is sent exactly when connected |
| EthologyScanner.ScanTargetedEntity | src/main/java/com/kjmaster/ethology/core/EthologyScanner.java:39-71 | nothing without a connection; otherwise the merged or local info is registered for the target's type and fresh under the target's UUID, with every other type, UUID and stamp unchanged, and a request with that UUID is sent unless both a local and a fresh cached result existed |
| EthologyScanner.StoreLocal | src/main/java/com/kjmaster/ethology/core/EthologyScanner.java:53-67 | a successful local analysis is always registered and fresh under its UUID, and nothing else in the database changes; it absorbs a fresh cached info's capabilities (local ids win), and a request is sent exactly when there was no cached info |
| PacketHandler.Refilled | src/main/java/com/kjmaster/ethology/network/EthologyPacketHandler.java:203-211 | the clock moves only on a positive elapsed time, and the tokens never fall and never exceed capacity |
| PacketHandler.Acquired | src/main/java/com/kjmaster/ethology/network/EthologyPacketHandler.java:194-201 | a request is granted exactly when the refilled bucket holds a whole token, and a grant takes exactly one |
| PacketHandler.AcquireKeepsValid | src/main/java/com/kjmaster/ethology/network/EthologyPacketHandler.java:194-211 | acquiring keeps the tokens between zero and capacity |
| PacketHandler.BurstDrains | src/main/java/com/kjmaster/ethology/network/EthologyPacketHandler.java:187-201 | from a full bucket, n <= capacity acquisitions at one instant all succeed and leave capacity - n tokens |
| PacketHandler.CapacityThenRefusal | src/main/java/com/kjmaster/ethology/network/EthologyPacketHandler.java:187-201 | a fresh limiter grants exactly capacity requests at its creation instant, and refuses the next |
| PacketHandler.RecoversAfterWait | src/main/java/com/kjmaster/ethology/network/EthologyPacketHandler.java:194-211 | an exhausted bucket grants again exactly when elapsed time times the rate reaches one token |
| PacketHandler.PlayerLimiterWait | src/main/java/com/kjmaster/ethology/network/EthologyPacketHandler.java:80 | with the per-player limiter (10 burst, 2 per second), an exhausted player is served again exactly after 500 ms |
| PacketHandler.RateLimiter.constructor | src/main/java/com/kjmaster/ethology/network/EthologyPacketHandler.java:187-192 | a new limiter is full, its clock at creation time, its per-second rate converted to per-millisecond |
| PacketHandler.RateLimiter.Refill | src/main/java/com/kjmaster/ethology/network/EthologyPacketHandler.java:203-211 | the new bucket is the refill of the old one at the given time |
| PacketHandler.RateLimiter.TryAcquire | src/main/java/com/kjmaster/ethology/network/EthologyPacketHandler.java:194-201 | the answer and the new bucket are those of one acquisition, and the limiter invariant holds |
| PacketHandler.BeginScanAsWritten | src/main/java/com/kjmaster/ethology/network/EthologyPacketHandler.java:119-135 | as written, the cache-miss step always leaves an entry for the type, even when creation failed |
| PacketHandler.AsWrittenNeverRetries | src/main/java/com/kjmaster/ethology/network/EthologyPacketHandler.java:119-158 | as written, a failed creation leaves a completed null entry that every later request joins, so no analysis is ever started for that type |
| PacketHandler.BeginScan | src/main/java/com/kjmaster/ethology/network/EthologyPacketHandler.java:119-135 | an existing scan is joined, a living entity starts an analysis, a failed creation records nothing |
| PacketHandler.FailedCreationIsRetried | src/main/java/com/kjmaster/ethology/network/EthologyPacketHandler.java:119-135 | after a failed creation, the next request with a living entity starts an analysis |
| PacketHandler.BeginScanOnlyAnalyzing | src/main/java/com/kjmaster/ethology/network/EthologyPacketHandler.java:119-158 | every pending entry stays an analysis under way |
| PacketHandler.ArchetypeResult | src/main/java/com/kjmaster/ethology/network/EthologyPacketHandler.java:140-148 | an analysis result is kept exactly when there is one, with its instance UUID cleared |
| PacketHandler.ScanHandler.constructor | src/main/java/com/kjmaster/ethology/network/EthologyPacketHandler.java:30-39 | the cache, the pending scans and the limiters start empty |
| PacketHandler.ScanHandler.LimiterFor | src/main/java/com/kjmaster/ethology/network/EthologyPacketHandler.java:80 | an existing limiter is reused; otherwise a full one is created and stored for the player |
| PacketHandler.ScanHandler.Acquire | src/main/java/com/kjmaster/ethology/network/EthologyPacketHandler.java:80-86 | the player ends up with a limiter; the grant and the limiter's new bucket are exactly one acquisition from the player's previous bucket (a full one at this instant for a new player); every other player keeps the same limiter in the same state |
| PacketHandler.ScanHandler.HandleScanRequest | src/main/java/com/kjmaster/ethology/network/EthologyPacketHandler.java:77-167 | a request is rate-limited exactly when the player's limiter (a full new one for a new player) has no whole token after refilling, the limiter then holds the bucket that acquisition leaves, and every other player's limiter is untouched; a rate-limited request changes no scan state; a live instance is analysed directly, and only a live instance gives an instance result; otherwise the type is dropped exactly when it fails validation, answered from the cache on a hit, and else a scan is begun or joined |
| PacketHandler.ScanHandler.Dispatch | src/main/java/com/kjmaster/ethology/network/EthologyPacketHandler.java:88-167 | a request past the limiter is never reported as rate-limited; a live instance is analysed directly, and only a live instance gives an instance result; otherwise the type is dropped exactly when it fails validation, answered from the cache on a hit, and else its scan is begun or joined, the cache untouched |
| PacketHandler.ScanHandler.CompleteScan | src/main/java/com/kjmaster/ethology/network/EthologyPacketHandler.java:140-158 | the pending entry is always removed; the UUID-cleared result is cached exactly when the analysis produced one |
| PacketHandler.ScanHandler.ClearCache | src/main/java/com/kjmaster/ethology/network/EthologyPacketHandler.java:172-176 | the cache, the pending scans and the limiters are all emptied |
| TraitProvider.KeyBase | src/main/java/com/kjmaster/ethology/datagen/EthologyTraitProvider.java:194 | the key base has the target's length, contains no ':' or '.', and maps each character to '_' or its lower-case form |
| TraitProvider.TranslationKey | src/main/java/com/kjmaster/ethology/datagen/EthologyTraitProvider.java:195 | the translation key starts with "ethology.trait.<type>." and then has exactly the target's length |
| TraitProvider.FileNameIsKeyBase | src/main/java/com/kjmaster/ethology/datagen/EthologyTraitProvider.java:194-213 | the file name's two replacements agree with the key base's, so file and translation key derive from the same string |
| TraitProvider.TraitPathInjective | src/main/java/com/kjmaster/ethology/datagen/EthologyTraitProvider.java:47-52 | two saved definitions share an output path exactly when their locations' paths are equal |
| TraitProvider.LangTripleEntries | src/main/java/com/kjmaster/ethology/datagen/EthologyTraitProvider.java:168-172 | one call writes exactly three distinct keys, each holding its own text |
| TraitProvider.PutsAreUnion | src/main/java/com/kjmaster/ethology/datagen/EthologyTraitProvider.java:197-203 | the three successive puts equal a union with the three-entry map |
| TraitProvider.LangOfEntries | src/main/java/com/kjmaster/ethology/datagen/EthologyTraitProvider.java:197-203 | a definition writes its title and static text, and the active text, or the static one again when there is none |
| TraitProvider.TypeMemberRead | src/main/java/com/kjmaster/ethology/datagen/EthologyTraitProvider.java:205-206 | the written type member is read back by the loader as the definition's own type |
| TraitProvider.GeneratedTraitParses | src/main/java/com/kjmaster/ethology/datagen/EthologyTraitProvider.java:205-209 | the loader parses a generated object into the trait whose key and icon are the ones written |
| TraitProvider.TraitJsonMembers | src/main/java/com/kjmaster/ethology/datagen/EthologyTraitProvider.java:205-209 | the generated object has the type name, the target, the translation key and the printed icon as its members |
| TraitProvider.GeneratedPlacement | src/main/java/com/kjmaster/ethology/datagen/EthologyTraitProvider.java:193-214 | the loader files a generated object under the catalog key its target names, as the trait whose key and icon were written |
| TraitProvider.GeneratedTraitLoads | src/main/java/com/kjmaster/ethology/datagen/EthologyTraitProvider.java:193-214 | a generated file is filed under the catalog key its target names, with the translation key its language entries use |
| TraitProvider.RegistryTargetRoundTrip | src/main/java/com/kjmaster/ethology/datagen/EthologyTraitProvider.java:174-187 | an activity, sensor or memory target is a printed registry key that reads back as itself |
| TraitProvider.FilesAfterLookup | src/main/java/com/kjmaster/ethology/datagen/EthologyTraitProvider.java:90-164 | every definition's file is saved and holds its object when no later definition shares the location |
| TraitProvider.FilesAfterOnly | src/main/java/com/kjmaster/ethology/datagen/EthologyTraitProvider.java:90-164 | nothing is saved at a location no definition is filed under |
| TraitProvider.LangAfterCovers | src/main/java/com/kjmaster/ethology/datagen/EthologyTraitProvider.java:90-164 | every definition's language keys are written |
| TraitProvider.LangAfterOnly | src/main/java/com/kjmaster/ethology/datagen/EthologyTraitProvider.java:90-164 | no language key is written that no definition produces |
| TraitProvider.ManualLangCovers | src/main/java/com/kjmaster/ethology/datagen/EthologyTraitProvider.java:76-88 | every manual key gets its ".title", ".static" and ".active" entries |
| TraitProvider.LangFile | src/main/java/com/kjmaster/ethology/datagen/EthologyTraitProvider.java:56-66 | the language file holds the fixed entries and every collected entry, a collected entry winning on a shared key |
| TraitProvider.EthologyTraitProvider.constructor | src/main/java/com/kjmaster/ethology/datagen/EthologyTraitProvider.java:29-34 | both tables start empty |
| TraitProvider.EthologyTraitProvider.CreateJson | src/main/java/com/kjmaster/ethology/datagen/EthologyTraitProvider.java:193-214 | the language table gains the definition's three entries, and the saved table maps the file location to the definition object |
| TraitProvider.EthologyTraitProvider.ManualTrait | src/main/java/com/kjmaster/ethology/datagen/EthologyTraitProvider.java:168-172 | the language table gains the three entries under the given key, and nothing else changes |
| TraitProvider.EthologyTraitProvider.AddTraits | src/main/java/com/kjmaster/ethology/datagen/EthologyTraitProvider.java:90-164 | both tables are what createJson for each definition in order leaves |
| TraitProvider.EthologyTraitProvider.AddManualTranslations | src/main/java/com/kjmaster/ethology/datagen/EthologyTraitProvider.java:76-88 | the language table is what manualTrait for each manual key in order leaves |
| TraitProvider.EthologyTraitProvider.Run | src/main/java/com/kjmaster/ethology/datagen/EthologyTraitProvider.java:37-74 | a run's output does not depend on the state before it: the documented traits' files and the fixed entries overlaid with every collected entry |
| Gui.Likely | src/main/java/com/kjmaster/ethology/client/gui/MobListWidget.java:45-46 | a type is kept exactly when it is in the registry and passes the likely-mob filter |
| Gui.Insert | src/main/java/com/kjmaster/ethology/client/gui/MobListWidget.java:47 | inserting adds exactly the one type: the result is a permutation of the list plus the type |
| Gui.SortByDescription | src/main/java/com/kjmaster/ethology/client/gui/MobListWidget.java:47 | sorting by name is a permutation of its input |
| Gui.InsertSorted | src/main/java/com/kjmaster/ethology/client/gui/MobListWidget.java:47 | inserting into a list sorted by name keeps it sorted |
| Gui.SortSorted | src/main/java/com/kjmaster/ethology/client/gui/MobListWidget.java:47 | the sorted list is ordered by name |
| Gui.Keep | src/main/java/com/kjmaster/ethology/client/gui/MobListWidget.java:48-52 | a type is kept exactly when it is in the list and its lower-cased name contains the filter |
| Gui.KeepSorted | src/main/java/com/kjmaster/ethology/client/gui/MobListWidget.java:48-52 | filtering a sorted list keeps it sorted |
| Gui.KeepEmptyFilter | src/main/java/com/kjmaster/ethology/client/gui/MobListWidget.java:42-52 | an empty filter keeps every entry |
| Gui.ListEntriesSpec | src/main/java/com/kjmaster/ethology/client/gui/MobListWidget.java:40-53 | the list holds exactly the likely mobs whose lower-cased name contains the lower-cased filter, sorted by name; an empty filter lists every likely mob |
| Gui.FirstIndex | src/main/java/com/kjmaster/ethology/client/gui/MobListWidget.java:79-87 | the index found is that of the first entry of the type, and none is found exactly when no entry has it |
| Gui.Select | src/main/java/com/kjmaster/ethology/client/gui/EthologyScreen.java:111-117 | while suppressed a selection changes nothing; otherwise it becomes the pending type at the current time |
| Gui.Tick | src/main/java/com/kjmaster/ethology/client/gui/EthologyScreen.java:150-155 | a frame scans exactly when a type is pending and at least 300 ms have passed, and then clears the pending type only |
| Gui.ReplayAppend | src/main/java/com/kjmaster/ethology/client/gui/EthologyScreen.java:111-155 | replaying two event runs one after the other equals replaying their concatenation |
| Gui.EarlyFramesAreQuiet | src/main/java/com/kjmaster/ethology/client/gui/EthologyScreen.java:150-155 | frames drawn before 300 ms have passed scan nothing and change nothing |
| Gui.PendingFiresOnce | src/main/java/com/kjmaster/ethology/client/gui/EthologyScreen.java:150-155 | a pending selection is scanned exactly once, when some frame comes at least 300 ms after it, and never otherwise |
| Gui.PendingClearedAfterFiring | src/main/java/com/kjmaster/ethology/client/gui/EthologyScreen.java:150-155 | once a frame comes 300 ms after the selection, nothing stays pending |
| Gui.SupersededSelection | src/main/java/com/kjmaster/ethology/client/gui/EthologyScreen.java:111-155 | a selection replaced within 300 ms is never scanned; only the later one is, once |
| Gui.PreviewMatchesScan | src/main/java/com/kjmaster/ethology/client/gui/EthologyScreen.java:127-140 | with a level, the preview is of the scanned type or absent, and a preview already of that type is kept |
| Gui.EthologyScreen.constructor | src/main/java/com/kjmaster/ethology/client/gui/EthologyScreen.java:37-48 | no list, no preview, no info shown, nothing pending and events not suppressed |
| Gui.EthologyScreen.OnMobSelected | src/main/java/com/kjmaster/ethology/client/gui/EthologyScreen.java:111-117 | the debounce state becomes the selection of the type at the given time |
| Gui.EthologyScreen.ExecuteScan | src/main/java/com/kjmaster/ethology/client/gui/EthologyScreen.java:119-143 | an archetype scan is run, with the effect on the database `ScanEntity` states, the preview is updated for the type, and the panel shows the database's info for it, which is the analysis when one was made locally |
| Gui.EthologyScreen.UpdatePreview | src/main/java/com/kjmaster/ethology/client/gui/EthologyScreen.java:127-140 | the preview is recreated only when none of the scanned type is cached and a level exists; a non-living creation clears it |
| Gui.EthologyScreen.Render | src/main/java/com/kjmaster/ethology/client/gui/EthologyScreen.java:146-162 | the debounce state and the scanned type are one frame's tick; a frame that scans nothing changes nothing else; a frame that fires runs the archetype scan of the fired type, with its request, its effect on the database and the analysis on the panel |
| Gui.EthologyScreen.OnSearchChanged | src/main/java/com/kjmaster/ethology/client/gui/EthologyScreen.java:66-68 | the list is refiltered with the search text and nothing is selected |
| Gui.EthologyScreen.Init | src/main/java/com/kjmaster/ethology/client/gui/EthologyScreen.java:53-101 | a new list over every likely mob; with a living crosshair target, that entity is the preview, its type's info is shown and selected, and no scan is scheduled; a connected client runs the targeted scan, with its request and its effect on the database, and an offline one leaves the database alone |
| Gui.EthologyScreen.ShowCrosshair | src/main/java/com/kjmaster/ethology/client/gui/EthologyScreen.java:84-100 | without a living crosshair target nothing changes and nothing is sent; with one, it becomes the preview, its type's info goes to the panel, its type's first list entry is selected, selection events end un-suppressed; a connected client runs the targeted scan, with its request and its effect on the database, and an offline one sends nothing and leaves the database alone |
| Gui.MobListWidget.constructor | src/main/java/com/kjmaster/ethology/client/gui/MobListWidget.java:24-28 | the new list shows every likely mob for an empty filter, with nothing selected |
| Gui.MobListWidget.RefreshList | src/main/java/com/kjmaster/ethology/client/gui/MobListWidget.java:40-53 | the entries become the filtered sorted likely mobs and the selection is cleared |
| Gui.MobListWidget.SetSelectedByType | src/main/java/com/kjmaster/ethology/client/gui/MobListWidget.java:79-87 | the first entry of the type is selected; without one the selection is unchanged |
| Gui.MobListWidget.Click | src/main/java/com/kjmaster/ethology/client/gui/MobListWidget.java:111-116 | the clicked entry is selected, the click is handled and the screen records it as a selection |

## Left out

- Threads: the analysis thread pool, `supplyAsync`/`whenCompleteAsync` and the atomicity of `computeIfAbsent`. The main-thread part of a request and the completion of an analysis are two sequential steps (`HandleScanRequest`, `CompleteScan`). At most one analysis per type under real concurrency is not claimed.
- Packet registration and dispatch (`EthologyPacketHandler.register`, the sync payload). Primitive buffer reads and writes (resource location, UUID, double, item stack) are abstract tokens of a buffer sequence.
- Rendering and layout: the entity viewport, panel widths, the info panel's line wrapping. The info panel is the screen's `shownInfo` field.
- Mod wiring, configuration, tags, key bindings and input handling. Inspector and parser interfaces are function types or enumerations of the built-in ones.
- Floating point: stats and rate-limiter tokens are `real`, without rounding.
- Engine internals are uninterpreted inputs:
  - registries and entity creation (`Created`: living, non-living or a thrown exception);
  - JVM reflection (fields that cannot be made accessible or read are flagged);
  - Gson parsing (a JSON object is a map of string members);
  - item display names (a function parameter).
- Disposal: the archetype analysis reports whether the created entity was discarded. It is not claimed on every exit path; when analysis throws, the source does not discard.
- The getters `getAll` and `isScanned` are plain field reads of `Database.EthologyDatabase`.
- GenericInspector.EntityNames: the function's own contract bounds the number of names only. That the names are exactly those of the living-entity class values, in field order, is stated by the lemmas `EntityNamesFromLivingClasses` (soundness) and `EntityNamesComplete` (completeness and position).
- Gui.SortByDescription: the sort is proved to be an ordered permutation. That it is stable, keeping registry order among equal names, is not stated.
- Gui.MobListWidget.RefreshList: `clearEntries` is taken to clear the selection as well. The list widget's base class is not part of this model.
- Classes.IsSubtype: a class's `interfaces` entry is taken to list every interface it implements, including those inherited through interfaces that extend others. The JVM computes that closure; the model takes it as given and does not compute it from `extends` declarations (`InterfacesClosed` names the assumption, `SubtypeThroughInterface` proves what it gives).
- Text.LexLessEq: compares characters as Unicode scalar values. `String.compareTo` compares UTF-16 code units, so the two orders differ for characters outside the Basic Multilingual Plane.
- PacketHandler.ScanHandler.HandleScanRequest: sending a reply is modelled as the returned `Outcome`. The joined requesters of a pending scan receive what `CompleteScan` returns. Its pending-scan bookkeeping is the corrected `BeginScan` of the Findings table, not the code as written (see the next line).
- PacketHandler.ScanHandler.Dispatch: on a cache miss it records the scan with the corrected `BeginScan`. After a failed or non-living creation it records nothing (`NotStarted`), so a later request for the type creates it again. As written, `computeIfAbsent` stores an already-completed null future. Every later request joins that future and gets no reply, and no analysis of the type starts until `clearCache`. `BeginScanAsWritten` and `AsWrittenNeverRetries` model that. The handler's contract does not.
- TraitProvider.EthologyTraitProvider.Run: writing files through the data-pack output is left out. `Run` returns the saved objects and the language file instead.
- Text.ToLower: lower-cases ASCII letters only, the same in every locale. Only `EthologyTraitProvider.java:194` and `:212` pass `Locale.ROOT`. The other call sites use the default locale: `EthologyTraitManager.java:52` and `:89`, `GoalParser.java:56`, `MobListWidget.java:42` and `:49`, and `EthologyTraitProvider.java:195`, `:206` and `:211`. Under a Turkish default locale, `ACTIVITY` lower-cases to "actıvıty" (with a dotless i). The trait manager would then reject an upper-case `ACTIVITY` type and build other translation keys. The model does not capture that. Nor does it map non-ASCII letters, as Java also does.

## Where the code is inconsistent with itself

The model follows the code as it stands in each case.
- Nothing in the analysis calls `EcologicalClassifier.classify`: `EntityAnalyzer.analyze` (`EntityAnalyzer.java:51-74`) runs the stats, the brain, the goals and the fallbacks only. The classifier is modelled on its own (`Classifier.Classify`) and is not part of the analysis.
- `EntityAnalyzer` calls a `GoalParser.parse(living, info)` that `GoalParser` does not declare. It is modelled as `parseCapabilities` followed by `parseCurrentState`.
- `MobTrait` declares three components (icon, title, description), but most callers construct and compare five (id, icon, translation key, arguments, type). One `Trait` record carries both:
  - `MobScopedInfo` deduplicates by id;
  - `BrainParser`, `EntityAnalyzer` and `GoalParserRegistry` deduplicate by title.
- `GoalParser` passes a consumer to `IGoalParser.parse`, which is declared to take a `MobScopedInfo`. A parser is modelled as producing the trait it adds. Catalog traits and debug placeholders go to the consumer (the capabilities or the current states, through the id check). A parser's trait goes through `addUniqueTrait`'s title check (`GoalParserRegistry.java:69-71`) into the title-keyed trait list.
- `MobListWidget.setSelectedByType` does not notify the screen. So the suppress flag set around it in `EthologyScreen.init` has no effect in the code. The model keeps the flag and proves that no scan is scheduled.

## Findings

| source | as written | input that shows it | evidently intended | confidence | as-written member | corrected member |
|---|---|---|---|---|---|---|
| src/main/java/com/kjmaster/ethology/network/EthologyPacketHandler.java:119-158 | when creating the entity fails or gives a non-living entity, `computeIfAbsent` stores an already-completed null future, and only the asynchronous path removes a pending entry | a request for a type whose creation throws once: every later request for that type joins the stored null future, and no analysis starts until `clearCache` | a failed creation records nothing, so the next request retries | high, not executed | PacketHandler.AsWrittenNeverRetries | PacketHandler.FailedCreationIsRetried |
