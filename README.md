# Sink configuration pipeline of pulsarctl, modelled in Dafny

This project models `pkg/ctl/sinks/util.go` of pulsarctl, the Pulsar command-line tool.
That file turns the flags of a `sinks create` or `sinks update` command into the
connector configuration (`SinkConfig`) that is sent to the cluster:

- `processArguments` attaches a configuration if there is none. It loads the YAML file
  named by `--sink-config-file`, if any. It then lays each flag over the configuration,
  one block at a time: an empty flag keeps the current value, and a zero parallelism
  flag stores 1.
  Both `--archive` and `--sink-type` given is an error. A sink type is resolved against
  the cluster's builtin catalog. The CPU, disk and RAM flags allocate the default
  resources on first need. A malformed `--sink-config` JSON is absorbed, but malformed
  serde or schema maps are fatal.
- `validateSinkType` asks the cluster for the builtin connectors. It answers
  `builtin://<type>` when the type is a *substring* of the space-joined connector names,
  and the empty string otherwise, including when the request fails.
- `parseConfigs` decodes the free-form configs JSON, or gives nil.
- `validateSinkConfigs` first reports an empty archive. It then infers missing arguments
  and checks a local builtin package file. Last, it reports an empty name.
- `checkArgsForUpdate` defaults tenant and namespace independently. `processNamespaceCmd`
  resets both unless both are given. `processBaseArguments` applies that rule and then
  requires a name.

Files:

- `sink_types.dfy` (module `SinkTypes`): the data model. `SinkConfig` and `SinkData`
  are classes whose fields the pipeline updates in place. `Value()` and `Flags()` read
  the fields out as the datatypes `Config` and `SinkFlags`. `SinksAdmin` is the
  cluster's sinks endpoint: it holds the catalog and counts requests. The module also
  defines the JSON values, the collaborators (file reader, validation helpers) and the
  errors with their texts.
- `strings.dfy` (module `Strings`): Go's `strings.Split`, `strings.Join` and
  `strings.Contains`, with their round trips and the substring characterisation.
- `sinks.dfy` (module `Sinks`): each block of `processArguments` as a pure function on
  `Config`, and their composition `Merge`. Each block is also a method of the module
  that updates a `SinkConfig` passed to it, proved equal to its function, and `ProcessArguments` is proved equal to `Merge`.
  The module also holds the resolver, validation and the two defaulting rules.
- `sink_properties.dfy` (module `SinkProperties`): what the pipeline promises, proved
  about `Merge`, `ResolveSinkType`, `CheckConfig` and the defaulting rules.

Collaborators the file calls but does not define are parameters:

- reading and unmarshalling the YAML file is `readFile: string -> FileOutcome`;
- the JSON decoder is `decode: string -> Option<JsonValue>`;
- `utils.NewDefaultResources()` is `defaults`;
- `utils.InferMissingSinkeArguments`, `utils.IsPackageURLSupported`,
  `utils.IsFileExist` and `utils.BUILTIN` are a `Validators` value;
- the admin client is a `SinksAdmin` whose `builtins` is the answer of the
  builtin-sinks request, or `None` when it fails.

`utils.PublicTenant` and `utils.DefaultNamespace` are the constants `"public"` and
`"default"`.

Five behaviours of the code that are easy to miss:

- The archive/sink-type conflict is raised before either the archive or the sink type
  is applied, and before the catalog is requested. But it is raised after the tenant
  through the parallelism blocks (lines 57–120) have already changed the attached
  configuration, and it returns before the resource, configs, auto-ack and timeout
  blocks (lines 134–168) run. `MergeLeadingOverrides`, `MergeTopicMaps`,
  `MergeSubscriptionOverrides` and `MergeConflict` together state what the
  configuration holds after the error.
- A malformed schema map is not all-or-nothing either: when the serde map decodes, it
  is stored (line 92) before the schema map fails (line 99), so the configuration keeps
  the new serde map and the loaded schema map (`MergeTopicMapFatal`).
- An unknown sink type does not leave the archive alone. It overwrites a configured
  archive with the empty string, so validation then reports a missing archive
  (`UnknownTypeReportsMissingArchive`).
- A zero parallelism flag does not keep the file's parallelism: it stores 1, so a
  parallelism of 4 from the file becomes 1. A negative flag is stored as it is, so
  the outcome is never 0 but may be below 1 (`MergeSubscriptionOverrides`).
- Catalog membership is substring containment, not exact name equality: a fragment
  of a name, or one spanning the space between two names, resolves
  (`ResolveFragments`).

## Model

| member | source | states |
|---|---|---|
| SinkTypes.SinkConfig.constructor | pkg/ctl/sinks/util.go:42 | a new configuration has every field at its zero value |
| SinkTypes.SinkConfig.Assign | pkg/ctl/sinks/util.go:48 | decoding into the struct leaves every field equal to the decoded configuration |
| SinkTypes.SinksAdmin.GetBuiltInSinks | pkg/ctl/sinks/util.go:175-176 | the request answers the cluster's catalog (or failure) and is counted once |
| Strings.Join | pkg/ctl/sinks/util.go:186 | joining no parts gives the empty string, and a joined list begins with its first part |
| Strings.Contains | pkg/ctl/sinks/util.go:187 | the empty string is contained in everything, a prefix is contained, and a contained string is no longer than the text |
| Strings.Split | pkg/ctl/sinks/util.go:82 | splitting gives at least one piece and no piece contains the separator |
| Strings.SplitJoin | pkg/ctl/sinks/util.go:81-84 | joining the pieces of a split with the same separator gives back the string |
| Strings.JoinSplit | pkg/ctl/sinks/util.go:81-84 | splitting the join of pieces without the separator gives back the pieces |
| Strings.ContainsIff | pkg/ctl/sinks/util.go:187 | the substring test holds exactly when the type occurs at some index of the joined names |
| Strings.JoinedPartOccurs | pkg/ctl/sinks/util.go:186 | every name occurs in the space-joined list |
| Strings.MemberContained | pkg/ctl/sinks/util.go:186-187 | anything exact membership accepts, the substring test accepts too |
| SinkTypes.Message | pkg/ctl/sinks/util.go:50-247 | the texts of the errors returned at lines 50, 53, 123, 209, 216, 221 and 247: every error has a non-empty text; the two file errors end with their cause and the missing-archive error names the archive |
| Sinks.DecodeStringMap | pkg/ctl/sinks/util.go:87-92 | a string map decodes from an object whose members are strings or null, with the same keys, each string member as its value and each null member as the empty string; null gives the empty map; anything else is an error |
| Sinks.ParseConfigs | pkg/ctl/sinks/util.go:196-205 | a JSON object gives exactly its members; a non-empty result only comes from a non-empty object; there is no error outcome |
| Sinks.Merge | pkg/ctl/sinks/util.go:37-171 | the catalog is requested only by a successful run with a sink type and no archive; a failed load returns the base configuration unchanged without a request |
| Sinks.CheckConfig | pkg/ctl/sinks/util.go:207-224 | success needs an archive and a name after inference; the only errors are missing archive, missing archive file and missing name; missing archive is reported exactly when the archive is empty |
| Sinks.ResolveSinkType | pkg/ctl/sinks/util.go:173-194 | the resolver answers either the empty string or the builtin locator of the type |
| Sinks.ApplyResources | pkg/ctl/sinks/util.go:134-156 | all resource flags zero leaves the resources unchanged; otherwise they are present and each non-zero flag wins over the existing or default value |
| Sinks.UpdateDefaults | pkg/ctl/sinks/util.go:226-234 | each given field is kept; an empty tenant becomes `public` and an empty namespace becomes `default` |
| Sinks.CreationDefaults | pkg/ctl/sinks/util.go:236-241 | after the creation rule both fields are non-empty; a complete pair is kept, anything else becomes public/default |
| Sinks.ProcessArguments | pkg/ctl/sinks/util.go:37-171 | attaches a configuration (the existing one, or a fresh zero one) and leaves it, the returned error and the request count exactly as `Merge` of the old configuration and the flags says |
| Sinks.ApplyArguments | pkg/ctl/sinks/util.go:45-170 | the blocks in order, stopping at the first error, leave the configuration, error and request count as `Merge` says |
| Sinks.LoadConfigFile | pkg/ctl/sinks/util.go:45-55 | a missing file changes nothing; an unreadable or malformed one returns its error with the configuration unchanged; a document overlays the configuration |
| Sinks.ApplyEarlyFlags | pkg/ctl/sinks/util.go:57-102 | the identity through schema blocks leave the configuration and error as `EarlyFlags` says |
| Sinks.ApplyIdentityFlags | pkg/ctl/sinks/util.go:57-67 | tenant, namespace and name follow the non-zero-wins rule |
| Sinks.ApplyBehaviourFlags | pkg/ctl/sinks/util.go:69-79 | class name, guarantees and ordering follow the non-zero-wins rule |
| Sinks.ApplyInputsFlag | pkg/ctl/sinks/util.go:81-84 | a non-empty inputs flag replaces the inputs with its comma-separated pieces |
| Sinks.ApplySerdeFlag | pkg/ctl/sinks/util.go:86-93 | a serde map that does not decode is an error and changes nothing; one that does replaces the map |
| Sinks.ApplySchemaFlag | pkg/ctl/sinks/util.go:95-102 | the same for the schema map |
| Sinks.ApplyMiddleFlags | pkg/ctl/sinks/util.go:104-120 | subscription, topics pattern and parallelism as `MiddleFlags` says |
| Sinks.ApplySubscriptionFlags | pkg/ctl/sinks/util.go:104-114 | subscription name, position and topics pattern follow the non-zero-wins rule |
| Sinks.ApplyParallelismFlag | pkg/ctl/sinks/util.go:116-120 | parallelism becomes the flag when non-zero and 1 otherwise |
| Sinks.ApplyPackagingFlags | pkg/ctl/sinks/util.go:122-132 | archive plus sink type is an error that changes neither the archive nor the request count; otherwise the archive flag, then the resolved type, are stored and the catalog is requested exactly when a type is given |
| Sinks.ApplyLateFlags | pkg/ctl/sinks/util.go:134-168 | resources, configs, auto-ack and timeout as `LateFlags` says |
| Sinks.ApplyResourceFlags | pkg/ctl/sinks/util.go:134-156 | the resources become `ApplyResources` of the old ones and the three flags |
| Sinks.ApplyTrailingFlags | pkg/ctl/sinks/util.go:158-168 | configs are parsed from a non-empty flag, auto-ack follows the rule, the timeout is set exactly when non-zero |
| Sinks.CollectNames | pkg/ctl/sinks/util.go:182-184 | the collected list has one entry per definition, its name, in order |
| Sinks.ValidateSinkType | pkg/ctl/sinks/util.go:173-194 | one catalog request is made and the answer is `ResolveSinkType` of the catalog |
| Sinks.ValidateSinkConfigs | pkg/ctl/sinks/util.go:207-224 | leaves the configuration and returns the error `CheckConfig` says |
| Sinks.CheckArgsForUpdate | pkg/ctl/sinks/util.go:226-234 | tenant and namespace become `UpdateDefaults` of their old values; nothing else changes |
| Sinks.ProcessNamespaceCmd | pkg/ctl/sinks/util.go:236-241 | tenant and namespace become `CreationDefaults` of their old values; nothing else changes |
| Sinks.ProcessBaseArguments | pkg/ctl/sinks/util.go:243-251 | the creation rule is applied first, and the name-required error is returned exactly when the name is empty |
| SinkProperties.MergeLoadFailure | pkg/ctl/sinks/util.go:45-54 | an unreadable or malformed file returns its error with the configuration unchanged and no catalog request |
| SinkProperties.MergeMissingFileIgnored | pkg/ctl/sinks/util.go:52 | a configuration file that does not exist gives the same outcome as naming none |
| SinkProperties.MergeLeadingOverrides | pkg/ctl/sinks/util.go:57-84 | tenant, namespace, name, class, guarantees, ordering and inputs in the outcome follow the non-zero-wins rule over the loaded file, whatever fails later |
| SinkProperties.MergeInputsRoundTrip | pkg/ctl/sinks/util.go:81-84 | a given inputs flag becomes comma-free pieces whose comma join is the flag |
| SinkProperties.MergeTopicMapFatal | pkg/ctl/sinks/util.go:86-102 | a serde or schema map that does not decode stops the pipeline with the invalid-JSON error, no catalog request, and archive, parallelism and later fields as loaded; a failing serde map leaves both topic maps as loaded, and a failing schema map after a good serde map leaves the serde map already stored and the schema map as loaded |
| SinkProperties.MergeSubscriptionOverrides | pkg/ctl/sinks/util.go:104-120 | when the pipeline succeeds or stops at the conflict, subscription fields follow the rule and parallelism is the flag or 1, never 0 |
| SinkProperties.MergeConflict | pkg/ctl/sinks/util.go:122-124 | past the topic maps, the conflict error occurs exactly when both archive and sink type are given; then the archive, resources, configs, auto-ack and timeout are as loaded and the catalog is not requested |
| SinkProperties.MergeTopicMaps | pkg/ctl/sinks/util.go:86-102 | when the run succeeds or stops at the conflict, each given map flag decodes and its map is stored, and an empty flag leaves the loaded map |
| SinkProperties.MergeArchive | pkg/ctl/sinks/util.go:122-132 | on success the archive is the resolved type, else the archive flag, else the loaded archive; archive and type were not both given; the catalog was requested exactly when a type was given |
| SinkProperties.MergeResources | pkg/ctl/sinks/util.go:134-156 | on success, zero resource flags leave the resources as loaded (absent stays absent); otherwise each non-zero flag is stored over the loaded or default values |
| SinkProperties.MergeTimeoutAndAutoAck | pkg/ctl/sinks/util.go:162-168 | on success the timeout is set, to the flag, exactly when the flag is non-zero, and auto-ack follows the rule |
| SinkProperties.MergeConfigsAbsorbed | pkg/ctl/sinks/util.go:158-160 | the configs flag never changes the error or the catalog request |
| SinkProperties.MergeConfigsMalformed | pkg/ctl/sinks/util.go:158-160 | on success, a configs flag that is not a JSON object leaves the configs empty |
| SinkProperties.MergeConfigs | pkg/ctl/sinks/util.go:158-160 | on success, a given configs flag replaces the configs with its parse, which for a JSON object is exactly its members, and an empty flag keeps the loaded configs |
| SinkProperties.MergeIdempotent | pkg/ctl/sinks/util.go:37-171 | without a configuration file, running the pipeline again on its own outcome with the same flags reproduces that outcome |
| SinkProperties.EarlyIdempotent | pkg/ctl/sinks/util.go:57-102 | running the identity through schema blocks again on their outcome reproduces it, error included |
| SinkProperties.NullMemberIsEmptyString | pkg/ctl/sinks/util.go:88 | `{"t":null}` decodes to the map from `t` to the empty string, with no error |
| SinkProperties.OtherMemberFails | pkg/ctl/sinks/util.go:88-91 | an object with any member that is neither a string nor null is a decoding error |
| SinkProperties.ResolveSinkTypeIff | pkg/ctl/sinks/util.go:173-194 | the resolver answers the builtin locator exactly when the catalog was fetched and the type occurs somewhere in the space-joined names |
| SinkProperties.ResolveFailedFetch | pkg/ctl/sinks/util.go:176-180 | a failed catalog request resolves to the empty string |
| SinkProperties.ResolveListedName | pkg/ctl/sinks/util.go:182-193 | a listed connector name resolves to its builtin locator |
| SinkProperties.ResolveUnknownName | pkg/ctl/sinks/util.go:176-190 | a type that occurs at no position of the space-joined names, or any type when the request fails, resolves to the empty string |
| SinkProperties.ResolveFragments | pkg/ctl/sinks/util.go:186-193 | example: with the connectors `kafka` and `jdbc`, `afk` and `a j` are not connector names, yet both resolve to a builtin locator |
| SinkProperties.CheckEmptyArchiveFirst | pkg/ctl/sinks/util.go:208-210 | an empty archive is reported before inference, with the configuration untouched |
| SinkProperties.CheckWithArchive | pkg/ctl/sinks/util.go:212-223 | with an archive, the inferred configuration is kept; the missing-file error wins over the missing-name error; success exactly when neither applies |
| SinkProperties.UnknownTypeReportsMissingArchive | pkg/ctl/sinks/util.go:130-131 | for any catalog, a successful run with a sink type that does not resolve leaves the archive empty, whatever the file gave, so validation reports a missing archive |
| SinkProperties.UpdateDefaultsIdempotent | pkg/ctl/sinks/util.go:226-234 | the update rule applied twice equals it applied once |
| SinkProperties.UpdateDefaultsIndependent | pkg/ctl/sinks/util.go:226-234 | the defaulted tenant depends only on the tenant, the namespace only on the namespace |
| SinkProperties.CreationDefaultsIdempotent | pkg/ctl/sinks/util.go:236-241 | the creation rule applied twice equals it applied once |
| SinkProperties.CreationDefaultsAllOrNothing | pkg/ctl/sinks/util.go:236-241 | the creation rule keeps the given pair or replaces both fields |
| SinkProperties.DefaultingRulesDiffer | pkg/ctl/sinks/util.go:226-241 | with no tenant, creation discards any given namespace while update keeps it |

## Left out

- Reading and YAML-decoding the configuration file are the `readFile` parameter. A
  decoding error that leaves some fields already written is not modelled: a malformed
  document leaves the configuration unchanged.
- The JSON decoder is the `decode` parameter. Its error text is not modelled: every
  decoding error of the serde and schema maps is the single `InvalidJson` error.
- JSON numbers are reals, so the decoder's float64 rounding is not modelled. CPU, a
  float64, is a real too: the pipeline only compares it with zero and copies it. A
  NaN CPU flag cannot be represented; in Go it compares unequal to zero, so it would
  allocate resources and store NaN.
- The admin client, its API version and the network are the `SinksAdmin` object. A
  failed request is `builtins == None`.
- The two `log.Printf` calls of `validateSinkType` are left out: they only log.
- Pointers into `SinkData` are not modelled as aliases. After `processArguments`,
  `TopicsPattern` and `TimeoutMs` point at the flags' own fields; the model copies the
  values, so a later change of the flag would not show through.
- The resources are a value, not a shared `*Resources`.
- A nil map and an empty map are both the empty map.
- `utils.InferMissingSinkeArguments`, `utils.IsPackageURLSupported`,
  `utils.IsFileExist`, `utils.BUILTIN` and `utils.NewDefaultResources` are parameters,
  because their code is not part of this model.
- The flags are read once, at the start of `ProcessArguments`. The Go code reads each
  flag when its block runs, but no block writes a flag, so the two agree.
- `SinkConfig` fields the pipeline never reads or writes are not modelled.
- Go strings are byte strings; here a string is a sequence of characters. Comma
  splitting and substring search agree on valid UTF-8, but arguments that are not
  valid UTF-8 cannot be represented.
- A JSON object with a repeated key is not representable: decoded objects are maps.
