/** The sink-connector configuration pipeline of `pkg/ctl/sinks/util.go`: laying the
    command's flags over a base configuration, resolving a builtin sink type,
    validating the result, and the two tenant/namespace defaulting rules.

    Each operation that updates a configuration in place is a method proved equal to
    a pure function of the old state; the properties the program promises are proved
    about those functions in `SinkProperties`. */
module Sinks {
  import opened SinkTypes
  import opened Strings

  /** Locator scheme of a builtin connector. */
  const BuiltinScheme := "builtin://"

  /** Tenant and namespace used when none is given. */
  const PublicTenant := "public"
  const DefaultNamespace := "default"

  /** A configuration together with the error that stopped work on it, if any. */
  datatype Step = Step(conf: Config, err: Option<SinkError>)

  /** The outcome of laying the flags over a configuration: the configuration as the
      method leaves it, the error it returns, and whether it asked the cluster for the
      builtin catalog. */
  datatype Merged = Merged(conf: Config, err: Option<SinkError>, fetchedCatalog: bool)

  // ---------------------------------------------------------------------------
  // Specification of processArguments, block by block.

  /** Reading the configuration file, if one is named. A missing file is not an
      error; an unreadable or malformed one is. */
  function LoadedConfig(base: Config, path: string, readFile: string -> FileOutcome): Result<Config>
  {
    if path == "" then Ok(base)
    else
      match readFile(path)
      case NotExist => Ok(base)
      case ReadFailed(cause) => Err(LoadConfFailed(cause))
      case Malformed(cause) => Err(UnmarshalYamlFailed(cause))
      case Document(overlay) => Ok(overlay(base))
  }

  /** The non-zero-wins rule for a text flag: an empty flag keeps the current value. */
  function Override(current: string, flag: string): string
  {
    if flag != "" then flag else current
  }

  /** Tenant, namespace and name. */
  function IdentityFlags(c: Config, f: SinkFlags): Config
  {
    c.(tenant := Override(c.tenant, f.tenant),
       namespace := Override(c.namespace, f.namespace),
       name := Override(c.name, f.name))
  }

  /** Class name, processing guarantees and ordering. */
  function BehaviourFlags(c: Config, f: SinkFlags): Config
  {
    c.(className := Override(c.className, f.className),
       processingGuarantees := Override(c.processingGuarantees, f.processingGuarantees),
       retainOrdering := if f.retainOrdering then f.retainOrdering else c.retainOrdering)
  }

  /** Inputs: a non-empty flag is split on commas. */
  function InputsFlag(c: Config, f: SinkFlags): Config
  {
    c.(inputs := if f.inputs != "" then Split(f.inputs, ',') else c.inputs)
  }

  /** A JSON value a `string` can be decoded from: a string, or `null`, which leaves
      the zero string in place. */
  predicate StringOrNull(j: JsonValue)
  {
    j.JString? || j.JNull?
  }

  /** Decoding a JSON document into a `map[string]string`: an object whose members
      are all strings or `null` gives that mapping, with `null` members as the empty
      string; `null` gives the nil (empty) map; anything else is an error. */
  function DecodeStringMap(v: Option<JsonValue>): (r: Option<map<string, string>>)
    ensures v.None? ==> r.None?
    ensures v == Some(JNull) ==> r == Some(map[])
    ensures v.Some? && v.value.JObject? ==>
      (r.Some? <==> forall k :: k in v.value.members ==> StringOrNull(v.value.members[k]))
    ensures v.Some? && v.value.JObject? && r.Some? ==>
      && r.value.Keys == v.value.members.Keys
      && forall k :: k in r.value ==>
           v.value.members[k] == JString(r.value[k]) || (v.value.members[k] == JNull && r.value[k] == "")
    ensures v.Some? && !v.value.JObject? && !v.value.JNull? ==> r.None?
  {
    match v
    case None => None
    case Some(JNull) => Some(map[])
    case Some(JObject(members)) =>
      if forall k :: k in members ==> StringOrNull(members[k])
      then Some(map k | k in members :: if members[k].JString? then members[k].s else "")
      else None
    case Some(_) => None
  }

  /** The serde-map flag: empty keeps the current map; one that does not decode is
      an error and changes nothing. */
  function SerdeFlag(c: Config, f: SinkFlags, decode: string -> Option<JsonValue>): Step
  {
    if f.customSerdeInputString == "" then Step(c, None)
    else
      match DecodeStringMap(decode(f.customSerdeInputString))
      case None => Step(c, Some(InvalidJson))
      case Some(m) => Step(c.(topicToSerdeClassName := m), None)
  }

  /** The schema-map flag, with the same rules. */
  function SchemaFlag(c: Config, f: SinkFlags, decode: string -> Option<JsonValue>): Step
  {
    if f.customSchemaInputString == "" then Step(c, None)
    else
      match DecodeStringMap(decode(f.customSchemaInputString))
      case None => Step(c, Some(InvalidJson))
      case Some(m) => Step(c.(topicToSchemaType := m), None)
  }

  /** Subscription name and position, and topics pattern. */
  function SubscriptionFlags(c: Config, f: SinkFlags): Config
  {
    c.(sourceSubscriptionName := Override(c.sourceSubscriptionName, f.subsName),
       sourceSubscriptionPosition := Override(c.sourceSubscriptionPosition, f.subsPosition),
       topicsPattern := if f.topicsPattern != "" then Some(f.topicsPattern) else c.topicsPattern)
  }

  /** Parallelism: the flag when it is non-zero, otherwise 1. */
  function ParallelismFlag(c: Config, f: SinkFlags): Config
  {
    c.(parallelism := if f.parallelism != 0 then f.parallelism else 1)
  }

  /** The names of the catalog's connector definitions, in order. */
  function Names(defs: seq<ConnectorDefinition>): seq<string>
  {
    seq(|defs|, i requires 0 <= i < |defs| => defs[i].name)
  }

  /** The archive a sink type resolves to: the builtin locator when the catalog could
      be fetched and the type is contained in its space-joined names, otherwise the
      empty string. */
  function ResolveSinkType(catalog: Option<seq<ConnectorDefinition>>, sinkType: string): (r: string)
    ensures r == "" || r == BuiltinScheme + sinkType
  {
    match catalog
    case None => ""
    case Some(defs) =>
      if Contains(Join(Names(defs), " "), sinkType) then BuiltinScheme + sinkType else ""
  }

  /** Both an archive and a sink type given. */
  predicate Conflict(f: SinkFlags)
  {
    f.archive != "" && f.sinkType != ""
  }

  /** The archive flag, then the resolved sink type (callers never give both). */
  function PackagingFlags(c: Config, f: SinkFlags, catalog: Option<seq<ConnectorDefinition>>): Config
  {
    var withArchive := c.(archive := Override(c.archive, f.archive));
    if f.sinkType != "" then withArchive.(archive := ResolveSinkType(catalog, f.sinkType))
    else withArchive
  }

  /** The resources after a zero-valued request is allocated on first need. */
  function Allocated(res: Option<Resources>, defaults: Resources): Resources
  {
    if res.Some? then res.value else defaults
  }

  /** The CPU, disk and RAM flags, applied one after the other; the first non-zero one
      allocates the default resources if there are none. */
  function ApplyResources(res: Option<Resources>, cpu: real, disk: int, ram: int, defaults: Resources)
    : (r: Option<Resources>)
    ensures cpu == 0.0 && disk == 0 && ram == 0 ==> r == res
    ensures cpu != 0.0 || disk != 0 || ram != 0 ==>
      var start := Allocated(res, defaults);
      r == Some(Resources(if cpu != 0.0 then cpu else start.cpu,
                          if disk != 0 then disk else start.disk,
                          if ram != 0 then ram else start.ram))
  {
    var afterCpu := if cpu != 0.0 then Some(Allocated(res, defaults).(cpu := cpu)) else res;
    var afterDisk := if disk != 0 then Some(Allocated(afterCpu, defaults).(disk := disk)) else afterCpu;
    if ram != 0 then Some(Allocated(afterDisk, defaults).(ram := ram)) else afterDisk
  }

  /** The resource flags laid over a configuration. */
  function ResourceFlags(c: Config, f: SinkFlags, defaults: Resources): Config
  {
    c.(resources := ApplyResources(c.resources, f.cpu, f.disk, f.ram, defaults))
  }

  /** `parseConfigs`: a JSON object gives its members; anything else, including a
      document that does not decode, gives the nil (empty) map and no error. */
  function ParseConfigs(text: string, decode: string -> Option<JsonValue>): (r: map<string, JsonValue>)
    ensures decode(text).Some? && decode(text).value.JObject? ==> r == decode(text).value.members
    ensures r != map[] ==> decode(text).Some? && decode(text).value.JObject? && |decode(text).value.members| > 0
  {
    match decode(text)
    case Some(JObject(members)) => members
    case _ => map[]
  }

  /** Free-form configs, auto-ack and timeout. */
  function TrailingFlags(c: Config, f: SinkFlags, decode: string -> Option<JsonValue>): Config
  {
    c.(configs := if f.sinkConfigString != "" then ParseConfigs(f.sinkConfigString, decode) else c.configs,
       autoAck := if f.autoAck then f.autoAck else c.autoAck,
       timeoutMs := if f.timeoutMs != 0 then Some(f.timeoutMs) else c.timeoutMs)
  }

  /** The flags up to the inputs, which cannot fail. */
  function PlainFlags(c: Config, f: SinkFlags): Config
  {
    InputsFlag(BehaviourFlags(IdentityFlags(c, f), f), f)
  }

  /** The flags before parallelism: the plain ones, then the two topic maps, either
      of which may stop the merge. */
  function EarlyFlags(c: Config, f: SinkFlags, decode: string -> Option<JsonValue>): Step
  {
    var serde := SerdeFlag(PlainFlags(c, f), f, decode);
    if serde.err.Some? then serde else SchemaFlag(serde.conf, f, decode)
  }

  /** Subscription, topics pattern and parallelism. */
  function MiddleFlags(c: Config, f: SinkFlags): Config
  {
    ParallelismFlag(SubscriptionFlags(c, f), f)
  }

  /** The flags after the archive: resources, configs, auto-ack and timeout. */
  function LateFlags(c: Config, f: SinkFlags, decode: string -> Option<JsonValue>, defaults: Resources): Config
  {
    TrailingFlags(ResourceFlags(c, f, defaults), f, decode)
  }

  /** What `processArguments` does to the configuration `base` it starts from. */
  function Merge(base: Config, f: SinkFlags, readFile: string -> FileOutcome,
                 decode: string -> Option<JsonValue>, catalog: Option<seq<ConnectorDefinition>>,
                 defaults: Resources): (r: Merged)
    ensures r.fetchedCatalog ==> r.err.None? && f.sinkType != "" && f.archive == ""
    ensures LoadedConfig(base, f.sinkConfigFile, readFile).Err? ==> r.conf == base && !r.fetchedCatalog
  {
    match LoadedConfig(base, f.sinkConfigFile, readFile)
    case Err(e) => Merged(base, Some(e), false)
    case Ok(loaded) =>
      var early := EarlyFlags(loaded, f, decode);
      if early.err.Some? then Merged(early.conf, early.err, false)
      else
        var c := MiddleFlags(early.conf, f);
        if Conflict(f) then Merged(c, Some(ArchiveAndSinkType), false)
        else Merged(LateFlags(PackagingFlags(c, f, catalog), f, decode, defaults), None, f.sinkType != "")
  }

  // ---------------------------------------------------------------------------
  // processArguments and validateSinkType.

  /** `processArguments`: attaches a zero-valued configuration if there is none, then
      lays the configuration file and the flags over it. */
  method ProcessArguments(d: SinkData, admin: SinksAdmin, readFile: string -> FileOutcome,
                          decode: string -> Option<JsonValue>, defaults: Resources)
    returns (err: Option<SinkError>)
    modifies d`sinkConf, d.sinkConf, admin`fetches
    ensures d.sinkConf != null
    ensures old(d.sinkConf) != null ==> d.sinkConf == old(d.sinkConf)
    ensures old(d.sinkConf) == null ==> fresh(d.sinkConf)
    ensures var m := Merge(old(d.Base()), d.Flags(), readFile, decode, admin.builtins, defaults);
      d.sinkConf.Value() == m.conf && err == m.err &&
      admin.fetches == old(admin.fetches) + (if m.fetchedCatalog then 1 else 0)
  {
    if d.sinkConf == null {
      d.sinkConf := new SinkConfig();
    }
    err := ApplyArguments(d.Flags(), d.sinkConf, admin, readFile, decode, defaults);
  }

  /** The blocks of `processArguments` after the configuration is attached, in
      order, stopping at the first error. */
  method ApplyArguments(f: SinkFlags, conf: SinkConfig, admin: SinksAdmin, readFile: string -> FileOutcome,
                        decode: string -> Option<JsonValue>, defaults: Resources)
    returns (err: Option<SinkError>)
    modifies conf, admin`fetches
    ensures var m := Merge(old(conf.Value()), f, readFile, decode, admin.builtins, defaults);
      conf.Value() == m.conf && err == m.err &&
      admin.fetches == old(admin.fetches) + (if m.fetchedCatalog then 1 else 0)
  {
    err := LoadConfigFile(conf, f.sinkConfigFile, readFile);
    if err.Some? {
      return;
    }
    err := ApplyEarlyFlags(f, conf, decode);
    if err.Some? {
      return;
    }
    ApplyMiddleFlags(f, conf);
    err := ApplyPackagingFlags(f, conf, admin);
    if err.Some? {
      return;
    }
    ApplyLateFlags(f, conf, decode, defaults);
  }

  /** The configuration-file block of `processArguments`. */
  method LoadConfigFile(conf: SinkConfig, path: string, readFile: string -> FileOutcome)
    returns (err: Option<SinkError>)
    modifies conf
    ensures var r := LoadedConfig(old(conf.Value()), path, readFile);
      if r.Ok? then err.None? && conf.Value() == r.value
      else err == Some(r.error) && conf.Value() == old(conf.Value())
  {
    if path != "" {
      match readFile(path)
      case NotExist =>
      case ReadFailed(cause) =>
        return Some(LoadConfFailed(cause));
      case Malformed(cause) =>
        return Some(UnmarshalYamlFailed(cause));
      case Document(overlay) =>
        conf.Assign(overlay(conf.Value()));
    }
    return None;
  }

  /** The blocks of `processArguments` from tenant to the schema map. */
  method ApplyEarlyFlags(f: SinkFlags, conf: SinkConfig, decode: string -> Option<JsonValue>)
    returns (err: Option<SinkError>)
    modifies conf
    ensures Step(conf.Value(), err) == EarlyFlags(old(conf.Value()), f, decode)
  {
    ApplyIdentityFlags(f, conf);
    ApplyBehaviourFlags(f, conf);
    ApplyInputsFlag(f, conf);
    err := ApplySerdeFlag(f, conf, decode);
    if err.Some? {
      return;
    }
    err := ApplySchemaFlag(f, conf, decode);
  }

  /** The tenant, namespace and name blocks. */
  method ApplyIdentityFlags(f: SinkFlags, conf: SinkConfig)
    modifies conf
    ensures conf.Value() == IdentityFlags(old(conf.Value()), f)
  {
    if f.tenant != "" {
      conf.tenant := f.tenant;
    }
    if f.namespace != "" {
      conf.namespace := f.namespace;
    }
    if f.name != "" {
      conf.name := f.name;
    }
  }

  /** The class-name, processing-guarantees and ordering blocks. */
  method ApplyBehaviourFlags(f: SinkFlags, conf: SinkConfig)
    modifies conf
    ensures conf.Value() == BehaviourFlags(old(conf.Value()), f)
  {
    if f.className != "" {
      conf.className := f.className;
    }
    if f.processingGuarantees != "" {
      conf.processingGuarantees := f.processingGuarantees;
    }
    if f.retainOrdering {
      conf.retainOrdering := f.retainOrdering;
    }
  }

  /** The inputs block. */
  method ApplyInputsFlag(f: SinkFlags, conf: SinkConfig)
    modifies conf
    ensures conf.Value() == InputsFlag(old(conf.Value()), f)
  {
    if f.inputs != "" {
      conf.inputs := Split(f.inputs, ',');
    }
  }

  /** The serde-map block. */
  method ApplySerdeFlag(f: SinkFlags, conf: SinkConfig, decode: string -> Option<JsonValue>)
    returns (err: Option<SinkError>)
    modifies conf
    ensures Step(conf.Value(), err) == SerdeFlag(old(conf.Value()), f, decode)
  {
    if f.customSerdeInputString != "" {
      var serde := DecodeStringMap(decode(f.customSerdeInputString));
      if serde.None? {
        return Some(InvalidJson);
      }
      conf.topicToSerdeClassName := serde.value;
    }
    return None;
  }

  /** The schema-map block. */
  method ApplySchemaFlag(f: SinkFlags, conf: SinkConfig, decode: string -> Option<JsonValue>)
    returns (err: Option<SinkError>)
    modifies conf
    ensures Step(conf.Value(), err) == SchemaFlag(old(conf.Value()), f, decode)
  {
    if f.customSchemaInputString != "" {
      var schema := DecodeStringMap(decode(f.customSchemaInputString));
      if schema.None? {
        return Some(InvalidJson);
      }
      conf.topicToSchemaType := schema.value;
    }
    return None;
  }

  /** The subscription, topics-pattern and parallelism blocks. */
  method ApplyMiddleFlags(f: SinkFlags, conf: SinkConfig)
    modifies conf
    ensures conf.Value() == MiddleFlags(old(conf.Value()), f)
  {
    ApplySubscriptionFlags(f, conf);
    ApplyParallelismFlag(f, conf);
  }

  /** The subscription-name, subscription-position and topics-pattern blocks. */
  method ApplySubscriptionFlags(f: SinkFlags, conf: SinkConfig)
    modifies conf
    ensures conf.Value() == SubscriptionFlags(old(conf.Value()), f)
  {
    if f.subsName != "" {
      conf.sourceSubscriptionName := f.subsName;
    }
    if f.subsPosition != "" {
      conf.sourceSubscriptionPosition := f.subsPosition;
    }
    if f.topicsPattern != "" {
      conf.topicsPattern := Some(f.topicsPattern);
    }
  }

  /** The parallelism block. */
  method ApplyParallelismFlag(f: SinkFlags, conf: SinkConfig)
    modifies conf
    ensures conf.Value() == ParallelismFlag(old(conf.Value()), f)
  {
    if f.parallelism != 0 {
      conf.parallelism := f.parallelism;
    } else {
      conf.parallelism := 1;
    }
  }

  /** The archive and sink-type blocks: both given is an error, raised before the
      archive is set or the catalog requested. */
  method ApplyPackagingFlags(f: SinkFlags, conf: SinkConfig, admin: SinksAdmin)
    returns (err: Option<SinkError>)
    modifies conf, admin`fetches
    ensures Conflict(f) ==>
      err == Some(ArchiveAndSinkType) && conf.Value() == old(conf.Value()) && admin.fetches == old(admin.fetches)
    ensures !Conflict(f) ==>
      && err.None?
      && conf.Value() == PackagingFlags(old(conf.Value()), f, admin.builtins)
      && admin.fetches == old(admin.fetches) + (if f.sinkType != "" then 1 else 0)
  {
    if f.archive != "" && f.sinkType != "" {
      return Some(ArchiveAndSinkType);
    }
    if f.archive != "" {
      conf.archive := f.archive;
    }
    if f.sinkType != "" {
      var resolved := ValidateSinkType(admin, f.sinkType);
      conf.archive := resolved;
    }
    return None;
  }

  /** The resource, configs, auto-ack and timeout blocks. */
  method ApplyLateFlags(f: SinkFlags, conf: SinkConfig, decode: string -> Option<JsonValue>, defaults: Resources)
    modifies conf
    ensures conf.Value() == LateFlags(old(conf.Value()), f, decode, defaults)
  {
    ApplyResourceFlags(f, conf, defaults);
    ApplyTrailingFlags(f, conf, decode);
  }

  /** The CPU, disk and RAM blocks. The resources are read once, updated flag by
      flag, and stored back. */
  method ApplyResourceFlags(f: SinkFlags, conf: SinkConfig, defaults: Resources)
    modifies conf
    ensures conf.Value() == ResourceFlags(old(conf.Value()), f, defaults)
  {
    var res := conf.resources;
    if f.cpu != 0.0 {
      if res.None? {
        res := Some(defaults);
      }
      res := Some(res.value.(cpu := f.cpu));
    }
    if f.disk != 0 {
      if res.None? {
        res := Some(defaults);
      }
      res := Some(res.value.(disk := f.disk));
    }
    if f.ram != 0 {
      if res.None? {
        res := Some(defaults);
      }
      res := Some(res.value.(ram := f.ram));
    }
    conf.resources := res;
  }

  /** The configs, auto-ack and timeout blocks. */
  method ApplyTrailingFlags(f: SinkFlags, conf: SinkConfig, decode: string -> Option<JsonValue>)
    modifies conf
    ensures conf.Value() == TrailingFlags(old(conf.Value()), f, decode)
  {
    if f.sinkConfigString != "" {
      conf.configs := ParseConfigs(f.sinkConfigString, decode);
    }
    if f.autoAck {
      conf.autoAck := f.autoAck;
    }
    if f.timeoutMs != 0 {
      conf.timeoutMs := Some(f.timeoutMs);
    }
  }

  /** The loop of `validateSinkType` that collects the definitions' names. */
  method CollectNames(defs: seq<ConnectorDefinition>) returns (names: seq<string>)
    ensures |names| == |defs|
    ensures forall i :: 0 <= i < |defs| ==> names[i] == defs[i].name
  {
    names := [];
    var k := 0;
    while k < |defs|
      invariant 0 <= k <= |defs|
      invariant |names| == k
      invariant forall i :: 0 <= i < k ==> names[i] == defs[i].name
    {
      names := names + [defs[k].name];
      k := k + 1;
    }
  }

  /** `validateSinkType`: one catalog request, then the substring test. */
  method ValidateSinkType(admin: SinksAdmin, sinkType: string) returns (archive: string)
    modifies admin`fetches
    ensures admin.fetches == old(admin.fetches) + 1
    ensures archive == ResolveSinkType(admin.builtins, sinkType)
  {
    var defs := admin.GetBuiltInSinks();
    if defs.None? {
      return "";
    }
    var availableSinks := CollectNames(defs.value);
    assert availableSinks == Names(defs.value);
    var joined := Join(availableSinks, " ");
    if !Contains(joined, sinkType) {
      return "";
    }
    return BuiltinScheme + sinkType;
  }

  // ---------------------------------------------------------------------------
  // validateSinkConfigs.

  /** What `validateSinkConfigs` does to a configuration and returns. */
  function CheckConfig(c: Config, v: Validators): (r: Step)
    ensures r.err.None? ==> c.archive != "" && r.conf.name != ""
    ensures r.err.Some? ==>
      r.err.value.ArchiveNotSpecified? || r.err.value.ArchiveDoesNotExist? || r.err.value.NameNotSpecified?
    ensures r.err == Some(ArchiveNotSpecified) <==> c.archive == ""
  {
    if c.archive == "" then Step(c, Some(ArchiveNotSpecified))
    else
      var inferred := v.inferMissingArguments(c);
      if v.isPackageUrlSupported(inferred.archive) && v.builtin <= inferred.archive
         && !v.isFileExist(inferred.archive)
      then Step(inferred, Some(ArchiveDoesNotExist(inferred.archive)))
      else if inferred.name == "" then Step(inferred, Some(NameNotSpecified))
      else Step(inferred, None)
  }

  /** `validateSinkConfigs`. */
  method ValidateSinkConfigs(conf: SinkConfig, v: Validators) returns (err: Option<SinkError>)
    modifies conf
    ensures Step(conf.Value(), err) == CheckConfig(old(conf.Value()), v)
  {
    if conf.archive == "" {
      return Some(ArchiveNotSpecified);
    }
    conf.Assign(v.inferMissingArguments(conf.Value()));
    if v.isPackageUrlSupported(conf.archive) && v.builtin <= conf.archive {
      if !v.isFileExist(conf.archive) {
        return Some(ArchiveDoesNotExist(conf.archive));
      }
    }
    if conf.name == "" {
      return Some(NameNotSpecified);
    }
    return None;
  }

  // ---------------------------------------------------------------------------
  // Tenant and namespace defaulting.

  /** The update rule: each of tenant and namespace is defaulted on its own. */
  function UpdateDefaults(tenant: string, namespace: string): (r: (string, string))
    ensures r.0 != "" && r.1 != ""
    ensures tenant != "" ==> r.0 == tenant
    ensures namespace != "" ==> r.1 == namespace
    ensures tenant == "" ==> r.0 == PublicTenant
    ensures namespace == "" ==> r.1 == DefaultNamespace
  {
    (if tenant == "" then PublicTenant else tenant,
     if namespace == "" then DefaultNamespace else namespace)
  }

  /** The creation rule: unless both are given, both are reset to the defaults. */
  function CreationDefaults(tenant: string, namespace: string): (r: (string, string))
    ensures r.0 != "" && r.1 != ""
    ensures tenant != "" && namespace != "" ==> r == (tenant, namespace)
    ensures r != (tenant, namespace) ==> r == (PublicTenant, DefaultNamespace)
  {
    if tenant == "" || namespace == "" then (PublicTenant, DefaultNamespace) else (tenant, namespace)
  }

  /** `checkArgsForUpdate`. */
  method CheckArgsForUpdate(conf: SinkConfig)
    modifies conf`tenant, conf`namespace
    ensures (conf.tenant, conf.namespace) == UpdateDefaults(old(conf.tenant), old(conf.namespace))
  {
    if conf.tenant == "" {
      conf.tenant := PublicTenant;
    }
    if conf.namespace == "" {
      conf.namespace := DefaultNamespace;
    }
  }

  /** `processNamespaceCmd`. */
  method ProcessNamespaceCmd(d: SinkData)
    modifies d`tenant, d`namespace
    ensures (d.tenant, d.namespace) == CreationDefaults(old(d.tenant), old(d.namespace))
  {
    if d.tenant == "" || d.namespace == "" {
      d.tenant := PublicTenant;
      d.namespace := DefaultNamespace;
    }
  }

  /** `processBaseArguments`: the creation rule is applied first, then a missing name
      is reported. */
  method ProcessBaseArguments(d: SinkData) returns (err: Option<SinkError>)
    modifies d`tenant, d`namespace
    ensures (d.tenant, d.namespace) == CreationDefaults(old(d.tenant), old(d.namespace))
    ensures err.Some? <==> d.name == ""
    ensures err.Some? ==> err.value == NameRequired
  {
    ProcessNamespaceCmd(d);
    if d.name == "" {
      return Some(NameRequired);
    }
    return None;
  }
}
