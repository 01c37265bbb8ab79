/** What the sink pipeline promises, proved about the functions that specify it:
    the non-zero-wins rule, the parallelism and timeout rules, the archive/sink-type
    conflict, resource allocation, the fate of malformed JSON flags, idempotence of
    the merge, the substring behaviour of the sink-type resolver, the order of the
    validation checks, and the two defaulting rules. */
module SinkProperties {
  import opened SinkTypes
  import opened Strings
  import opened Sinks

  // ---------------------------------------------------------------------------
  // Stage facts the merge properties are assembled from.

  /** The fields the identity, behaviour and inputs blocks set. */
  function Leading(c: Config): (string, string, string, string, string, bool, seq<string>)
  {
    (c.tenant, c.namespace, c.name, c.className, c.processingGuarantees, c.retainOrdering, c.inputs)
  }

  /** The fields the early stages set. */
  function EarlyPart(c: Config): ((string, string, string, string, string, bool, seq<string>),
                                  map<string, string>, map<string, string>)
  {
    (Leading(c), c.topicToSerdeClassName, c.topicToSchemaType)
  }

  /** The fields the middle stages set. */
  function MiddlePart(c: Config): (string, string, Option<string>, int)
  {
    (c.sourceSubscriptionName, c.sourceSubscriptionPosition, c.topicsPattern, c.parallelism)
  }

  /** The fields the late stages set. */
  function LatePart(c: Config): (Option<Resources>, map<string, JsonValue>, bool, Option<int>)
  {
    (c.resources, c.configs, c.autoAck, c.timeoutMs)
  }

  /** The topic-map stages never touch the leading fields. */
  lemma TopicMapsKeepLeading(c: Config, f: SinkFlags, decode: string -> Option<JsonValue>)
    ensures Leading(EarlyFlags(c, f, decode).conf) == Leading(PlainFlags(c, f))
  {
    var serde := SerdeFlag(PlainFlags(c, f), f, decode);
    assert Leading(serde.conf) == Leading(PlainFlags(c, f));
    if serde.err.None? {
      assert Leading(SchemaFlag(serde.conf, f, decode).conf) == Leading(serde.conf);
    }
  }

  /** The middle stages leave the early fields alone. */
  lemma MiddleStagesKeepEarly(c: Config, f: SinkFlags)
    ensures EarlyPart(MiddleFlags(c, f)) == EarlyPart(c)
  {
  }

  /** The archive stage leaves the early fields alone. */
  lemma PackagingKeepsEarly(c: Config, f: SinkFlags, catalog: Option<seq<ConnectorDefinition>>)
    ensures EarlyPart(PackagingFlags(c, f, catalog)) == EarlyPart(c)
  {
  }

  /** The late stages leave the early fields alone. */
  lemma LateFlagsKeepEarly(c: Config, f: SinkFlags, decode: string -> Option<JsonValue>, defaults: Resources)
    ensures EarlyPart(LateFlags(c, f, decode, defaults)) == EarlyPart(c)
  {
  }

  /** The archive and late stages leave the early fields alone. */
  lemma LateStagesKeepEarly(c: Config, f: SinkFlags, decode: string -> Option<JsonValue>,
                            catalog: Option<seq<ConnectorDefinition>>, defaults: Resources)
    ensures EarlyPart(LateFlags(PackagingFlags(c, f, catalog), f, decode, defaults)) == EarlyPart(c)
  {
    PackagingKeepsEarly(c, f, catalog);
    LateFlagsKeepEarly(PackagingFlags(c, f, catalog), f, decode, defaults);
  }

  /** The archive and late stages leave the middle fields alone. */
  lemma LaterStagesKeepMiddle(c: Config, f: SinkFlags, decode: string -> Option<JsonValue>,
                              catalog: Option<seq<ConnectorDefinition>>, defaults: Resources)
    ensures MiddlePart(LateFlags(PackagingFlags(c, f, catalog), f, decode, defaults)) == MiddlePart(c)
  {
  }

  /** The late stages leave the archive alone. */
  lemma LateStagesKeepArchive(c: Config, f: SinkFlags, decode: string -> Option<JsonValue>, defaults: Resources)
    ensures LateFlags(c, f, decode, defaults).archive == c.archive
  {
  }

  /** The early stages leave the late fields alone. */
  lemma EarlyStagesKeepLate(c: Config, f: SinkFlags, decode: string -> Option<JsonValue>)
    ensures LatePart(EarlyFlags(c, f, decode).conf) == LatePart(c)
  {
    var serde := SerdeFlag(PlainFlags(c, f), f, decode);
    assert LatePart(serde.conf) == LatePart(c);
  }

  /** The middle and archive stages leave the late fields alone. */
  lemma MiddleStagesKeepLate(c: Config, f: SinkFlags, catalog: Option<seq<ConnectorDefinition>>)
    ensures LatePart(PackagingFlags(MiddleFlags(c, f), f, catalog)) == LatePart(c)
  {
  }

  /** The stages before the late ones leave the late fields alone. */
  lemma EarlierStagesKeepLate(c: Config, f: SinkFlags, decode: string -> Option<JsonValue>,
                              catalog: Option<seq<ConnectorDefinition>>)
    ensures var e := EarlyFlags(c, f, decode).conf;
      LatePart(PackagingFlags(MiddleFlags(e, f), f, catalog)) == LatePart(c)
  {
    EarlyStagesKeepLate(c, f, decode);
    MiddleStagesKeepLate(EarlyFlags(c, f, decode).conf, f, catalog);
  }

  /** The early and middle stages leave the archive alone. */
  lemma EarlierStagesKeepArchive(c: Config, f: SinkFlags, decode: string -> Option<JsonValue>)
    ensures EarlyFlags(c, f, decode).conf.archive == c.archive
    ensures MiddleFlags(c, f).archive == c.archive
  {
    var serde := SerdeFlag(PlainFlags(c, f), f, decode);
    assert serde.conf.archive == c.archive;
  }

  // ---------------------------------------------------------------------------
  // Properties of processArguments.

  /** A configuration file that cannot be read or decoded stops the merge before any
      flag is applied: the configuration is unchanged, the error is returned, and the
      catalog is not requested. */
  lemma MergeLoadFailure(base: Config, f: SinkFlags, readFile: string -> FileOutcome,
                         decode: string -> Option<JsonValue>,
                         catalog: Option<seq<ConnectorDefinition>>, defaults: Resources)
    ensures var m := Merge(base, f, readFile, decode, catalog, defaults);
      f.sinkConfigFile != "" && readFile(f.sinkConfigFile).ReadFailed? ==>
        m == Merged(base, Some(LoadConfFailed(readFile(f.sinkConfigFile).cause)), false)
    ensures var m := Merge(base, f, readFile, decode, catalog, defaults);
      f.sinkConfigFile != "" && readFile(f.sinkConfigFile).Malformed? ==>
        m == Merged(base, Some(UnmarshalYamlFailed(readFile(f.sinkConfigFile).cause)), false)
  {
  }

  /** A configuration file that does not exist is the same as none. */
  lemma MergeMissingFileIgnored(base: Config, f: SinkFlags, readFile: string -> FileOutcome,
                                decode: string -> Option<JsonValue>,
                                catalog: Option<seq<ConnectorDefinition>>, defaults: Resources)
    requires f.sinkConfigFile != "" && readFile(f.sinkConfigFile).NotExist?
    ensures Merge(base, f, readFile, decode, catalog, defaults) ==
      Merge(base, f.(sinkConfigFile := ""), readFile, decode, catalog, defaults)
  {
    var g := f.(sinkConfigFile := "");
    EarlyIgnoresFile(base, f, g, decode);
    var c := MiddleFlags(EarlyFlags(base, f, decode).conf, f);
    assert MiddleFlags(EarlyFlags(base, g, decode).conf, g) == c;
    LateIgnoresFile(c, f, g, decode, catalog, defaults);
  }

  /** The early stages do not read the file flag. */
  lemma EarlyIgnoresFile(c: Config, f: SinkFlags, g: SinkFlags, decode: string -> Option<JsonValue>)
    requires g == f.(sinkConfigFile := g.sinkConfigFile)
    ensures EarlyFlags(c, g, decode) == EarlyFlags(c, f, decode)
  {
    assert PlainFlags(c, g) == PlainFlags(c, f);
  }

  /** The archive and late stages do not read the file flag. */
  lemma LateIgnoresFile(c: Config, f: SinkFlags, g: SinkFlags, decode: string -> Option<JsonValue>,
                        catalog: Option<seq<ConnectorDefinition>>, defaults: Resources)
    requires g == f.(sinkConfigFile := g.sinkConfigFile)
    ensures LateFlags(PackagingFlags(c, g, catalog), g, decode, defaults)
         == LateFlags(PackagingFlags(c, f, catalog), f, decode, defaults)
  {
  }

  /** Tenant, namespace, name, class name, processing guarantees, ordering and inputs
      follow the non-zero-wins rule over the loaded configuration, whatever happens
      after they are applied. */
  lemma MergeLeadingOverrides(base: Config, f: SinkFlags, readFile: string -> FileOutcome,
                              decode: string -> Option<JsonValue>,
                              catalog: Option<seq<ConnectorDefinition>>, defaults: Resources)
    requires LoadedConfig(base, f.sinkConfigFile, readFile).Ok?
    ensures var loaded := LoadedConfig(base, f.sinkConfigFile, readFile).value;
      var c := Merge(base, f, readFile, decode, catalog, defaults).conf;
      && c.tenant == (if f.tenant == "" then loaded.tenant else f.tenant)
      && c.namespace == (if f.namespace == "" then loaded.namespace else f.namespace)
      && c.name == (if f.name == "" then loaded.name else f.name)
      && c.className == (if f.className == "" then loaded.className else f.className)
      && c.processingGuarantees ==
         (if f.processingGuarantees == "" then loaded.processingGuarantees else f.processingGuarantees)
      && c.retainOrdering == (f.retainOrdering || loaded.retainOrdering)
      && c.inputs == (if f.inputs == "" then loaded.inputs else Split(f.inputs, ','))
  {
    var loaded := LoadedConfig(base, f.sinkConfigFile, readFile).value;
    var early := EarlyFlags(loaded, f, decode);
    TopicMapsKeepLeading(loaded, f, decode);
    MiddleStagesKeepEarly(early.conf, f);
    LateStagesKeepEarly(MiddleFlags(early.conf, f), f, decode, catalog, defaults);
  }

  /** A non-empty inputs flag replaces the inputs with its comma-separated pieces:
      none contains a comma and joining them with commas gives the flag back. */
  lemma MergeInputsRoundTrip(base: Config, f: SinkFlags, readFile: string -> FileOutcome,
                             decode: string -> Option<JsonValue>,
                             catalog: Option<seq<ConnectorDefinition>>, defaults: Resources)
    requires LoadedConfig(base, f.sinkConfigFile, readFile).Ok?
    requires f.inputs != ""
    ensures var c := Merge(base, f, readFile, decode, catalog, defaults).conf;
      && |c.inputs| >= 1
      && (forall k :: 0 <= k < |c.inputs| ==> ',' !in c.inputs[k])
      && Join(c.inputs, ",") == f.inputs
  {
    MergeLeadingOverrides(base, f, readFile, decode, catalog, defaults);
    SplitJoin(f.inputs, ',');
  }

  /** A non-empty serde or schema flag that does not decode stops the merge: the
      invalid-JSON error is returned, the catalog is not requested, and the archive,
      parallelism and everything after them keep their loaded values. A failing serde
      map leaves both maps as loaded; when only the schema map fails, the serde map
      has already been stored and the schema map is as loaded. */
  lemma MergeTopicMapFatal(base: Config, f: SinkFlags, readFile: string -> FileOutcome,
                           decode: string -> Option<JsonValue>,
                           catalog: Option<seq<ConnectorDefinition>>, defaults: Resources)
    requires LoadedConfig(base, f.sinkConfigFile, readFile).Ok?
    requires || (f.customSerdeInputString != "" && DecodeStringMap(decode(f.customSerdeInputString)).None?)
             || (f.customSchemaInputString != "" && DecodeStringMap(decode(f.customSchemaInputString)).None?)
    ensures var m := Merge(base, f, readFile, decode, catalog, defaults);
      var loaded := LoadedConfig(base, f.sinkConfigFile, readFile).value;
      && m.err == Some(InvalidJson) && !m.fetchedCatalog
      && m.conf.archive == loaded.archive
      && MiddlePart(m.conf) == MiddlePart(loaded)
      && LatePart(m.conf) == LatePart(loaded)
    ensures var m := Merge(base, f, readFile, decode, catalog, defaults);
      var loaded := LoadedConfig(base, f.sinkConfigFile, readFile).value;
      f.customSerdeInputString != "" && DecodeStringMap(decode(f.customSerdeInputString)).None? ==>
        && m.conf.topicToSerdeClassName == loaded.topicToSerdeClassName
        && m.conf.topicToSchemaType == loaded.topicToSchemaType
    ensures var m := Merge(base, f, readFile, decode, catalog, defaults);
      var loaded := LoadedConfig(base, f.sinkConfigFile, readFile).value;
      !(f.customSerdeInputString != "" && DecodeStringMap(decode(f.customSerdeInputString)).None?) ==>
        && m.conf.topicToSerdeClassName ==
           (if f.customSerdeInputString == "" then loaded.topicToSerdeClassName
            else DecodeStringMap(decode(f.customSerdeInputString)).value)
        && m.conf.topicToSchemaType == loaded.topicToSchemaType
  {
    var loaded := LoadedConfig(base, f.sinkConfigFile, readFile).value;
    EarlyStagesKeepLate(loaded, f, decode);
    EarlierStagesKeepArchive(loaded, f, decode);
    var serde := SerdeFlag(PlainFlags(loaded, f), f, decode);
    assert MiddlePart(serde.conf) == MiddlePart(loaded);
  }

  /** Subscription name and position and the topics pattern follow the non-zero-wins
      rule, and parallelism is the flag when it is non-zero and 1 otherwise, never 0,
      once the merge gets past the parallelism block: it then succeeds or stops at the
      archive/sink-type conflict. */
  lemma MergeSubscriptionOverrides(base: Config, f: SinkFlags, readFile: string -> FileOutcome,
                                   decode: string -> Option<JsonValue>,
                                   catalog: Option<seq<ConnectorDefinition>>, defaults: Resources)
    requires var m := Merge(base, f, readFile, decode, catalog, defaults);
      m.err.None? || m.err == Some(ArchiveAndSinkType)
    ensures LoadedConfig(base, f.sinkConfigFile, readFile).Ok?
    ensures var loaded := LoadedConfig(base, f.sinkConfigFile, readFile).value;
      var c := Merge(base, f, readFile, decode, catalog, defaults).conf;
      && c.sourceSubscriptionName == (if f.subsName == "" then loaded.sourceSubscriptionName else f.subsName)
      && c.sourceSubscriptionPosition ==
         (if f.subsPosition == "" then loaded.sourceSubscriptionPosition else f.subsPosition)
      && c.topicsPattern == (if f.topicsPattern == "" then loaded.topicsPattern else Some(f.topicsPattern))
      && c.parallelism == (if f.parallelism != 0 then f.parallelism else 1)
      && c.parallelism != 0
  {
    var loaded := LoadedConfig(base, f.sinkConfigFile, readFile).value;
    var early := EarlyFlags(loaded, f, decode);
    var serde := SerdeFlag(PlainFlags(loaded, f), f, decode);
    assert MiddlePart(serde.conf) == MiddlePart(loaded);
    assert MiddlePart(early.conf) == MiddlePart(loaded);
    LaterStagesKeepMiddle(MiddleFlags(early.conf, f), f, decode, catalog, defaults);
  }

  /** Once the merge reaches the archive block, supplying both an archive and a sink
      type is an error exactly when both are given; the archive then keeps its loaded
      value and the catalog is not requested. */
  lemma MergeConflict(base: Config, f: SinkFlags, readFile: string -> FileOutcome,
                      decode: string -> Option<JsonValue>,
                      catalog: Option<seq<ConnectorDefinition>>, defaults: Resources)
    requires LoadedConfig(base, f.sinkConfigFile, readFile).Ok?
    requires EarlyFlags(LoadedConfig(base, f.sinkConfigFile, readFile).value, f, decode).err.None?
    ensures var m := Merge(base, f, readFile, decode, catalog, defaults);
      m.err == Some(ArchiveAndSinkType) <==> f.archive != "" && f.sinkType != ""
    ensures var m := Merge(base, f, readFile, decode, catalog, defaults);
      f.archive != "" && f.sinkType != "" ==>
        m.conf.archive == LoadedConfig(base, f.sinkConfigFile, readFile).value.archive && !m.fetchedCatalog
    ensures var m := Merge(base, f, readFile, decode, catalog, defaults);
      f.archive != "" && f.sinkType != "" ==>
        LatePart(m.conf) == LatePart(LoadedConfig(base, f.sinkConfigFile, readFile).value)
  {
    var loaded := LoadedConfig(base, f.sinkConfigFile, readFile).value;
    EarlierStagesKeepArchive(loaded, f, decode);
    EarlyStagesKeepLate(loaded, f, decode);
  }

  /** Once the merge gets past the topic-map blocks (it succeeds or stops at the
      conflict), each map is the decoded flag when the flag is given and the loaded
      map otherwise. */
  lemma MergeTopicMaps(base: Config, f: SinkFlags, readFile: string -> FileOutcome,
                       decode: string -> Option<JsonValue>,
                       catalog: Option<seq<ConnectorDefinition>>, defaults: Resources)
    requires var m := Merge(base, f, readFile, decode, catalog, defaults);
      m.err.None? || m.err == Some(ArchiveAndSinkType)
    ensures LoadedConfig(base, f.sinkConfigFile, readFile).Ok?
    ensures f.customSerdeInputString != "" ==> DecodeStringMap(decode(f.customSerdeInputString)).Some?
    ensures f.customSchemaInputString != "" ==> DecodeStringMap(decode(f.customSchemaInputString)).Some?
    ensures var loaded := LoadedConfig(base, f.sinkConfigFile, readFile).value;
      var c := Merge(base, f, readFile, decode, catalog, defaults).conf;
      && c.topicToSerdeClassName ==
         (if f.customSerdeInputString == "" then loaded.topicToSerdeClassName
          else DecodeStringMap(decode(f.customSerdeInputString)).value)
      && c.topicToSchemaType ==
         (if f.customSchemaInputString == "" then loaded.topicToSchemaType
          else DecodeStringMap(decode(f.customSchemaInputString)).value)
  {
    var loaded := LoadedConfig(base, f.sinkConfigFile, readFile).value;
    var early := EarlyFlags(loaded, f, decode);
    MiddleStagesKeepEarly(early.conf, f);
    if !Conflict(f) {
      LateStagesKeepEarly(MiddleFlags(early.conf, f), f, decode, catalog, defaults);
    }
  }

  /** After a successful merge the archive is the resolved sink type, or else the
      archive flag, or else the loaded archive; the catalog was requested exactly
      when a sink type was given; and archive and sink type were not both given. */
  lemma MergeArchive(base: Config, f: SinkFlags, readFile: string -> FileOutcome,
                     decode: string -> Option<JsonValue>,
                     catalog: Option<seq<ConnectorDefinition>>, defaults: Resources)
    requires Merge(base, f, readFile, decode, catalog, defaults).err.None?
    ensures LoadedConfig(base, f.sinkConfigFile, readFile).Ok?
    ensures var m := Merge(base, f, readFile, decode, catalog, defaults);
      var loaded := LoadedConfig(base, f.sinkConfigFile, readFile).value;
      && !(f.archive != "" && f.sinkType != "")
      && m.conf.archive == (if f.sinkType != "" then ResolveSinkType(catalog, f.sinkType)
                            else if f.archive != "" then f.archive
                            else loaded.archive)
      && (m.fetchedCatalog <==> f.sinkType != "")
  {
    var loaded := LoadedConfig(base, f.sinkConfigFile, readFile).value;
    var early := EarlyFlags(loaded, f, decode);
    EarlierStagesKeepArchive(loaded, f, decode);
    EarlierStagesKeepArchive(early.conf, f, decode);
    LateStagesKeepArchive(PackagingFlags(MiddleFlags(early.conf, f), f, catalog), f, decode, defaults);
  }

  /** After a successful merge: resources are untouched when CPU, disk and RAM flags
      are all zero (so absent stays absent); otherwise they are present, each
      non-zero flag is stored, and the other fields keep the loaded or default value. */
  lemma MergeResources(base: Config, f: SinkFlags, readFile: string -> FileOutcome,
                       decode: string -> Option<JsonValue>,
                       catalog: Option<seq<ConnectorDefinition>>, defaults: Resources)
    requires Merge(base, f, readFile, decode, catalog, defaults).err.None?
    ensures LoadedConfig(base, f.sinkConfigFile, readFile).Ok?
    ensures var loaded := LoadedConfig(base, f.sinkConfigFile, readFile).value;
      var res := Merge(base, f, readFile, decode, catalog, defaults).conf.resources;
      var start := if loaded.resources.Some? then loaded.resources.value else defaults;
      && (f.cpu == 0.0 && f.disk == 0 && f.ram == 0 ==> res == loaded.resources)
      && (f.cpu != 0.0 || f.disk != 0 || f.ram != 0 ==>
            && res.Some?
            && res.value.cpu == (if f.cpu != 0.0 then f.cpu else start.cpu)
            && res.value.disk == (if f.disk != 0 then f.disk else start.disk)
            && res.value.ram == (if f.ram != 0 then f.ram else start.ram))
  {
    var loaded := LoadedConfig(base, f.sinkConfigFile, readFile).value;
    EarlierStagesKeepLate(loaded, f, decode, catalog);
  }

  /** After a successful merge the timeout is set, to the flag, exactly when the flag
      is non-zero, and auto-ack follows the non-zero-wins rule. */
  lemma MergeTimeoutAndAutoAck(base: Config, f: SinkFlags, readFile: string -> FileOutcome,
                               decode: string -> Option<JsonValue>,
                               catalog: Option<seq<ConnectorDefinition>>, defaults: Resources)
    requires Merge(base, f, readFile, decode, catalog, defaults).err.None?
    ensures LoadedConfig(base, f.sinkConfigFile, readFile).Ok?
    ensures var loaded := LoadedConfig(base, f.sinkConfigFile, readFile).value;
      var c := Merge(base, f, readFile, decode, catalog, defaults).conf;
      && (f.timeoutMs != 0 ==> c.timeoutMs == Some(f.timeoutMs))
      && (f.timeoutMs == 0 ==> c.timeoutMs == loaded.timeoutMs)
      && c.autoAck == (f.autoAck || loaded.autoAck)
  {
    var loaded := LoadedConfig(base, f.sinkConfigFile, readFile).value;
    EarlierStagesKeepLate(loaded, f, decode, catalog);
  }

  /** The free-form configs flag never causes an error: changing it changes neither
      the error nor whether the catalog is requested. */
  lemma MergeConfigsAbsorbed(base: Config, f: SinkFlags, text: string, readFile: string -> FileOutcome,
                             decode: string -> Option<JsonValue>,
                             catalog: Option<seq<ConnectorDefinition>>, defaults: Resources)
    ensures var m := Merge(base, f, readFile, decode, catalog, defaults);
      var m' := Merge(base, f.(sinkConfigString := text), readFile, decode, catalog, defaults);
      m'.err == m.err && m'.fetchedCatalog == m.fetchedCatalog
  {
    var g := f.(sinkConfigString := text);
    match LoadedConfig(base, f.sinkConfigFile, readFile)
    case Err(_) =>
    case Ok(loaded) =>
      assert PlainFlags(loaded, g) == PlainFlags(loaded, f);
      assert EarlyFlags(loaded, g, decode) == EarlyFlags(loaded, f, decode);
  }

  /** A non-empty configs flag that is not a JSON object leaves the configs empty
      after a successful merge. */
  lemma MergeConfigsMalformed(base: Config, f: SinkFlags, readFile: string -> FileOutcome,
                              decode: string -> Option<JsonValue>,
                              catalog: Option<seq<ConnectorDefinition>>, defaults: Resources)
    requires Merge(base, f, readFile, decode, catalog, defaults).err.None?
    requires f.sinkConfigString != ""
    requires !(decode(f.sinkConfigString).Some? && decode(f.sinkConfigString).value.JObject?)
    ensures Merge(base, f, readFile, decode, catalog, defaults).conf.configs == map[]
  {
  }

  /** After a successful merge the configs are the parsed flag when the flag is given,
      which is exactly the members of a JSON object, and the loaded configs otherwise. */
  lemma MergeConfigs(base: Config, f: SinkFlags, readFile: string -> FileOutcome,
                     decode: string -> Option<JsonValue>,
                     catalog: Option<seq<ConnectorDefinition>>, defaults: Resources)
    requires Merge(base, f, readFile, decode, catalog, defaults).err.None?
    ensures LoadedConfig(base, f.sinkConfigFile, readFile).Ok?
    ensures var loaded := LoadedConfig(base, f.sinkConfigFile, readFile).value;
      var c := Merge(base, f, readFile, decode, catalog, defaults).conf;
      c.configs == (if f.sinkConfigString == "" then loaded.configs
                    else ParseConfigs(f.sinkConfigString, decode))
    ensures var c := Merge(base, f, readFile, decode, catalog, defaults).conf;
      f.sinkConfigString != "" && decode(f.sinkConfigString).Some? && decode(f.sinkConfigString).value.JObject? ==>
        c.configs == decode(f.sinkConfigString).value.members
  {
    var loaded := LoadedConfig(base, f.sinkConfigFile, readFile).value;
    EarlierStagesKeepLate(loaded, f, decode, catalog);
  }

  /** Without a configuration file, merging the same flags a second time changes
      nothing: same configuration, same error, same catalog request. */
  lemma MergeIdempotent(base: Config, f: SinkFlags, readFile: string -> FileOutcome,
                        decode: string -> Option<JsonValue>,
                        catalog: Option<seq<ConnectorDefinition>>, defaults: Resources)
    requires f.sinkConfigFile == "" || readFile(f.sinkConfigFile).NotExist?
    ensures var m := Merge(base, f, readFile, decode, catalog, defaults);
      Merge(m.conf, f, readFile, decode, catalog, defaults) == m
  {
    var m := Merge(base, f, readFile, decode, catalog, defaults);
    var early := EarlyFlags(base, f, decode);
    if early.err.Some? {
      EarlyIdempotent(base, f, decode);
    } else {
      var c := MiddleFlags(early.conf, f);
      MiddleStagesKeepEarly(early.conf, f);
      if Conflict(f) {
        EarlyStable(base, c, f, decode);
        MiddleStable(early.conf, c, f);
      } else {
        var p := PackagingFlags(c, f, catalog);
        var d := LateFlags(p, f, decode, defaults);
        assert m.conf == d;
        LateStagesKeepEarly(c, f, decode, catalog, defaults);
        LaterStagesKeepMiddle(c, f, decode, catalog, defaults);
        LateStagesKeepArchive(p, f, decode, defaults);
        EarlyStable(base, d, f, decode);
        MiddleStable(early.conf, d, f);
        PackagingStable(c, d, f, catalog);
        LateStable(p, d, f, decode, defaults);
      }
    }
  }

  /** Running the plain flags again on their own outcome changes nothing. */
  lemma PlainStable(c: Config, d: Config, f: SinkFlags)
    requires Leading(d) == Leading(PlainFlags(c, f))
    ensures PlainFlags(d, f) == d
  {
  }

  /** Running the early stages again on their own outcome reproduces it, error included. */
  lemma EarlyIdempotent(c: Config, f: SinkFlags, decode: string -> Option<JsonValue>)
    ensures var e := EarlyFlags(c, f, decode);
      EarlyFlags(e.conf, f, decode) == e
  {
    var p := PlainFlags(c, f);
    var e := EarlyFlags(c, f, decode);
    TopicMapsKeepLeading(c, f, decode);
    PlainStable(c, e.conf, f);
    var serde := SerdeFlag(p, f, decode);
    if serde.err.Some? {
      assert e == serde && serde.conf == p;
      assert SerdeFlag(e.conf, f, decode) == serde;
    } else {
      var schema := SchemaFlag(serde.conf, f, decode);
      assert e == schema;
      assert SerdeFlag(e.conf, f, decode) == Step(e.conf, None) by {
        assert e.conf.topicToSerdeClassName == serde.conf.topicToSerdeClassName;
      }
      if schema.err.Some? {
        assert schema.conf == serde.conf;
      } else {
        assert SchemaFlag(e.conf, f, decode) == Step(e.conf, None);
      }
    }
  }

  /** A configuration that already holds what the early stages set passes them unchanged. */
  lemma EarlyStable(c: Config, d: Config, f: SinkFlags, decode: string -> Option<JsonValue>)
    requires EarlyFlags(c, f, decode).err.None?
    requires EarlyPart(d) == EarlyPart(EarlyFlags(c, f, decode).conf)
    ensures EarlyFlags(d, f, decode) == Step(d, None)
  {
    var e := EarlyFlags(c, f, decode);
    TopicMapsKeepLeading(c, f, decode);
    PlainStable(c, d, f);
    var serde := SerdeFlag(PlainFlags(c, f), f, decode);
    assert d.topicToSerdeClassName == serde.conf.topicToSerdeClassName;
    assert SerdeFlag(d, f, decode) == Step(d, None);
    assert SchemaFlag(d, f, decode) == Step(d, None);
  }

  /** A configuration that already holds what the middle stages set passes them unchanged. */
  lemma MiddleStable(c: Config, d: Config, f: SinkFlags)
    requires MiddlePart(d) == MiddlePart(MiddleFlags(c, f))
    ensures MiddleFlags(d, f) == d
  {
  }

  /** A configuration that already holds the archive the packaging stage set passes it unchanged. */
  lemma PackagingStable(c: Config, d: Config, f: SinkFlags, catalog: Option<seq<ConnectorDefinition>>)
    requires d.archive == PackagingFlags(c, f, catalog).archive
    ensures PackagingFlags(d, f, catalog) == d
  {
    var r := ResolveSinkType(catalog, f.sinkType);
    if f.sinkType != "" {
      assert d.archive == r;
      assert PackagingFlags(d, f, catalog) == d.(archive := r);
    } else {
      assert d.archive == Override(c.archive, f.archive);
    }
  }

  /** A configuration that already holds what the late stages set passes them unchanged. */
  lemma LateStable(c: Config, d: Config, f: SinkFlags, decode: string -> Option<JsonValue>, defaults: Resources)
    requires LatePart(d) == LatePart(LateFlags(c, f, decode, defaults))
    ensures LateFlags(d, f, decode, defaults) == d
  {
  }

  // ---------------------------------------------------------------------------
  // Properties of the JSON conversions.

  /** A `null` member decodes as the empty string, not as an error. */
  lemma NullMemberIsEmptyString()
    ensures DecodeStringMap(Some(JObject(map["t" := JNull]))) == Some(map["t" := ""])
  {
    var members := map["t" := JNull];
    assert forall k :: k in members ==> StringOrNull(members[k]);
    var r := DecodeStringMap(Some(JObject(members)));
    assert r.value.Keys == {"t"};
    assert r.value["t"] == "";
    assert r.value == map["t" := ""];
  }

  /** A member that is neither a string nor `null` makes the whole map an error. */
  lemma OtherMemberFails(members: map<string, JsonValue>, k: string)
    requires k in members && !StringOrNull(members[k])
    ensures DecodeStringMap(Some(JObject(members))).None?
  {
  }

  // ---------------------------------------------------------------------------
  // Properties of the sink-type resolver.

  /** The resolver answers with the builtin locator exactly when the catalog could be
      fetched and the type occurs at some position of its space-joined names. */
  lemma ResolveSinkTypeIff(catalog: Option<seq<ConnectorDefinition>>, sinkType: string)
    ensures ResolveSinkType(catalog, sinkType) != "" ==>
      catalog.Some? && exists i: nat :: OccursAt(Join(Names(catalog.value), " "), sinkType, i)
    ensures catalog.Some? && (exists i: nat :: OccursAt(Join(Names(catalog.value), " "), sinkType, i)) ==>
      ResolveSinkType(catalog, sinkType) != ""
    ensures ResolveSinkType(catalog, sinkType) != "" ==> ResolveSinkType(catalog, sinkType) == BuiltinScheme + sinkType
  {
    assert (BuiltinScheme + sinkType)[0] == 'b';
    if catalog.Some? {
      var joined := Join(Names(catalog.value), " ");
      ContainsIff(joined, sinkType);
      assert ResolveSinkType(catalog, sinkType) != "" <==> Contains(joined, sinkType);
    }
  }

  /** A request that fails resolves nothing. */
  lemma ResolveFailedFetch(sinkType: string)
    ensures ResolveSinkType(None, sinkType) == ""
  {
  }

  /** A sink type that is exactly one of the catalog's names resolves. */
  lemma ResolveListedName(defs: seq<ConnectorDefinition>, sinkType: string)
    requires sinkType in Names(defs)
    ensures ResolveSinkType(Some(defs), sinkType) == BuiltinScheme + sinkType
  {
    MemberContained(Names(defs), " ", sinkType);
  }

  /** The catalog of the example below. */
  function KafkaAndJdbc(): seq<ConnectorDefinition>
  {
    [ConnectorDefinition("kafka", "", ""), ConnectorDefinition("jdbc", "", "")]
  }

  /** A type that occurs nowhere in the space-joined names resolves to the empty
      string, and so does every type when the request fails. */
  lemma ResolveUnknownName(catalog: Option<seq<ConnectorDefinition>>, sinkType: string)
    requires catalog.None? || forall i: nat :: !OccursAt(Join(Names(catalog.value), " "), sinkType, i)
    ensures ResolveSinkType(catalog, sinkType) == ""
  {
    ResolveSinkTypeIff(catalog, sinkType);
  }

  /** Membership is substring containment. With the connectors `kafka` and `jdbc`,
      `afk`, a fragment of one name, and `a j`, a fragment spanning the space between
      the two, are not connector names, yet both resolve. */
  lemma ResolveFragments()
    ensures "afk" !in Names(KafkaAndJdbc()) && "a j" !in Names(KafkaAndJdbc())
    ensures ResolveSinkType(Some(KafkaAndJdbc()), "afk") == BuiltinScheme + "afk"
    ensures ResolveSinkType(Some(KafkaAndJdbc()), "a j") == BuiltinScheme + "a j"
  {
    assert Names(KafkaAndJdbc()) == ["kafka", "jdbc"];
    assert Join(["kafka", "jdbc"], " ") == "kafka jdbc";
    assert OccursAt("kafka jdbc", "afk", 1);
    assert OccursAt("kafka jdbc", "a j", 4);
    ContainsIff("kafka jdbc", "afk");
    ContainsIff("kafka jdbc", "a j");
  }

  // ---------------------------------------------------------------------------
  // Properties of validateSinkConfigs.

  /** An empty archive is reported before arguments are inferred or anything else is
      checked: the configuration is left as it was. */
  lemma CheckEmptyArchiveFirst(c: Config, v: Validators)
    requires c.archive == ""
    ensures CheckConfig(c, v) == Step(c, Some(ArchiveNotSpecified))
  {
  }

  /** With an archive, the inferred configuration is kept whatever the verdict; the
      verdict is the missing-file error, the missing-name error, or success, in
      that order of precedence. */
  lemma CheckWithArchive(c: Config, v: Validators)
    requires c.archive != ""
    ensures var r := CheckConfig(c, v);
      var i := v.inferMissingArguments(c);
      var missingFile := v.isPackageUrlSupported(i.archive) && v.builtin <= i.archive && !v.isFileExist(i.archive);
      && r.conf == i
      && (missingFile ==> r.err == Some(ArchiveDoesNotExist(i.archive)))
      && (!missingFile && i.name == "" ==> r.err == Some(NameNotSpecified))
      && (r.err.None? <==> !missingFile && i.name != "")
  {
  }

  /** A sink type that does not resolve (the request fails, or the type is not
      contained in the joined names) overwrites the archive with the empty string,
      whatever the file supplied, so validation then reports a missing archive rather
      than an unknown type. */
  lemma UnknownTypeReportsMissingArchive(base: Config, f: SinkFlags, readFile: string -> FileOutcome,
                                         decode: string -> Option<JsonValue>,
                                         catalog: Option<seq<ConnectorDefinition>>, defaults: Resources,
                                         v: Validators)
    requires Merge(base, f, readFile, decode, catalog, defaults).err.None?
    requires f.sinkType != ""
    requires catalog.None? || !Contains(Join(Names(catalog.value), " "), f.sinkType)
    ensures var m := Merge(base, f, readFile, decode, catalog, defaults);
      && m.conf.archive == ""
      && CheckConfig(m.conf, v) == Step(m.conf, Some(ArchiveNotSpecified))
  {
    MergeArchive(base, f, readFile, decode, catalog, defaults);
  }

  // ---------------------------------------------------------------------------
  // Properties of the defaulting rules.

  /** Updating twice defaults nothing more than updating once. */
  lemma UpdateDefaultsIdempotent(tenant: string, namespace: string)
    ensures var r := UpdateDefaults(tenant, namespace);
      UpdateDefaults(r.0, r.1) == r
  {
  }

  /** The defaulted tenant depends on the tenant alone, the namespace on the
      namespace alone. */
  lemma UpdateDefaultsIndependent(tenant: string, namespace: string, tenant': string, namespace': string)
    ensures UpdateDefaults(tenant, namespace).0 == UpdateDefaults(tenant, namespace').0
    ensures UpdateDefaults(tenant, namespace).1 == UpdateDefaults(tenant', namespace).1
  {
  }

  /** Applying the creation rule twice changes nothing more than applying it once. */
  lemma CreationDefaultsIdempotent(tenant: string, namespace: string)
    ensures var r := CreationDefaults(tenant, namespace);
      CreationDefaults(r.0, r.1) == r
  {
  }

  /** The creation rule keeps both or replaces both: it never keeps one of a given
      pair and defaults the other. */
  lemma CreationDefaultsAllOrNothing(tenant: string, namespace: string)
    ensures var r := CreationDefaults(tenant, namespace);
      (r.0 == tenant && r.1 == namespace) || r == (PublicTenant, DefaultNamespace)
  {
  }

  /** The two rules differ: with no tenant, creation discards any given namespace,
      while update keeps it. */
  lemma DefaultingRulesDiffer(namespace: string)
    requires namespace != ""
    ensures CreationDefaults("", namespace) == (PublicTenant, DefaultNamespace)
    ensures UpdateDefaults("", namespace) == (PublicTenant, namespace)
  {
  }
}
