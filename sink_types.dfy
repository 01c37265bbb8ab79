/** The records the sink commands work on: the connector configuration
    (`SinkConfig`), the command-line flags of one invocation (`SinkData`), the
    builtin-connector catalog served by the cluster, and the collaborators the
    pipeline calls but does not implement (the configuration-file reader, the JSON
    decoder and the validation helpers). */
module SinkTypes {

  datatype Option<+T> = None | Some(value: T)

  datatype Result<+T> = Ok(value: T) | Err(error: SinkError)

  /** Resource request of one connector instance. `cpu` is a float64 in the program;
      the pipeline only compares it with zero and copies it. */
  datatype Resources = Resources(cpu: real, disk: int, ram: int)

  /** A decoded JSON document. */
  datatype JsonValue =
    | JNull
    | JBool(b: bool)
    | JNumber(n: real)
    | JString(s: string)
    | JArray(items: seq<JsonValue>)
    | JObject(members: map<string, JsonValue>)

  /** The value of every `SinkConfig` field the pipeline reads or writes. A nil Go map
      is the empty map; a nil pointer (`TopicsPattern`, `Resources`, `TimeoutMs`) is
      `None`. */
  datatype Config = Config(
    tenant: string,
    namespace: string,
    name: string,
    className: string,
    processingGuarantees: string,
    retainOrdering: bool,
    inputs: seq<string>,
    topicToSerdeClassName: map<string, string>,
    topicToSchemaType: map<string, string>,
    sourceSubscriptionName: string,
    sourceSubscriptionPosition: string,
    topicsPattern: Option<string>,
    parallelism: int,
    archive: string,
    resources: Option<Resources>,
    configs: map<string, JsonValue>,
    autoAck: bool,
    timeoutMs: Option<int>)

  /** Every field at its zero value: what `new(SinkConfig)` allocates. */
  const EmptyConfig := Config("", "", "", "", "", false, [], map[], map[], "", "", None,
                              0, "", None, map[], false, None)

  /** The connector configuration that is built up and finally submitted. */
  class SinkConfig {
    var tenant: string
    var namespace: string
    var name: string
    var className: string
    var processingGuarantees: string
    var retainOrdering: bool
    var inputs: seq<string>
    var topicToSerdeClassName: map<string, string>
    var topicToSchemaType: map<string, string>
    var sourceSubscriptionName: string
    var sourceSubscriptionPosition: string
    var topicsPattern: Option<string>
    var parallelism: int
    var archive: string
    var resources: Option<Resources>
    var configs: map<string, JsonValue>
    var autoAck: bool
    var timeoutMs: Option<int>

    /** The current contents of all fields. */
    function Value(): Config
      reads this
    {
      Config(tenant, namespace, name, className, processingGuarantees, retainOrdering,
             inputs, topicToSerdeClassName, topicToSchemaType, sourceSubscriptionName,
             sourceSubscriptionPosition, topicsPattern, parallelism, archive, resources,
             configs, autoAck, timeoutMs)
    }

    /** A zero-valued configuration. */
    constructor ()
      ensures Value() == EmptyConfig
    {
      tenant, namespace, name, className := "", "", "", "";
      processingGuarantees, retainOrdering := "", false;
      inputs, topicToSerdeClassName, topicToSchemaType := [], map[], map[];
      sourceSubscriptionName, sourceSubscriptionPosition, topicsPattern := "", "", None;
      parallelism, archive, resources := 0, "", None;
      configs, autoAck, timeoutMs := map[], false, None;
    }

    /** Overwrites every field, as a decoder writing into the struct does. */
    method Assign(c: Config)
      modifies this
      ensures Value() == c
    {
      AssignIdentity(c);
      AssignBehaviour(c);
      AssignTopics(c);
      AssignSubscription(c);
      AssignPackaging(c);
      AssignTrailing(c);
    }

    method AssignIdentity(c: Config)
      modifies this
      ensures Value() == old(Value()).(tenant := c.tenant, namespace := c.namespace, name := c.name)
    {
      tenant, namespace, name := c.tenant, c.namespace, c.name;
    }

    method AssignBehaviour(c: Config)
      modifies this
      ensures Value() == old(Value()).(className := c.className, processingGuarantees := c.processingGuarantees, retainOrdering := c.retainOrdering)
    {
      className, processingGuarantees, retainOrdering := c.className, c.processingGuarantees, c.retainOrdering;
    }

    method AssignTopics(c: Config)
      modifies this
      ensures Value() == old(Value()).(inputs := c.inputs, topicToSerdeClassName := c.topicToSerdeClassName, topicToSchemaType := c.topicToSchemaType)
    {
      inputs, topicToSerdeClassName, topicToSchemaType := c.inputs, c.topicToSerdeClassName, c.topicToSchemaType;
    }

    method AssignSubscription(c: Config)
      modifies this
      ensures Value() == old(Value()).(sourceSubscriptionName := c.sourceSubscriptionName, sourceSubscriptionPosition := c.sourceSubscriptionPosition, topicsPattern := c.topicsPattern)
    {
      sourceSubscriptionName, sourceSubscriptionPosition, topicsPattern := c.sourceSubscriptionName, c.sourceSubscriptionPosition, c.topicsPattern;
    }

    method AssignPackaging(c: Config)
      modifies this
      ensures Value() == old(Value()).(parallelism := c.parallelism, archive := c.archive, resources := c.resources)
    {
      parallelism, archive, resources := c.parallelism, c.archive, c.resources;
    }

    method AssignTrailing(c: Config)
      modifies this
      ensures Value() == old(Value()).(configs := c.configs, autoAck := c.autoAck, timeoutMs := c.timeoutMs)
    {
      configs, autoAck, timeoutMs := c.configs, c.autoAck, c.timeoutMs;
    }
  }

  /** The value of every flag of `SinkData` the pipeline reads. */
  datatype SinkFlags = SinkFlags(
    tenant: string,
    namespace: string,
    name: string,
    sinkType: string,
    sinkConfigFile: string,
    inputs: string,
    topicsPattern: string,
    subsName: string,
    subsPosition: string,
    customSerdeInputString: string,
    customSchemaInputString: string,
    processingGuarantees: string,
    retainOrdering: bool,
    parallelism: int,
    archive: string,
    className: string,
    sinkConfigString: string,
    cpu: real,
    disk: int,
    ram: int,
    autoAck: bool,
    timeoutMs: int)

  /** The flags of one sink command, and the configuration being built from them. */
  class SinkData {
    var tenant: string
    var namespace: string
    var name: string
    var sinkType: string
    var sinkConfigFile: string
    var inputs: string
    var topicsPattern: string
    var subsName: string
    var subsPosition: string
    var customSerdeInputString: string
    var customSchemaInputString: string
    var processingGuarantees: string
    var retainOrdering: bool
    var parallelism: int
    var archive: string
    var className: string
    var sinkConfigString: string
    var cpu: real
    var disk: int
    var ram: int
    var autoAck: bool
    var timeoutMs: int
    var sinkConf: SinkConfig?

    /** The current value of the flags. */
    function Flags(): SinkFlags
      reads this
    {
      SinkFlags(tenant, namespace, name, sinkType, sinkConfigFile, inputs, topicsPattern,
                subsName, subsPosition, customSerdeInputString, customSchemaInputString,
                processingGuarantees, retainOrdering, parallelism, archive, className,
                sinkConfigString, cpu, disk, ram, autoAck, timeoutMs)
    }

    /** The configuration the flags are laid over: the one already attached, or a
        zero-valued one when there is none. */
    function Base(): Config
      reads this, sinkConf
    {
      if sinkConf == null then EmptyConfig else sinkConf.Value()
    }

    /** Flags as parsed from the command line, with no configuration attached yet. */
    constructor (f: SinkFlags)
      ensures Flags() == f && sinkConf == null
    {
      tenant, namespace, name, sinkType := f.tenant, f.namespace, f.name, f.sinkType;
      sinkConfigFile, inputs, topicsPattern := f.sinkConfigFile, f.inputs, f.topicsPattern;
      subsName, subsPosition := f.subsName, f.subsPosition;
      customSerdeInputString := f.customSerdeInputString;
      customSchemaInputString := f.customSchemaInputString;
      processingGuarantees, retainOrdering := f.processingGuarantees, f.retainOrdering;
      parallelism, archive, className := f.parallelism, f.archive, f.className;
      sinkConfigString, cpu, disk, ram := f.sinkConfigString, f.cpu, f.disk, f.ram;
      autoAck, timeoutMs := f.autoAck, f.timeoutMs;
      sinkConf := null;
    }
  }

  /** A builtin connector kind the cluster can install. */
  datatype ConnectorDefinition = ConnectorDefinition(name: string, description: string, sinkClass: string)

  /** The sinks endpoint of the cluster's admin service. `builtins` is what the
      builtin-sinks request answers: the list, or `None` when the request fails.
      `fetches` counts the requests made. */
  class SinksAdmin {
    const builtins: Option<seq<ConnectorDefinition>>
    var fetches: nat

    constructor (builtins: Option<seq<ConnectorDefinition>>)
      ensures this.builtins == builtins && fetches == 0
    {
      this.builtins := builtins;
      fetches := 0;
    }

    /** One request for the builtin connector definitions. */
    method GetBuiltInSinks() returns (r: Option<seq<ConnectorDefinition>>)
      modifies this`fetches
      ensures r == builtins && fetches == old(fetches) + 1
    {
      r := builtins;
      fetches := fetches + 1;
    }
  }

  /** What reading and decoding a configuration file yields: the file does not
      exist; it could not be read; it is not a well-formed document; or it is one,
      and decoding it into a configuration turns that configuration into
      `overlay` of it. */
  datatype FileOutcome =
    | NotExist
    | ReadFailed(cause: string)
    | Malformed(cause: string)
    | Document(overlay: Config -> Config)

  /** The helpers validation calls: argument inference, the package-URL test, the
      local file test, and the builtin locator prefix. */
  datatype Validators = Validators(
    inferMissingArguments: Config -> Config,
    isPackageUrlSupported: string -> bool,
    isFileExist: string -> bool,
    builtin: string)

  /** The errors of the pipeline, one per place that returns one. */
  datatype SinkError =
    | UnmarshalYamlFailed(cause: string)
    | LoadConfFailed(cause: string)
    | InvalidJson
    | ArchiveAndSinkType
    | ArchiveNotSpecified
    | ArchiveDoesNotExist(archive: string)
    | NameNotSpecified
    | NameRequired

  /** The text each error carries. The JSON decoder's own message is not modelled. */
  function Message(e: SinkError): (r: string)
    ensures |r| > 0
    ensures (e.UnmarshalYamlFailed? || e.LoadConfFailed?) ==>
      |e.cause| <= |r| && r[|r| - |e.cause|..] == e.cause
    ensures e.ArchiveDoesNotExist? ==>
      |"sink Archive "| + |e.archive| <= |r| && r[|"sink Archive "|..|"sink Archive "| + |e.archive|] == e.archive
  {
    match e
    case UnmarshalYamlFailed(cause) => "unmarshal yaml file error:" + cause
    case LoadConfFailed(cause) => "load conf file failed, err:" + cause
    case InvalidJson => "invalid JSON"
    case ArchiveAndSinkType => "Cannot specify both archive and sink-type"
    case ArchiveNotSpecified => "Sink archive not specified"
    case ArchiveDoesNotExist(archive) => "sink Archive " + archive + " does not exist"
    case NameNotSpecified => "sink name not specified"
    case NameRequired => "You must specify a name for the sink"
  }
}
