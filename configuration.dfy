/** Configuration resolution of a workflow: the values read from the
    workflow's configuration file, then the constructor's own arguments,
    decide the source and destination descriptors, the name, and the two
    connectors built from the descriptors. */
module Configuration {
  import opened Wrappers
  import opened Connectors

  /** The constructor's default for its `name` argument. */
  const DefaultName: string := "Workflow"

  /** The file looked for next to the module that defines the workflow. */
  const DefaultConfigFile: string := "workflow.yaml"

  const SourceKey: string := "source"
  const DestinationKey: string := "destination"
  const NameKey: string := "name"

  /** A value of the parsed configuration file, as far as the workflow
      uses it: YAML null, a scalar, or a mapping. */
  datatype Entry = Null | Text(text: string) | Mapping(fields: Descriptor)

  /** The top-level mapping of the parsed configuration file. */
  type ConfigFile = map<string, Entry>

  /** Python truthiness of a file entry. */
  predicate EntryTruthy(e: Entry)
  {
    match e
    case Null => false
    case Text(s) => s != ""
    case Mapping(m) => m != map[]
  }

  /** Python truthiness of a descriptor argument (`None` or a dict). */
  predicate DescriptorTruthy(o: Option<Descriptor>)
  {
    o.Some? && o.value != map[]
  }

  /** Python truthiness of a name argument (`None` or a str). */
  predicate NameTruthy(o: Option<string>)
  {
    o.Some? && o.value != ""
  }

  /** The five attributes of a workflow; `None` is an attribute that has not
      been assigned yet. */
  datatype Settings = Settings(
    source: Option<Descriptor>,
    destination: Option<Descriptor>,
    name: Option<string>,
    reader: Option<Reader>,
    writer: Option<Writer>)

  /** The attributes before the constructor has assigned any of them. */
  const Unset: Settings := Settings(None, None, None, None, None)

  /** The reader is the one the factory builds from the current source
      descriptor, and there is no reader without a source. */
  predicate ReaderMatchesSource(s: Settings)
  {
    match s.source
    case None => s.reader.None?
    case Some(d) => TypeKey in d && s.reader == Some(FactoryReader(d[TypeKey], d))
  }

  /** The writer is the one the factory builds from the current destination
      descriptor, and there is no writer without a destination. */
  predicate WriterMatchesDestination(s: Settings)
  {
    match s.destination
    case None => s.writer.None?
    case Some(d) => TypeKey in d && s.writer == Some(FactoryWriter(d[TypeKey], d))
  }

  /** The file has the three keys that are looked up (a missing one is a
      KeyError), and every entry that will be assigned has the shape of the
      attribute it is assigned to. */
  predicate WellShaped(c: ConfigFile)
  {
    SourceKey in c && DestinationKey in c && NameKey in c &&
    (EntryTruthy(c[SourceKey]) ==> c[SourceKey].Mapping?) &&
    (EntryTruthy(c[DestinationKey]) ==> c[DestinationKey].Mapping?) &&
    (EntryTruthy(c[NameKey]) ==> c[NameKey].Text?)
  }

  /** A descriptor attribute after `if config[key]: self._key = config[key]`. */
  function FromEntry(current: Option<Descriptor>, e: Entry): Option<Descriptor>
    requires EntryTruthy(e) ==> e.Mapping?
  {
    if EntryTruthy(e) then Some(e.fields) else current
  }

  /** A descriptor attribute that is set and has a "type" entry, so that the
      factory call that follows can read its kind. */
  predicate Buildable(o: Option<Descriptor>)
  {
    o.Some? && TypeKey in o.value
  }

  /** A truthy constructor argument has a "type" entry. */
  predicate ArgumentBuildable(o: Option<Descriptor>)
  {
    DescriptorTruthy(o) ==> TypeKey in o.value
  }

  /** Applying file `c` to attributes `s` reaches the end without an
      exception: after the three assignments both descriptors are set and
      carry a kind. */
  predicate ConfigApplicable(s: Settings, c: ConfigFile)
  {
    WellShaped(c) &&
    Buildable(FromEntry(s.source, c[SourceKey])) &&
    Buildable(FromEntry(s.destination, c[DestinationKey]))
  }

  /** `_set_workflow_config`: each truthy entry of the file replaces its
      attribute, a falsy one leaves the attribute as it was, and then both
      connectors are rebuilt from the descriptors as they now stand. */
  function ApplyConfigFile(s: Settings, c: ConfigFile): (r: Settings)
    requires ConfigApplicable(s, c)
    ensures EntryTruthy(c[SourceKey]) ==> r.source == Some(c[SourceKey].fields)
    ensures !EntryTruthy(c[SourceKey]) ==> r.source == s.source
    ensures EntryTruthy(c[DestinationKey]) ==> r.destination == Some(c[DestinationKey].fields)
    ensures !EntryTruthy(c[DestinationKey]) ==> r.destination == s.destination
    ensures EntryTruthy(c[NameKey]) ==> r.name == Some(c[NameKey].text)
    ensures !EntryTruthy(c[NameKey]) ==> r.name == s.name
    ensures r.reader.Some? && r.writer.Some?
    ensures ReaderMatchesSource(r) && WriterMatchesDestination(r)
  {
    var source := FromEntry(s.source, c[SourceKey]);
    var destination := FromEntry(s.destination, c[DestinationKey]);
    var name := if EntryTruthy(c[NameKey]) then Some(c[NameKey].text) else s.name;
    Settings(source, destination, name,
             Some(FactoryReader(source.value[TypeKey], source.value)),
             Some(FactoryWriter(destination.value[TypeKey], destination.value)))
  }

  /** Called from the constructor, the file is applied to attributes none of
      which is set yet, so it succeeds only when it names both connectors. */
  lemma ConfigFileMustNameBothConnectors(c: ConfigFile)
    requires ConfigApplicable(Unset, c)
    ensures EntryTruthy(c[SourceKey]) && EntryTruthy(c[DestinationKey])
  {
  }

  /** The attributes once the constructor has dealt with the configuration
      file: nothing is set when there is no file; otherwise the file's two
      descriptors, its name when the name is truthy, and the connectors built
      from the descriptors. */
  function FileSettings(config: Option<ConfigFile>): (r: Settings)
    requires config.Some? ==> ConfigApplicable(Unset, config.value)
    ensures config.None? ==> r == Unset
    ensures config.Some? ==>
      r.source == Some(config.value[SourceKey].fields) &&
      r.destination == Some(config.value[DestinationKey].fields)
    ensures config.Some? ==>
      r.name == if EntryTruthy(config.value[NameKey]) then Some(config.value[NameKey].text) else None
    ensures config.Some? ==> r.reader.Some? && r.writer.Some?
    ensures ReaderMatchesSource(r) && WriterMatchesDestination(r)
  {
    match config
    case None => Unset
    case Some(c) => ApplyConfigFile(Unset, c)
  }

  /** The attributes at the end of the constructor: a truthy argument wins
      over what the file gave, and a source or destination argument comes
      with the connector built from its own "type"; a falsy argument leaves
      the file's value (or nothing) in place. */
  function Resolve(config: Option<ConfigFile>, source: Option<Descriptor>,
                   destination: Option<Descriptor>, name: Option<string>): (r: Settings)
    requires config.Some? ==> ConfigApplicable(Unset, config.value)
    requires ArgumentBuildable(source) && ArgumentBuildable(destination)
    ensures DescriptorTruthy(source) ==>
      r.source == source && r.reader == Some(FactoryReader(source.value[TypeKey], source.value))
    ensures !DescriptorTruthy(source) ==>
      r.source == FileSettings(config).source && r.reader == FileSettings(config).reader
    ensures DescriptorTruthy(destination) ==>
      r.destination == destination &&
      r.writer == Some(FactoryWriter(destination.value[TypeKey], destination.value))
    ensures !DescriptorTruthy(destination) ==>
      r.destination == FileSettings(config).destination && r.writer == FileSettings(config).writer
    ensures NameTruthy(name) ==> r.name == name
    ensures !NameTruthy(name) ==> r.name == FileSettings(config).name
    ensures ReaderMatchesSource(r) && WriterMatchesDestination(r)
  {
    var f := FileSettings(config);
    var src := if DescriptorTruthy(source) then source else f.source;
    var dst := if DescriptorTruthy(destination) then destination else f.destination;
    Settings(
      src,
      dst,
      if NameTruthy(name) then name else f.name,
      if DescriptorTruthy(source) then Some(FactoryReader(src.value[TypeKey], src.value)) else f.reader,
      if DescriptorTruthy(destination) then Some(FactoryWriter(dst.value[TypeKey], dst.value)) else f.writer)
  }

  /** With the default name argument the file's name never survives. */
  lemma DefaultNameOverridesFile(config: Option<ConfigFile>, source: Option<Descriptor>,
                                 destination: Option<Descriptor>)
    requires config.Some? ==> ConfigApplicable(Unset, config.value)
    requires ArgumentBuildable(source) && ArgumentBuildable(destination)
    ensures Resolve(config, source, destination, Some(DefaultName)).name == Some(DefaultName)
  {
  }

  /** A name from the file that differs from the argument ends up as the
      workflow's name exactly when the argument is falsy. */
  lemma FileNameSurvivesOnlyWithFalsyArgument(c: ConfigFile, source: Option<Descriptor>,
                                              destination: Option<Descriptor>, name: Option<string>)
    requires ConfigApplicable(Unset, c)
    requires ArgumentBuildable(source) && ArgumentBuildable(destination)
    requires EntryTruthy(c[NameKey]) && name != Some(c[NameKey].text)
    ensures Resolve(Some(c), source, destination, name).name == Some(c[NameKey].text)
            <==> !NameTruthy(name)
  {
  }

  /** Without a file, a connector exists at the end of the constructor
      exactly when the matching argument was truthy. */
  lemma NoFileConnectorsOnlyFromArguments(source: Option<Descriptor>,
                                          destination: Option<Descriptor>, name: Option<string>)
    requires ArgumentBuildable(source) && ArgumentBuildable(destination)
    ensures Resolve(None, source, destination, name).reader.Some? <==> DescriptorTruthy(source)
    ensures Resolve(None, source, destination, name).writer.Some? <==> DescriptorTruthy(destination)
    ensures Resolve(None, source, destination, name).name.Some? <==> NameTruthy(name)
  {
  }
}
