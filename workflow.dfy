/** The `Workflow` base class: a source connector, a destination connector,
    a name, and the loop that moves data from one to the other through the
    subclass's transform. */
module WorkflowModel {
  import opened Wrappers
  import opened Connectors
  import opened Configuration
  import opened RunLoop

  class Workflow<D> {
    /** `_source`, `_destination`, `_name`, `_io_reader`, `_io_writer`;
        `None` while the attribute has never been assigned. */
    var source: Option<Descriptor>
    var destination: Option<Descriptor>
    var name: Option<string>
    var ioReader: Option<Reader>
    var ioWriter: Option<Writer>

    /** The subclass's `workflow` method, the enrichment of one frame. */
    const transform: D -> D

    /** The five attributes as one value. */
    function Snapshot(): Settings
      reads this
    {
      Settings(source, destination, name, ioReader, ioWriter)
    }

    /** `__init__`: `config` is the parsed `workflow.yaml` next to the
        subclass's module, `None` when there is no such file. The file is
        applied first, then every truthy argument overwrites its attribute.
        The last three parameters have the source's defaults. */
    constructor (transform: D -> D, config: Option<ConfigFile>, source: Option<Descriptor> := None,
                 destination: Option<Descriptor> := None, name: Option<string> := Some(DefaultName))
      requires config.Some? ==> ConfigApplicable(Unset, config.value)
      requires ArgumentBuildable(source) && ArgumentBuildable(destination)
      ensures Snapshot() == Resolve(config, source, destination, name)
      ensures this.transform == transform
    {
      this.transform := transform;
      this.source, this.destination, this.name := None, None, None;
      ioReader, ioWriter := None, None;
      new;
      if config.Some? {
        SetWorkflowConfig(config.value);
      }
      if DescriptorTruthy(source) {
        this.source := source;
        ioReader := Some(FactoryReader(source.value[TypeKey], source.value));
      }
      if DescriptorTruthy(destination) {
        this.destination := destination;
        ioWriter := Some(FactoryWriter(destination.value[TypeKey], destination.value));
      }
      if NameTruthy(name) {
        this.name := name;
      }
    }

    /** `_set_workflow_config`, given the parsed file. */
    method SetWorkflowConfig(c: ConfigFile)
      requires ConfigApplicable(Snapshot(), c)
      modifies this
      ensures Snapshot() == ApplyConfigFile(old(Snapshot()), c)
    {
      if EntryTruthy(c[SourceKey]) {
        source := Some(c[SourceKey].fields);
      }
      if EntryTruthy(c[DestinationKey]) {
        destination := Some(c[DestinationKey].fields);
      }
      if EntryTruthy(c[NameKey]) {
        name := Some(c[NameKey].text);
      }
      ioReader := Some(FactoryReader(source.value[TypeKey], source.value));
      ioWriter := Some(FactoryWriter(destination.value[TypeKey], destination.value));
    }

    /** The `name` property; reading it before it is set is an AttributeError. */
    function Name(): (r: string)
      reads this
      requires name.Some?
      ensures Some(r) == name
    {
      name.value
    }

    /** The `source` property. */
    function Source(): (r: Descriptor)
      reads this
      requires source.Some?
      ensures Some(r) == source
    {
      source.value
    }

    /** The `destination` property. */
    function Destination(): (r: Descriptor)
      reads this
      requires destination.Some?
      ensures Some(r) == destination
    {
      destination.value
    }

    /** `set_source`: the new descriptor and a reader built from its kind;
        nothing else changes. */
    method SetSource(source: Descriptor)
      requires TypeKey in source
      modifies this
      ensures this.source == Some(source)
      ensures ioReader == Some(FactoryReader(source[TypeKey], source))
      ensures destination == old(destination) && ioWriter == old(ioWriter) && name == old(name)
      ensures old(WriterMatchesDestination(Snapshot())) ==>
        ReaderMatchesSource(Snapshot()) && WriterMatchesDestination(Snapshot())
    {
      this.source := Some(source);
      ioReader := Some(FactoryReader(Source()[TypeKey], Source()));
    }

    /** `set_destination` as written: the new descriptor, and a writer whose
        kind is the "destination" entry of the SOURCE descriptor, not the new
        descriptor's "type". So the writer matches the new destination only
        when those two agree. Nothing else changes. */
    method SetDestination(destination: Descriptor)
      requires source.Some? && DestinationKey in source.value
      modifies this
      ensures source == old(source) && ioReader == old(ioReader) && name == old(name)
      ensures this.destination == Some(destination)
      ensures ioWriter == Some(FactoryWriter(source.value[DestinationKey], destination))
      ensures WriterMatchesDestination(Snapshot()) <==>
        TypeKey in destination && destination[TypeKey] == source.value[DestinationKey]
    {
      this.destination := Some(destination);
      ioWriter := Some(FactoryWriter(Source()[DestinationKey], Destination()));
    }

    /** `stop_workflow`: appends one stop entry, naming the workflow, to the log. */
    method StopWorkflow(log: seq<LogEvent>) returns (log': seq<LogEvent>)
      requires name.Some?
      ensures log' == log + [Stopped(name.value)]
    {
      log' := log + [Stopped(Name())];
    }

    /** `run_workflow` on a reader that answers `has_data` with true for
        `|polls|` polls, fetching `polls[i]` on poll i, and on an interrupt
        arriving during poll `interrupt` (if any). It returns what it hands
        to the writer and to the log, and how many polls it completed: one
        fetch for each poll in which `has_data` held before the loop stopped. */
    method RunWorkflow(polls: seq<Option<D>>, interrupt: Option<nat>)
      returns (writes: seq<Delivery<D>>, log: seq<LogEvent>, fetched: nat)
      requires name.Some? && ioReader.Some?
      requires ioWriter.None? ==> Present(Processed(polls, interrupt)) == []
      ensures ioWriter.Some? ==> writes == Enrich(transform, ioWriter.value, Processed(polls, interrupt))
      ensures ioWriter.None? ==> writes == []
      ensures log == [Running(name.value)] + if Interrupted(polls, interrupt) then [Stopped(name.value)] else []
      ensures fetched == |Processed(polls, interrupt)| && fetched <= |polls|
    {
      log := [Running(Name())];
      writes := [];
      ghost var done := Processed(polls, interrupt);
      PresentEmpty(done);
      var i := 0;
      while i < |polls| && interrupt != Some(i)
        invariant 0 <= i <= |done|
        invariant ioWriter.Some? ==> writes == Enrich(transform, ioWriter.value, polls[..i])
        invariant ioWriter.None? ==> writes == []
      {
        var frame := polls[i];
        if frame.Some? {
          var enriched := transform(frame.value);
          writes := writes + [Delivery(ioWriter.value, enriched)];
        }
        assert polls[..i + 1][..i] == polls[..i];
        i := i + 1;
      }
      assert polls[..i] == done;
      if interrupt == Some(i) {
        log := StopWorkflow(log);
      }
      fetched := i;
    }
  }
}
