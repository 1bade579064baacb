/** Three runs of a workflow, and what a caller can conclude about them from
    the contracts alone. */
module Scenarios {
  import opened Wrappers
  import opened Connectors
  import opened Configuration
  import opened RunLoop
  import opened WorkflowModel

  /** A file source that yields two frames and then reports no more data:
      both are transformed and written, in order, and nothing is stopped. */
  method FiniteSource()
  {
    var file: Descriptor := map[TypeKey := "file", "input_path" := "in.csv"];
    var out: Descriptor := map[TypeKey := "file", "output_path" := "out.csv"];
    var wf := new Workflow<int>(x => x * 10, None, Some(file), Some(out));
    var writes, log, fetched := wf.RunWorkflow([Some(1), Some(2)], None);
    var w := FactoryWriter("file", out);
    assert [Some(1), Some(2)][..1] == [Some(1)];
    assert writes == [Delivery(w, 10), Delivery(w, 20)];
    assert log == [Running(DefaultName)] && fetched == 2;
  }

  /** A queue source that is empty, yields a frame, is empty, yields a
      frame, and is interrupted on the fifth poll: the two frames are
      written, empty polls write nothing, and the stop is logged. */
  method InterruptedStream()
  {
    var queue: Descriptor := map[TypeKey := "kafka", "input_topic" := "in"];
    var out: Descriptor := map[TypeKey := "kafka", "output_topic" := "out"];
    var wf := new Workflow<int>(x => x + 1, None, Some(queue), Some(out), Some("enrich"));
    var polls := [None, Some(1), None, Some(2), None, Some(3)];
    var writes, log, fetched := wf.RunWorkflow(polls, Some(4));
    var w := FactoryWriter("kafka", out);
    var done := [None, Some(1), None, Some(2)];
    assert polls[..4] == done;
    EnrichIsTransformOfPresent(wf.transform, w, done);
    assert Present(done) == [1, 2];
    assert writes == [Delivery(w, 2), Delivery(w, 3)];
    assert log == [Running("enrich"), Stopped("enrich")] && fetched == 4;
  }

  /** After `set_destination` every later write goes to the writer it
      built, which takes its kind from the source's "destination" entry. */
  method RetargetedDestination()
  {
    var queue: Descriptor := map[TypeKey := "kafka", DestinationKey := "kafka"];
    var first: Descriptor := map[TypeKey := "file", "output_path" := "a.csv"];
    var second: Descriptor := map[TypeKey := "file", "output_path" := "b.csv"];
    var wf := new Workflow<int>(x => x, None, Some(queue), Some(first));
    wf.SetDestination(second);
    var writes, log, fetched := wf.RunWorkflow([Some(7)], None);
    assert writes == [Delivery(FactoryWriter("kafka", second), 7)];
  }

  /** `Subclass()` with a configuration file: the file supplies both
      connectors, but the default name argument overrides the file's name. */
  method DefaultCallWithFile()
  {
    var queue: Descriptor := map[TypeKey := "kafka", "input_topic" := "in"];
    var out: Descriptor := map[TypeKey := "file", "output_path" := "out.csv"];
    var c: ConfigFile := map[SourceKey := Mapping(queue), DestinationKey := Mapping(out),
                             NameKey := Text("from-file")];
    assert TypeKey in queue && TypeKey in out;
    assert EntryTruthy(c[SourceKey]) && EntryTruthy(c[DestinationKey]) && EntryTruthy(c[NameKey]);
    var wf := new Workflow<int>(x => x, Some(c));
    assert wf.name == Some(DefaultName);
    assert wf.ioReader == Some(FactoryReader("kafka", queue));
    assert wf.ioWriter == Some(FactoryWriter("file", out));
  }
}
