# Workflow base class of rapidscyber, modelled in Dafny

`rapidscyber/workflow/workflow.py` defines `Workflow`, the abstract base of a
streaming enrichment pipeline. Its constructor works out the source and
destination descriptors and the name. It takes values from a `workflow.yaml`
beside the subclass's module, then lets truthy arguments overwrite them, and
builds a reader and a writer through `Factory`. `set_source` and
`set_destination` replace a descriptor and rebuild its connector.
`run_workflow` polls the reader while `has_data` holds and fetches one frame
per poll. It skips empty fetches, passes every other frame through the
subclass's `workflow` transform and hands the result to the writer. A
`KeyboardInterrupt` ends the run with a stop entry in the log.

The files:

- `wrappers.dfy`: `Option`.
- `connectors.dfy`: descriptors, and readers and writers as the
  uninterpreted terms `FactoryReader(kind, descriptor)` and
  `FactoryWriter(kind, descriptor)`.
- `configuration.dfy`: the file entries, Python truthiness, the five
  attributes as a `Settings` value, and the specification of configuration
  resolution (`ApplyConfigFile`, `FileSettings`, `Resolve`) with its lemmas.
- `run_loop.dfy`: the specification of the run loop (`Enrich`, `Present`,
  `Processed`) with its lemmas.
- `workflow.dfy`: `class Workflow<D>`, which holds the five attributes as
  `Option` fields and the transform as a constant. Its constructor and
  methods are imperative and are proved against the specification functions.
- `scenarios.dfy`: four example uses (a finite file source, an interrupted
  stream, a retargeted destination, the default call with a file), showing what follows from the
  contracts alone.

Inputs that the source takes from the environment are parameters here. The
parsed configuration file is an `Option<ConfigFile>` argument of the
constructor, `None` when the file does not exist. The reader's behaviour is a
script: `polls[i]` is what `fetch_data` returns on poll `i`, and `has_data`
is true for exactly `|polls|` polls. An interrupt is the index of the poll
during which it arrives. The writes and the log entries of a run are
returned as output sequences. Each write is tagged with the writer it went
to.

Quirks of the code that the model keeps:

- `set_destination` asks the factory for a writer of kind
  `source["destination"]` (line 77), not of the new descriptor's `"type"`.
  `SetDestination` states this. It also states that the writer matches the
  new destination exactly when the two kinds agree.
- Errors are Python's own. A missing key in the file is a `KeyError` at
  lines 44-48, and an unset attribute is an `AttributeError` at lines 50-52.
  Both appear as preconditions. Entries assigned before such an error stay
  assigned.
- The file is applied to attributes none of which is set yet. So a file whose
  `source` or `destination` entry is falsy raises at lines 50-51 instead of
  being skipped. `ConfigFileMustNameBothConnectors` states this.
- The default name argument is `"Workflow"` (line 15). So a name from the
  file survives only when the caller passes a falsy name explicitly. The
  constructor carries the same defaults, and `DefaultNameOverridesFile`
  states the consequence.

## Model

| member | source | states |
|---|---|---|
| `Configuration.ApplyConfigFile` | rapidscyber/workflow/workflow.py:44-53 | each truthy file entry among source, destination and name replaces its attribute and a falsy one leaves it unchanged; afterwards the reader and writer always exist and are the factory's connectors for the current descriptors' kinds |
| `Configuration.ConfigFileMustNameBothConnectors` | rapidscyber/workflow/workflow.py:21-23 | when the file is applied by the constructor, it can succeed only if its source and destination entries are both truthy |
| `Configuration.FileSettings` | rapidscyber/workflow/workflow.py:21-25 | with no file nothing is set; with a file, both descriptors come from it, the name comes from it only if it is truthy, and both connectors are built |
| `Configuration.Resolve` | rapidscyber/workflow/workflow.py:15-37 | a truthy source or destination argument is the final descriptor, and the connector is rebuilt from its own "type", whatever the file said; a truthy name argument is the final name; a falsy argument leaves the file-derived value; the connectors always match the descriptors |
| `Configuration.DefaultNameOverridesFile` | rapidscyber/workflow/workflow.py:36-37 | with the default name argument "Workflow", the final name is "Workflow" whatever the file holds |
| `Configuration.FileNameSurvivesOnlyWithFalsyArgument` | rapidscyber/workflow/workflow.py:48-49 | a file name different from the argument is the final name if and only if the argument is falsy |
| `Configuration.NoFileConnectorsOnlyFromArguments` | rapidscyber/workflow/workflow.py:24-37 | without a file, a reader, a writer or a name exists after construction exactly when the matching argument is truthy |
| `RunLoop.Enrich` | rapidscyber/workflow/workflow.py:87-95 | the writes of a sequence of polls: at most one per poll, each to the given writer |
| `RunLoop.Present` | rapidscyber/workflow/workflow.py:90-93 | the non-empty fetches, in fetch order; there are never more than polls |
| `RunLoop.Processed` | rapidscyber/workflow/workflow.py:86-97 | the polls completed before the loop stops: a prefix of the script, holding exactly the polls before the exhausted `has_data` and before the interrupt |
| `RunLoop.EnrichAppend` | rapidscyber/workflow/workflow.py:87-95 | the writes of two consecutive stretches of polls are the writes of the first followed by those of the second |
| `RunLoop.EnrichIsTransformOfPresent` | rapidscyber/workflow/workflow.py:87-95 | the writes are the transform applied to each non-empty fetch, one write per fetch, in fetch order |
| `RunLoop.PresentEmpty` | rapidscyber/workflow/workflow.py:93 | there is no non-empty fetch exactly when every poll came back empty |
| `RunLoop.NoWritesIffAllEmpty` | rapidscyber/workflow/workflow.py:93-95 | nothing is written exactly when every poll came back empty: an empty fetch causes no transform and no write |
| `WorkflowModel.Workflow.constructor` | rapidscyber/workflow/workflow.py:15-37 | the attributes after construction are `Resolve` of the file and the arguments, with the source's defaults `None`, `None` and `"Workflow"`; the transform is the subclass's |
| `WorkflowModel.Workflow.SetWorkflowConfig` | rapidscyber/workflow/workflow.py:39-53 | the attributes afterwards are `ApplyConfigFile` of the attributes before; the three keys must be present (KeyError) and both descriptors must be set afterwards (AttributeError) |
| `WorkflowModel.Workflow.Name` | rapidscyber/workflow/workflow.py:55-58 | returns the stored name; reading it while unset is an AttributeError |
| `WorkflowModel.Workflow.Source` | rapidscyber/workflow/workflow.py:60-63 | returns the stored source descriptor; reading it while unset is an AttributeError |
| `WorkflowModel.Workflow.Destination` | rapidscyber/workflow/workflow.py:69-72 | returns the stored destination descriptor; reading it while unset is an AttributeError |
| `WorkflowModel.Workflow.SetSource` | rapidscyber/workflow/workflow.py:65-67 | the source becomes the argument and the reader is rebuilt from its "type"; destination, writer and name are unchanged; the reader again matches the source |
| `WorkflowModel.Workflow.SetDestination` | rapidscyber/workflow/workflow.py:74-78 | the destination becomes the argument and the writer is rebuilt with kind `source["destination"]`; source, reader and name are unchanged; the writer matches the new destination only when that kind equals the new "type" |
| `WorkflowModel.Workflow.StopWorkflow` | rapidscyber/workflow/workflow.py:99-100 | appends exactly one stop entry naming the workflow to the log |
| `WorkflowModel.Workflow.RunWorkflow` | rapidscyber/workflow/workflow.py:84-97 | the writes are `Enrich` of the polls completed before the reader runs dry or the interrupt arrives, all to the current writer; the number of fetches is the number of those polls, one per poll in which `has_data` held, never more than the polls the reader is ready for; the log is the running entry, then one stop entry exactly when an interrupt arrived, and the run returns normally |

## Left out

- Discovery of the configuration file is not modelled: the path computed from `sys.modules[...].__file__`, `path.exists`, opening the file and `yaml.load`. The parsed file, or its absence, is a constructor argument.
- The `Factory` and the concrete connectors (files, Kafka) are not part of this model. A connector is the uninterpreted term of the kind and descriptor it was built from, and an unknown kind is not modelled.
- `has_data` and `fetch_data` are a finite script. A streaming reader whose `has_data` never turns false is covered only up to its interrupt: the script is any sequence longer than the interrupt index.
- Frames are an opaque type parameter. The truthiness test at line 93 is `Some` versus `None`; the behaviour of `bool()` on a real dataframe is not modelled.
- Log messages are abstract events (`Running(name)`, `Stopped(name)`). The three configuration-discovery messages at lines 22, 25 and 41 are not recorded.
- Descriptors are maps from strings to strings; nested descriptor values are not modelled.
- Exceptions other than `KeyboardInterrupt` are not modelled: a missing key (KeyError), an unset attribute (AttributeError) or a truthy `source` or `destination` file entry that is not a mapping (TypeError at line 50 or 52) is excluded by a precondition. An exception raised by the factory, the transform or the writer is not modelled at all.
- Names are strings here. A truthy `name` entry in the file that is not a string (a mapping, a YAML integer), which Python assigns without error at line 49, is excluded by `WellShaped`.
- SetSource and SetDestination require the key their factory call reads. Without it, the source has already reassigned `_source` (line 66) or `_destination` (line 75) when the KeyError at line 67 or 77 is raised, so the old connector stays in place beside the new descriptor. This stale-connector state is not modelled; for `set_destination` it arises whenever the source descriptor has no "destination" entry.
- An interrupt during the `log.info` at line 85, which lies outside the `try`, is not modelled.
- `SetDestination` takes a descriptor, so `set_destination(None)` is not modelled.
- `_get_parser` is not modelled: it is an unimplemented stub with no behaviour.
- Real signal delivery and concurrency are not modelled: an interrupt is a scripted poll index.
