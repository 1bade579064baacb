/** The connector factory at its boundary.

    `Factory.get_reader(kind, descriptor)` and `Factory.get_writer(kind, descriptor)`
    are not part of this model. They are deterministic, so a connector is
    identified by the two arguments it was built from: the datatype
    constructors below are those calls, left uninterpreted. */
module Connectors {

  /** A connector descriptor: the mapping with a "type" entry naming the
      connector kind, plus kind-specific parameters. */
  type Descriptor = map<string, string>

  /** The key that names the connector kind inside a descriptor. */
  const TypeKey: string := "type"

  /** The source connector `Factory.get_reader(kind, descriptor)`. */
  datatype Reader = FactoryReader(kind: string, descriptor: Descriptor)

  /** The destination connector `Factory.get_writer(kind, descriptor)`. */
  datatype Writer = FactoryWriter(kind: string, descriptor: Descriptor)
}
