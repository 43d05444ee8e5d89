/** The cluster objects the operator actions pass around. Each is identified
    by its `metadata.name`; everything else it carries is opaque to the
    actions and is kept as `details` so that it visibly travels unchanged. */
module Kube {

  /** An installed operator (a package manifest). */
  datatype Operator = Operator(name: string, details: string)

  /** One entry of `spec.customresourcedefinitions.owned`: the CRD name has
      the shape `<plural>.<group>`, and `version` is its API version. */
  datatype CrdDescription = CrdDescription(name: string, version: string)

  /** A ClusterServiceVersion: a released version of an operator together
      with the custom resource definitions it owns. */
  datatype CSV = CSV(name: string, owned: seq<CrdDescription>, details: string)

  /** An instance of a custom resource. */
  datatype Resource = Resource(name: string, details: string)

  /** The body of a list call: the resources sit under `items`. */
  datatype ResourceListing = ResourceListing(items: seq<Resource>)

  /** A thrown error; it is passed along verbatim, never re-wrapped. */
  datatype Error = Error(message: string)

  function OperatorName(o: Operator): string { o.name }

  function CSVName(c: CSV): string { c.name }
}
