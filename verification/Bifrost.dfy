/** What the adapter and the core name alike. */
module Bifrost {

  /** The two directions of a stream, and any other value a caller may pass. */
  datatype Direction = IngressToEndpoint | EndpointToIngress | OtherDirection
}
