/** What the shared-spatial-anchor platform answers the session code, as
    plain values: the outcome of one attempt to create, save and share the
    alignment anchor, the unbound anchors loaded for a group, and what a
    discovered session tells a client. The platform itself is not modelled;
    its answers are the inputs of the colocation managers. */
module Anchors {
  import opened Basics
  import opened Geometry

  /** One attempt at the host's alignment anchor: whether the new anchor
      localised, whether saving it succeeded and whether sharing it with the
      group succeeded. Later stages are not reached when an earlier one
      fails. */
  datatype Attempt = Attempt(localized: bool, saved: bool, shared: bool)

  predicate Succeeds(a: Attempt) {
    a.localized && a.saved && a.shared
  }

  /** An unbound anchor loaded for the group: whether localising it
      succeeds, and its tracked pose as each of the two alignment passes
      reads it. */
  datatype Candidate = Candidate(localizes: bool, firstPass: Frame, secondPass: Frame)

  predicate Localizes(c: Candidate) {
    c.localizes
  }

  /** What a client takes from a discovered session: the group to load the
      anchors of, and the server address to connect to. */
  datatype Discovered = Discovered(groupId: Guid, serverAddress: string)
}
