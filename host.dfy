/**
  Abstractions of the host GUI toolkit shared by the modal and the navigation
  transition code: optional values and the opaque identities of view
  controllers and views.
 */
module Host {

  /** An optional value, the model of a Swift optional that the code tests or unwraps. */
  datatype Option<+T> = None | Some(value: T)

  /** Identity of a view controller; two controllers are `===` exactly when their identities are equal. */
  type ControllerId = nat

  /** Identity of a view (the subject view that is animated, or the container view). */
  type ViewId = nat
}
