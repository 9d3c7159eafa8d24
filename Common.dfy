/**
 * Small shared vocabulary: an optional value (a nullable pointer or an empty
 * std::function in the C++ code) and the identity of a persistent object
 * (attribute, resource, project or model entity).
 */
module Common {

  /** A value that may be missing; None plays the role of a null pointer. */
  datatype Option<+T> = None | Some(value: T)

  /** Identity of a persistent object: attributes, resources, projects. */
  type Id = nat
}
