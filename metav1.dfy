/**
 * The Kubernetes API metadata records that the stack types embed. The
 * model only stores and copies them, so each is an opaque value. The `0`
 * characteristic stands for Go's zero value, which `new(...)` produces.
 */
module Metav1 {

  /** metav1.TypeMeta, the kind/version pair a StackList embeds. */
  type TypeMeta(0)

  /** metav1.ObjectMeta, the identity metadata of a Stack. */
  type ObjectMeta(0)

  /** metav1.ListMeta, the metadata of a StackList. */
  type ListMeta(0)
}
