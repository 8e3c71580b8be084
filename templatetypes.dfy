/**
 * The templated scalar types of package `templatetypes`, which the record
 * declarations of templatev1beta2 use as field types. Their parsing,
 * rendering and coercion are not part of this model, so each is an opaque
 * type: a value that is stored and copied, and never looked into.
 */
module TemplateTypes {

  /** A text field that may hold a placeholder; also used as a map key. */
  type StringTemplate(==)

  /** A list of text templates (used for tmpfs mounts). */
  type StringTemplateList

  /** A boolean or a template that renders to one. */
  type BoolOrTemplate

  /** An unsigned 64-bit integer or a template that renders to one. */
  type UInt64OrTemplate

  /** A duration or a template that renders to one. */
  type DurationOrTemplate

  /** A byte count with unit or a template that renders to one. */
  type UnitBytesOrTemplate
}
