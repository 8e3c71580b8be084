# Stack snapshot model (templatev1beta2)

This project models the clone machinery of the v1beta2 `Stack` resource in
docker-app's Helm rendering path (`internal/helm/templatev1beta2/stack.go`),
together with the record declarations it copies. It covers:

- the `Stack` envelope: an embedded `TypeMeta`, an opaque `ObjectMeta`, an
  optional `*StackSpec` and an optional `*StackStatus`;
- `StackList`, with its metadata and its `Items` slice;
- `StackStatus`, whose `StackPhase` is a named string type with the three
  conditions `Available`, `Progressing` and `Failure`;
- `Stack.clone`, `Stack.Clone`, `Stack.DeepCopyObject`,
  `StackList.DeepCopyObject`, `StackSpec.clone`, `StackStatus.clone` and
  `TypeMeta.GetObjectKind`.

Modules follow the Go packages: `TemplateTypes` (templatetypes.dfy) holds
the templated scalar types as opaque types, `Metav1` (metav1.dfy) holds the
Kubernetes metadata records as opaque types, and `Templatev1beta2`
(stack.dfy) holds the rest.

Pointers whose identity matters are Dafny references. A nil pointer, nil
slice or nil map is `null`. The Go methods that accept a nil receiver are
static methods that take a nullable reference, `TypeMeta.GetObjectKind`
among them. `Stack.CloneOf` is the
unexported `clone`, and so are `StackSpec.CloneOf` and `StackStatus.CloneOf`.
The `Services` slice is an `array?<ServiceConfig>`. The `Secrets` and
`Configs` maps are `StringMap?` objects. `Items` is an `array?<Stack>`.
`Stack`, `StackSpec`, `StackStatus` and `StackList` each have a ghost
`Value()`, which is what "equal field by field" means. The model takes the
value of a `StackSpec` to be its three references, which is what the struct
copy `result := *s` preserves. So two specs with equal values share one
services array and one map of each kind. A `runtime.Object` result is the
datatype `RuntimeObject`, which tells the nil interface (`NilObject`) apart
from an interface holding a nil `*Stack` (`StackObject(null)`). A
`schema.ObjectKind` result is the datatype `ObjectKind`, which always holds a
`*TypeMeta`, possibly a nil one, and so is never the nil interface.

The copy is shallow, as the code has it. `StackSpec.clone` copies the
struct, so the clone's spec is a new object. Its `Services`, `Secrets` and
`Configs` are the original's references. A write through the clone's
services array is therefore seen by the original (`CloneThenWriteService`).
A write to the clone's status is not seen by the original
(`CloneThenWriteStatus`). The name `DeepCopyObject` and the
`runtime.Object` convention suggest a deep copy, but `StackSpec.clone`
(stack.go:234-240) copies only the struct, so `Services`, `Secrets` and
`Configs` stay shared; this model follows the code.

## Model

| member | source | states |
|---|---|---|
| `Templatev1beta2.TypeMeta.constructor` | internal/helm/templatev1beta2/stack.go:19-22 | the zero TypeMeta has empty kind and apiVersion |
| `Templatev1beta2.TypeMeta.GetObjectKind` | internal/helm/templatev1beta2/stack.go:25-27 | the ObjectKind returned holds the receiver itself, not a copy, for a nil receiver as well as a non-nil one; it is never the nil interface |
| `Templatev1beta2.Stack.GetObjectKind` | internal/helm/templatev1beta2/stack.go:25-27 | a stack's ObjectKind holds its own embedded TypeMeta object, which is never nil |
| `Templatev1beta2.Stack.constructor` | internal/helm/templatev1beta2/stack.go:75 | `new(Stack)` has a freshly allocated empty TypeMeta and no spec or status |
| `Templatev1beta2.Stack.CloneOf` | internal/helm/templatev1beta2/stack.go:71-81 | nil in gives nil out; otherwise the result is a fresh stack with a fresh TypeMeta, fresh spec and status blocks where present, and the same value: equal kind, apiVersion and ObjectMeta, a spec exactly when the original has one and equal to it, a status exactly when the original has one and equal to it |
| `Templatev1beta2.Stack.Clone` | internal/helm/templatev1beta2/stack.go:275-277 | the same contract as the unexported clone, which it returns |
| `Templatev1beta2.Stack.DeepCopyObject` | internal/helm/templatev1beta2/stack.go:49-51 | the result is always a non-nil interface holding a `*Stack`; that pointer is nil exactly when the receiver is, and otherwise is a fresh stack with fresh blocks and the receiver's value, as the unexported clone gives |
| `Templatev1beta2.StackSpec.constructor` | internal/helm/templatev1beta2/stack.go:237-238 | a new spec holds exactly the three given references |
| `Templatev1beta2.StackSpec.CloneOf` | internal/helm/templatev1beta2/stack.go:234-240 | nil in gives nil out; otherwise a fresh spec whose Services, Secrets and Configs are the original's own references (shallow copy) |
| `Templatev1beta2.StackStatus.constructor` | internal/helm/templatev1beta2/stack.go:270-271 | a new status holds the given phase and message |
| `Templatev1beta2.StackStatus.CloneOf` | internal/helm/templatev1beta2/stack.go:266-272 | nil in gives nil out; otherwise a fresh status with the same phase and message |
| `Templatev1beta2.StackList.constructor` | internal/helm/templatev1beta2/stack.go:58 | `new(StackList)` has a nil Items slice |
| `Templatev1beta2.StackList.DeepCopyObject` | internal/helm/templatev1beta2/stack.go:54-68 | a nil receiver gives the nil interface and only it does; otherwise an interface holding a fresh list with the same TypeMeta and ListMeta whose Items is nil exactly when the original's is; non-nil Items become a fresh array of the same length whose stacks are fresh, equal in value, index by index, to the original's, and pairwise share no stack, TypeMeta, spec or status |
| `Templatev1beta2.CloneItems` | internal/helm/templatev1beta2/stack.go:64-67 | the new items array has the original's length; slot `ix` is a fresh copy, with fresh blocks, of the stack at `ix`, equal to it in value; no two slots share a stack, a TypeMeta, a spec or a status, even when the original's stacks share blocks |
| `Templatev1beta2.ItemsValue` | internal/helm/templatev1beta2/stack.go:64-67 | the value of the first `n` items, built in index order, has exactly `n` entries |
| `Templatev1beta2.ItemsValueAt` | internal/helm/templatev1beta2/stack.go:64-67 | entry `i` of the items value is the value of the stack at index `i` |
| `Templatev1beta2.ItemsValueEqual` | internal/helm/templatev1beta2/stack.go:64-67 | two item arrays have equal values if and only if their stacks agree in value at every index |
| `Templatev1beta2.ListValueFromItems` | internal/helm/templatev1beta2/stack.go:58-67 | lists with equal metadata and non-nil items that agree index by index have equal values |
| `Templatev1beta2.CloneThenWriteStatus` | internal/helm/templatev1beta2/stack.go:266-272 | after cloning a stack and writing the clone's status message, the original stack's value is unchanged |
| `Templatev1beta2.CloneThenWriteService` | internal/helm/templatev1beta2/stack.go:234-240 | after cloning a stack and writing a service through the clone's spec, the original's services array holds the written service, because the array is shared, and its other slots are unchanged |

## Left out

- `TypeMeta.GroupVersionKind` and `TypeMeta.SetGroupVersionKind`: they only wrap Kubernetes' `schema.FromAPIVersionAndKind` and `ToAPIVersionAndKind`, which are outside this package.
- `StackList`'s own `GetObjectKind` comes from the embedded `metav1.TypeMeta`, a Kubernetes type that is opaque here, so it is not modelled.
- `metav1.TypeMeta`, `metav1.ObjectMeta` and `metav1.ListMeta` are opaque values that are copied verbatim, and their contents are not modelled. In Go, `result.ObjectMeta = s.ObjectMeta` copies a struct whose maps and slices (labels, annotations, owner references and the like) stay shared between a stack and its clone; the model does not capture that sharing.
- The `templatetypes` package (`StringTemplate`, `BoolOrTemplate`, `UInt64OrTemplate`, `DurationOrTemplate`, `UnitBytesOrTemplate`, `StringTemplateList`) contributes opaque types only. Its parsing, substitution and coercion are not part of this model.
- YAML, JSON and protobuf struct tags and (de)serialisation are left out. They belong to external libraries.
- Inside the leaf records (`ServiceConfig` and the rest), a Go pointer is an `Option`, a slice is a `seq` and a map is a Dafny `map`. A nil slice or map inside a leaf record is therefore the same as an empty one. Sharing of those nested slices and maps is not modelled. No clone function copies a leaf record apart, since the services array itself is shared.
- Go's `Items []Stack` holds stack values, but the model's `array?<Stack>` holds references: each slot's `Stack` reference stands for that slot's own storage. Inputs in which two slots hold the same `Stack`, or a slot's stack is referenced elsewhere, are possible only in the model; the proved results cover them too.
- A Go slice is modelled as a whole array. Slice headers that view part of a larger backing array are not modelled.
- CloneItems: Go first makes a zero-filled slice and then overwrites each slot in place. The model clones the stacks in index order and then allocates the array already filled with the clones. The result is the same, but the intermediate zero-filled state is not modelled.
- The end-to-end push/pull test is left out. It only drives containers, a registry, TCP ports and the command line.
