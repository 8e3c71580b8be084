/**
 * Package templatev1beta2: the v1beta2 Stack resource of the Helm
 * rendering path, its record declarations, and the hand-written clone
 * functions that give Stack and StackList their runtime.Object copies.
 *
 * Go pointers whose identity matters (the stack, its spec and status
 * blocks, its embedded TypeMeta, the Services slice, the Secrets and
 * Configs maps, the Items slice) are Dafny references; a nil pointer,
 * slice or map is `null`. Go's nil-tolerant methods such as
 * `func (s *Stack) clone()` and `func (obj *TypeMeta) GetObjectKind()`
 * become static methods taking a nullable reference. Records that are
 * only stored and never copied apart are value datatypes.
 */
module Templatev1beta2 {
  import opened TemplateTypes
  import Metav1

  datatype Option<T> = None | Some(value: T)

  /** Go's int64. */
  newtype Int64 = x: int | -0x8000_0000_0000_0000 <= x < 0x8000_0000_0000_0000

  // ---------------------------------------------------------------------
  // Record declarations. Inside these records a Go pointer is an Option,
  // a slice is a seq and a map is a Dafny map: nothing in the package
  // copies them apart, so their identity plays no part.
  // ---------------------------------------------------------------------

  /** Marks a volume or network as managed outside the stack. */
  datatype External = External(name: string, external: bool)

  /** A file-backed swarm object (secret or config). */
  datatype FileObjectConfig = FileObjectConfig(
    name: StringTemplate,
    file: StringTemplate,
    external: External,
    labels: map<string, string>)

  type SecretConfig = FileObjectConfig

  type ConfigObjConfig = FileObjectConfig

  /** A service's reference to a swarm file object. */
  datatype FileReferenceConfig = FileReferenceConfig(
    source: StringTemplate,
    target: StringTemplate,
    uid: StringTemplate,
    gid: StringTemplate,
    mode: UInt64OrTemplate)

  type ServiceConfigObjConfig = FileReferenceConfig

  type ServiceSecretConfig = FileReferenceConfig

  /** A published port of a service. */
  datatype ServicePortConfig = ServicePortConfig(
    mode: StringTemplate,
    target: UInt64OrTemplate,
    published: UInt64OrTemplate,
    protocol: StringTemplate)

  datatype UpdateConfig = UpdateConfig(parallelism: UInt64OrTemplate)

  /** A resource limit or reservation. */
  datatype Resource = Resource(nanoCPUs: StringTemplate, memoryBytes: UnitBytesOrTemplate)

  datatype Resources = Resources(limits: Option<Resource>, reservations: Option<Resource>)

  datatype RestartPolicy = RestartPolicy(condition: string)

  /** A placement constraint: a value and its operator ("==" or "!="). */
  datatype Constraint = Constraint(value: string, operator: string)

  datatype Constraints = Constraints(
    operatingSystem: Option<Constraint>,
    architecture: Option<Constraint>,
    hostname: Option<Constraint>,
    matchLabels: map<string, Constraint>)

  datatype Placement = Placement(constraints: Option<Constraints>)

  datatype DeployConfig = DeployConfig(
    mode: StringTemplate,
    replicas: UInt64OrTemplate,
    labels: map<StringTemplate, StringTemplate>,
    updateConfig: Option<UpdateConfig>,
    resources: Resources,
    restartPolicy: Option<RestartPolicy>,
    placement: Placement)

  datatype HealthCheckConfig = HealthCheckConfig(
    test: seq<string>,
    timeout: DurationOrTemplate,
    interval: DurationOrTemplate,
    retries: UInt64OrTemplate)

  /** A volume mount; `volumeType` is the Go field `Type`. */
  datatype ServiceVolumeConfig = ServiceVolumeConfig(
    volumeType: string,
    source: StringTemplate,
    target: StringTemplate,
    readOnly: BoolOrTemplate)

  /** The configuration of one service. */
  datatype ServiceConfig = ServiceConfig(
    name: string,
    capAdd: seq<StringTemplate>,
    capDrop: seq<StringTemplate>,
    command: seq<StringTemplate>,
    configs: seq<ServiceConfigObjConfig>,
    deploy: DeployConfig,
    entrypoint: seq<StringTemplate>,
    environment: map<StringTemplate, Option<StringTemplate>>,
    extraHosts: seq<StringTemplate>,
    hostname: StringTemplate,
    healthCheck: Option<HealthCheckConfig>,
    image: StringTemplate,
    ipc: StringTemplate,
    labels: map<StringTemplate, StringTemplate>,
    pid: StringTemplate,
    ports: seq<ServicePortConfig>,
    privileged: BoolOrTemplate,
    readOnly: BoolOrTemplate,
    secrets: seq<ServiceSecretConfig>,
    stdinOpen: BoolOrTemplate,
    stopGracePeriod: DurationOrTemplate,
    tmpfs: StringTemplateList,
    tty: BoolOrTemplate,
    user: Option<Int64>,
    volumes: seq<ServiceVolumeConfig>,
    workingDir: StringTemplate)

  // ---------------------------------------------------------------------
  // The phase of a stack. StackPhase is a named string type: any string
  // is a StackPhase, and these three are the conditions the package names.
  // ---------------------------------------------------------------------

  type StackPhase = string

  const StackAvailable: StackPhase := "Available"
  const StackProgressing: StackPhase := "Progressing"
  const StackFailure: StackPhase := "Failure"

  // ---------------------------------------------------------------------
  // Values: what "equal field by field" means for each record whose
  // pointer the clone functions follow. A StackSpec's value is taken to
  // be its three references, which is what the struct copy `result := *s`
  // preserves: two specs with equal values share one Services slice and
  // one Secrets and Configs map.
  // ---------------------------------------------------------------------

  datatype SpecValue = SpecValue(
    services: array?<ServiceConfig>,
    secrets: StringMap?<SecretConfig>,
    configs: StringMap?<ConfigObjConfig>)

  datatype StatusValue = StatusValue(phase: StackPhase, message: string)

  datatype StackValue = StackValue(
    kind: string,
    apiVersion: string,
    objectMeta: Metav1.ObjectMeta,
    spec: Option<SpecValue>,
    status: Option<StatusValue>)

  datatype ListValue = ListValue(
    typeMeta: Metav1.TypeMeta,
    listMeta: Metav1.ListMeta,
    items: Option<seq<StackValue>>)

  /** A runtime.Object interface value. Go's interface nil is `NilObject`;
      an interface holding a nil `*Stack` is `StackObject(null)`, which is
      not nil as an interface. */
  datatype RuntimeObject =
    | NilObject
    | StackObject(stack: Stack?)
    | StackListObject(list: StackList)

  /** A schema.ObjectKind interface value as GetObjectKind returns it: it
      always holds a `*TypeMeta`, possibly a nil one, and so is never the
      nil interface. */
  datatype ObjectKind = ObjectKind(typeMeta: TypeMeta?)

  ghost function ValueOfStack(s: Stack?): Option<StackValue>
    reads s, if s == null then {} else s.Footprint()
  {
    if s == null then None else Some(s.Value())
  }

  ghost function ValueOfList(s: StackList?): Option<ListValue>
    reads s, if s == null then {} else {s.items}
    reads if s == null || s.items == null then [] else s.items[..]
    reads if s == null then {} else s.Footprint()
  {
    if s == null then None else Some(s.Value())
  }

  /** The blocks the stacks in `a` point to: what their values read besides the stacks. */
  ghost function ItemsParts(a: array<Stack>): set<object?>
    reads a, a[..]
  {
    (set i | 0 <= i < a.Length :: a[i].typeMeta as object?) +
    (set i | 0 <= i < a.Length :: a[i].spec as object?) +
    (set i | 0 <= i < a.Length :: a[i].status as object?)
  }

  /** The values of the first `n` stacks of `a`, in index order. */
  ghost function ItemsValue(a: array<Stack>, n: nat): (r: seq<StackValue>)
    requires n <= a.Length
    reads a, a[..], ItemsParts(a)
    ensures |r| == n
  {
    if n == 0 then [] else ItemsValue(a, n - 1) + [a[n - 1].Value()]
  }

  /** Slot `i` of the items value is the value of the stack at index `i`. */
  lemma {:induction false} ItemsValueAt(a: array<Stack>, n: nat, i: nat)
    requires i < n <= a.Length
    ensures ItemsValue(a, n)[i] == a[i].Value()
  {
    if i < n - 1 {
      ItemsValueAt(a, n - 1, i);
    }
  }

  /** Two item arrays have the same value exactly when their stacks agree index by index. */
  lemma {:induction false} ItemsValueEqual(a: array<Stack>, b: array<Stack>, n: nat)
    requires n <= a.Length && n <= b.Length
    ensures ItemsValue(a, n) == ItemsValue(b, n) <==>
            forall i :: 0 <= i < n ==> a[i].Value() == b[i].Value()
  {
    if n > 0 {
      ItemsValueEqual(a, b, n - 1);
      if ItemsValue(a, n) == ItemsValue(b, n) {
        assert ItemsValue(a, n - 1) == ItemsValue(a, n)[..n - 1];
        assert ItemsValue(b, n - 1) == ItemsValue(b, n)[..n - 1];
        assert a[n - 1].Value() == ItemsValue(a, n)[n - 1];
      }
    }
  }

  /** Two lists with the same metadata and non-nil Items whose stacks agree
      index by index have the same value. */
  lemma ListValueFromItems(r: StackList, s: StackList)
    requires r.typeMeta == s.typeMeta && r.listMeta == s.listMeta
    requires r.items != null && s.items != null && r.items.Length == s.items.Length
    requires forall i :: 0 <= i < r.items.Length ==> r.items[i].Value() == s.items[i].Value()
    ensures r.Value() == s.Value()
  {
    ItemsValueEqual(r.items, s.items, r.items.Length);
  }

  /** Two stacks share no storage: neither the stack, nor its embedded
      TypeMeta, nor a spec or status block. */
  predicate DisjointStacks(x: Stack, y: Stack)
    reads x, y
  {
    && x != y
    && x.typeMeta != y.typeMeta
    && (x.spec != null ==> x.spec != y.spec)
    && (x.status != null ==> x.status != y.status)
  }

  /** A stack and every block it points to were allocated by the current call. */
  twostate predicate FreshStack(new s: Stack)
    reads s
  {
    fresh(s) && fresh(s.typeMeta) &&
    (s.spec != null ==> fresh(s.spec)) &&
    (s.status != null ==> fresh(s.status))
  }

  // ---------------------------------------------------------------------
  // Classes: the structs the clone functions allocate or share.
  // ---------------------------------------------------------------------

  /** A Go map from names to records. Go maps are references: copying a
      struct that holds one copies the reference, not the entries. */
  class StringMap<V> {
    var entries: map<string, V>

    constructor (entries: map<string, V>)
      ensures this.entries == entries
    {
      this.entries := entries;
    }
  }

  /** The kind/apiVersion pair a Stack embeds. */
  class TypeMeta {
    var kind: string
    var apiVersion: string

    /** The zero TypeMeta. */
    constructor ()
      ensures kind == "" && apiVersion == ""
    {
      kind, apiVersion := "", "";
    }

    /** The ObjectKind of an object is its TypeMeta itself, not a copy:
        whatever is written through it lands in the receiver. A nil
        receiver is accepted too and comes back wrapped in an ObjectKind
        interface value that is itself not nil. */
    static method GetObjectKind(obj: TypeMeta?) returns (k: ObjectKind)
      ensures k.typeMeta == obj
    {
      k := ObjectKind(obj);
    }
  }

  /** The desired state of a stack. */
  class StackSpec {
    var services: array?<ServiceConfig>
    var secrets: StringMap?<SecretConfig>
    var configs: StringMap?<ConfigObjConfig>

    constructor (services: array?<ServiceConfig>,
                 secrets: StringMap?<SecretConfig>,
                 configs: StringMap?<ConfigObjConfig>)
      ensures this.services == services
      ensures this.secrets == secrets && this.configs == configs
    {
      this.services, this.secrets, this.configs := services, secrets, configs;
    }

    ghost function Value(): SpecValue
      reads this
    {
      SpecValue(services, secrets, configs)
    }

    /** The unexported `clone`: a nil spec stays nil; otherwise a new spec
        struct whose fields are the original's slice and map references,
        so the Services slice and the Secrets and Configs maps are shared. */
    static method CloneOf(s: StackSpec?) returns (r: StackSpec?)
      ensures (r == null) == (s == null)
      ensures r != null ==> fresh(r)
      ensures r != null ==>
        r.services == s.services && r.secrets == s.secrets && r.configs == s.configs
    {
      if s == null {
        return null;
      }
      r := new StackSpec(s.services, s.secrets, s.configs);
    }
  }

  /** The observed state of a stack. */
  class StackStatus {
    var phase: StackPhase
    var message: string

    constructor (phase: StackPhase, message: string)
      ensures this.phase == phase && this.message == message
    {
      this.phase, this.message := phase, message;
    }

    ghost function Value(): StatusValue
      reads this
    {
      StatusValue(phase, message)
    }

    /** The unexported `clone`: a nil status stays nil; otherwise a new
        status with the same phase and message. */
    static method CloneOf(s: StackStatus?) returns (r: StackStatus?)
      ensures (r == null) == (s == null)
      ensures r != null ==> fresh(r) && r.phase == s.phase && r.message == s.message
    {
      if s == null {
        return null;
      }
      r := new StackStatus(s.phase, s.message);
    }
  }

  /** v1beta2's Stack. `typeMeta` is the embedded TypeMeta: storage that
      belongs to this stack, hence a reference fixed at allocation. */
  class Stack {
    const typeMeta: TypeMeta
    var objectMeta: Metav1.ObjectMeta
    var spec: StackSpec?
    var status: StackStatus?

    /** `new(Stack)`: the zero stack, with an empty TypeMeta and no spec
        and no status. The zero value of the opaque ObjectMeta is not
        stated. */
    constructor ()
      ensures fresh(typeMeta) && typeMeta.kind == "" && typeMeta.apiVersion == ""
      ensures spec == null && status == null
    {
      typeMeta := new TypeMeta();
      spec, status := null, null;
    }

    ghost function Footprint(): set<object?>
      reads this
    {
      {this, typeMeta, spec, status}
    }

    ghost function Value(): StackValue
      reads this, typeMeta, spec, status
    {
      StackValue(typeMeta.kind, typeMeta.apiVersion, objectMeta,
                 if spec == null then None else Some(spec.Value()),
                 if status == null then None else Some(status.Value()))
    }

    /** The promoted GetObjectKind: the stack's own embedded TypeMeta,
        never a nil one. (On a nil `*Stack` Go panics taking its
        embedded TypeMeta's address, so there is no nil receiver here.) */
    method GetObjectKind() returns (k: ObjectKind)
      ensures k.typeMeta == typeMeta && k.typeMeta != null
    {
      k := TypeMeta.GetObjectKind(typeMeta);
    }

    /** The unexported `clone`: nil gives nil; otherwise a new stack with
        its own TypeMeta, the same ObjectMeta, and the spec and status
        blocks cloned, an absent block staying absent. */
    static method CloneOf(s: Stack?) returns (r: Stack?)
      ensures (r == null) == (s == null)
      ensures ValueOfStack(r) == ValueOfStack(s)
      ensures r != null ==> FreshStack(r)
    {
      if s == null {
        return null;
      }
      r := new Stack();
      r.typeMeta.kind, r.typeMeta.apiVersion := s.typeMeta.kind, s.typeMeta.apiVersion;
      r.objectMeta := s.objectMeta;
      r.spec := StackSpec.CloneOf(s.spec);
      r.status := StackStatus.CloneOf(s.status);
    }

    /** The exported Clone is the unexported clone. */
    static method Clone(s: Stack?) returns (r: Stack?)
      ensures (r == null) == (s == null)
      ensures ValueOfStack(r) == ValueOfStack(s)
      ensures r != null ==> FreshStack(r)
    {
      r := CloneOf(s);
    }

    /** runtime.Object's DeepCopyObject wraps the unexported clone in an
        interface value, so even a nil receiver gives a non-nil interface
        that holds a nil `*Stack`. */
    static method DeepCopyObject(s: Stack?) returns (o: RuntimeObject)
      ensures o.StackObject? && o != NilObject
      ensures (o.stack == null) == (s == null)
      ensures ValueOfStack(o.stack) == ValueOfStack(s)
      ensures o.stack != null ==> FreshStack(o.stack)
    {
      var r := CloneOf(s);
      o := StackObject(r);
    }
  }

  /** A list of stacks; `items == null` is a nil Items slice. */
  class StackList {
    var typeMeta: Metav1.TypeMeta
    var listMeta: Metav1.ListMeta
    var items: array?<Stack>

    /** `new(StackList)`: a nil Items slice. The zero values of the
        opaque TypeMeta and ListMeta are not stated. */
    constructor ()
      ensures items == null
    {
      items := null;
    }

    ghost function Footprint(): set<object?>
      reads this, items, if items == null then [] else items[..]
    {
      {this, items} +
      (if items == null then {}
       else (set i | 0 <= i < items.Length :: items[i] as object?) + ItemsParts(items))
    }

    ghost function Value(): ListValue
      reads this, items, if items == null then [] else items[..]
      reads Footprint()
    {
      ListValue(typeMeta, listMeta,
                if items == null then None else Some(ItemsValue(items, items.Length)))
    }

    /** DeepCopyObject: a nil receiver gives the nil interface; otherwise
        an interface holding a new list with the same TypeMeta and
        ListMeta; a nil Items stays nil, and a non-nil Items becomes a new
        slice of the same length whose slot `ix` holds the clone of the
        original's stack at `ix`, no two slots sharing any block. */
    static method DeepCopyObject(s: StackList?) returns (o: RuntimeObject)
      ensures (o == NilObject) == (s == null)
      ensures s != null ==> o.StackListObject?
      ensures o.StackListObject? ==>
        && ValueOfList(o.list) == ValueOfList(s)
        && fresh(o.list)
      ensures o.StackListObject? && o.list.items != null ==>
        && fresh(o.list.items)
        && (forall i :: 0 <= i < o.list.items.Length ==> FreshStack(o.list.items[i]))
        && (forall i, j :: 0 <= i < j < o.list.items.Length ==>
              DisjointStacks(o.list.items[i], o.list.items[j]))
    {
      if s == null {
        return NilObject;
      }
      var r := new StackList();
      r.typeMeta := s.typeMeta;
      r.listMeta := s.listMeta;
      if s.items != null {
        r.items := CloneItems(s.items);
        ListValueFromItems(r, s);
      }
      o := StackListObject(r);
    }
  }

  /** The loop of StackList.DeepCopyObject: the stacks of `a` are cloned
      in index order and the new slice holds the clone of `a[ix]` at `ix`. */
  method CloneItems(a: array<Stack>) returns (b: array<Stack>)
    ensures fresh(b) && b.Length == a.Length
    ensures forall i :: 0 <= i < b.Length ==> FreshStack(b[i]) && b[i].Value() == a[i].Value()
    ensures forall i, j :: 0 <= i < j < b.Length ==> DisjointStacks(b[i], b[j])
  {
    var n := a.Length;
    var cs: seq<Stack> := [];
    for ix := 0 to n
      invariant |cs| == ix
      invariant forall j :: 0 <= j < ix ==> FreshStack(cs[j])
      invariant forall j :: 0 <= j < ix ==> cs[j].Value() == old(a[j].Value())
      invariant forall j, k :: 0 <= j < k < ix ==> DisjointStacks(cs[j], cs[k])
    {
      var c := Stack.CloneOf(a[ix]);
      cs := cs + [c];
    }
    b := new Stack[n](i requires 0 <= i < n => cs[i]);
  }

  // ---------------------------------------------------------------------
  // What a caller observes after cloning a stack.
  // ---------------------------------------------------------------------

  /** Writing the clone's status message leaves the original stack as it was. */
  method CloneThenWriteStatus(s: Stack, message: string) returns (c: Stack)
    requires s.status != null
    ensures c.status != null && c.status.message == message
    ensures c.status.phase == s.status.phase
    ensures s.Value() == old(s.Value())
  {
    var r := Stack.CloneOf(s);
    c := r;
    c.status.message := message;
  }

  /** Writing a service through the clone's spec writes the original's:
      the Services slice is shared. */
  method CloneThenWriteService(s: Stack, i: nat, service: ServiceConfig) returns (c: Stack)
    requires s.spec != null && s.spec.services != null && i < s.spec.services.Length
    modifies s.spec.services
    ensures c != s && c.spec != null && c.spec != s.spec
    ensures c.spec.services == s.spec.services
    ensures s.spec.services[i] == service
    ensures forall j :: 0 <= j < s.spec.services.Length && j != i ==>
      s.spec.services[j] == old(s.spec.services[j])
  {
    var r := Stack.CloneOf(s);
    c := r;
    c.spec.services[i] := service;
  }
}
