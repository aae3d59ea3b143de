/** The data model of the attribute engine: Ruby values as the engine sees
    them, classes and their attribute registries (`composer_mapping`),
    per-instance state, the freeze state, errors, and the results of the
    instance-level operations. */
module Types {
  import opened Text

  datatype Option<+T> = None | Some(value: T) {
    function GetOr(d: T): T
    {
      match this
      case Some(v) => v
      case None => d
    }
  }

  /** Which copy of the engine runs: the split `ClassMethods`/`InstanceMethods`
      files, or the older monolithic `generator.rb`. */
  datatype Variant = Split | Legacy

  /** Error classes: `ClassComposer::Error`, `ClassComposer::ValidatorError`
      (a subclass of it), Ruby's `ArgumentError` and `NoMethodError`, an
      exception raised by user code that propagates unchanged, and any other
      class a field names as its `error_klass`/`validation_error_klass`. */
  datatype ErrorKind =
    | ComposerError
    | ValidatorError
    | ArgumentError
    | NoMethodError
    | UserRaised
    | CustomKind(className: string)

  /** Why an operation raised. */
  datatype Reason =
    | BothDefaults(name: string)
    | BadDynamicDefault(name: string)
    | UndefinedDynamicDefault(name: string, reference: string)
    | MultipleComposed
    | ValidatorNotProc
    | InvalidDefault(name: string)
    | AlreadyDefined(name: string)
    | ValidatorRaised(name: string, detail: string)
    | InvalidValue(name: string, allowed: seq<Tag>, value: Value, suffix: Option<string>)
    | NotComposer
    | FrozenWrite(className: string, key: string)
    | BehaviorAndBlock
    | NeitherBehaviorNorBlock
    | UnknownBehavior(behavior: Value)
    | UndefinedMethod(methodName: string)
    | ProcRaised(detail: string)
    | NotGenerator

  datatype Failure = Failure(kind: ErrorKind, reason: Reason)

  datatype Result<+T> = Ok(value: T) | Err(failure: Failure)

  /** A class as an allowed type: the Unset sentinel module, a plain Ruby
      class by name, or a composed class (one that includes the generator). */
  datatype Tag = DefaultObjectTag | Builtin(name: string) | Composed(klass: Klass)

  /** A composed class: its name, its registry, and the instance methods it
      defines (the ones it had before any field plus every accessor, block
      method and query method registration added). */
  datatype Klass = Klass(name: string, mapping: Registry, methods: set<string>)

  /** `composer_mapping`: the fields in declaration order. */
  datatype Registry = Registry(entries: seq<Descriptor>)

  datatype Blocking = Blocking(blockName: string, enableAttr: Option<string>)

  /** The custom validator a field runs: the built-in always-true lambda, a
      user Proc, or a falsy `validator:` argument (calling it fails). */
  datatype Check = AcceptAll | UserValidator(id: nat) | NilValidator

  /** What `composer_mapping` records for a field; an absent key is `None`
      (the hash is compacted, so a nil entry is never stored). */
  datatype Metadata = Metadata(
    desc: Option<string>,
    children: Option<Registry>,
    dynamicDefault: Option<Value>,
    defaultShown: Option<Value>,
    default: Option<Value>,
    blocking: Option<Blocking>,
    allowed: seq<Tag>)

  /** One registered field: its mapping entry plus what its accessors close
      over (the real default, the validator, the error classes, the custom
      invalid message and whether an assignment block was given). */
  datatype Descriptor = Descriptor(
    name: string,
    meta: Metadata,
    default: Value,
    check: Check,
    invalidMessage: Value,
    errorKlass: ErrorKind,
    validationErrorKlass: ErrorKind,
    onAssign: bool)

  datatype FrozenType = Raise | LogAndAllow | LogAndSkip

  /** `@class_composer_frozen`: nil, a behaviour symbol, or a block. */
  datatype FreezeState = Unfrozen | Behavior(mode: FrozenType) | Callback(id: nat)

  /** An instance of a composed class. `values` holds the fields whose
      assigned flag is set, with their values (the source always sets the
      flag and the variable together). `defaults` holds this instance's own
      copy of a static default that was changed in place, such as a nested
      child instance that was frozen or configured through its getter. */
  datatype Instance = Instance(
    klass: Klass,
    values: map<string, Value>,
    defaults: map<string, Value>,
    frozen: FreezeState)

  /** Ruby values as far as the engine distinguishes them. `Other` is any
      object of another class, with its `to_s`. */
  datatype Value =
    | Nil
    | Bool(b: bool)
    | Int(i: int)
    | Str(s: string)
    | Sym(name: string)
    | Arr(items: seq<Value>)
    | Proc(id: nat)
    | ClassVal(tag: Tag)
    | Other(cls: string, text: string)
    | Unset
    | Inst(obj: Instance)

  /** The outcome of calling a Proc: its return value or the message of the
      exception it raised. */
  datatype Verdict = Returned(v: Value) | Threw(message: string)

  /** The behaviour of every Proc, by identity, applied to its arguments. */
  type Procs = (nat, seq<Value>) -> Verdict

  /** Side effects visible outside the instance: a `Kernel.warn` from a
      logging freeze behaviour, and the yield to a field's assignment block. */
  datatype Event = Warned(className: string, key: string, proceeds: bool) | Yielded(name: string, value: Value)

  /** The result of an instance-level operation: the instance afterwards (on
      a raise, as it stood when the exception left), the events, and either
      the return value or the failure. */
  datatype Run<+T> =
    | Done(obj: Instance, out: T, log: seq<Event>)
    | Raised(obj: Instance, failure: Failure, log: seq<Event>)

  /** `new` on a composed class: nothing
      assigned, not frozen. */
  function New(k: Klass): (o: Instance)
    ensures o.klass == k && o.frozen == Unfrozen
    ensures |o.values| == 0 && |o.defaults| == 0
  {
    Instance(k, map[], map[], Unfrozen)
  }

  /** Ruby truthiness: everything except nil and false. */
  predicate Truthy(v: Value)
  {
    v != Nil && v != Bool(false)
  }

  /** `value.class`. The sentinel is a module, so its class is `Module`. */
  function ClassOf(v: Value): Tag
  {
    match v
    case Nil => Builtin("NilClass")
    case Bool(b) => if b then Builtin("TrueClass") else Builtin("FalseClass")
    case Int(_) => Builtin("Integer")
    case Str(_) => Builtin("String")
    case Sym(_) => Builtin("Symbol")
    case Arr(_) => Builtin("Array")
    case Proc(_) => Builtin("Proc")
    case ClassVal(_) => Builtin("Class")
    case Other(c, _) => Builtin(c)
    case Unset => Builtin("Module")
    case Inst(o) => Composed(o.klass)
  }

  function TagName(t: Tag): string
  {
    match t
    case DefaultObjectTag => "ClassComposer::DefaultObject"
    case Builtin(n) => n
    case Composed(k) => k.name
  }

  /** `to_s`. */
  function ToS(v: Value): string
    decreases v, 1
  {
    match v
    case Nil => ""
    case Bool(b) => if b then "true" else "false"
    case Int(i) => IntToString(i)
    case Str(s) => s
    case Sym(n) => n
    case Arr(_) => "[" + InspectItems(v, 0) + "]"
    case Proc(_) => "#<Proc>"
    case ClassVal(t) => TagName(t)
    case Other(_, text) => text
    case Unset => TagName(DefaultObjectTag)
    case Inst(o) => "#<" + o.klass.name + ">"
  }

  /** `inspect` (without escaping inside strings). */
  function Inspect(v: Value): string
    decreases v, 2
  {
    match v
    case Nil => "nil"
    case Str(s) => "\"" + s + "\""
    case Sym(n) => ":" + n
    case _ => ToS(v)
  }

  function InspectItems(v: Value, i: nat): string
    requires v.Arr?
    decreases v, 0, |v.items| - i
  {
    if i >= |v.items| then ""
    else if i + 1 == |v.items| then Inspect(v.items[i])
    else Inspect(v.items[i]) + ", " + InspectItems(v, i + 1)
  }

  /** The source's test `value.to_s.start_with?("#<")`: the default string
      form of an object, which the mapping replaces by the object's class. */
  predicate IsOpaque(v: Value)
  {
    StartsWith(ToS(v), "#<")
  }

  /** Converts a Ruby value to a mapping entry; `Hash#compact` drops nils. */
  function Compact(v: Value): (r: Option<Value>)
    ensures r.None? <==> v == Nil
    ensures r.Some? ==> r.value == v
  {
    if v == Nil then None else Some(v)
  }
}
