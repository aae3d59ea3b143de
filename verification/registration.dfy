/** Class-level registration: `add_composer` and `add_composer_blocking`
    check a declaration and append its descriptor to the class's registry,
    or reject it before anything is stored. */
module Registration {
  import opened Types
  import opened Mappings
  import opened Validation

  /** The `allowed:` argument: one class, or an array of classes. */
  datatype AllowedArg = One(tag: Tag) | Many(tags: seq<Tag>)

  /** The arguments of one `add_composer` call. `default` is `None` when the
      keyword is absent; `dynamicDefault`, `defaultShown` and
      `invalidMessage` are `Nil` when absent; `validator` is `None` when the
      keyword is absent (the always-true lambda is used). */
  datatype Declaration = Declaration(
    name: string,
    allowed: AllowedArg,
    desc: Option<string>,
    validator: Option<Value>,
    validationErrorKlass: ErrorKind,
    errorKlass: ErrorKind,
    blocking: Option<Blocking>,
    defaultShown: Value,
    default: Option<Value>,
    dynamicDefault: Value,
    invalidMessage: Value,
    onAssign: bool)

  /** `add_composer(name, allowed:)` with every other keyword at its default. */
  function Plain(name: string, allowed: AllowedArg): Declaration
  {
    Declaration(name, allowed, None, None, ValidatorError, ComposerError, None, Nil, None, Nil, Nil, false)
  }

  /** The allowed list with the sentinel appended. */
  function Normalize(a: AllowedArg): (r: seq<Tag>)
    ensures |r| > 0 && r[|r| - 1] == DefaultObjectTag
    ensures a.One? ==> r == [a.tag, DefaultObjectTag]
    ensures a.Many? ==> r[..|r| - 1] == a.tags
  {
    match a
    case One(t) => [t, DefaultObjectTag]
    case Many(ts) => ts + [DefaultObjectTag]
  }

  /** The default the accessors close over: the given one, else the sentinel. */
  function DefaultOf(decl: Declaration): Value
  {
    decl.default.GetOr(Unset)
  }

  /** The dynamic default this copy of the engine reads (the older one
      never looks at it). */
  function DynamicOf(v: Variant, decl: Declaration): Value
  {
    if v == Split then decl.dynamicDefault else Nil
  }

  /** The validator to run, or `None` when a truthy non-Proc was given. */
  function CheckOf(validator: Option<Value>): Option<Check>
  {
    match validator
    case None => Some(AcceptAll)
    case Some(x) =>
      if x.Proc? then Some(UserValidator(x.id))
      else if Truthy(x) then None
      else Some(NilValidator)
  }

  /** The `:default` entry of the mapping: an opaque default is recorded as
      its class; the older engine records a truthy `default_shown` instead. */
  function Recorded(v: Variant, shown: Value, default: Value): Value
  {
    if v == Legacy && Truthy(shown) then shown
    else if IsOpaque(default) then ClassVal(ClassOf(default))
    else default
  }

  function MetadataOf(v: Variant, decl: Declaration, allowed: seq<Tag>): Metadata
  {
    Metadata(
      decl.desc,
      ChildrenOf(allowed),
      if v == Split then Compact(decl.dynamicDefault) else None,
      if v == Split then Compact(decl.defaultShown) else None,
      Compact(Recorded(v, decl.defaultShown, DefaultOf(decl))),
      decl.blocking,
      allowed)
  }

  /** The descriptor a declaration produces once its validator is known. */
  function Draft(v: Variant, decl: Declaration, check: Check): (d: Descriptor)
    ensures d.name == decl.name && d.meta.allowed == Normalize(decl.allowed)
  {
    Descriptor(decl.name, MetadataOf(v, decl, Normalize(decl.allowed)), DefaultOf(decl), check,
               decl.invalidMessage, decl.errorKlass, decl.validationErrorKlass, decl.onAssign)
  }

  /** The checks on `default` and `dynamic_default` that come first. */
  function DynamicRejection(v: Variant, k: Klass, decl: Declaration): Option<Failure>
  {
    var dyn := DynamicOf(v, decl);
    if Truthy(decl.default.GetOr(Nil)) && Truthy(dyn) then Some(Failure(ComposerError, BothDefaults(decl.name)))
    else if Truthy(dyn) && !(dyn.Proc? || dyn.Sym?) then Some(Failure(ComposerError, BadDynamicDefault(decl.name)))
    else if dyn.Sym? && dyn.name !in Names(k.mapping) then
      Some(Failure(ComposerError, UndefinedDynamicDefault(decl.name, dyn.name)))
    else None
  }

  /** `add_composer`: the new class (registry and methods), or the error. */
  function AddComposer(v: Variant, k: Klass, decl: Declaration, procs: Procs): (r: Result<Klass>)
    ensures r.Ok? ==> |r.value.mapping.entries| == |k.mapping.entries| + 1
    ensures r.Ok? ==>
              var es := r.value.mapping.entries;
              var d := es[|es| - 1];
              && es[..|es| - 1] == k.mapping.entries
              && r.value.name == k.name
              && r.value.methods == k.methods + {decl.name, decl.name + "="}
              && decl.name !in k.methods
              && d.name == decl.name
              && d.meta.allowed == Normalize(decl.allowed)
              && |ComposedTags(d.meta.allowed)| <= 1
              && d.meta.children == ChildrenOf(d.meta.allowed)
              && d.default == DefaultOf(decl)
              && RunValidator(d, d.default, procs) == Ok(true)
    ensures r.Ok? ==> DynamicRejection(v, k, decl).None?
    ensures DynamicRejection(v, k, decl).Some? ==> r == Err(DynamicRejection(v, k, decl).value)
  {
    match DynamicRejection(v, k, decl)
    case Some(f) => Err(f)
    case None =>
      var allowed := Normalize(decl.allowed);
      if |ComposedTags(allowed)| > 1 then Err(Failure(ComposerError, MultipleComposed))
      else
        match CheckOf(decl.validator)
        case None => Err(Failure(decl.errorKlass, ValidatorNotProc))
        case Some(check) =>
          var d := Draft(v, decl, check);
          match RunValidator(d, d.default, procs)
          case Err(f) => Err(f)
          case Ok(ok) =>
            if !ok then Err(Failure(decl.validationErrorKlass, InvalidDefault(decl.name)))
            else if decl.name in k.methods then Err(Failure(decl.errorKlass, AlreadyDefined(decl.name)))
            else Ok(k.(mapping := Registry(k.mapping.entries + [d]),
                       methods := k.methods + {decl.name, decl.name + "="}))
  }

  /** The block method's name, `"#{block_prepend}_#{name}"`. */
  function BlockName(blockPrepend: string, name: string): string
  {
    blockPrepend + "_" + name
  }

  /** The `name?` query method, defined only when an enable flag is given. */
  function QueryMethods(name: string, enableAttr: Option<string>): set<string>
  {
    if enableAttr.Some? then {name + "?"} else {}
  }

  /** The declaration `add_composer_blocking` delegates to. */
  function BlockingDeclaration(name: string, ck: Klass, desc: Option<string>, b: Blocking): Declaration
  {
    Plain(name, One(Composed(ck))).(default := Some(Inst(New(ck))), desc := desc, blocking := Some(b))
  }

  /** `add_composer_blocking`: a field whose only allowed class is the given
      composed class, defaulting to a new instance of it, plus the block
      method and, with an enable flag, the `name?` method. */
  function AddComposerBlocking(v: Variant, k: Klass, name: string, composer: Tag, desc: Option<string>,
                               blockPrepend: string, enableAttr: Option<string>, procs: Procs): (r: Result<Klass>)
    ensures !composer.Composed? ==> r == Err(Failure(ComposerError, NotComposer))
    ensures r.Ok? ==> |r.value.mapping.entries| == |k.mapping.entries| + 1
    ensures r.Ok? ==>
              var es := r.value.mapping.entries;
              var d := es[|es| - 1];
              && composer.Composed?
              && es[..|es| - 1] == k.mapping.entries
              && d.name == name
              && d.meta.blocking == Some(Blocking(BlockName(blockPrepend, name), enableAttr))
              && d.meta.allowed == [composer, DefaultObjectTag]
              && d.meta.children == Some(composer.klass.mapping)
              && d.default == Inst(New(composer.klass))
              && r.value.methods ==
                   k.methods + {name, name + "=", BlockName(blockPrepend, name)} + QueryMethods(name, enableAttr)
  {
    if !composer.Composed? then Err(Failure(ComposerError, NotComposer))
    else
      var b := Blocking(BlockName(blockPrepend, name), enableAttr);
      match AddComposer(v, k, BlockingDeclaration(name, composer.klass, desc, b), procs)
      case Err(f) => Err(f)
      case Ok(k1) =>
        assert ComposedTags([composer, DefaultObjectTag]) == [composer.klass];
        Ok(k1.(methods := k1.methods + {b.blockName} + QueryMethods(name, enableAttr)))
  }
}
