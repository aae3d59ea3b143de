/** The instance-wide operations: `class_composer_freeze_objects!`, which
    sets the freeze state (and, on request, that of every nested child), and
    `class_composer_assign_defaults!`, which feeds every getter's result back
    through its setter. */
module Freezing {
  import opened Types
  import opened Mappings
  import opened Validation
  import opened Accessors
  import opened AccessorFacts

  /** `FROZEN_TYPES`, in order; the first is `DEFAULT_FROZEN_TYPE`. */
  const FrozenTypes: seq<string> := ["raise", "log_and_allow", "log_and_skip"]

  const DefaultFrozenType: FrozenType := Raise

  /** The symbol naming a behaviour. */
  function Token(m: FrozenType): string
  {
    match m
    case Raise => "raise"
    case LogAndAllow => "log_and_allow"
    case LogAndSkip => "log_and_skip"
  }

  /** The behaviour a `behavior:` argument names, if it is one of `FROZEN_TYPES`. */
  function FrozenTypeOf(b: Value): (r: Option<FrozenType>)
    ensures r.Some? <==> b.Sym? && b.name in FrozenTypes
    ensures r.Some? ==> b == Sym(Token(r.value))
  {
    if b == Sym("raise") then Some(Raise)
    else if b == Sym("log_and_allow") then Some(LogAndAllow)
    else if b == Sym("log_and_skip") then Some(LogAndSkip)
    else None
  }

  /** The freeze state a call asks for: exactly one of a behaviour and a
      block must be given (a `false` behaviour counts as absent next to a
      block and as present without one), and a behaviour must be one of
      `FROZEN_TYPES`. */
  function RequestedState(behavior: Value, block: Option<nat>): (r: Result<FreezeState>)
    ensures Truthy(behavior) && block.Some? ==> r == Err(Failure(ArgumentError, BehaviorAndBlock))
    ensures behavior == Nil && block.None? ==> r == Err(Failure(ArgumentError, NeitherBehaviorNorBlock))
    ensures block.None? && behavior != Nil && FrozenTypeOf(behavior).None? ==>
              r == Err(Failure(ComposerError, UnknownBehavior(behavior)))
    ensures r.Ok? <==> (block.Some? && !Truthy(behavior)) || (block.None? && FrozenTypeOf(behavior).Some?)
    ensures r.Ok? && block.Some? ==> r.value == Callback(block.value)
    ensures r.Ok? && block.None? ==> r.value == Behavior(FrozenTypeOf(behavior).value)
  {
    if Truthy(behavior) && block.Some? then Err(Failure(ArgumentError, BehaviorAndBlock))
    else if behavior == Nil && block.None? then Err(Failure(ArgumentError, NeitherBehaviorNorBlock))
    else if block.Some? then Ok(Callback(block.value))
    else
      match FrozenTypeOf(behavior)
      case None => Err(Failure(ComposerError, UnknownBehavior(behavior)))
      case Some(m) => Ok(Behavior(m))
  }

  /** What `class_composer_freeze_objects!` returns: nil when it stops early,
      or (from the final `each`) the mapping when it walked the children. */
  datatype FreezeReturn = ReturnedNil | ReturnedMapping

  /** The freeze state plays no part in soundness. */
  lemma RefreezeSound(o: Instance, s: FreezeState)
    requires Sound(o)
    ensures Sound(o.(frozen := s))
  {
    var o' := o.(frozen := s);
    assert o'.values == o.values && o'.defaults == o.defaults && o'.klass == o.klass;
  }

  /** `class_composer_freeze_objects!(behavior:, children:, &block)`. */
  function FreezeObjects(v: Variant, o: Instance, behavior: Value, children: bool, block: Option<nat>,
                         procs: Procs): (r: Run<FreezeReturn>)
    requires Sound(o) && ProcsSound(procs)
    ensures r.obj.klass == o.klass && Sound(r.obj) && r.log == []
    ensures RequestedState(behavior, block).Err? ==> r == Raised(o, RequestedState(behavior, block).failure, [])
    ensures RequestedState(behavior, block).Ok? ==> r.obj.frozen == RequestedState(behavior, block).value
    ensures RequestedState(behavior, block).Ok? && !children ==>
              r == Done(o.(frozen := RequestedState(behavior, block).value), ReturnedNil, [])
    ensures r.Done? && children ==> r.out == ReturnedMapping
    decreases o.klass, 1
  {
    match RequestedState(behavior, block)
    case Err(f) => Raised(o, f, [])
    case Ok(s) =>
      RefreezeSound(o, s);
      var o1 := o.(frozen := s);
      if !children then Done(o1, ReturnedNil, [])
      else
        match FreezeChildren(v, o1, 0, behavior, block, procs)
        case Raised(o2, f, _) => Raised(o2, f, [])
        case Done(o2, _, _) => Done(o2, ReturnedMapping, [])
  }

  /** The walk over the fields from index `i` on: each field that has
      children is frozen in turn. */
  function FreezeChildren(v: Variant, o: Instance, i: nat, behavior: Value, block: Option<nat>,
                          procs: Procs): (r: Run<()>)
    requires Sound(o) && ProcsSound(procs) && i <= |o.klass.mapping.entries|
    ensures r.obj.klass == o.klass && r.obj.frozen == o.frozen && Sound(r.obj) && r.log == []
    decreases o.klass, 0, |o.klass.mapping.entries| - i, 1
  {
    var es := o.klass.mapping.entries;
    if i == |es| then Done(o, (), [])
    else if es[i].meta.children.None? then FreezeChildren(v, o, i + 1, behavior, block, procs)
    else
      match FreezeChild(v, o, i, behavior, block, procs)
      case Raised(o1, f, _) => Raised(o1, f, [])
      case Done(o1, _, _) => FreezeChildren(v, o1, i + 1, behavior, block, procs)
  }

  /** One field with children: read it through its getter and freeze the
      child the same way, writing it back; a child that is not a composed
      instance has no such method. */
  function FreezeChild(v: Variant, o: Instance, i: nat, behavior: Value, block: Option<nat>,
                       procs: Procs): (r: Run<()>)
    requires Sound(o) && ProcsSound(procs) && i < |o.klass.mapping.entries|
    ensures r.obj.klass == o.klass && r.obj.frozen == o.frozen && Sound(r.obj) && r.log == []
    decreases o.klass, 0, |o.klass.mapping.entries| - i, 0
  {
    var es := o.klass.mapping.entries;
    GetAtSound(v, o, i, procs);
    match GetAt(v, o, i, procs)
    case Raised(o1, f, _) => Raised(o1, f, [])
    case Done(o1, x, _) =>
      if !x.Inst? then Raised(o1, Failure(NoMethodError, UndefinedMethod("class_composer_freeze_objects!")), [])
      else
        var c := FreezeObjects(v, x.obj, behavior, true, block, procs);
        PutBackSound(o1, i, Inst(c.obj));
        var o2 := PutBack(o1, es[i].name, Inst(c.obj));
        if c.Raised? then Raised(o2, c.failure, []) else Done(o2, (), [])
  }

  /** `class_composer_assign_defaults!(children:)`: returns nil. */
  function AssignDefaults(v: Variant, o: Instance, children: bool, procs: Procs): (r: Run<Value>)
    requires Sound(o) && ProcsSound(procs)
    ensures r.obj.klass == o.klass && r.obj.frozen == o.frozen && Sound(r.obj)
    ensures r.Done? ==> r.out == Nil
    decreases o.klass, 1
  {
    match AssignFrom(v, o, 0, children, procs)
    case Raised(o1, f, log) => Raised(o1, f, log)
    case Done(o1, _, log) => Done(o1, Nil, log)
  }

  /** The walk over the fields from index `i` on. */
  function AssignFrom(v: Variant, o: Instance, i: nat, children: bool, procs: Procs): (r: Run<()>)
    requires Sound(o) && ProcsSound(procs) && i <= |o.klass.mapping.entries|
    ensures r.obj.klass == o.klass && r.obj.frozen == o.frozen && Sound(r.obj)
    decreases o.klass, 0, |o.klass.mapping.entries| - i, 2
  {
    if i == |o.klass.mapping.entries| then Done(o, (), [])
    else
      match AssignField(v, o, i, children, procs)
      case Raised(o1, f, log) => Raised(o1, f, log)
      case Done(o1, _, log) => Prefix(log, AssignFrom(v, o1, i + 1, children, procs))
  }

  /** One field: get, then set what was got, then (when asked and the field
      has children) assign the defaults inside the child. */
  function AssignField(v: Variant, o: Instance, i: nat, children: bool, procs: Procs): (r: Run<()>)
    requires Sound(o) && ProcsSound(procs) && i < |o.klass.mapping.entries|
    ensures r.obj.klass == o.klass && r.obj.frozen == o.frozen && Sound(r.obj)
    decreases o.klass, 0, |o.klass.mapping.entries| - i, 1
  {
    GetAtSound(v, o, i, procs);
    match GetAt(v, o, i, procs)
    case Raised(o1, f, _) => Raised(o1, f, [])
    case Done(o1, x, _) =>
      SetAtSound(v, o1, i, x, procs);
      match SetAt(v, o1, i, x, procs)
      case Raised(o2, f, log) => Raised(o2, f, log)
      case Done(o2, _, log) =>
        if children && o.klass.mapping.entries[i].meta.children.Some? then
          Prefix(log, AssignChild(v, o2, i, children, procs))
        else Done(o2, (), log)
  }

  /** The child of field `i`, read again through the getter, has its own
      defaults assigned; a child that is not a composed instance has no such
      method. */
  function AssignChild(v: Variant, o: Instance, i: nat, children: bool, procs: Procs): (r: Run<()>)
    requires Sound(o) && ProcsSound(procs) && i < |o.klass.mapping.entries|
    ensures r.obj.klass == o.klass && r.obj.frozen == o.frozen && Sound(r.obj)
    decreases o.klass, 0, |o.klass.mapping.entries| - i, 0
  {
    GetAtSound(v, o, i, procs);
    match GetAt(v, o, i, procs)
    case Raised(o1, f, _) => Raised(o1, f, [])
    case Done(o1, y, _) =>
      if !y.Inst? then Raised(o1, Failure(NoMethodError, UndefinedMethod("class_composer_assign_defaults!")), [])
      else
        var c := AssignDefaults(v, y.obj, children, procs);
        PutBackSound(o1, i, Inst(c.obj));
        var o2 := PutBack(o1, o.klass.mapping.entries[i].name, Inst(c.obj));
        if c.Raised? then Raised(o2, c.failure, c.log) else Done(o2, (), c.log)
  }
}
