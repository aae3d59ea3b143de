/** The per-instance accessors every registered field gets: the freeze gate
    consulted before a write, the setter, the getter with its dynamic
    default, and the block method and `name?` query of a blocking field. */
module Accessors {
  import opened Types
  import opened Mappings
  import opened Validation

  /** The arguments a freeze callback receives: the split engine passes the
      instance and the key, the older one only the key. */
  function CallbackArgs(v: Variant, o: Instance, key: string): seq<Value>
  {
    if v == Split then [Inst(o), Sym(key)] else [Sym(key)]
  }

  /** Calls a Proc; an exception it raises propagates unchanged. */
  function Call(o: Instance, id: nat, args: seq<Value>, procs: Procs): (r: Run<Value>)
    ensures r.obj == o && r.log == []
    ensures r.Done? <==> procs(id, args).Returned?
    ensures r.Done? ==> r.out == procs(id, args).v
  {
    match procs(id, args)
    case Returned(x) => Done(o, x, [])
    case Threw(m) => Raised(o, Failure(UserRaised, ProcRaised(m)), [])
  }

  /** `class_composer_frozen!(key)`: nil when not frozen, the callback's
      result, or the behaviour's decision (with a warning), or a raise. */
  function Gate(v: Variant, o: Instance, key: string, procs: Procs): (r: Run<Value>)
    ensures r.obj == o
    ensures r.Raised? <==>
              o.frozen == Behavior(Raise) || (o.frozen.Callback? && procs(o.frozen.id, CallbackArgs(v, o, key)).Threw?)
    ensures forall e :: e in r.log ==> e.Warned? && e.key == key
  {
    match o.frozen
    case Unfrozen => Done(o, Nil, [])
    case Callback(id) => Call(o, id, CallbackArgs(v, o, key), procs)
    case Behavior(mode) =>
      match mode
      case LogAndAllow => Done(o, Bool(true), [Warned(o.klass.name, key, true)])
      case LogAndSkip => Done(o, Bool(false), [Warned(o.klass.name, key, false)])
      case Raise => Raised(o, Failure(ComposerError, FrozenWrite(o.klass.name, key)), [])
  }

  /** The setter goes on unless the gate raised or returned exactly `false`. */
  predicate Proceeds(v: Variant, o: Instance, key: string, procs: Procs)
  {
    Gate(v, o, key, procs).Done? && Gate(v, o, key, procs).out != Bool(false)
  }

  /** Sets the assigned flag and the variable of a field together. */
  function Store(o: Instance, name: string, x: Value): (r: Instance)
    ensures r.klass == o.klass && r.frozen == o.frozen && r.defaults == o.defaults
    ensures name in r.values && r.values[name] == x
    ensures forall n :: n != name ==> (n in r.values <==> n in o.values)
    ensures forall n :: n != name && n in o.values ==> r.values[n] == o.values[n]
  {
    o.(values := o.values[name := x])
  }

  /** Writes back a child that was changed in place: into the variable if
      the field is assigned, else into this instance's copy of the default. */
  function PutBack(o: Instance, name: string, x: Value): (r: Instance)
    ensures r.klass == o.klass && r.frozen == o.frozen
    ensures r.values.Keys == o.values.Keys
    ensures forall n :: n != name && n in o.values ==> r.values[n] == o.values[n]
    ensures forall n :: n != name ==> (n in r.defaults <==> n in o.defaults)
    ensures forall n :: n != name && n in o.defaults ==> r.defaults[n] == o.defaults[n]
    ensures name in o.values ==> r.values[name] == x && r.defaults == o.defaults
    ensures name !in o.values ==> name in r.defaults && r.defaults[name] == x
  {
    if name in o.values then Store(o, name, x) else o.(defaults := o.defaults[name := x])
  }

  /** The setter `name=` of the field at index `i`. */
  function SetAt(v: Variant, o: Instance, i: nat, value: Value, procs: Procs): (r: Run<Value>)
    requires i < |o.klass.mapping.entries|
    ensures var d := o.klass.mapping.entries[i];
            var g := Gate(v, o, d.name, procs);
            && (g.Raised? ==> r == Raised(o, g.failure, g.log))
            && (g.Done? && g.out == Bool(false) ==> r == Done(o, Nil, g.log))
            && (Proceeds(v, o, d.name, procs) ==>
                  && (r.Done? <==> Validate(d, value, procs) == Ok(Valid))
                  && (r.Done? ==>
                        r == Done(Store(o, d.name, value), value,
                                  g.log + if d.onAssign then [Yielded(d.name, value)] else []))
                  && (Validate(d, value, procs).Err? ==> r == Raised(o, Validate(d, value, procs).failure, g.log))
                  && (Validate(d, value, procs).Ok? && Validate(d, value, procs).value.Invalid? ==>
                        r == Raised(o, Failure(d.validationErrorKlass, Validate(d, value, procs).value.reason), g.log)))
  {
    var d := o.klass.mapping.entries[i];
    match Gate(v, o, d.name, procs)
    case Raised(_, f, log) => Raised(o, f, log)
    case Done(_, g, log) =>
      if g == Bool(false) then Done(o, Nil, log)
      else
        match Validate(d, value, procs)
        case Err(f) => Raised(o, f, log)
        case Ok(Invalid(reason)) => Raised(o, Failure(d.validationErrorKlass, reason), log)
        case Ok(Valid) =>
          Done(Store(o, d.name, value), value, log + if d.onAssign then [Yielded(d.name, value)] else [])
  }

  function NoMethod(o: Instance, name: string): Run<Value>
  {
    Raised(o, Failure(NoMethodError, UndefinedMethod(name)), [])
  }

  /** Calling `name=` by name. */
  function Set(v: Variant, o: Instance, name: string, value: Value, procs: Procs): (r: Run<Value>)
    ensures IndexOf(o.klass.mapping, name).None? ==> r == NoMethod(o, name + "=")
    ensures IndexOf(o.klass.mapping, name).Some? ==> r == SetAt(v, o, IndexOf(o.klass.mapping, name).value, value, procs)
  {
    match IndexOf(o.klass.mapping, name)
    case None => NoMethod(o, name + "=")
    case Some(i) => SetAt(v, o, i, value, procs)
  }

  /** Whether this engine computes a dynamic default for the field. */
  predicate ActiveDynamic(v: Variant, d: Descriptor)
  {
    v == Split && Truthy(d.meta.dynamicDefault.GetOr(Nil))
  }

  /** Some field of the registry called `n` has a dynamic default. */
  predicate DynamicName(v: Variant, reg: Registry, n: string)
  {
    exists j :: 0 <= j < |reg.entries| && reg.entries[j].name == n && ActiveDynamic(v, reg.entries[j])
  }

  /** What the getter returns for a field with neither an assigned value nor
      a dynamic default: nil for the sentinel, else the static default (this
      instance's copy of it if it was changed in place). */
  function StaticValue(o: Instance, i: nat): Value
    requires i < |o.klass.mapping.entries|
  {
    var d := o.klass.mapping.entries[i];
    if d.default == Unset then Nil
    else if d.name in o.defaults then o.defaults[d.name]
    else d.default
  }

  /** `r` is what checking the computed value `x` of field `d` gives on
      `base`: when it validates, `x` is returned and stored as assigned;
      otherwise `base` is left as it is and the validator's exception, or
      `validation_error_klass` with the failure message, is raised. */
  predicate CachedOutcome(d: Descriptor, base: Instance, x: Value, procs: Procs, r: Run<Value>)
  {
    && (r.Done? <==> Validate(d, x, procs) == Ok(Valid))
    && (r.Done? ==> r.obj == Store(base, d.name, x) && r.out == x)
    && (r.Raised? ==> r.obj == base)
    && (Validate(d, x, procs).Err? ==> r.Raised? && r.failure == Validate(d, x, procs).failure)
    && (Validate(d, x, procs).Ok? && Validate(d, x, procs).value.Invalid? ==>
          r.Raised? && r.failure == Failure(d.validationErrorKlass, Validate(d, x, procs).value.reason))
  }

  /** Validates a computed dynamic default and caches it as assigned. */
  function Cache(o: Instance, d: Descriptor, x: Value, procs: Procs): (r: Run<Value>)
    ensures r.log == []
    ensures CachedOutcome(d, o, x, procs, r)
  {
    match Validate(d, x, procs)
    case Err(f) => Raised(o, f, [])
    case Ok(Invalid(reason)) => Raised(o, Failure(d.validationErrorKlass, reason), [])
    case Ok(Valid) => Done(Store(o, d.name, x), x, [])
  }

  /** The getter `name` of the field at index `i`. A symbolic dynamic default
      calls the getter of the field it names, which registration guarantees
      was declared earlier. */
  function GetAt(v: Variant, o: Instance, i: nat, procs: Procs): (r: Run<Value>)
    requires i < |o.klass.mapping.entries|
    ensures r.obj.klass == o.klass && r.obj.frozen == o.frozen && r.obj.defaults == o.defaults
    ensures r.log == []
    ensures forall n :: n in o.values ==> n in r.obj.values && r.obj.values[n] == o.values[n]
    ensures forall n :: n in r.obj.values && n !in o.values ==> DynamicName(v, o.klass.mapping, n)
    ensures var d := o.klass.mapping.entries[i];
            && (d.name in o.values ==> r == Done(o, o.values[d.name], []))
            && (d.name !in o.values && !ActiveDynamic(v, d) ==> r == Done(o, StaticValue(o, i), []))
            && (d.name !in o.values && ActiveDynamic(v, d) && r.Done? ==>
                  d.name in r.obj.values && r.obj.values[d.name] == r.out &&
                  Validate(d, r.out, procs) == Ok(Valid))
    ensures var d := o.klass.mapping.entries[i];
            var dyn := d.meta.dynamicDefault.GetOr(Nil);
            d.name !in o.values && ActiveDynamic(v, d) && dyn.Proc? ==>
              var c := procs(dyn.id, [Inst(o)]);
              && (c.Threw? ==> r == Raised(o, Failure(UserRaised, ProcRaised(c.message)), []))
              && (c.Returned? ==> CachedOutcome(d, o, c.v, procs, r))
    ensures var d := o.klass.mapping.entries[i];
            var dyn := d.meta.dynamicDefault.GetOr(Nil);
            d.name !in o.values && ActiveDynamic(v, d) && dyn.Sym? ==>
              var j := IndexOf(o.klass.mapping, dyn.name);
              && (j.None? || j.value >= i ==> r == NoMethod(o, dyn.name))
              && (j.Some? && j.value < i ==>
                    var g := GetAt(v, o, j.value, procs);
                    && (g.Raised? ==> r == g)
                    && (g.Done? ==> CachedOutcome(d, g.obj, g.out, procs, r)))
    decreases i
  {
    var es := o.klass.mapping.entries;
    var d := es[i];
    if d.name in o.values then Done(o, o.values[d.name], [])
    else if !ActiveDynamic(v, d) then Done(o, StaticValue(o, i), [])
    else
      var dyn := d.meta.dynamicDefault.value;
      assert DynamicName(v, o.klass.mapping, d.name);
      var computed :=
        if dyn.Proc? then Call(o, dyn.id, [Inst(o)], procs)
        else if dyn.Sym? && IndexOf(o.klass.mapping, dyn.name).Some? && IndexOf(o.klass.mapping, dyn.name).value < i then
          GetAt(v, o, IndexOf(o.klass.mapping, dyn.name).value, procs)
        else NoMethod(o, ToS(dyn));
      match computed
      case Raised(o1, f, log) => Raised(o1, f, log)
      case Done(o1, x, _) => Cache(o1, d, x, procs)
  }

  /** Calling the getter `name` by name. */
  function Get(v: Variant, o: Instance, name: string, procs: Procs): (r: Run<Value>)
    ensures IndexOf(o.klass.mapping, name).None? ==> r == NoMethod(o, name)
    ensures IndexOf(o.klass.mapping, name).Some? ==> r == GetAt(v, o, IndexOf(o.klass.mapping, name).value, procs)
  {
    match IndexOf(o.klass.mapping, name)
    case None => NoMethod(o, name)
    case Some(i) => GetAt(v, o, i, procs)
  }

  /** Prepends events to a run's log. */
  function Prefix<T>(log: seq<Event>, r: Run<T>): (r': Run<T>)
    ensures r'.obj == r.obj && r'.log == log + r.log
    ensures r'.Done? <==> r.Done?
    ensures r.Done? ==> r'.out == r.out
    ensures r.Raised? ==> r'.failure == r.failure
  {
    match r
    case Done(o, x, l) => Done(o, x, log + l)
    case Raised(o, f, l) => Raised(o, f, log + l)
  }

  /** A sequence of assignments through the setters, stopping at the first
      raise: what a configuration block does to the instance it is given. */
  function SetAll(v: Variant, o: Instance, assigns: seq<(string, Value)>, procs: Procs): (r: Run<()>)
    ensures r.obj.klass == o.klass && r.obj.frozen == o.frozen
    ensures |assigns| == 0 ==> r == Done(o, (), [])
    decreases |assigns|
  {
    if |assigns| == 0 then Done(o, (), [])
    else
      match Set(v, o, assigns[0].0, assigns[0].1, procs)
      case Raised(o1, f, log) => Raised(o1, f, log)
      case Done(o1, _, log) => Prefix(log, SetAll(v, o1, assigns[1..], procs))
  }

  /** The child's part of a block method: set the enable flag to true when
      there is one, then run the block on the child. */
  function Configure(v: Variant, c: Instance, enableAttr: Option<string>, block: Option<seq<(string, Value)>>,
                     procs: Procs): (r: Run<()>)
    ensures r.obj.klass == c.klass && r.obj.frozen == c.frozen
  {
    var enabled :=
      match enableAttr
      case None => Done(c, Nil, [])
      case Some(e) => Set(v, c, e, Bool(true), procs);
    match enabled
    case Raised(c1, f, log) => Raised(c1, f, log)
    case Done(c1, _, log) =>
      match block
      case None => Done(c1, (), log)
      case Some(assigns) => Prefix(log, SetAll(v, c1, assigns, procs))
  }

  /** `r` differs from `o` only in field `name` and in fields whose dynamic
      default the getter cached: every other assigned value and every other
      copy of a default is kept. */
  predicate OnlyTouches(v: Variant, o: Instance, r: Instance, name: string)
  {
    && (forall n :: n in o.values && n != name ==> n in r.values && r.values[n] == o.values[n])
    && (forall n :: n in r.values && n !in o.values && n != name ==> DynamicName(v, o.klass.mapping, n))
    && r.defaults.Keys - {name} == o.defaults.Keys - {name}
    && (forall n :: n != name && n in o.defaults ==> n in r.defaults && r.defaults[n] == o.defaults[n])
  }

  /** The getter touches only its own field and cached dynamic defaults. */
  lemma GetAtTouches(v: Variant, o: Instance, i: nat, procs: Procs)
    requires i < |o.klass.mapping.entries|
    ensures OnlyTouches(v, o, GetAt(v, o, i, procs).obj, o.klass.mapping.entries[i].name)
  {
  }

  /** The setter touches only its own field. */
  lemma SetAtTouches(v: Variant, o: Instance, i: nat, x: Value, procs: Procs)
    requires i < |o.klass.mapping.entries|
    ensures OnlyTouches(v, o, SetAt(v, o, i, x, procs).obj, o.klass.mapping.entries[i].name)
  {
    var r := SetAt(v, o, i, x, procs);
    assert r.obj == o || r.obj == Store(o, o.klass.mapping.entries[i].name, x);
  }

  /** Writing a child back touches only its field. */
  lemma PutBackTouches(v: Variant, o: Instance, name: string, x: Value)
    ensures OnlyTouches(v, o, PutBack(o, name, x), name)
  {
  }

  lemma TouchesTrans(v: Variant, o1: Instance, o2: Instance, o3: Instance, name: string)
    requires o2.klass == o1.klass
    requires OnlyTouches(v, o1, o2, name) && OnlyTouches(v, o2, o3, name)
    ensures OnlyTouches(v, o1, o3, name)
  {
  }

  /** The block method `"#{block_prepend}_#{name}"` of the blocking field at
      index `i`: get the child, configure it, then assign it back through the
      field's setter. Changes to the child are kept even when the setter is
      vetoed or raises, since the child is changed in place. */
  function WithBlockAt(v: Variant, o: Instance, i: nat, block: Option<seq<(string, Value)>>, procs: Procs): (r: Run<Value>)
    requires i < |o.klass.mapping.entries| && o.klass.mapping.entries[i].meta.blocking.Some?
    ensures r.obj.klass == o.klass && r.obj.frozen == o.frozen
    ensures OnlyTouches(v, o, r.obj, o.klass.mapping.entries[i].name)
  {
    var d := o.klass.mapping.entries[i];
    GetAtTouches(v, o, i, procs);
    match GetAt(v, o, i, procs)
    case Raised(o1, f, log) => Raised(o1, f, log)
    case Done(o1, x, _) =>
      if !x.Inst? then
        // the enable flag's setter, or the block's first assignment, is
        // sent to something that is not a composed instance
        match d.meta.blocking.value.enableAttr
        case Some(e) => NoMethod(o1, e + "=")
        case None =>
          if block.Some? && |block.value| > 0 then NoMethod(o1, block.value[0].0 + "=")
          else
            SetAtTouches(v, o1, i, x, procs);
            TouchesTrans(v, o, o1, SetAt(v, o1, i, x, procs).obj, d.name);
            SetAt(v, o1, i, x, procs)
      else
        match Configure(v, x.obj, d.meta.blocking.value.enableAttr, block, procs)
        case Raised(c, f, log) =>
          PutBackTouches(v, o1, d.name, Inst(c));
          TouchesTrans(v, o, o1, PutBack(o1, d.name, Inst(c)), d.name);
          Raised(PutBack(o1, d.name, Inst(c)), f, log)
        case Done(c, _, log) =>
          var p := PutBack(o1, d.name, Inst(c));
          PutBackTouches(v, o1, d.name, Inst(c));
          TouchesTrans(v, o, o1, p, d.name);
          SetAtTouches(v, p, i, Inst(c), procs);
          TouchesTrans(v, o, p, SetAt(v, p, i, Inst(c), procs).obj, d.name);
          Prefix(log, SetAt(v, p, i, Inst(c), procs))
  }

  /** The `name?` query of a blocking field with an enable flag: the child's
      enable flag, read through the child's getter. */
  function EnabledAt(v: Variant, o: Instance, i: nat, procs: Procs): (r: Run<Value>)
    requires i < |o.klass.mapping.entries|
    requires o.klass.mapping.entries[i].meta.blocking.Some?
    requires o.klass.mapping.entries[i].meta.blocking.value.enableAttr.Some?
    ensures r.obj.klass == o.klass && r.obj.frozen == o.frozen
    ensures OnlyTouches(v, o, r.obj, o.klass.mapping.entries[i].name)
  {
    var d := o.klass.mapping.entries[i];
    var e := d.meta.blocking.value.enableAttr.value;
    GetAtTouches(v, o, i, procs);
    match GetAt(v, o, i, procs)
    case Raised(o1, f, log) => Raised(o1, f, log)
    case Done(o1, x, _) =>
      if !x.Inst? then NoMethod(o1, e)
      else
        PutBackTouches(v, o1, d.name, Inst(Get(v, x.obj, e, procs).obj));
        TouchesTrans(v, o, o1, PutBack(o1, d.name, Inst(Get(v, x.obj, e, procs).obj)), d.name);
        match Get(v, x.obj, e, procs)
        case Raised(c, f, log) => Raised(PutBack(o1, d.name, Inst(c)), f, log)
        case Done(c, y, log) => Done(PutBack(o1, d.name, Inst(c)), y, log)
  }
}
