/** Lookups in a registry, and the invariants that registration establishes
    for registries, classes and the instances built from them. */
module Mappings {
  import opened Types

  /** The field names in declaration order (the keys of `composer_mapping`). */
  function Names(reg: Registry): (r: seq<string>)
    ensures |r| == |reg.entries|
    ensures forall i :: 0 <= i < |r| ==> r[i] == reg.entries[i].name
  {
    seq(|reg.entries|, i requires 0 <= i < |reg.entries| => reg.entries[i].name)
  }

  predicate UniqueNames(reg: Registry)
  {
    forall i, j :: 0 <= i < j < |reg.entries| ==> reg.entries[i].name != reg.entries[j].name
  }

  /** The position of the field called `name`, if there is one. */
  function IndexOf(reg: Registry, name: string): (r: Option<nat>)
    ensures r.Some? ==> r.value < |reg.entries| && reg.entries[r.value].name == name
    ensures r.Some? ==> forall j :: 0 <= j < r.value ==> reg.entries[j].name != name
    ensures r.None? <==> name !in Names(reg)
  {
    IndexFrom(reg, name, 0)
  }

  function IndexFrom(reg: Registry, name: string, i: nat): (r: Option<nat>)
    requires i <= |reg.entries|
    requires forall j :: 0 <= j < i ==> reg.entries[j].name != name
    ensures r.Some? ==> i <= r.value < |reg.entries| && reg.entries[r.value].name == name
    ensures r.Some? ==> forall j :: 0 <= j < r.value ==> reg.entries[j].name != name
    ensures r.None? <==> name !in Names(reg)
    decreases |reg.entries| - i
  {
    if i == |reg.entries| then None
    else if reg.entries[i].name == name then Some(i)
    else IndexFrom(reg, name, i + 1)
  }

  /** In a registry with unique names, the index of a field's name is that field. */
  lemma IndexOfEntry(reg: Registry, i: nat)
    requires UniqueNames(reg) && i < |reg.entries|
    ensures IndexOf(reg, reg.entries[i].name) == Some(i)
  {
    var r := IndexOf(reg, reg.entries[i].name);
    assert Names(reg)[i] == reg.entries[i].name;
  }

  /** The composed classes among the allowed ones, in order. */
  function ComposedTags(ts: seq<Tag>): (r: seq<Klass>)
    ensures |r| <= |ts|
    ensures forall k :: k in r <==> Composed(k) in ts
  {
    if |ts| == 0 then []
    else
      var rest := ComposedTags(ts[1..]);
      assert forall t :: t in ts <==> t == ts[0] || t in ts[1..];
      if ts[0].Composed? then [ts[0].klass] + rest else rest
  }

  /** The `children` entry of a field allowing `allowed`: the mapping of its
      composed class, if it allows one. */
  function ChildrenOf(allowed: seq<Tag>): Option<Registry>
  {
    var cs := ComposedTags(allowed);
    if |cs| == 0 then None else Some(cs[0].mapping)
  }

  /** A value a field may hold: the sentinel, or one whose class is allowed. */
  predicate Fits(d: Descriptor, v: Value)
  {
    v == Unset || ClassOf(v) in d.meta.allowed
  }

  /** A dynamic default is a Proc or names a field declared earlier. */
  predicate BackwardReference(reg: Registry, i: nat)
    requires i < |reg.entries|
  {
    match reg.entries[i].meta.dynamicDefault
    case None => true
    case Some(x) =>
      !Truthy(x) || x.Proc? ||
      (x.Sym? && exists j :: 0 <= j < i && reg.entries[j].name == x.name)
  }

  predicate EntryOk(reg: Registry, i: nat)
    requires i < |reg.entries|
  {
    var d := reg.entries[i];
    && |d.meta.allowed| > 0
    && d.meta.allowed[|d.meta.allowed| - 1] == DefaultObjectTag
    && |ComposedTags(d.meta.allowed)| <= 1
    && d.meta.children == ChildrenOf(d.meta.allowed)
    && BackwardReference(reg, i)
    && Fits(d, d.default)
  }

  /** What every registry built by registration satisfies. */
  predicate WellFormed(reg: Registry)
  {
    && UniqueNames(reg)
    && forall i :: 0 <= i < |reg.entries| ==> EntryOk(reg, i)
  }

  /** A well-formed class: its registry is well formed, every field is one of
      its methods, and every nested default instance is itself sound. */
  ghost predicate ClassOk(k: Klass)
    decreases k, 0
  {
    var es := k.mapping.entries;
    && WellFormed(k.mapping)
    && (forall i :: 0 <= i < |es| ==> es[i].name in k.methods)
    && (forall i :: 0 <= i < |es| ==>
          es[i].default.Inst? ==> ClassOf(es[i].default) in es[i].meta.allowed && Sound(es[i].default.obj))
  }

  /** The value `v` stored under `n` belongs to a field of `k` and fits it. */
  predicate Stored(k: Klass, n: string, v: Value)
  {
    var i := IndexOf(k.mapping, n);
    i.Some? && Fits(k.mapping.entries[i.value], v)
  }

  /** The invariant of every instance that can exist: its class is sound and
      every value it stores fits its field and is itself sound. */
  ghost predicate Sound(o: Instance)
    decreases o.klass, 1
  {
    && ClassOk(o.klass)
    && (forall n :: n in o.values ==>
          Stored(o.klass, n, o.values[n]) && (o.values[n].Inst? ==> Sound(o.values[n].obj)))
    && (forall n :: n in o.defaults ==>
          Stored(o.klass, n, o.defaults[n]) && (o.defaults[n].Inst? ==> Sound(o.defaults[n].obj)))
  }

  /** A value fit to be stored: an instance in it is sound. */
  ghost predicate SoundValue(v: Value)
  {
    v.Inst? ==> Sound(v.obj)
  }

  /** The environment: every instance a Proc returns is sound. */
  ghost predicate ProcsSound(procs: Procs)
  {
    forall id: nat, args: seq<Value> :: procs(id, args).Returned? ==> SoundValue(procs(id, args).v)
  }

  /** A new instance of a sound class is sound. */
  lemma NewSound(k: Klass)
    requires ClassOk(k)
    ensures Sound(New(k))
  {
  }
}
