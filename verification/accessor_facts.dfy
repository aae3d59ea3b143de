/** Properties of the accessors: soundness of every instance they produce,
    the set/get round trip, stability of the getter, dynamic defaults on a
    fresh instance, the freeze gate's decision table, and the blocking
    helpers. */
module AccessorFacts {
  import opened Types
  import opened Mappings
  import opened Validation
  import opened Accessors

  /** Storing a fitting, sound value into a sound instance keeps it sound. */
  lemma StoreSound(o: Instance, i: nat, x: Value)
    requires Sound(o) && i < |o.klass.mapping.entries|
    requires Fits(o.klass.mapping.entries[i], x) && SoundValue(x)
    ensures Sound(Store(o, o.klass.mapping.entries[i].name, x))
  {
    var name := o.klass.mapping.entries[i].name;
    IndexOfEntry(o.klass.mapping, i);
    var o' := Store(o, name, x);
    forall n | n in o'.values
      ensures Stored(o'.klass, n, o'.values[n]) && (o'.values[n].Inst? ==> Sound(o'.values[n].obj))
    {
      if n != name {
        assert o'.values[n] == o.values[n];
      }
    }
  }

  /** Writing back a fitting, sound child keeps the instance sound. */
  lemma PutBackSound(o: Instance, i: nat, x: Value)
    requires Sound(o) && i < |o.klass.mapping.entries|
    requires Fits(o.klass.mapping.entries[i], x) && SoundValue(x)
    ensures Sound(PutBack(o, o.klass.mapping.entries[i].name, x))
  {
    var name := o.klass.mapping.entries[i].name;
    if name in o.values {
      StoreSound(o, i, x);
    } else {
      IndexOfEntry(o.klass.mapping, i);
      var o' := PutBack(o, name, x);
      forall n | n in o'.defaults
        ensures Stored(o'.klass, n, o'.defaults[n]) && (o'.defaults[n].Inst? ==> Sound(o'.defaults[n].obj))
      {
        if n != name {
          assert o'.defaults[n] == o.defaults[n];
        }
      }
      forall n | n in o'.values
        ensures Stored(o'.klass, n, o'.values[n]) && (o'.values[n].Inst? ==> Sound(o'.values[n].obj))
      {
        assert o'.values[n] == o.values[n];
      }
    }
  }

  /** A value the getter may hand out for field `i`: sound, and an instance
      only of the field's composed class. */
  ghost predicate Readable(o: Instance, i: nat, x: Value)
    requires i < |o.klass.mapping.entries|
  {
    SoundValue(x) && (x.Inst? ==> Composed(x.obj.klass) in o.klass.mapping.entries[i].meta.allowed)
  }

  /** A sound value stored under a field's name is readable from it. */
  lemma StoredReadable(o: Instance, i: nat, x: Value)
    requires ClassOk(o.klass) && i < |o.klass.mapping.entries|
    requires Stored(o.klass, o.klass.mapping.entries[i].name, x) && SoundValue(x)
    ensures Readable(o, i, x)
  {
    IndexOfEntry(o.klass.mapping, i);
  }

  /** What a sound instance stores or defaults to for a field is readable. */
  lemma StaticReadable(o: Instance, i: nat)
    requires Sound(o) && i < |o.klass.mapping.entries|
    ensures o.klass.mapping.entries[i].name in o.values ==>
              Readable(o, i, o.values[o.klass.mapping.entries[i].name])
    ensures Readable(o, i, StaticValue(o, i))
  {
    var d := o.klass.mapping.entries[i];
    if d.name in o.values {
      var x := o.values[d.name];
      assert Stored(o.klass, d.name, x) && (x.Inst? ==> Sound(x.obj));
      StoredReadable(o, i, x);
    }
    if d.default == Unset {
      assert StaticValue(o, i) == Nil;
    } else if d.name in o.defaults {
      var x := o.defaults[d.name];
      assert Stored(o.klass, d.name, x) && (x.Inst? ==> Sound(x.obj));
      StoredReadable(o, i, x);
    } else {
      assert d.default.Inst? ==> ClassOf(d.default) in d.meta.allowed && Sound(d.default.obj);
    }
  }

  /** Caching a sound computed value keeps the instance sound. */
  lemma CacheSound(o: Instance, i: nat, x: Value, procs: Procs)
    requires Sound(o) && i < |o.klass.mapping.entries| && SoundValue(x)
    ensures Sound(Cache(o, o.klass.mapping.entries[i], x, procs).obj)
    ensures Cache(o, o.klass.mapping.entries[i], x, procs).Done? ==> Readable(o, i, x)
  {
    if Validate(o.klass.mapping.entries[i], x, procs) == Ok(Valid) {
      StoreSound(o, i, x);
    }
  }

  /** The getter keeps a sound instance sound, and what it returns is
      readable. This is what makes the recursion into children well
      founded: a child belongs to a class nested inside its parent's. */
  lemma {:induction false} GetAtSound(v: Variant, o: Instance, i: nat, procs: Procs)
    requires Sound(o) && ProcsSound(procs) && i < |o.klass.mapping.entries|
    ensures Sound(GetAt(v, o, i, procs).obj)
    ensures GetAt(v, o, i, procs).Done? ==> Readable(o, i, GetAt(v, o, i, procs).out)
    decreases i
  {
    var es := o.klass.mapping.entries;
    var d := es[i];
    StaticReadable(o, i);
    if d.name !in o.values && ActiveDynamic(v, d) {
      var dyn := d.meta.dynamicDefault.value;
      var reg := o.klass.mapping;
      if dyn.Proc? {
        var c := Call(o, dyn.id, [Inst(o)], procs);
        if c.Done? {
          CacheSound(o, i, c.out, procs);
        }
      } else if dyn.Sym? && IndexOf(reg, dyn.name).Some? && IndexOf(reg, dyn.name).value < i {
        var c := GetAt(v, o, IndexOf(reg, dyn.name).value, procs);
        GetAtSound(v, o, IndexOf(reg, dyn.name).value, procs);
        if c.Done? {
          CacheSound(c.obj, i, c.out, procs);
        }
      }
    }
  }

  /** The setter keeps a sound instance sound when the value it is given is. */
  lemma SetAtSound(v: Variant, o: Instance, i: nat, x: Value, procs: Procs)
    requires Sound(o) && i < |o.klass.mapping.entries| && SoundValue(x)
    ensures Sound(SetAt(v, o, i, x, procs).obj)
  {
    var r := SetAt(v, o, i, x, procs);
    if r.obj != o {
      StoreSound(o, i, x);
    }
  }

  /** A value of every assignment a configuration block makes is sound. */
  ghost predicate SoundAssigns(assigns: seq<(string, Value)>)
  {
    forall k :: 0 <= k < |assigns| ==> SoundValue(assigns[k].1)
  }

  /** A configuration block keeps an instance sound when what it assigns is. */
  lemma {:induction false} SetAllSound(v: Variant, o: Instance, assigns: seq<(string, Value)>, procs: Procs)
    requires Sound(o) && SoundAssigns(assigns)
    ensures Sound(SetAll(v, o, assigns, procs).obj)
    decreases |assigns|
  {
    if |assigns| > 0 {
      var s := Set(v, o, assigns[0].0, assigns[0].1, procs);
      assert SoundValue(assigns[0].1);
      if IndexOf(o.klass.mapping, assigns[0].0).Some? {
        SetAtSound(v, o, IndexOf(o.klass.mapping, assigns[0].0).value, assigns[0].1, procs);
      }
      if s.Done? {
        assert SoundAssigns(assigns[1..]) by {
          forall k | 0 <= k < |assigns| - 1
            ensures SoundValue(assigns[1..][k].1)
          {
            assert assigns[1..][k] == assigns[k + 1];
          }
        }
        SetAllSound(v, s.obj, assigns[1..], procs);
      }
    }
  }

  /** Setting the enable flag and running the block keep a child sound. */
  lemma ConfigureSound(v: Variant, c: Instance, enableAttr: Option<string>, block: Option<seq<(string, Value)>>,
                       procs: Procs)
    requires Sound(c) && (block.Some? ==> SoundAssigns(block.value))
    ensures Sound(Configure(v, c, enableAttr, block, procs).obj)
  {
    var c1 := c;
    if enableAttr.Some? {
      var idx := IndexOf(c.klass.mapping, enableAttr.value);
      if idx.Some? {
        SetAtSound(v, c, idx.value, Bool(true), procs);
      }
      c1 := Set(v, c, enableAttr.value, Bool(true), procs).obj;
    }
    if block.Some? {
      SetAllSound(v, c1, block.value, procs);
    }
  }

  /** The instances the block method can end with: the one its getter left,
      or that one with the configured child written back, each possibly
      after the field's setter. */
  lemma WithBlockAtObj(v: Variant, o: Instance, i: nat, block: Option<seq<(string, Value)>>, procs: Procs)
    requires i < |o.klass.mapping.entries| && o.klass.mapping.entries[i].meta.blocking.Some?
    ensures var d := o.klass.mapping.entries[i];
            var g := GetAt(v, o, i, procs);
            var r := WithBlockAt(v, o, i, block, procs);
            && (g.Raised? ==> r.obj == g.obj)
            && (g.Done? && !g.out.Inst? ==> r.obj == g.obj || r.obj == SetAt(v, g.obj, i, g.out, procs).obj)
            && (g.Done? && g.out.Inst? ==>
                  var c := Configure(v, g.out.obj, d.meta.blocking.value.enableAttr, block, procs);
                  var p := PutBack(g.obj, d.name, Inst(c.obj));
                  r.obj == p || r.obj == SetAt(v, p, i, Inst(c.obj), procs).obj)
  {
  }

  /** Configuring a sound child of field `i`, writing it back and assigning
      it through the setter keep the parent sound at every step. */
  lemma ConfiguredChildSound(v: Variant, p: Instance, i: nat, x: Instance, block: Option<seq<(string, Value)>>,
                             procs: Procs)
    requires Sound(p) && Sound(x) && i < |p.klass.mapping.entries|
    requires p.klass.mapping.entries[i].meta.blocking.Some?
    requires Composed(x.klass) in p.klass.mapping.entries[i].meta.allowed
    requires block.Some? ==> SoundAssigns(block.value)
    ensures var d := p.klass.mapping.entries[i];
            var c := Configure(v, x, d.meta.blocking.value.enableAttr, block, procs);
            var q := PutBack(p, d.name, Inst(c.obj));
            Sound(q) && Sound(SetAt(v, q, i, Inst(c.obj), procs).obj)
  {
    var d := p.klass.mapping.entries[i];
    var c := Configure(v, x, d.meta.blocking.value.enableAttr, block, procs);
    ConfigureSound(v, x, d.meta.blocking.value.enableAttr, block, procs);
    PutBackSound(p, i, Inst(c.obj));
    SetAtSound(v, PutBack(p, d.name, Inst(c.obj)), i, Inst(c.obj), procs);
  }

  /** The block method keeps the parent sound, so every operation that asks
      for a sound instance can follow a `with_<name>` call. */
  lemma WithBlockAtSound(v: Variant, o: Instance, i: nat, block: Option<seq<(string, Value)>>, procs: Procs)
    requires Sound(o) && ProcsSound(procs)
    requires i < |o.klass.mapping.entries| && o.klass.mapping.entries[i].meta.blocking.Some?
    requires block.Some? ==> SoundAssigns(block.value)
    ensures Sound(WithBlockAt(v, o, i, block, procs).obj)
  {
    GetAtSound(v, o, i, procs);
    WithBlockAtObj(v, o, i, block, procs);
    var g := GetAt(v, o, i, procs);
    if g.Done? {
      if !g.out.Inst? {
        SetAtSound(v, g.obj, i, g.out, procs);
      } else {
        ConfiguredChildSound(v, g.obj, i, g.out.obj, block, procs);
      }
    }
  }

  /** The instances the `name?` query can end with. */
  lemma EnabledAtObj(v: Variant, o: Instance, i: nat, procs: Procs)
    requires i < |o.klass.mapping.entries| && o.klass.mapping.entries[i].meta.blocking.Some?
    requires o.klass.mapping.entries[i].meta.blocking.value.enableAttr.Some?
    ensures var d := o.klass.mapping.entries[i];
            var g := GetAt(v, o, i, procs);
            var r := EnabledAt(v, o, i, procs);
            && (g.Raised? || !g.out.Inst? ==> r.obj == g.obj)
            && (g.Done? && g.out.Inst? ==>
                  r.obj == PutBack(g.obj, d.name, Inst(Get(v, g.out.obj, d.meta.blocking.value.enableAttr.value, procs).obj)))
  {
  }

  /** Reading a sound child's field and writing the child back keep the
      parent sound. */
  lemma ReadChildSound(v: Variant, p: Instance, i: nat, x: Instance, e: string, procs: Procs)
    requires Sound(p) && Sound(x) && ProcsSound(procs) && i < |p.klass.mapping.entries|
    requires Composed(x.klass) in p.klass.mapping.entries[i].meta.allowed
    ensures Sound(PutBack(p, p.klass.mapping.entries[i].name, Inst(Get(v, x, e, procs).obj)))
  {
    if IndexOf(x.klass.mapping, e).Some? {
      GetAtSound(v, x, IndexOf(x.klass.mapping, e).value, procs);
    }
    PutBackSound(p, i, Inst(Get(v, x, e, procs).obj));
  }

  /** The `name?` query keeps the parent sound. */
  lemma EnabledAtSound(v: Variant, o: Instance, i: nat, procs: Procs)
    requires Sound(o) && ProcsSound(procs)
    requires i < |o.klass.mapping.entries| && o.klass.mapping.entries[i].meta.blocking.Some?
    requires o.klass.mapping.entries[i].meta.blocking.value.enableAttr.Some?
    ensures Sound(EnabledAt(v, o, i, procs).obj)
  {
    GetAtSound(v, o, i, procs);
    EnabledAtObj(v, o, i, procs);
    var g := GetAt(v, o, i, procs);
    if g.Done? && g.out.Inst? {
      ReadChildSound(v, g.obj, i, g.out.obj, o.klass.mapping.entries[i].meta.blocking.value.enableAttr.value, procs);
    }
  }

  /** A write that goes through is read back by the getter, with nothing
      else to compute. */
  lemma SetThenGet(v: Variant, o: Instance, i: nat, x: Value, procs: Procs)
    requires i < |o.klass.mapping.entries|
    requires Proceeds(v, o, o.klass.mapping.entries[i].name, procs)
    requires SetAt(v, o, i, x, procs).Done?
    ensures SetAt(v, o, i, x, procs).out == x
    ensures GetAt(v, SetAt(v, o, i, x, procs).obj, i, procs) == Done(SetAt(v, o, i, x, procs).obj, x, [])
  {
  }

  /** A vetoed write changes nothing and fires no assignment callback; a
      write that raises leaves the instance as it was. */
  lemma VetoedWriteChangesNothing(v: Variant, o: Instance, i: nat, x: Value, procs: Procs)
    requires i < |o.klass.mapping.entries|
    ensures !Proceeds(v, o, o.klass.mapping.entries[i].name, procs) ==>
              SetAt(v, o, i, x, procs).obj == o &&
              forall e :: e in SetAt(v, o, i, x, procs).log ==> !e.Yielded?
    ensures SetAt(v, o, i, x, procs).Raised? ==> SetAt(v, o, i, x, procs).obj == o
  {
  }

  /** Reading a field twice gives the same value, and the second read
      changes nothing (a computed dynamic default is cached by the first). */
  lemma GetStable(v: Variant, o: Instance, i: nat, procs: Procs)
    requires i < |o.klass.mapping.entries|
    requires GetAt(v, o, i, procs).Done?
    ensures var r := GetAt(v, o, i, procs);
            GetAt(v, r.obj, i, procs) == Done(r.obj, r.out, [])
  {
  }

  /** On a new instance a field without a dynamic default reads as its
      static default, nil standing for the sentinel. */
  lemma FreshStaticDefault(v: Variant, k: Klass, i: nat, procs: Procs)
    requires i < |k.mapping.entries| && !ActiveDynamic(v, k.mapping.entries[i])
    ensures var d := k.mapping.entries[i];
            GetAt(v, New(k), i, procs) == Done(New(k), if d.default == Unset then Nil else d.default, [])
  {
  }

  /** On a new instance a field whose dynamic default names an earlier field
      reads as that field's value, which both fields then cache. */
  lemma {:induction false} FreshSymbolicDefault(k: Klass, i: nat, j: nat, procs: Procs)
    requires WellFormed(k.mapping) && i < |k.mapping.entries| && j < |k.mapping.entries|
    requires k.mapping.entries[i].meta.dynamicDefault == Some(Sym(k.mapping.entries[j].name))
    requires GetAt(Split, New(k), i, procs).Done?
    ensures j < i
    ensures var r := GetAt(Split, New(k), i, procs);
            && GetAt(Split, New(k), j, procs).Done?
            && r.out == GetAt(Split, New(k), j, procs).out
            && r.obj.values[k.mapping.entries[i].name] == r.out
            && GetAt(Split, r.obj, j, procs).out == r.out
  {
    var reg := k.mapping;
    var es := reg.entries;
    assert EntryOk(reg, i);
    assert BackwardReference(reg, i);
    var j' :| 0 <= j' < i && es[j'].name == es[j].name;
    IndexOfEntry(reg, j);
    IndexOfEntry(reg, j');
    assert j == j';
    var rj := GetAt(Split, New(k), j, procs);
    assert GetAt(Split, New(k), i, procs) == (match rj case Raised(o1, f, log) => Raised(o1, f, log)
                                                          case Done(o1, x, _) => Cache(o1, es[i], x, procs));
    assert es[i].name != es[j].name;
    if es[j].name in New(k).values {
    } else if !ActiveDynamic(Split, es[j]) {
    } else {
      assert es[j].name in rj.obj.values;
    }
  }

  /** The freeze gate's decision table: not frozen returns nil and
      `:log_and_allow` returns true, both going on; `:log_and_skip` returns
      false and stops; `:raise` raises; a callback's result or exception is
      passed on as it is, and the write goes on unless it is `false` or an
      exception; the logging behaviours warn, naming the class, the key and
      whether the write goes on. */
  lemma GateTable(v: Variant, o: Instance, key: string, procs: Procs)
    ensures o.frozen == Unfrozen ==> Proceeds(v, o, key, procs) && Gate(v, o, key, procs) == Done(o, Nil, [])
    ensures o.frozen == Behavior(LogAndAllow) ==>
              Proceeds(v, o, key, procs) &&
              Gate(v, o, key, procs) == Done(o, Bool(true), [Warned(o.klass.name, key, true)])
    ensures o.frozen == Behavior(LogAndSkip) ==>
              Gate(v, o, key, procs) == Done(o, Bool(false), [Warned(o.klass.name, key, false)])
    ensures o.frozen == Behavior(Raise) ==>
              Gate(v, o, key, procs).failure == Failure(ComposerError, FrozenWrite(o.klass.name, key))
    ensures o.frozen.Callback? ==>
              (Proceeds(v, o, key, procs) <==>
                 procs(o.frozen.id, CallbackArgs(v, o, key)).Returned? &&
                 procs(o.frozen.id, CallbackArgs(v, o, key)).v != Bool(false))
    ensures o.frozen.Callback? && procs(o.frozen.id, CallbackArgs(v, o, key)).Returned? ==>
              Gate(v, o, key, procs) == Done(o, procs(o.frozen.id, CallbackArgs(v, o, key)).v, [])
    ensures o.frozen.Callback? && procs(o.frozen.id, CallbackArgs(v, o, key)).Threw? ==>
              Gate(v, o, key, procs) ==
                Raised(o, Failure(UserRaised, ProcRaised(procs(o.frozen.id, CallbackArgs(v, o, key)).message)), [])
  {
  }

  /** The older engine's callback sees only the key: two instances in the
      same callback state decide every write alike. */
  lemma LegacyCallbackSeesOnlyKey(o1: Instance, o2: Instance, key: string, procs: Procs)
    requires o1.frozen.Callback? && o2.frozen == o1.frozen
    ensures Proceeds(Legacy, o1, key, procs) <==> Proceeds(Legacy, o2, key, procs)
    ensures Gate(Legacy, o1, key, procs).Raised? <==> Gate(Legacy, o2, key, procs).Raised?
  {
  }

  /** A configuration block that never assigns `e` leaves `e` as it was. */
  lemma {:induction false} SetAllKeeps(v: Variant, o: Instance, assigns: seq<(string, Value)>, e: string,
                                       procs: Procs)
    requires forall k :: 0 <= k < |assigns| ==> assigns[k].0 != e
    requires e in o.values
    ensures e in SetAll(v, o, assigns, procs).obj.values
    ensures SetAll(v, o, assigns, procs).obj.values[e] == o.values[e]
    decreases |assigns|
  {
    if |assigns| > 0 {
      var s := Set(v, o, assigns[0].0, assigns[0].1, procs);
      assert assigns[0].0 != e;
      assert e in s.obj.values && s.obj.values[e] == o.values[e];
      if s.Done? {
        assert forall k :: 0 <= k < |assigns[1..]| ==> assigns[1..][k].0 == assigns[k + 1].0;
        SetAllKeeps(v, s.obj, assigns[1..], e, procs);
      }
    }
  }

  /** A block method on a blocking field with an enable flag, with neither
      the parent nor the child frozen and a block that does not assign the
      flag itself, leaves `name?` reading true. */
  lemma {:induction false} BlockEnables(v: Variant, o: Instance, i: nat, block: Option<seq<(string, Value)>>,
                                        procs: Procs)
    requires i < |o.klass.mapping.entries|
    requires o.klass.mapping.entries[i].meta.blocking.Some?
    requires o.klass.mapping.entries[i].meta.blocking.value.enableAttr.Some?
    requires block.Some? ==>
               forall k :: 0 <= k < |block.value| ==>
                 block.value[k].0 != o.klass.mapping.entries[i].meta.blocking.value.enableAttr.value
    requires o.frozen == Unfrozen
    requires GetAt(v, o, i, procs).Done? && GetAt(v, o, i, procs).out.Inst?
    requires GetAt(v, o, i, procs).out.obj.frozen == Unfrozen
    requires WithBlockAt(v, o, i, block, procs).Done?
    ensures EnabledAt(v, WithBlockAt(v, o, i, block, procs).obj, i, procs).Done?
    ensures EnabledAt(v, WithBlockAt(v, o, i, block, procs).obj, i, procs).out == Bool(true)
  {
    var d := o.klass.mapping.entries[i];
    var e := d.meta.blocking.value.enableAttr.value;
    var g := GetAt(v, o, i, procs);
    var c := g.out.obj;
    var ce := Set(v, c, e, Bool(true), procs);
    var cf := Configure(v, c, Some(e), block, procs);
    assert cf.Done?;
    assert ce.Done?;
    var ci := IndexOf(c.klass.mapping, e).value;
    assert ce == SetAt(v, c, ci, Bool(true), procs);
    assert Proceeds(v, c, c.klass.mapping.entries[ci].name, procs);
    var c1 := ce.obj;
    assert c1 == Store(c, e, Bool(true));
    if block.Some? {
      assert cf == Prefix(ce.log, SetAll(v, c1, block.value, procs));
      SetAllKeeps(v, c1, block.value, e, procs);
    }
    var c2 := cf.obj;
    assert c2.klass == c.klass;
    assert e in c2.values && c2.values[e] == Bool(true);
    var o2 := PutBack(g.obj, d.name, Inst(c2));
    assert Proceeds(v, o2, d.name, procs);
    var r := WithBlockAt(v, o, i, block, procs);
    assert r.obj == Store(o2, d.name, Inst(c2));
    assert GetAt(v, r.obj, i, procs) == Done(r.obj, Inst(c2), []);
    assert Get(v, c2, e, procs) == Done(c2, Bool(true), []);
  }
}
