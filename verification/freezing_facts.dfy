/** Properties of freezing and of assigning defaults: the behaviour tokens,
    the freeze reaching every nested child, every field (and, with
    `children: true`, every nested child's field) ending up assigned, and
    the field without a default that makes assigning defaults raise. */
module FreezingFacts {
  import opened Types
  import opened Mappings
  import opened Validation
  import opened Accessors
  import opened AccessorFacts
  import opened Freezing

  /** The behaviour tokens name the three behaviours one to one, and the
      default behaviour is `:raise`. */
  lemma FrozenTypesExact(m: FrozenType)
    ensures FrozenTypeOf(Sym(Token(m))) == Some(m)
    ensures Token(m) in FrozenTypes
    ensures |FrozenTypes| == 3 && FrozenTypes[0] == Token(DefaultFrozenType)
  {
  }

  /** What the getter of field `j` returns when it has nothing to compute. */
  function Peek(o: Instance, j: nat): Value
    requires j < |o.klass.mapping.entries|
  {
    var name := o.klass.mapping.entries[j].name;
    if name in o.values then o.values[name] else StaticValue(o, j)
  }

  /** Reading field `j` computes nothing: it is assigned, or this engine has
      no dynamic default for it. */
  predicate Fixed(v: Variant, o: Instance, j: nat)
    requires j < |o.klass.mapping.entries|
  {
    o.klass.mapping.entries[j].name in o.values || !ActiveDynamic(v, o.klass.mapping.entries[j])
  }

  /** A field with children reads, without computing anything, as an
      instance of its composed class whose whole tree is in freeze state `s`. */
  predicate Settled(v: Variant, o: Instance, j: nat, s: FreezeState)
    requires j < |o.klass.mapping.entries|
    decreases o.klass, 0
  {
    o.klass.mapping.entries[j].meta.children.Some? ==>
      && Fixed(v, o, j) && Peek(o, j).Inst?
      && Composed(Peek(o, j).obj.klass) in o.klass.mapping.entries[j].meta.allowed
      && FrozenTree(v, Peek(o, j).obj, s)
  }

  /** `o` and every instance reached from it through fields with children
      are in freeze state `s`. */
  predicate FrozenTree(v: Variant, o: Instance, s: FreezeState)
    decreases o.klass, 1
  {
    && o.frozen == s
    && forall j :: 0 <= j < |o.klass.mapping.entries| ==> Settled(v, o, j, s)
  }

  /** A field that computes nothing reads as `Peek`. */
  lemma FixedReadsPeek(v: Variant, o: Instance, j: nat, procs: Procs)
    requires j < |o.klass.mapping.entries| && Fixed(v, o, j)
    ensures GetAt(v, o, j, procs) == Done(o, Peek(o, j), [])
  {
  }

  /** Field `j` computes nothing in `o'`, is assigned there iff it is in
      `o`, and reads the same. */
  predicate Kept(v: Variant, o: Instance, o': Instance, j: nat)
    requires j < |o.klass.mapping.entries| && o'.klass == o.klass
  {
    var name := o.klass.mapping.entries[j].name;
    Fixed(v, o', j) && (name in o'.values <==> name in o.values) && Peek(o', j) == Peek(o, j)
  }

  /** Reading any field keeps a field that computes nothing. */
  lemma GetKeepsFixed(v: Variant, o: Instance, k: nat, j: nat, procs: Procs)
    requires UniqueNames(o.klass.mapping)
    requires k < |o.klass.mapping.entries| && j < |o.klass.mapping.entries| && Fixed(v, o, j)
    ensures Kept(v, o, GetAt(v, o, k, procs).obj, j)
  {
    var es := o.klass.mapping.entries;
    assert forall j' :: 0 <= j' < |es| && es[j'].name == es[j].name ==> j' == j;
  }

  /** Writing another field, or writing back its child, keeps a field. */
  lemma WriteKeepsFixed(v: Variant, o: Instance, k: nat, j: nat, x: Value)
    requires UniqueNames(o.klass.mapping)
    requires k < |o.klass.mapping.entries| && j < |o.klass.mapping.entries| && k != j && Fixed(v, o, j)
    ensures Kept(v, o, PutBack(o, o.klass.mapping.entries[k].name, x), j)
    ensures Kept(v, o, Store(o, o.klass.mapping.entries[k].name, x), j)
  {
  }

  /** Keeping a field composes. */
  lemma KeptTrans(v: Variant, o1: Instance, o2: Instance, o3: Instance, j: nat)
    requires j < |o1.klass.mapping.entries| && o2.klass == o1.klass && o3.klass == o1.klass
    requires Kept(v, o1, o2, j) && Kept(v, o2, o3, j)
    ensures Kept(v, o1, o3, j)
  {
  }

  /** A settled field that is kept stays settled. */
  lemma KeptSettled(v: Variant, o1: Instance, o2: Instance, j: nat, s: FreezeState)
    requires j < |o1.klass.mapping.entries| && o2.klass == o1.klass
    requires Settled(v, o1, j, s) && (o1.klass.mapping.entries[j].meta.children.Some? ==> Kept(v, o1, o2, j))
    ensures Settled(v, o2, j, s)
  {
  }

  /** Freezing one child keeps every other field that computes nothing. */
  lemma FreezeChildKeeps(v: Variant, o: Instance, i: nat, behavior: Value, block: Option<nat>, procs: Procs)
    requires Sound(o) && ProcsSound(procs) && i < |o.klass.mapping.entries|
    ensures var r := FreezeChild(v, o, i, behavior, block, procs);
            forall j :: 0 <= j < |o.klass.mapping.entries| && j != i && Fixed(v, o, j) ==> Kept(v, o, r.obj, j)
  {
    var es := o.klass.mapping.entries;
    assert UniqueNames(o.klass.mapping);
    GetAtSound(v, o, i, procs);
    var g := GetAt(v, o, i, procs);
    forall j | 0 <= j < |es| && j != i && Fixed(v, o, j)
      ensures Kept(v, o, g.obj, j)
    {
      GetKeepsFixed(v, o, i, j, procs);
    }
    if g.Done? && g.out.Inst? {
      var c := FreezeObjects(v, g.out.obj, behavior, true, block, procs);
      forall j | 0 <= j < |es| && j != i && Fixed(v, o, j)
        ensures Kept(v, o, PutBack(g.obj, es[i].name, Inst(c.obj)), j)
      {
        WriteKeepsFixed(v, g.obj, i, j, Inst(c.obj));
      }
    }
  }

  /** A getter that returns an instance leaves its field computing nothing,
      and assigned or with a static default to write back into. */
  lemma GetFixes(v: Variant, o: Instance, i: nat, procs: Procs)
    requires i < |o.klass.mapping.entries|
    ensures var g := GetAt(v, o, i, procs);
            var d := o.klass.mapping.entries[i];
            g.Done? && g.out.Inst? ==> Fixed(v, g.obj, i) && (d.name in g.obj.values || d.default != Unset)
  {
    var d := o.klass.mapping.entries[i];
    if d.name !in o.values && !ActiveDynamic(v, d) {
      assert GetAt(v, o, i, procs).out == StaticValue(o, i);
    }
  }

  /** Writing a child back into a field that computes nothing makes the
      getter read it. */
  lemma PutBackPeek(v: Variant, o: Instance, i: nat, x: Value)
    requires i < |o.klass.mapping.entries| && Fixed(v, o, i)
    requires o.klass.mapping.entries[i].name in o.values || o.klass.mapping.entries[i].default != Unset
    ensures Fixed(v, PutBack(o, o.klass.mapping.entries[i].name, x), i)
    ensures Peek(PutBack(o, o.klass.mapping.entries[i].name, x), i) == x
  {
  }

  /** A successful freeze of one child leaves its field settled in the
      requested state. */
  lemma {:induction false} FreezeChildSettles(v: Variant, o: Instance, i: nat, behavior: Value,
                                              block: Option<nat>, procs: Procs)
    requires Sound(o) && ProcsSound(procs) && i < |o.klass.mapping.entries|
    requires RequestedState(behavior, block).Ok?
    ensures var r := FreezeChild(v, o, i, behavior, block, procs);
            r.Done? ==> Settled(v, r.obj, i, RequestedState(behavior, block).value)
    decreases o.klass, 0, |o.klass.mapping.entries| - i, 0
  {
    var r := FreezeChild(v, o, i, behavior, block, procs);
    if r.Done? {
      GetAtSound(v, o, i, procs);
      GetFixes(v, o, i, procs);
      var g := GetAt(v, o, i, procs);
      assert g.Done? && g.out.Inst?;
      var c := FreezeObjects(v, g.out.obj, behavior, true, block, procs);
      assert r.obj == PutBack(g.obj, o.klass.mapping.entries[i].name, Inst(c.obj));
      PutBackPeek(v, g.obj, i, Inst(c.obj));
      FreezeReachesChildren(v, g.out.obj, behavior, true, block, procs);
    }
  }

  /** What the walk from index `i` achieves, from `o` to the run `r` it
      returns: every field before `i` that computes nothing is kept, and on
      success every field with children from `i` on is settled in `s`. */
  predicate Walked(v: Variant, o: Instance, r: Run<()>, i: nat, s: FreezeState)
    requires i <= |o.klass.mapping.entries| && r.obj.klass == o.klass
  {
    && (forall j :: 0 <= j < i && Fixed(v, o, j) ==> Kept(v, o, r.obj, j))
    && (r.Done? ==> forall j :: i <= j < |o.klass.mapping.entries| ==> Settled(v, r.obj, j, s))
  }

  /** One step of the walk, stated over the three instances involved: the
      one before the child is frozen, the one after, and the run the rest of
      the walk returns. */
  lemma SettleStep(v: Variant, o: Instance, c: Instance, r: Run<()>, i: nat, s: FreezeState)
    requires i < |o.klass.mapping.entries| && c.klass == o.klass && r.obj.klass == o.klass
    requires forall j :: 0 <= j < |o.klass.mapping.entries| && j != i && Fixed(v, o, j) ==> Kept(v, o, c, j)
    requires Settled(v, c, i, s)
    requires Walked(v, c, r, i + 1, s)
    ensures Walked(v, o, r, i, s)
  {
    forall j | 0 <= j < i && Fixed(v, o, j)
      ensures Kept(v, o, r.obj, j)
    {
      KeptTrans(v, o, c, r.obj, j);
    }
    if r.Done? {
      forall j | i <= j < |o.klass.mapping.entries|
        ensures Settled(v, r.obj, j, s)
      {
        if j == i {
          KeptSettled(v, c, r.obj, i, s);
        }
      }
    }
  }

  /** A field without children is passed over. */
  lemma SkipStep(v: Variant, o: Instance, r: Run<()>, i: nat, s: FreezeState)
    requires i < |o.klass.mapping.entries| && r.obj.klass == o.klass
    requires o.klass.mapping.entries[i].meta.children.None?
    requires Walked(v, o, r, i + 1, s)
    ensures Walked(v, o, r, i, s)
  {
    if r.Done? {
      forall j | i <= j < |o.klass.mapping.entries|
        ensures Settled(v, r.obj, j, s)
      {
        if j == i {
          assert o.klass.mapping.entries[j].meta.children.None?;
        }
      }
    }
  }

  /** The walk past a field with children continues from the instance its
      child was frozen into. */
  lemma FreezeChildrenUnfold(v: Variant, o: Instance, i: nat, behavior: Value, block: Option<nat>, procs: Procs)
    requires Sound(o) && ProcsSound(procs) && i < |o.klass.mapping.entries|
    requires o.klass.mapping.entries[i].meta.children.Some?
    ensures var c := FreezeChild(v, o, i, behavior, block, procs);
            var r := FreezeChildren(v, o, i, behavior, block, procs);
            if c.Raised? then r.Raised? && r.obj == c.obj else r == FreezeChildren(v, c.obj, i + 1, behavior, block, procs)
  {
  }

  /** One step of the walk over a field with children, stated over the
      runs involved: the child's freeze, the walk from this field, and the
      walk from the next one. */
  lemma ChildGlue(v: Variant, o: Instance, c: Run<()>, r: Run<()>, rest: Run<()>, i: nat, s: FreezeState)
    requires i < |o.klass.mapping.entries|
    requires c.obj.klass == o.klass && r.obj.klass == o.klass && rest.obj.klass == o.klass
    requires forall j :: 0 <= j < |o.klass.mapping.entries| && j != i && Fixed(v, o, j) ==> Kept(v, o, c.obj, j)
    requires c.Done? ==> Settled(v, c.obj, i, s) && r == rest && Walked(v, c.obj, rest, i + 1, s)
    requires c.Raised? ==> r.Raised? && r.obj == c.obj
    ensures Walked(v, o, r, i, s)
  {
    if c.Done? {
      SettleStep(v, o, c.obj, rest, i, s);
    } else {
      forall j | 0 <= j < i && Fixed(v, o, j)
        ensures Kept(v, o, r.obj, j)
      {
        assert j != i;
      }
    }
  }

  /** The walk from index `i` keeps every field before `i`, and on success
      leaves every field with children from `i` on settled in the requested
      state. */
  lemma {:induction false} FreezeChildrenSettles(v: Variant, o: Instance, i: nat, behavior: Value,
                                                 block: Option<nat>, procs: Procs)
    requires Sound(o) && ProcsSound(procs) && i <= |o.klass.mapping.entries|
    requires RequestedState(behavior, block).Ok?
    ensures Walked(v, o, FreezeChildren(v, o, i, behavior, block, procs), i, RequestedState(behavior, block).value)
    decreases o.klass, 0, |o.klass.mapping.entries| - i, 2
  {
    if i == |o.klass.mapping.entries| {
      assert FreezeChildren(v, o, i, behavior, block, procs).obj == o;
    } else if o.klass.mapping.entries[i].meta.children.None? {
      SkipSettles(v, o, i, behavior, block, procs);
    } else {
      ChildSettles(v, o, i, behavior, block, procs);
    }
  }

  /** The walk passes over field `i`, which has no children. */
  lemma {:induction false} SkipSettles(v: Variant, o: Instance, i: nat, behavior: Value, block: Option<nat>,
                                       procs: Procs)
    requires Sound(o) && ProcsSound(procs) && i < |o.klass.mapping.entries|
    requires RequestedState(behavior, block).Ok?
    requires o.klass.mapping.entries[i].meta.children.None?
    ensures Walked(v, o, FreezeChildren(v, o, i, behavior, block, procs), i, RequestedState(behavior, block).value)
    decreases o.klass, 0, |o.klass.mapping.entries| - i, 1
  {
    FreezeChildrenSettles(v, o, i + 1, behavior, block, procs);
    assert FreezeChildren(v, o, i, behavior, block, procs) == FreezeChildren(v, o, i + 1, behavior, block, procs);
    SkipStep(v, o, FreezeChildren(v, o, i, behavior, block, procs), i, RequestedState(behavior, block).value);
  }

  /** The walk freezes the child of field `i` and walks on from there. */
  lemma {:induction false} ChildSettles(v: Variant, o: Instance, i: nat, behavior: Value, block: Option<nat>,
                                        procs: Procs)
    requires Sound(o) && ProcsSound(procs) && i < |o.klass.mapping.entries|
    requires RequestedState(behavior, block).Ok?
    requires o.klass.mapping.entries[i].meta.children.Some?
    ensures Walked(v, o, FreezeChildren(v, o, i, behavior, block, procs), i, RequestedState(behavior, block).value)
    decreases o.klass, 0, |o.klass.mapping.entries| - i, 1
  {
    var s := RequestedState(behavior, block).value;
    FreezeChildKeeps(v, o, i, behavior, block, procs);
    FreezeChildSettles(v, o, i, behavior, block, procs);
    FreezeChildrenUnfold(v, o, i, behavior, block, procs);
    var c := FreezeChild(v, o, i, behavior, block, procs);
    if c.Done? {
      FreezeChildrenSettles(v, c.obj, i + 1, behavior, block, procs);
      ChildGlue(v, o, c, FreezeChildren(v, o, i, behavior, block, procs),
                FreezeChildren(v, c.obj, i + 1, behavior, block, procs), i, s);
    } else {
      ChildGlue(v, o, c, FreezeChildren(v, o, i, behavior, block, procs), c, i, s);
    }
  }

  /** With `children: true`, a successful freeze leaves the instance and
      every instance it reaches, at any depth, through fields with children
      in the requested state; with `children: false` only the instance's own
      state changes. */
  lemma {:induction false} FreezeReachesChildren(v: Variant, o: Instance, behavior: Value, children: bool,
                                                 block: Option<nat>, procs: Procs)
    requires Sound(o) && ProcsSound(procs)
    requires FreezeObjects(v, o, behavior, children, block, procs).Done?
    ensures var r := FreezeObjects(v, o, behavior, children, block, procs);
            && RequestedState(behavior, block).Ok?
            && r.obj.frozen == RequestedState(behavior, block).value
            && (children ==> FrozenTree(v, r.obj, RequestedState(behavior, block).value))
            && (!children ==> r.obj == o.(frozen := RequestedState(behavior, block).value))
    decreases o.klass, 1, 0, 0
  {
    var s := RequestedState(behavior, block).value;
    if children {
      RefreezeSound(o, s);
      FreezeChildrenSettles(v, o.(frozen := s), 0, behavior, block, procs);
    }
  }

  /** Freeze states under which the setter always goes on. */
  predicate Lenient(f: FreezeState)
  {
    f == Unfrozen || f == Behavior(LogAndAllow)
  }

  /** Assigning the defaults inside field `i`'s child keeps every
      assignment and every other field that computes nothing. */
  lemma AssignChildStep(v: Variant, o: Instance, i: nat, children: bool, procs: Procs)
    requires Sound(o) && ProcsSound(procs) && i < |o.klass.mapping.entries|
    ensures o.values.Keys <= AssignChild(v, o, i, children, procs).obj.values.Keys
    ensures var r := AssignChild(v, o, i, children, procs);
            forall j :: 0 <= j < |o.klass.mapping.entries| && j != i && Fixed(v, o, j) ==> Kept(v, o, r.obj, j)
  {
    var es := o.klass.mapping.entries;
    assert UniqueNames(o.klass.mapping);
    GetAtSound(v, o, i, procs);
    var g := GetAt(v, o, i, procs);
    forall j | 0 <= j < |es| && j != i && Fixed(v, o, j)
      ensures Kept(v, o, g.obj, j)
    {
      GetKeepsFixed(v, o, i, j, procs);
    }
    if g.Done? && g.out.Inst? {
      var c := AssignDefaults(v, g.out.obj, children, procs);
      forall j | 0 <= j < |es| && j != i && Fixed(v, o, j)
        ensures Kept(v, o, PutBack(g.obj, es[i].name, Inst(c.obj)), j)
      {
        WriteKeepsFixed(v, g.obj, i, j, Inst(c.obj));
      }
    }
  }

  /** One field's get followed by its set keeps every assignment, and under
      a lenient state a success leaves the field assigned. */
  lemma GetSetAssigns(v: Variant, o: Instance, i: nat, procs: Procs)
    requires Sound(o) && ProcsSound(procs) && i < |o.klass.mapping.entries|
    ensures var g := GetAt(v, o, i, procs);
            g.Done? ==>
              var st := SetAt(v, g.obj, i, g.out, procs);
              && o.values.Keys <= st.obj.values.Keys
              && (Lenient(o.frozen) && st.Done? ==> o.klass.mapping.entries[i].name in st.obj.values)
  {
    var g := GetAt(v, o, i, procs);
    if g.Done? {
      GateTable(v, g.obj, o.klass.mapping.entries[i].name, procs);
    }
  }

  /** One field's get followed by its set keeps every other field that
      computes nothing. */
  lemma GetSetKeeps(v: Variant, o: Instance, i: nat, procs: Procs)
    requires Sound(o) && ProcsSound(procs) && i < |o.klass.mapping.entries|
    ensures var g := GetAt(v, o, i, procs);
            g.Done? ==>
              var st := SetAt(v, g.obj, i, g.out, procs);
              forall j :: 0 <= j < |o.klass.mapping.entries| && j != i && Fixed(v, o, j) ==> Kept(v, o, st.obj, j)
  {
    var es := o.klass.mapping.entries;
    assert UniqueNames(o.klass.mapping);
    var g := GetAt(v, o, i, procs);
    if g.Done? {
      var st := SetAt(v, g.obj, i, g.out, procs);
      assert st.obj == g.obj || st.obj == Store(g.obj, es[i].name, g.out);
      forall j | 0 <= j < |es| && j != i && Fixed(v, o, j)
        ensures Kept(v, o, st.obj, j)
      {
        GetKeepsFixed(v, o, i, j, procs);
        WriteKeepsFixed(v, g.obj, i, j, g.out);
        KeptTrans(v, o, g.obj, st.obj, j);
      }
    }
  }

  /** One field's step keeps every assignment, and under a lenient state a
      success leaves the field assigned. */
  lemma AssignFieldAssigns(v: Variant, o: Instance, i: nat, children: bool, procs: Procs)
    requires Sound(o) && ProcsSound(procs) && i < |o.klass.mapping.entries|
    ensures o.values.Keys <= AssignField(v, o, i, children, procs).obj.values.Keys
    ensures Lenient(o.frozen) && AssignField(v, o, i, children, procs).Done? ==>
              o.klass.mapping.entries[i].name in AssignField(v, o, i, children, procs).obj.values
  {
    var es := o.klass.mapping.entries;
    GetAtSound(v, o, i, procs);
    GetSetAssigns(v, o, i, procs);
    var g := GetAt(v, o, i, procs);
    if g.Done? {
      SetAtSound(v, g.obj, i, g.out, procs);
      var st := SetAt(v, g.obj, i, g.out, procs);
      if st.Done? && children && es[i].meta.children.Some? {
        AssignChildStep(v, st.obj, i, children, procs);
      }
    }
  }

  /** One field's step keeps every other field that computes nothing. */
  lemma AssignFieldKeeps(v: Variant, o: Instance, i: nat, children: bool, procs: Procs)
    requires Sound(o) && ProcsSound(procs) && i < |o.klass.mapping.entries|
    ensures var r := AssignField(v, o, i, children, procs);
            forall j :: 0 <= j < |o.klass.mapping.entries| && j != i && Fixed(v, o, j) ==> Kept(v, o, r.obj, j)
  {
    var es := o.klass.mapping.entries;
    GetAtSound(v, o, i, procs);
    GetSetKeeps(v, o, i, procs);
    var g := GetAt(v, o, i, procs);
    forall j | 0 <= j < |es| && j != i && Fixed(v, o, j)
      ensures Kept(v, o, g.obj, j)
    {
      assert UniqueNames(o.klass.mapping);
      GetKeepsFixed(v, o, i, j, procs);
    }
    if g.Done? {
      SetAtSound(v, g.obj, i, g.out, procs);
      var st := SetAt(v, g.obj, i, g.out, procs);
      if st.Done? && children && es[i].meta.children.Some? {
        AssignChildStep(v, st.obj, i, children, procs);
        var a := AssignChild(v, st.obj, i, children, procs);
        forall j | 0 <= j < |es| && j != i && Fixed(v, o, j)
          ensures Kept(v, o, a.obj, j)
        {
          KeptTrans(v, o, st.obj, a.obj, j);
        }
      }
    }
  }

  /** Past a field whose step succeeds, the walk continues from the instance
      that step returned. */
  lemma AssignFromUnfold(v: Variant, o: Instance, i: nat, children: bool, procs: Procs)
    requires Sound(o) && ProcsSound(procs) && i < |o.klass.mapping.entries|
    ensures var a := AssignField(v, o, i, children, procs);
            var r := AssignFrom(v, o, i, children, procs);
            if a.Raised? then r.Raised? && r.obj == a.obj
            else r.obj == AssignFrom(v, a.obj, i + 1, children, procs).obj &&
                 r.Done? == AssignFrom(v, a.obj, i + 1, children, procs).Done?
  {
  }

  /** One step of the walk over key sets: what the field's step keeps and
      assigns, combined with what the rest of the walk does. */
  lemma AssignStepGlue(es: seq<Descriptor>, o: Instance, a: Run<()>, rest: Run<()>, r: Run<()>, i: nat,
                       lenient: bool)
    requires i < |es|
    requires o.values.Keys <= a.obj.values.Keys
    requires lenient && a.Done? ==> es[i].name in a.obj.values
    requires a.Raised? ==> r.Raised? && r.obj == a.obj
    requires a.Done? ==> r.obj == rest.obj && (r.Done? <==> rest.Done?)
    requires a.Done? ==> a.obj.values.Keys <= rest.obj.values.Keys
    requires a.Done? && lenient && rest.Done? ==> forall j :: i + 1 <= j < |es| ==> es[j].name in rest.obj.values
    ensures o.values.Keys <= r.obj.values.Keys
    ensures lenient && r.Done? ==> forall j :: i <= j < |es| ==> es[j].name in r.obj.values
  {
  }

  /** The walk keeps every assignment, and on success under a lenient state
      leaves every field from `i` on assigned. */
  lemma {:induction false} AssignFromAssigns(v: Variant, o: Instance, i: nat, children: bool, procs: Procs)
    requires Sound(o) && ProcsSound(procs) && i <= |o.klass.mapping.entries|
    ensures o.values.Keys <= AssignFrom(v, o, i, children, procs).obj.values.Keys
    ensures Lenient(o.frozen) && AssignFrom(v, o, i, children, procs).Done? ==>
              forall j :: i <= j < |o.klass.mapping.entries| ==>
                o.klass.mapping.entries[j].name in AssignFrom(v, o, i, children, procs).obj.values
    decreases |o.klass.mapping.entries| - i
  {
    var es := o.klass.mapping.entries;
    if i < |es| {
      AssignFieldAssigns(v, o, i, children, procs);
      AssignFromUnfold(v, o, i, children, procs);
      var a := AssignField(v, o, i, children, procs);
      if a.Done? {
        AssignFromAssigns(v, a.obj, i + 1, children, procs);
        AssignStepGlue(es, o, a, AssignFrom(v, a.obj, i + 1, children, procs), AssignFrom(v, o, i, children, procs),
                       i, Lenient(o.frozen));
      } else {
        AssignStepGlue(es, o, a, a, AssignFrom(v, o, i, children, procs), i, Lenient(o.frozen));
      }
    }
  }

  /** Under a lenient freeze state a successful `assign_defaults!` leaves
      every field assigned, and with `children: true` so does every nested
      instance reached through fields with children whose own state is
      lenient. */
  lemma AssignDefaultsAssignsAll(v: Variant, o: Instance, children: bool, procs: Procs)
    requires Sound(o) && ProcsSound(procs) && Lenient(o.frozen)
    requires AssignDefaults(v, o, children, procs).Done?
    ensures forall j :: 0 <= j < |o.klass.mapping.entries| ==>
              o.klass.mapping.entries[j].name in AssignDefaults(v, o, children, procs).obj.values
    ensures children ==> AssignedTree(AssignDefaults(v, o, children, procs).obj)
  {
    AssignFromAssigns(v, o, 0, children, procs);
    if children {
      AssignDefaultsTree(v, o, procs);
    }
  }

  /** Field `j` of `o` is assigned and, when it has children, holds an
      instance of its composed class whose tree is assigned. */
  predicate AssignedAt(o: Instance, j: nat)
    requires j < |o.klass.mapping.entries|
    decreases o.klass, 0
  {
    var d := o.klass.mapping.entries[j];
    && d.name in o.values
    && (d.meta.children.Some? ==>
          && o.values[d.name].Inst?
          && Composed(o.values[d.name].obj.klass) in d.meta.allowed
          && AssignedTree(o.values[d.name].obj))
  }

  /** Under a lenient freeze state, every field of `o` is assigned as
      `AssignedAt` says; an instance in another state may hold anything. */
  predicate AssignedTree(o: Instance)
    decreases o.klass, 1
  {
    Lenient(o.frozen) ==> forall j :: 0 <= j < |o.klass.mapping.entries| ==> AssignedAt(o, j)
  }

  /** An assigned field that is kept stays assigned the same way. */
  lemma KeptAssigned(v: Variant, o1: Instance, o2: Instance, j: nat)
    requires j < |o1.klass.mapping.entries| && o2.klass == o1.klass
    requires AssignedAt(o1, j) && Kept(v, o1, o2, j)
    ensures AssignedAt(o2, j)
  {
    assert o2.values[o1.klass.mapping.entries[j].name] == Peek(o2, j);
  }

  /** The walk from `i` keeps every field before `i` that computes nothing. */
  lemma {:induction false} AssignFromKeeps(v: Variant, o: Instance, i: nat, children: bool, procs: Procs)
    requires Sound(o) && ProcsSound(procs) && i <= |o.klass.mapping.entries|
    ensures forall j :: 0 <= j < i && Fixed(v, o, j) ==> Kept(v, o, AssignFrom(v, o, i, children, procs).obj, j)
    decreases |o.klass.mapping.entries| - i
  {
    if i < |o.klass.mapping.entries| {
      AssignFieldKeeps(v, o, i, children, procs);
      AssignFromUnfold(v, o, i, children, procs);
      var a := AssignField(v, o, i, children, procs);
      if a.Done? {
        AssignFromKeeps(v, a.obj, i + 1, children, procs);
        KeepsGlue(v, o, a, AssignFrom(v, a.obj, i + 1, children, procs), AssignFrom(v, o, i, children, procs), i);
      } else {
        KeepsGlue(v, o, a, a, AssignFrom(v, o, i, children, procs), i);
      }
    }
  }

  /** One step of the walk over kept fields: what the field's step keeps,
      combined with what the rest of the walk keeps. */
  lemma KeepsGlue(v: Variant, o: Instance, a: Run<()>, rest: Run<()>, r: Run<()>, i: nat)
    requires i < |o.klass.mapping.entries|
    requires a.obj.klass == o.klass && rest.obj.klass == o.klass && r.obj.klass == o.klass
    requires forall j :: 0 <= j < |o.klass.mapping.entries| && j != i && Fixed(v, o, j) ==> Kept(v, o, a.obj, j)
    requires a.Raised? ==> r.obj == a.obj
    requires a.Done? ==> r.obj == rest.obj && forall j :: 0 <= j < i + 1 && Fixed(v, a.obj, j) ==> Kept(v, a.obj, rest.obj, j)
    ensures forall j :: 0 <= j < i && Fixed(v, o, j) ==> Kept(v, o, r.obj, j)
  {
    forall j | 0 <= j < i && Fixed(v, o, j)
      ensures Kept(v, o, r.obj, j)
    {
      if a.Done? {
        KeptTrans(v, o, a.obj, rest.obj, j);
      }
    }
  }

  /** The walk past field `i` keeps it assigned as `AssignedAt` says. */
  lemma AssignFromKeepsAssigned(v: Variant, o: Instance, i: nat, procs: Procs)
    requires Sound(o) && ProcsSound(procs) && i < |o.klass.mapping.entries| && AssignedAt(o, i)
    ensures AssignedAt(AssignFrom(v, o, i + 1, true, procs).obj, i)
  {
    AssignFromKeeps(v, o, i + 1, true, procs);
    KeptAssigned(v, o, AssignFrom(v, o, i + 1, true, procs).obj, i);
  }

  /** One step of the walk: the field's own step and the rest of the walk
      combine into the fields from `i` on. */
  lemma TreeStepGlue(o: Instance, a: Run<()>, rest: Run<()>, r: Run<()>, i: nat)
    requires i < |o.klass.mapping.entries| && r.obj.klass == o.klass && rest.obj.klass == o.klass
    requires a.Raised? ==> r.Raised?
    requires a.Done? ==> r.obj == rest.obj && (r.Done? <==> rest.Done?)
    requires a.Done? && rest.Done? ==>
               AssignedAt(rest.obj, i) && forall j :: i + 1 <= j < |o.klass.mapping.entries| ==> AssignedAt(rest.obj, j)
    ensures r.Done? ==> forall j :: i <= j < |o.klass.mapping.entries| ==> AssignedAt(r.obj, j)
  {
  }

  /** With `children: true`, a successful `assign_defaults!` leaves an
      assigned tree. */
  lemma {:induction false} AssignDefaultsTree(v: Variant, o: Instance, procs: Procs)
    requires Sound(o) && ProcsSound(procs)
    ensures var r := AssignDefaults(v, o, true, procs);
            r.Done? ==> AssignedTree(r.obj)
    decreases o.klass, 3, 0
  {
    if Lenient(o.frozen) {
      AssignFromTree(v, o, 0, procs);
    }
  }

  /** Under a lenient state, a successful walk from `i` with `children:
      true` leaves every field from `i` on assigned as `AssignedAt` says. */
  lemma {:induction false} AssignFromTree(v: Variant, o: Instance, i: nat, procs: Procs)
    requires Sound(o) && ProcsSound(procs) && Lenient(o.frozen) && i <= |o.klass.mapping.entries|
    ensures var r := AssignFrom(v, o, i, true, procs);
            r.Done? ==> forall j :: i <= j < |o.klass.mapping.entries| ==> AssignedAt(r.obj, j)
    decreases o.klass, 2, |o.klass.mapping.entries| - i
  {
    if i < |o.klass.mapping.entries| {
      AssignFromUnfold(v, o, i, true, procs);
      AssignFieldTree(v, o, i, procs);
      var a := AssignField(v, o, i, true, procs);
      if a.Done? {
        AssignFromTree(v, a.obj, i + 1, procs);
        AssignFromKeepsAssigned(v, a.obj, i, procs);
        TreeStepGlue(o, a, AssignFrom(v, a.obj, i + 1, true, procs), AssignFrom(v, o, i, true, procs), i);
      } else {
        TreeStepGlue(o, a, a, AssignFrom(v, o, i, true, procs), i);
      }
    }
  }

  /** Under a lenient state, a successful step over field `i` with
      `children: true` leaves it assigned as `AssignedAt` says. */
  lemma {:induction false} AssignFieldTree(v: Variant, o: Instance, i: nat, procs: Procs)
    requires Sound(o) && ProcsSound(procs) && Lenient(o.frozen) && i < |o.klass.mapping.entries|
    ensures var r := AssignField(v, o, i, true, procs);
            r.Done? ==> AssignedAt(r.obj, i)
    decreases o.klass, 1, 0
  {
    GetAtSound(v, o, i, procs);
    GetSetAssigns(v, o, i, procs);
    var g := GetAt(v, o, i, procs);
    if g.Done? {
      SetAtSound(v, g.obj, i, g.out, procs);
      var st := SetAt(v, g.obj, i, g.out, procs);
      if st.Done? && o.klass.mapping.entries[i].meta.children.Some? {
        AssignChildTree(v, st.obj, i, procs);
      }
    }
  }

  /** Assigning the defaults inside an assigned field's child, when it
      succeeds, leaves the field holding an assigned tree. */
  lemma {:induction false} AssignChildTree(v: Variant, o: Instance, i: nat, procs: Procs)
    requires Sound(o) && ProcsSound(procs) && i < |o.klass.mapping.entries|
    requires o.klass.mapping.entries[i].name in o.values
    ensures var r := AssignChild(v, o, i, true, procs);
            r.Done? ==> AssignedAt(r.obj, i)
    decreases o.klass, 0, 0
  {
    var name := o.klass.mapping.entries[i].name;
    var r := AssignChild(v, o, i, true, procs);
    if r.Done? {
      GetAtSound(v, o, i, procs);
      FixedReadsPeek(v, o, i, procs);
      var y := o.values[name];
      assert GetAt(v, o, i, procs) == Done(o, y, []);
      assert y.Inst?;
      var c := AssignDefaults(v, y.obj, true, procs);
      AssignDefaultsTree(v, y.obj, procs);
      assert r.obj == PutBack(o, name, Inst(c.obj));
    }
  }

  /** A field with no default, no dynamic default and no NilClass among its
      allowed classes reads as nil, which its own setter rejects. */
  lemma NilRejectedAt(v: Variant, o: Instance, t: nat, children: bool, procs: Procs)
    requires t < |o.klass.mapping.entries| && Lenient(o.frozen)
    requires o.klass.mapping.entries[t].default == Unset
    requires !ActiveDynamic(v, o.klass.mapping.entries[t])
    requires o.klass.mapping.entries[t].name !in o.values
    requires Builtin("NilClass") !in o.klass.mapping.entries[t].meta.allowed
    ensures GetAt(v, o, t, procs) == Done(o, Nil, [])
    ensures SetAt(v, o, t, Nil, procs).Raised?
  {
    GateTable(v, o, o.klass.mapping.entries[t].name, procs);
    assert RunValidator(o.klass.mapping.entries[t], Nil, procs) == Ok(false);
  }

  /** Under a lenient freeze state, the step over a field with no default,
      no dynamic default, no NilClass among its allowed classes and no
      assigned value raises. */
  lemma UnsetFieldFails(v: Variant, o: Instance, t: nat, children: bool, procs: Procs)
    requires Sound(o) && ProcsSound(procs) && Lenient(o.frozen)
    requires t < |o.klass.mapping.entries|
    requires o.klass.mapping.entries[t].default == Unset
    requires !ActiveDynamic(v, o.klass.mapping.entries[t])
    requires o.klass.mapping.entries[t].name !in o.values
    requires Builtin("NilClass") !in o.klass.mapping.entries[t].meta.allowed
    ensures AssignField(v, o, t, children, procs).Raised?
  {
    NilRejectedAt(v, o, t, children, procs);
  }

  /** Under a lenient freeze state, the walk from `i` cannot succeed while a
      field at or after `i` has no default, no dynamic default, no NilClass
      among its allowed classes and no assigned value. */
  lemma {:induction false} UnsetFieldBlocksAssignFrom(v: Variant, o: Instance, i: nat, t: nat, children: bool,
                                                      procs: Procs)
    requires Sound(o) && ProcsSound(procs) && Lenient(o.frozen)
    requires i <= t < |o.klass.mapping.entries|
    requires o.klass.mapping.entries[t].default == Unset
    requires !ActiveDynamic(v, o.klass.mapping.entries[t])
    requires o.klass.mapping.entries[t].name !in o.values
    requires Builtin("NilClass") !in o.klass.mapping.entries[t].meta.allowed
    ensures AssignFrom(v, o, i, children, procs).Raised?
    decreases t - i
  {
    if i == t {
      UnsetFieldFails(v, o, t, children, procs);
    } else {
      UnsetFieldStaysUnset(v, o, i, t, children, procs);
      var a := AssignField(v, o, i, children, procs);
      if a.Done? {
        UnsetFieldBlocksAssignFrom(v, a.obj, i + 1, t, children, procs);
      }
    }
    AssignFromRaises(v, o, i, children, procs);
  }

  /** The walk from `i` raises when its first step raises, or when that step
      succeeds and the rest of the walk raises. */
  lemma AssignFromRaises(v: Variant, o: Instance, i: nat, children: bool, procs: Procs)
    requires Sound(o) && ProcsSound(procs) && i < |o.klass.mapping.entries|
    requires var a := AssignField(v, o, i, children, procs);
             a.Raised? || AssignFrom(v, a.obj, i + 1, children, procs).Raised?
    ensures AssignFrom(v, o, i, children, procs).Raised?
  {
    AssignFromUnfold(v, o, i, children, procs);
  }

  /** Assigning an earlier field leaves a field with no default and no
      dynamic default unassigned. */
  lemma UnsetFieldStaysUnset(v: Variant, o: Instance, i: nat, t: nat, children: bool, procs: Procs)
    requires Sound(o) && ProcsSound(procs)
    requires i < t < |o.klass.mapping.entries|
    requires !ActiveDynamic(v, o.klass.mapping.entries[t])
    requires o.klass.mapping.entries[t].name !in o.values
    ensures o.klass.mapping.entries[t].name !in AssignField(v, o, i, children, procs).obj.values
  {
    AssignFieldKeeps(v, o, i, children, procs);
    assert Fixed(v, o, t);
  }

  /** Under a lenient freeze state, `assign_defaults!` raises while a field
      with no default, no dynamic default and no NilClass among its allowed
      classes is unassigned: the getter's nil fails the setter's check. */
  lemma UnsetFieldBlocksAssignDefaults(v: Variant, o: Instance, t: nat, children: bool, procs: Procs)
    requires Sound(o) && ProcsSound(procs) && Lenient(o.frozen)
    requires t < |o.klass.mapping.entries|
    requires o.klass.mapping.entries[t].default == Unset
    requires !ActiveDynamic(v, o.klass.mapping.entries[t])
    requires o.klass.mapping.entries[t].name !in o.values
    requires Builtin("NilClass") !in o.klass.mapping.entries[t].meta.allowed
    ensures AssignDefaults(v, o, children, procs).Raised?
  {
    UnsetFieldBlocksAssignFrom(v, o, 0, t, children, procs);
    assert AssignFrom(v, o, 0, children, procs).Raised?;
  }

  /** Under `:raise`, `assign_defaults!` on a class with any field raises:
      the first write is refused if the first read did not already raise. */
  lemma FrozenRaiseBlocksAssignDefaults(v: Variant, o: Instance, children: bool, procs: Procs)
    requires Sound(o) && ProcsSound(procs) && o.frozen == Behavior(Raise)
    requires |o.klass.mapping.entries| > 0
    ensures AssignDefaults(v, o, children, procs).Raised?
  {
    var g := GetAt(v, o, 0, procs);
    GateTable(v, g.obj, o.klass.mapping.entries[0].name, procs);
    assert AssignField(v, o, 0, children, procs).Raised?;
    assert AssignFrom(v, o, 0, children, procs).Raised?;
  }
}
