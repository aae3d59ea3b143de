/** Properties of registration: the class invariant it keeps (which makes
    dynamic-default resolution well founded by declaration index), the order
    in which it rejects declarations, and where the two engines differ. */
module RegistrationFacts {
  import opened Types
  import opened Mappings
  import opened Validation
  import opened Registration

  /** Appending a field with a fresh name keeps names unique. */
  lemma AppendUnique(reg: Registry, d: Descriptor)
    requires UniqueNames(reg) && d.name !in Names(reg)
    ensures UniqueNames(Registry(reg.entries + [d]))
  {
    var es1 := reg.entries + [d];
    forall i, j | 0 <= i < j < |es1| ensures es1[i].name != es1[j].name {
      if j == |reg.entries| {
        assert Names(reg)[i] == reg.entries[i].name;
      }
    }
  }

  /** Appending a field keeps every earlier field's entry invariant. */
  lemma AppendKeepsEntryOk(reg: Registry, d: Descriptor, i: nat)
    requires i < |reg.entries| && EntryOk(reg, i)
    ensures EntryOk(Registry(reg.entries + [d]), i)
  {
    var es := reg.entries;
    var es1 := es + [d];
    assert es1[i] == es[i];
    match es[i].meta.dynamicDefault
    case None =>
    case Some(x) =>
      if Truthy(x) && !x.Proc? {
        var j :| 0 <= j < i && es[j].name == x.name;
        assert es1[j] == es[j];
      }
  }

  /** A class stays well formed when a field that is well formed in the
      extended registry, with a fresh name that becomes a method, is
      appended. */
  lemma AppendKeepsClassOk(k: Klass, k1: Klass, d: Descriptor)
    requires ClassOk(k)
    requires k1.mapping.entries == k.mapping.entries + [d]
    requires k.methods <= k1.methods && d.name in k1.methods && d.name !in k.methods
    requires EntryOk(k1.mapping, |k.mapping.entries|)
    requires d.default.Inst? ==> ClassOf(d.default) in d.meta.allowed && Sound(d.default.obj)
    ensures ClassOk(k1)
  {
    var es := k.mapping.entries;
    var es1 := k1.mapping.entries;
    assert d.name !in Names(k.mapping) by {
      forall i | 0 <= i < |es| ensures Names(k.mapping)[i] != d.name {
        assert es[i].name in k.methods;
      }
    }
    AppendUnique(k.mapping, d);
    assert k1.mapping == Registry(es + [d]);
    forall i | 0 <= i < |es1| ensures EntryOk(k1.mapping, i) {
      if i < |es| {
        AppendKeepsEntryOk(k.mapping, d, i);
      }
    }
    forall i | 0 <= i < |es1| ensures es1[i].name in k1.methods {
      if i < |es| {
        assert es1[i] == es[i];
      }
    }
    forall i | 0 <= i < |es1| && es1[i].default.Inst?
      ensures ClassOf(es1[i].default) in es1[i].meta.allowed && Sound(es1[i].default.obj)
    {
      if i < |es| {
        assert es1[i] == es[i];
      }
    }
  }

  /** Registration keeps every class invariant: unique names, the sentinel
      last in every allowed list, at most one composed class, `children`
      equal to that class's mapping, every default fitting its field, and
      every symbolic dynamic default naming a field declared before it. */
  lemma AddComposerKeepsClassOk(v: Variant, k: Klass, decl: Declaration, procs: Procs)
    requires ClassOk(k)
    requires SoundValue(DefaultOf(decl))
    requires AddComposer(v, k, decl, procs).Ok?
    ensures ClassOk(AddComposer(v, k, decl, procs).value)
  {
    var k1 := AddComposer(v, k, decl, procs).value;
    var es := k.mapping.entries;
    var es1 := k1.mapping.entries;
    var n := |es|;
    var d := es1[n];
    assert es1 == es + [d];
    assert EntryOk(k1.mapping, n) by {
      match d.meta.dynamicDefault
      case None =>
      case Some(x) =>
        assert v == Split && x == decl.dynamicDefault;
        if Truthy(x) && !x.Proc? {
          assert x.Sym? && x.name in Names(k.mapping);
          var j :| 0 <= j < n && Names(k.mapping)[j] == x.name;
          assert es1[j].name == x.name;
        }
    }
    AppendKeepsClassOk(k, k1, d);
  }

  /** A new instance of a class built by registration is sound. */
  lemma BlockingDefaultSound(ck: Klass)
    requires ClassOk(ck)
    ensures SoundValue(Inst(New(ck)))
  {
    NewSound(ck);
  }

  /** `add_composer_blocking` keeps the class invariant when the nested class
      keeps it. */
  lemma AddComposerBlockingKeepsClassOk(v: Variant, k: Klass, name: string, composer: Tag, desc: Option<string>,
                                        blockPrepend: string, enableAttr: Option<string>, procs: Procs)
    requires ClassOk(k)
    requires composer.Composed? ==> ClassOk(composer.klass)
    requires AddComposerBlocking(v, k, name, composer, desc, blockPrepend, enableAttr, procs).Ok?
    ensures ClassOk(AddComposerBlocking(v, k, name, composer, desc, blockPrepend, enableAttr, procs).value)
  {
    var b := Blocking(BlockName(blockPrepend, name), enableAttr);
    var decl := BlockingDeclaration(name, composer.klass, desc, b);
    BlockingDefaultSound(composer.klass);
    AddComposerKeepsClassOk(v, k, decl, procs);
  }

  /** A field name that is already a method (every registered field is one)
      can never be registered again. */
  lemma ReRegistrationFails(v: Variant, k: Klass, decl: Declaration, procs: Procs)
    requires decl.name in k.methods
    ensures AddComposer(v, k, decl, procs).Err?
  {
  }

  /** Registering a name twice in a row always fails. */
  lemma SecondRegistrationFails(v: Variant, k: Klass, first: Declaration, second: Declaration, procs: Procs)
    requires AddComposer(v, k, first, procs).Ok?
    requires second.name == first.name
    ensures AddComposer(v, AddComposer(v, k, first, procs).value, second, procs).Err?
  {
    ReRegistrationFails(v, AddComposer(v, k, first, procs).value, second, procs);
  }

  /** The default is validated before the name is checked: an invalid
      default is reported as such even when the name is taken, and a taken
      name with a valid default is reported as already defined. */
  lemma DefaultCheckedBeforeName(v: Variant, k: Klass, decl: Declaration, check: Check, procs: Procs)
    requires DynamicRejection(v, k, decl).None?
    requires |ComposedTags(Normalize(decl.allowed))| <= 1
    requires CheckOf(decl.validator) == Some(check)
    ensures RunValidator(Draft(v, decl, check), DefaultOf(decl), procs) == Ok(false) ==>
              AddComposer(v, k, decl, procs) == Err(Failure(decl.validationErrorKlass, InvalidDefault(decl.name)))
    ensures RunValidator(Draft(v, decl, check), DefaultOf(decl), procs) == Ok(true) ==>
              (AddComposer(v, k, decl, procs).Ok? <==> decl.name !in k.methods)
    ensures RunValidator(Draft(v, decl, check), DefaultOf(decl), procs) == Ok(true) && decl.name in k.methods ==>
              AddComposer(v, k, decl, procs) == Err(Failure(decl.errorKlass, AlreadyDefined(decl.name)))
  {
  }

  /** A symbolic dynamic default must name a field already in the mapping:
      a forward reference is rejected. */
  lemma ForwardReferenceRejected(k: Klass, decl: Declaration, procs: Procs)
    requires decl.dynamicDefault.Sym?
    requires decl.dynamicDefault.name !in Names(k.mapping)
    requires !Truthy(decl.default.GetOr(Nil))
    ensures AddComposer(Split, k, decl, procs) ==
              Err(Failure(ComposerError, UndefinedDynamicDefault(decl.name, decl.dynamicDefault.name)))
  {
  }

  /** A truthy `default` together with a truthy `dynamic_default` is rejected,
      and so is a dynamic default that is neither a Proc nor a Symbol. */
  lemma DynamicDefaultRules(k: Klass, decl: Declaration, procs: Procs)
    ensures Truthy(decl.default.GetOr(Nil)) && Truthy(decl.dynamicDefault) ==>
              AddComposer(Split, k, decl, procs) == Err(Failure(ComposerError, BothDefaults(decl.name)))
    ensures !Truthy(decl.default.GetOr(Nil)) && Truthy(decl.dynamicDefault) &&
            !decl.dynamicDefault.Proc? && !decl.dynamicDefault.Sym? ==>
              AddComposer(Split, k, decl, procs) == Err(Failure(ComposerError, BadDynamicDefault(decl.name)))
  {
  }

  /** More than one composed class among the allowed ones is rejected. */
  lemma MultipleComposedRejected(v: Variant, k: Klass, decl: Declaration, procs: Procs)
    requires DynamicRejection(v, k, decl).None?
    requires |ComposedTags(Normalize(decl.allowed))| > 1
    ensures AddComposer(v, k, decl, procs) == Err(Failure(ComposerError, MultipleComposed))
  {
  }

  /** A truthy `validator:` that is not a Proc is rejected with the field's
      `error_klass`. */
  lemma NonProcValidatorRejected(v: Variant, k: Klass, decl: Declaration, procs: Procs)
    requires DynamicRejection(v, k, decl).None?
    requires |ComposedTags(Normalize(decl.allowed))| <= 1
    requires decl.validator.Some? && Truthy(decl.validator.value) && !decl.validator.value.Proc?
    ensures AddComposer(v, k, decl, procs) == Err(Failure(decl.errorKlass, ValidatorNotProc))
  {
  }

  /** An instance's string form starts with "#<". */
  lemma InstanceIsOpaque(o: Instance)
    ensures IsOpaque(Inst(o))
  {
    var s := ToS(Inst(o));
    assert s[..2] == "#<";
  }

  /** Blocking registration over a composed class fails only on a taken
      name, and the mapping records the nested class rather than the
      default instance. */
  lemma BlockingAcceptedIff(v: Variant, k: Klass, name: string, ck: Klass, desc: Option<string>,
                            blockPrepend: string, enableAttr: Option<string>, procs: Procs)
    ensures AddComposerBlocking(v, k, name, Composed(ck), desc, blockPrepend, enableAttr, procs).Ok? <==>
              name !in k.methods
    ensures AddComposerBlocking(v, k, name, Composed(ck), desc, blockPrepend, enableAttr, procs).Ok? ==>
              var es := AddComposerBlocking(v, k, name, Composed(ck), desc, blockPrepend, enableAttr, procs).value.mapping.entries;
              es[|es| - 1].meta.default == Some(ClassVal(Composed(ck)))
  {
    var b := Blocking(BlockName(blockPrepend, name), enableAttr);
    var decl := BlockingDeclaration(name, ck, desc, b);
    assert ComposedTags([Composed(ck), DefaultObjectTag]) == [ck];
    InstanceIsOpaque(New(ck));
    assert DynamicRejection(v, k, decl).None?;
    assert RunValidator(Draft(v, decl, AcceptAll), DefaultOf(decl), procs) == Ok(true);
  }

  /** The older engine never reads `dynamic_default`. */
  lemma LegacyIgnoresDynamicDefault(k: Klass, decl: Declaration, procs: Procs)
    ensures AddComposer(Legacy, k, decl, procs) == AddComposer(Legacy, k, decl.(dynamicDefault := Nil), procs)
  {
  }

  /** Where `default_shown` goes: the split engine stores it under its own
      key and records the (class of an opaque) default; the older engine
      folds a truthy `default_shown` into the `:default` entry. */
  lemma DefaultShownPlacement(decl: Declaration)
    ensures MetadataOf(Split, decl, Normalize(decl.allowed)).defaultShown == Compact(decl.defaultShown)
    ensures MetadataOf(Legacy, decl, Normalize(decl.allowed)).defaultShown == None
    ensures MetadataOf(Legacy, decl, Normalize(decl.allowed)).dynamicDefault == None
    ensures Truthy(decl.defaultShown) ==>
              MetadataOf(Legacy, decl, Normalize(decl.allowed)).default == Some(decl.defaultShown)
    ensures !Truthy(decl.defaultShown) ==>
              MetadataOf(Legacy, decl, Normalize(decl.allowed)).default ==
              MetadataOf(Split, decl, Normalize(decl.allowed)).default
    ensures IsOpaque(DefaultOf(decl)) ==>
              MetadataOf(Split, decl, Normalize(decl.allowed)).default == Some(ClassVal(ClassOf(DefaultOf(decl))))
  {
  }
}
