/** The validator pipeline a field runs on its default at registration and on
    every assigned or dynamically computed value: the sentinel bypass, the
    exact-class check, the custom validator with its exceptions re-raised,
    and the failure message with its custom suffix. */
module Validation {
  import opened Types
  import opened Mappings

  /** What the custom validator says of a value whose class is allowed. */
  predicate CustomAccepts(c: Check, v: Value, procs: Procs)
  {
    match c
    case AcceptAll => true
    case UserValidator(id) => procs(id, [v]).Returned? && Truthy(procs(id, [v]).v)
    case NilValidator => false
  }

  /** The Proc built by `__composer_validator_proc__`: the sentinel passes
      without running the custom validator; any other value passes iff its
      exact class is allowed and the custom validator returns a truthy
      value; an exception inside the custom validator (calling a nil
      validator included) is re-raised as the field's `error_klass`. */
  function RunValidator(d: Descriptor, value: Value, procs: Procs): (r: Result<bool>)
    ensures value == Unset && DefaultObjectTag in d.meta.allowed ==> r == Ok(true)
    ensures value != Unset && ClassOf(value) !in d.meta.allowed ==> r == Ok(false)
    ensures r == Ok(true) <==>
              (value == Unset && DefaultObjectTag in d.meta.allowed) ||
              (ClassOf(value) in d.meta.allowed && CustomAccepts(d.check, value, procs))
    ensures r == Ok(true) ==> Fits(d, value)
    ensures r.Err? <==>
              !(value == Unset && DefaultObjectTag in d.meta.allowed) && ClassOf(value) in d.meta.allowed &&
              (d.check.NilValidator? || (d.check.UserValidator? && procs(d.check.id, [value]).Threw?))
    ensures r.Err? ==> r.failure.kind == d.errorKlass && r.failure.reason.ValidatorRaised?
  {
    if value == Unset && DefaultObjectTag in d.meta.allowed then Ok(true)
    else if ClassOf(value) !in d.meta.allowed then Ok(false)
    else
      match d.check
      case AcceptAll => Ok(true)
      case NilValidator => Err(Failure(d.errorKlass, ValidatorRaised(d.name, "undefined method 'call' for nil")))
      case UserValidator(id) =>
        match procs(id, [value])
        case Returned(x) => Ok(Truthy(x))
        case Threw(m) => Err(Failure(d.errorKlass, ValidatorRaised(d.name, m)))
  }

  /** The custom part of the failure message: the `invalid_message` Proc
      applied to the value (a nil result is compacted away), or the
      `invalid_message` argument's string form (empty when none was given). */
  function InvalidSuffix(d: Descriptor, value: Value, procs: Procs): (r: Result<Option<string>>)
    ensures !d.invalidMessage.Proc? ==> r == Ok(Some(ToS(d.invalidMessage)))
    ensures d.invalidMessage.Proc? ==>
              (r.Err? <==> procs(d.invalidMessage.id, [value]).Threw?)
    ensures r.Err? ==> r.failure.kind == UserRaised
    ensures d.invalidMessage.Proc? && r.Ok? ==>
              (r.value.None? <==> procs(d.invalidMessage.id, [value]).v == Nil)
    ensures d.invalidMessage.Proc? && procs(d.invalidMessage.id, [value]).Returned? &&
            procs(d.invalidMessage.id, [value]).v != Nil ==>
              r == Ok(Some(ToS(procs(d.invalidMessage.id, [value]).v)))
  {
    match d.invalidMessage
    case Proc(id) =>
      (match procs(id, [value])
       case Returned(x) => Ok(if x == Nil then None else Some(ToS(x)))
       case Threw(m) => Err(Failure(UserRaised, ProcRaised(m))))
    case _ => Ok(Some(ToS(d.invalidMessage)))
  }

  datatype Checked = Valid | Invalid(reason: Reason)

  /** `__run_validation_item`: valid, or the failure message naming the
      field, its allowed classes and the value, with the custom suffix. */
  function Validate(d: Descriptor, value: Value, procs: Procs): (r: Result<Checked>)
    ensures r == Ok(Valid) <==> RunValidator(d, value, procs) == Ok(true)
    ensures r == Ok(Valid) ==> Fits(d, value)
    ensures RunValidator(d, value, procs).Err? ==> r == Err(RunValidator(d, value, procs).failure)
    ensures r.Ok? && r.value.Invalid? ==>
              RunValidator(d, value, procs) == Ok(false) &&
              r.value.reason.InvalidValue? &&
              r.value.reason.name == d.name && r.value.reason.allowed == d.meta.allowed &&
              r.value.reason.value == value &&
              Ok(r.value.reason.suffix) == InvalidSuffix(d, value, procs)
  {
    match RunValidator(d, value, procs)
    case Err(f) => Err(f)
    case Ok(ok) =>
      if ok then Ok(Valid)
      else
        match InvalidSuffix(d, value, procs)
        case Err(f) => Err(f)
        case Ok(suffix) => Ok(Invalid(InvalidValue(d.name, d.meta.allowed, value, suffix)))
  }

  /** The custom validator is never consulted for the sentinel or for a value
      whose class is not allowed: any two Proc behaviours agree there. */
  lemma ValidatorBypassed(d: Descriptor, value: Value, p1: Procs, p2: Procs)
    requires DefaultObjectTag in d.meta.allowed
    requires value == Unset || ClassOf(value) !in d.meta.allowed
    ensures RunValidator(d, value, p1) == RunValidator(d, value, p2)
    ensures value == Unset <==> RunValidator(d, value, p1) == Ok(true)
  {
    assert ClassOf(Unset) != DefaultObjectTag;
  }
}
