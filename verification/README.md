# class_composer, modelled in Dafny

`class_composer` is a Ruby library for configuration objects. A class that
includes `ClassComposer::Generator` declares typed fields with
`add_composer` (and `add_composer_blocking` for a nested configuration
object that gets a `with_<name>` block method). Each declaration is
validated, recorded in an insertion-ordered registry (`composer_mapping`),
and turned into a getter and a setter:

- The setter asks the freeze gate (`class_composer_frozen!`) whether the
  write may go on. It then validates the value against the allowed classes
  and the custom validator, stores it, marks the field assigned and yields
  to the assignment block.
- The getter returns the assigned value. Failing that, it computes,
  validates and caches a dynamic default. Failing that, it returns the
  static default, with the `DefaultObject` sentinel reading as nil.

Two instance methods act on all fields:

- `class_composer_freeze_objects!` sets the freeze state, optionally in
  every nested child.
- `class_composer_assign_defaults!` feeds every getter's result back
  through the setter, optionally inside the children.

`GenerateConfig` renders a class's registry as a commented-out Ruby
configuration file.

The model is pure and functional:

- Ruby values, classes, registries, instances and freeze states are
  immutable datatypes.
- Each operation returns a `Result` (for class-level operations) or a `Run`
  (for instance-level ones). A `Run` holds the instance afterwards, the
  events, and the return value or the failure.
- Procs (validators, dynamic defaults, freeze callbacks, `invalid_message`)
  are `Proc(id)` values. What they do is a parameter
  `procs: (nat, seq<Value>) -> Verdict`: a return value or an exception,
  decided by the Proc and its arguments. Every property holds for every
  such behaviour. Procs with side effects of their own are not covered
  (see "Left out").

The repository has two copies of the engine. `Variant` selects one:

- `Split` is the current one, `lib/class_composer/generator/class_methods.rb`
  with `instance_methods.rb`, and is the primary model.
- `Legacy` is the older monolithic `lib/class_composer/generator.rb`.

The copies differ in four places, each modelled and each stated by a lemma:

- **Dynamic defaults.** `Legacy` never reads `dynamic_default`. Its getter
  has no dynamic branch, and its mapping has no `:dynamic_default` key
  (`RegistrationFacts.LegacyIgnoresDynamicDefault`, `Accessors.GetAt`).
- **Freeze callback.** The callback receives `(self, key)` in `Split` and
  only `(key)` in `Legacy` (`AccessorFacts.LegacyCallbackSeesOnlyKey`).
- **`default_shown`.** `Split` stores it under its own key. `Legacy` folds a
  truthy one into `:default`, so the scaffold quotes it or shows it through
  `inspect` (`RegistrationFacts.DefaultShownPlacement`,
  `ScaffoldFacts.ShownDefaultByEngine`).
- **Validation.** `Legacy` validates inline in the setter, and `Split` goes
  through `__run_validation_item`. The outcome and the message are the same,
  so `Validation.Validate` serves both.

Modules, in dependency order:

- `Text`: string helpers.
- `Types`: the data model.
- `Mappings`: registry lookups and the invariants registration keeps.
- `Validation`: the validator Proc and `__run_validation_item`.
- `Registration`: `add_composer` and `add_composer_blocking`.
- `Accessors`: the gate, the setter, the getter, the block method and `name?`.
- `Freezing`: `freeze_objects!` and `assign_defaults!`.
- `Scaffold`: `GenerateConfig`.

Properties are proved in `RegistrationFacts`, `AccessorFacts`,
`FreezingFacts` and `ScaffoldFacts`.

Where the code and its documentation disagree, the model follows the code.
`class_composer_freeze_objects!` is described as returning nil. With
`children: true` it returns the result of the final `each`, which is the
mapping (`Freezing.FreezeObjects`, `ReturnedMapping`).

## Model

| member | source | states |
|---|---|---|
| Registration.Normalize | lib/class_composer/generator/class_methods.rb:58-62 | the allowed list always ends with the `DefaultObject` sentinel, after the one given class or after the given list unchanged |
| Registration.AddComposer | lib/class_composer/generator/class_methods.rb:36-77 | on success, exactly one descriptor is appended and the earlier ones are unchanged; the getter and setter are added to the methods; the name was not a method before; the allowed list is normalized with at most one composed class; `children` is that class's mapping; the default passes the field's own validator; a failed `dynamic_default` check decides the error |
| RegistrationFacts.AddComposerKeepsClassOk | lib/class_composer/generator/class_methods.rb:89-103 | registration keeps the class invariant: unique names, every field a method, sentinel-terminated allowed lists, `children` equal to the composed class's mapping, every default fitting its field, and every symbolic dynamic default naming an earlier field |
| RegistrationFacts.ReRegistrationFails | lib/class_composer/generator/class_methods.rb:110-112 | a name that is already an instance method can never be registered |
| RegistrationFacts.SecondRegistrationFails | lib/class_composer/generator/class_methods.rb:105-113 | registering the same name twice in a row always fails the second time |
| RegistrationFacts.DefaultCheckedBeforeName | lib/class_composer/generator/class_methods.rb:105-113 | an invalid default raises `validation_error_klass` even when the name is taken; with a valid default, registration succeeds iff the name is free, and otherwise raises `error_klass` "already defined" |
| RegistrationFacts.ForwardReferenceRejected | lib/class_composer/generator/class_methods.rb:53-55 | a symbolic `dynamic_default` naming a field not yet in the mapping is rejected with the undefined-reference error |
| RegistrationFacts.DynamicDefaultRules | lib/class_composer/generator/class_methods.rb:44-52 | a truthy `default` together with a truthy `dynamic_default` is rejected; a truthy `dynamic_default` that is neither a Proc nor a Symbol is rejected |
| RegistrationFacts.MultipleComposedRejected | lib/class_composer/generator/class_methods.rb:64-66 | more than one composed class among the allowed ones is rejected |
| RegistrationFacts.NonProcValidatorRejected | lib/class_composer/generator/class_methods.rb:209-212 | a truthy `validator:` that is not a Proc is rejected with the field's `error_klass` |
| RegistrationFacts.InstanceIsOpaque | lib/class_composer/generator/class_methods.rb:99 | an instance's string form starts with "#<", so the mapping records its class instead |
| Registration.AddComposerBlocking | lib/class_composer/generator/class_methods.rb:11-34 | a target that is not a composed class is rejected; on success, the field allows only that class and the sentinel, defaults to a new instance of it, records the block name `"#{block_prepend}_#{name}"` and the enable flag, has that class's mapping as children, and adds the block method and, with an enable flag only, `name?` |
| RegistrationFacts.BlockingAcceptedIff | lib/class_composer/generator/class_methods.rb:11-18 | blocking registration over a composed class succeeds iff the name is free, and the mapping records the nested class rather than the default instance |
| RegistrationFacts.AddComposerBlockingKeepsClassOk | lib/class_composer/generator/class_methods.rb:11-18 | blocking registration keeps the class invariant when the nested class satisfies it |
| RegistrationFacts.LegacyIgnoresDynamicDefault | lib/class_composer/generator.rb:117-144 | the older engine's registration does not depend on `dynamic_default` at all |
| RegistrationFacts.DefaultShownPlacement | lib/class_composer/generator.rb:161-167 | the split engine stores `default_shown` under its own key and records an opaque default as its class; the older engine has no `:default_shown` or `:dynamic_default` key and puts a truthy `default_shown` in `:default`, and otherwise records the same default as the split engine |
| Validation.RunValidator | lib/class_composer/generator/class_methods.rb:209-230 | the sentinel passes when allowed; any other value passes iff its exact class is allowed and the custom validator returns a truthy value; a value that passes fits its field; the check raises iff the custom validator raises (a nil validator included), and then raises the field's `error_klass` |
| Validation.ValidatorBypassed | lib/class_composer/generator/class_methods.rb:223-225 | for the sentinel, or a value of a class not allowed, the outcome does not depend on the custom validator, and only the sentinel passes |
| Validation.InvalidSuffix | lib/class_composer/generator.rb:205-208 | with an `invalid_message` Proc, the message suffix is the string form of what the Proc returns for the value, dropped when that is nil, and the Proc's exception propagates; otherwise the suffix is the argument's string form |
| Validation.Validate | lib/class_composer/generator/class_methods.rb:159-168 | valid iff the validator Proc accepts; a validator exception propagates unchanged; an invalid value gives a message naming the field, the allowed classes and the value, with the custom suffix |
| Accessors.Gate | lib/class_composer/generator/instance_methods.rb:6-29 | the gate never changes the instance; it raises iff the state is `:raise` or the callback raises; every warning it emits names the key |
| AccessorFacts.GateTable | lib/class_composer/generator/instance_methods.rb:8-28 | not frozen returns nil and `:log_and_allow` returns true with a warning, and both let the write go on; `:log_and_skip` returns false with a warning; `:raise` raises `Error` naming the class and key; a callback's return value is returned unchanged and its exception propagates, and the write goes on iff the callback returns something other than `false` |
| AccessorFacts.LegacyCallbackSeesOnlyKey | lib/class_composer/generator.rb:25-27 | in the older engine the callback is called with the key alone, so two instances with the same callback decide every write alike |
| Accessors.SetAt | lib/class_composer/generator/class_methods.rb:122-157 | a raising gate raises with nothing changed; a gate returning false returns nil with nothing changed; otherwise the write succeeds iff the value validates, and then stores it, yields `(name, value)` to a given block and returns the value; an invalid value raises `validation_error_klass`, and a validator exception propagates, both with nothing changed |
| AccessorFacts.SetThenGet | lib/class_composer/generator/class_methods.rb:134-174 | a write that goes through returns the value, and the getter then reads it back with nothing to compute |
| AccessorFacts.VetoedWriteChangesNothing | lib/class_composer/generator/class_methods.rb:124-141 | a vetoed write changes nothing and fires no assignment block; a write that raises leaves the instance unchanged |
| Accessors.GetAt | lib/class_composer/generator/class_methods.rb:171-205 | an assigned field returns its value unchanged; a field without a dynamic default in this engine returns nil for the sentinel, else its static default; a Proc dynamic default is called with the instance, and a symbolic one reads the named earlier field (any other name raises `NoMethodError`); the computed value is returned and cached as assigned when it validates, and otherwise raises `validation_error_klass` (or the validator's error) with nothing cached; an exception from the Proc or the named getter propagates; reading never loses an assigned value, and only fields with dynamic defaults become assigned |
| AccessorFacts.GetStable | lib/class_composer/generator/class_methods.rb:174-193 | reading a field twice gives the same value, and the second read changes nothing, because a computed dynamic default is cached |
| AccessorFacts.FreshStaticDefault | lib/class_composer/generator/class_methods.rb:196-204 | on a new instance, a field without a dynamic default reads as its static default, with nil for the sentinel |
| AccessorFacts.FreshSymbolicDefault | lib/class_composer/generator/class_methods.rb:176-193 | in a registered class, a symbolic dynamic default names an earlier field; on a new instance the field reads as that field's value, and afterwards both fields read it |
| AccessorFacts.BlockEnables | lib/class_composer/generator/class_methods.rb:20-33 | after a successful block call on an unfrozen parent and child, with or without a block that does not itself assign the enable flag, `name?` reads true |
| AccessorFacts.WithBlockAtSound | lib/class_composer/generator/class_methods.rb:20-27 | the block method keeps the instance invariant (every stored value fits its field), so freezing and assigning defaults can follow it |
| AccessorFacts.EnabledAtSound | lib/class_composer/generator/class_methods.rb:29-33 | the `name?` query keeps the instance invariant |
| Accessors.WithBlockAt | lib/class_composer/generator/class_methods.rb:20-27 | the block method keeps the class and the freeze state, and touches only its own field (`OnlyTouches`): every other assigned value and every other copy of a default is kept, and any other field that becomes assigned has a dynamic default its getter cached |
| Accessors.EnabledAt | lib/class_composer/generator/class_methods.rb:29-33 | the `name?` query keeps the class and the freeze state and touches only its own field, in the same sense |
| FreezingFacts.FrozenTypesExact | lib/class_composer/generator.rb:7-11 | the behaviour tokens are exactly `:raise`, `:log_and_allow` and `:log_and_skip`, named one to one, and `:raise` is the default type |
| Freezing.FrozenTypeOf | lib/class_composer/generator/instance_methods.rb:56-58 | a behaviour is recognised iff it is a symbol in `FROZEN_TYPES`, and the recognised behaviour is the one that symbol names |
| Freezing.RequestedState | lib/class_composer/generator/instance_methods.rb:45-60 | both a truthy behaviour and a block raise `ArgumentError`, as do neither; an unknown behaviour raises `Error`; the request succeeds exactly for a block without a truthy behaviour, or a known behaviour without a block, and the new state is that block or behaviour |
| Freezing.FreezeObjects | lib/class_composer/generator/instance_methods.rb:44-70 | a bad request raises with the instance unchanged; otherwise the instance takes the requested state; with `children: false` only the state changes and nil is returned; with `children: true` a success returns the mapping |
| FreezingFacts.FreezeReachesChildren | lib/class_composer/generator/instance_methods.rb:62-69 | a successful freeze leaves the instance in the requested state; with `children: true` the whole tree is in that state (`FrozenTree`): at every depth, each field with children reads, without computing anything, as an instance of its composed class in that same state; with `children: false` nothing but the state changes |
| FreezingFacts.AssignDefaultsAssignsAll | lib/class_composer/generator/instance_methods.rb:31-42 | when not frozen or frozen with `:log_and_allow`, a successful `assign_defaults!` leaves every field assigned; with `children: true` the tree is assigned (`AssignedTree`): every field with children holds an instance of its composed class, and each such nested instance whose own state is lenient has every field assigned the same way, at every depth |
| Freezing.AssignDefaults | lib/class_composer/generator/instance_methods.rb:31-42 | `assign_defaults!` returns nil on success and never changes the class or the freeze state, and a sound instance stays sound (every stored value fits its field); what it assigns is stated by `FreezingFacts.AssignDefaultsAssignsAll` |
| FreezingFacts.NilRejectedAt | lib/class_composer/generator/class_methods.rb:204 | when not frozen or frozen with `:log_and_allow`, a field with no default, no dynamic default and no NilClass among its allowed classes reads as nil, which its own setter rejects |
| FreezingFacts.UnsetFieldBlocksAssignDefaults | lib/class_composer/generator/instance_methods.rb:32-35 | when not frozen or frozen with `:log_and_allow`, `assign_defaults!` raises while such a field is unassigned, so it does not always succeed |
| FreezingFacts.FrozenRaiseBlocksAssignDefaults | lib/class_composer/generator/instance_methods.rb:26-34 | under `:raise`, `assign_defaults!` on a class with any field raises |
| Scaffold.Prepending | lib/class_composer/generate_config.rb:135-137 | the indent prefix is `space_count` spaces followed by "#" |
| ScaffoldFacts.DemeterExtends | lib/class_composer/generate_config.rb:139-141 | the call chain is the key alone at the top level, else the enclosing chain, a dot and the key |
| ScaffoldFacts.DemeterRoundTrip | lib/class_composer/generate_config.rb:139-141 | split at its dots, the call chain gives back the enclosing path and the key, when none of them contains a dot |
| ScaffoldFacts.ShownDefaultByEngine | lib/class_composer/generate_config.rb:102-114 | a truthy `default_shown` is shown as given by the split engine; under the older engine it is quoted when String is allowed, shown through `inspect` when it is a symbol, and otherwise shown as the split engine shows it |
| ScaffoldFacts.RenderedDefaultPriority | lib/class_composer/generate_config.rb:102-114 | without a truthy `default_shown`, the split engine shows a fixed note for a Proc dynamic default, the call chain for a symbolic one, and otherwise the recorded default: quoted when String is allowed, through `custom_case` when it is not |
| ScaffoldFacts.DynamicDefaultShowsEarlierField | lib/class_composer/generate_config.rb:104-106 | without `default_shown`, a symbolic dynamic default is shown as the call chain of an earlier field, exactly that field's own assignment target |
| Scaffold.Spec | lib/class_composer/generate_config.rb:99-122 | a plain field gives the description line naming the allowed classes without the sentinel (only when there is a description), then the assignment line, then a blank line, all commented |
| Scaffold.ChildBanner | lib/class_composer/generate_config.rb:68-81 | the banner is seven lines, the last one empty, all commented |
| ScaffoldFacts.BannerFrame | lib/class_composer/generate_config.rb:68-81 | the banner's five frame lines are 2·9 + 4 + the key's length wide; the outer ones are all hashes; the second and fourth are spaces between a hash at each end; the title sits between nine hashes and two spaces each side; then a `## <desc>` line |
| ScaffoldFacts.TitledSingleWord | lib/class_composer/generate_config.rb:86 | a key without underscores is titled by capitalizing it |
| Scaffold.Lines | lib/class_composer/generate_config.rb:39-66 | every generated line is blank or starts with a comment mark indented by at least `space_count` |
| ScaffoldFacts.EntryAt | lib/class_composer/generate_config.rb:39-66 | the generated lines hold each field's lines as one unbroken run, starting right after the lines of the fields declared before it |
| ScaffoldFacts.LinesLength | lib/class_composer/generate_config.rb:39-66 | the generated lines are exactly the fields' lines: their count is the sum of what each field produces |
| ScaffoldFacts.FieldsInOrder | lib/class_composer/generate_config.rb:39-40 | the output follows the mapping's order: every line of an earlier field comes before every line of a later one |
| ScaffoldFacts.EntryCounted | lib/class_composer/generate_config.rb:39-66 | every line a field from the starting one on produces appears in the walk at least as many times as the field produces it |
| ScaffoldFacts.EntryListed | lib/class_composer/generate_config.rb:39-66 | every line of every field from the starting one on appears in the walk |
| ScaffoldFacts.LeafListed | lib/class_composer/generate_config.rb:62-63 | every plain field from the starting one on gets its assignment line |
| ScaffoldFacts.NestedListed | lib/class_composer/generate_config.rb:50-61 | the lines of a field with children are listed at the same indentation under the call chain extended by its key |
| ScaffoldFacts.BlockContains | lib/class_composer/generate_config.rb:83-97 | a block holds its `do` line on the block method's call chain, and every nested line except a final blank one |
| ScaffoldFacts.BlockShape | lib/class_composer/generate_config.rb:83-97 | a block opens with its title line and the description, then the enable-flag note exactly when there is an enable flag, then the `do` line; it closes with `end` and a blank line |
| ScaffoldFacts.BlockListed | lib/class_composer/generate_config.rb:41-46 | a blocking field over a nested class opens a `do` block whose parameter is `<key>_config`, and its nested lines are listed two spaces deeper under the block parameter, a final blank one aside |
| ScaffoldFacts.BlockWithoutChildrenSilent | lib/class_composer/generate_config.rb:47-49 | a blocking field without a nested composed class renders nothing |
| Scaffold.Execute | lib/class_composer/generate_config.rb:14-35 | generation succeeds exactly for composed classes, any other class raises `ArgumentError`, and the generated text ends with the closing `end` line |
| ScaffoldFacts.ExecuteAccepts | lib/class_composer/generate_config.rb:15 | generation succeeds exactly for composed classes; any other class raises `ArgumentError` |
| ScaffoldFacts.ExecuteFrame | lib/class_composer/generate_config.rb:20-35 | the text starts with the `require` line and the notice when a file is given, with the notice otherwise, and ends with the closing `end` |
| ScaffoldFacts.ExecuteBodyCommented | lib/class_composer/generate_config.rb:29-32 | every body line of the generated file is blank or starts with a comment mark indented by at least `space_count` |

## Left out

- Ruby metaprogramming (`define_method`, `public_send`, `method(:x).call`,
  `instance_methods.include?`) is modelled as lookups in the registry and in
  a class's method-name set.
- The singleton `<<` patched onto Array values and defaults is left out. It
  changes no field and no registry; it only makes a later `<<` call the
  setter again.
- Object identity and aliasing are left out. The child instance created
  once by `add_composer_blocking` is shared by every parent in Ruby; here
  each instance holds its own copy, and a child changed in place through a
  getter is written back into that instance (`Accessors.PutBack`).
- `Kernel.warn` output is left out. A logging freeze behaviour records a
  `Warned` event naming the class and key instead of the message text.
- Exception messages are left out. A failure records its error class and a
  structured reason, not the formatted string (`"#{value}"`, `inspect`
  escaping).
- The `(ActiveSupport::Duration rescue NilClass)` branch of `custom_case` is
  modelled as if ActiveSupport were not loaded. ActiveSupport is a foreign
  library. Without it, the branch matches nil and shows `nil`.
- The memoization of the `GenerateConfig` object in
  `composer_generate_config` is left out. It does not change the output.
- Floats, hashes, ranges and other Ruby values are folded into `Other`,
  which has a class name and a string form.
- `lib/class_composer.rb` and `lib/class_composer/default_object.rb` hold no
  logic. They appear as the `ErrorKind` and `Unset` datatypes.
- Accessors.WithBlockAt: the block passed to the block method is modelled as
  a sequence of assignments on the child, not as arbitrary Ruby code.
- Accessors.GetAt: a symbolic dynamic default that names a later field, or
  something that is not a field, raises `NoMethodError` here. Ruby would
  call the named method. This cannot happen in a registered class, because
  registration rejects forward references
  (`RegistrationFacts.ForwardReferenceRejected`,
  `AccessorFacts.FreshSymbolicDefault`).
- Freezing.FreezeObjects: `children:` is a boolean. Ruby also walks the
  children for a non-boolean value other than `false`, such as nil.
- Scaffold.Execute: `space_count` is a natural number. With a negative
  count, Ruby's `String#*` in `prepending` raises `ArgumentError` as soon as
  a line is indented (an empty mapping indents nothing). That error path is
  not modelled.
- Mappings.ChildrenOf: `children` holds at most one registry, because
  registration rejects more than one composed allowed class. The `each` over
  several child mappings in `generate` is therefore a single walk.
- The `add_composer` keyword `**params` is modelled through its three
  meaningful keys: `default`, `dynamic_default` and `invalid_message`.
- Procs are functions of their arguments. A dynamic default or a freeze
  callback that calls setters on the instance it is given, or that keeps
  state of its own between calls, is not modelled. Its effect on the
  instance is lost, and two calls with the same arguments always agree.
- SetAt: the assignment block given to `add_composer` is a `Yielded` event
  that always returns. In Ruby the block runs after the value is stored,
  and an exception from it propagates with the field already set. The
  model does not promise that outcome.
- AddComposer: field names are strings, without Ruby's distinction between
  a Symbol and a String name. Ruby keys `composer_mapping` by the name as
  given, so a Symbol `dynamic_default` naming a field registered under a
  String name is rejected there. The model takes every name as a Symbol
  and accepts it.
- Types.Klass: a class is a value snapshot. In Ruby, `children` holds the
  nested class's live `composer_mapping`, so fields the nested class
  declares after the parent's declaration show up in the parent's
  generated configuration and in the freeze and assign walks. The model
  sees only the fields declared before.
- Types.Klass: a class that allows itself as a composed class cannot be
  written down, because a value cannot contain itself. Ruby accepts that
  registration, and `generate` then recurses until `SystemStackError`.
- Scaffold.ChildBanner and Scaffold.Titled: case mapping is ASCII only. Ruby's
  `capitalize` is Unicode-aware and can change a key's length
  (`"ß".capitalize` is `"Ss"`).
- BannerFrame: the banner width uses the key's length. That equals Ruby's
  `key.capitalize.length` only for keys whose capitalization keeps their
  length, which ASCII keys always do.
- AssignDefaultsAssignsAll: stated for an instance that is not frozen or is
  frozen with `:log_and_allow`. Under `:log_and_skip`, or a callback
  returning `false`, the writes are skipped, so fields may stay unassigned.
  The same holds inside the tree: `AssignedTree` says nothing below a nested
  instance whose own state is not lenient.
- UnsetFieldBlocksAssignDefaults: stated for an instance that is not frozen
  or is frozen with `:log_and_allow`. Under `:log_and_skip`, or a callback
  returning `false`, the skipped write does not raise.
