/** `ClassComposer::GenerateConfig`: renders a composed class's registry as a
    commented-out Ruby configuration file, one `config.path = default` line
    per plain field, a banner and the nested fields for a field with
    children, and a commented `do |x_config| … end` block for a field
    registered with `add_composer_blocking`. An output line is a list of
    pieces that `Array#join(" ")` puts together. */
module Scaffold {
  import opened Text
  import opened Types
  import opened Mappings
  import opened Registration

  type Line = seq<string>

  /** The `NOTICE` heredoc (its indentation removed, as `<<~` does). */
  const Notice: string :=
    "=begin\n" +
    "This configuration files lists all the configuration options available.\n" +
    "To change the default value, uncomment the line and change the value.\n" +
    "Please take note: Values set as `=` to a config variable are the current default values when none is assigned\n" +
    "=end\n"

  /** The nine hashes either side of a banner's title. */
  const BannerBase: string := "#########"

  /** `prepending(space_count)`: the indentation and the comment mark. */
  function Prepending(n: nat): (r: string)
    ensures |r| == n + 1 && r[n] == '#'
    ensures forall i :: 0 <= i < n ==> r[i] == ' '
  {
    Repeat(' ', n) + "#"
  }

  /** A comment mark indented by at least `n` spaces. */
  predicate Mark(s: string, n: nat)
  {
    |s| >= n + 1 && s[|s| - 1] == '#' && forall i :: 0 <= i < |s| - 1 ==> s[i] == ' '
  }

  /** A line of the scaffold that Ruby would not execute: blank, or starting
      with a comment mark indented by at least `n`. */
  predicate Commented(l: Line, n: nat)
  {
    l == [] || l == [""] || Mark(l[0], n)
  }

  /** `concat_demeter_with_key(key, demeters_deep)`: the dotted call chain. */
  function ConcatDemeter(key: string, path: seq<string>): string
  {
    Join(path + [key], ".")
  }

  /** How `Array#join` turns an element into text: a nested array is joined
      with the same separator, anything else goes through `to_s`. */
  function Piece(v: Value): string
    decreases v, 1
  {
    if v.Arr? then Join(Pieces(v, 0), " ") else ToS(v)
  }

  function Pieces(v: Value, i: nat): (r: seq<string>)
    requires v.Arr?
    ensures |r| == if i <= |v.items| then |v.items| - i else 0
    decreases v, 0, |v.items| - i
  {
    if i >= |v.items| then [] else [Piece(v.items[i])] + Pieces(v, i + 1)
  }

  /** `custom_case(default)`. Without ActiveSupport loaded, the Duration
      branch's class expression falls back to `NilClass`, so a nil default
      is shown as its `inspect`. */
  function CustomCase(d: Value): (r: string)
    ensures d.Sym? ==> r == Inspect(d) && StartsWith(r, ":")
    ensures d == Nil ==> r == "nil"
    ensures !d.Sym? && d != Nil ==> r == Piece(d)
  {
    match d
    case Sym(_) => Inspect(d)
    case Nil => "nil"
    case _ => Piece(d)
  }

  /** The text a plain field's line shows after `=`, in priority order: a
      truthy `default_shown`; a truthy dynamic default (a symbol as the
      referenced field's call chain, a Proc as a fixed note); the default
      in quotes when `String` is allowed; else `custom_case` of it. */
  function RenderedDefault(m: Metadata, path: seq<string>): string
  {
    if m.defaultShown.Some? && Truthy(m.defaultShown.value) then Piece(m.defaultShown.value)
    else if m.dynamicDefault.Some? && Truthy(m.dynamicDefault.value) then
      if m.dynamicDefault.value.Sym? then ConcatDemeter(m.dynamicDefault.value.name, path)
      else " # Proc provided for :dynamic_default parameter. :default_shown parameter not provided"
    else if Builtin("String") in m.allowed then "\"" + ToS(m.default.GetOr(Nil)) + "\""
    else CustomCase(m.default.GetOr(Nil))
  }

  /** `allowed - [ClassComposer::DefaultObject]`. */
  function Without(ts: seq<Tag>, t: Tag): (r: seq<Tag>)
    ensures t !in r
    ensures forall x :: x in r <==> x in ts && x != t
  {
    if |ts| == 0 then []
    else if ts[0] == t then Without(ts[1..], t)
    else [ts[0]] + Without(ts[1..], t)
  }

  function TagNames(ts: seq<Tag>): (r: seq<string>)
    ensures |r| == |ts|
    ensures forall i :: 0 <= i < |ts| ==> r[i] == TagName(ts[i])
  {
    if |ts| == 0 then [] else [TagName(ts[0])] + TagNames(ts[1..])
  }

  /** `Array#to_s` of a list of classes. */
  function AllowedText(allowed: seq<Tag>): string
  {
    "[" + Join(TagNames(Without(allowed, DefaultObjectTag)), ", ") + "]"
  }

  /** The assignment line of a plain field. */
  function AssignmentLine(key: string, m: Metadata, n: nat, path: seq<string>): Line
  {
    [Prepending(n), ConcatDemeter(key, path), "=", RenderedDefault(m, path)]
  }

  /** `spec(...)`: an optional description line naming the allowed classes,
      the assignment line, and a blank line. */
  function Spec(key: string, m: Metadata, n: nat, path: seq<string>): (r: seq<Line>)
    ensures |r| == if m.desc.Some? then 3 else 2
    ensures r[|r| - 2] == AssignmentLine(key, m, n, path) && r[|r| - 1] == [""]
    ensures m.desc.Some? ==> r[0] == [Prepending(n), m.desc.value + ": " + AllowedText(m.allowed)]
    ensures forall l :: l in r ==> Commented(l, n)
  {
    (if m.desc.Some? then [[Prepending(n), m.desc.value + ": " + AllowedText(m.allowed)]] else []) +
    [AssignmentLine(key, m, n, path), [""]]
  }

  /** `spec_child_description(...)`: a boxed banner with the capitalized key,
      then the description, then an empty line. */
  function ChildBanner(n: nat, desc: string, key: string): (r: seq<Line>)
    ensures |r| == 7 && r[6] == []
    ensures forall l :: l in r ==> Commented(l, n)
  {
    var title := Capitalize(key);
    var width := |BannerBase| * 2 + 4 + |title|;
    var p := Prepending(n);
    [ [p, Repeat('#', width)],
      [p, "#" + Repeat(' ', width - 2) + "#"],
      [p, BannerBase + "  " + title + "  " + BannerBase],
      [p, "#" + Repeat(' ', width - 2) + "#"],
      [p, Repeat('#', width)],
      [p, "## " + desc],
      [] ]
  }

  /** `key.to_s.split("_").map(&:capitalize).join(" ")`. */
  function Titled(key: string): string
  {
    Join(CapitalizeAll(Text.Split(key, '_')), " ")
  }

  function CapitalizeAll(ws: seq<string>): (r: seq<string>)
    ensures |r| == |ws|
    ensures forall i :: 0 <= i < |ws| ==> r[i] == Capitalize(ws[i])
  {
    if |ws| == 0 then [] else [Capitalize(ws[0])] + CapitalizeAll(ws[1..])
  }

  /** `values.pop if values[-1] == [""]`. */
  function DropBlank(ls: seq<Line>): (r: seq<Line>)
    ensures |ls| > 0 && ls[|ls| - 1] == [""] ==> r == ls[..|ls| - 1]
    ensures !(|ls| > 0 && ls[|ls| - 1] == [""]) ==> r == ls
  {
    if |ls| > 0 && ls[|ls| - 1] == [""] then ls[..|ls| - 1] else ls
  }

  /** The opening lines of `blocking(...)`: a title, the description, a note
      about the enable flag when there is one, and the `do` line on the
      block method's call chain. */
  function BlockHead(key: string, doBlock: string, m: Metadata, n: nat, path: seq<string>, b: Blocking): (r: seq<Line>)
    ensures 3 <= |r| <= 4
    ensures r[|r| - 1] == [Prepending(n), ConcatDemeter(b.blockName, path), "do", "|" + doBlock + "|"]
    ensures forall l :: l in r ==> Commented(l, n)
  {
    var p := Prepending(n);
    [[p, "### Block to configure " + Titled(key) + " ###"], [p, m.desc.GetOr("")]] +
    (if b.enableAttr.Some?
     then [[p, "When using the block, the " + b.enableAttr.value + " flag will automatically get set to true"]]
     else []) +
    [[p, ConcatDemeter(b.blockName, path), "do", "|" + doBlock + "|"]]
  }

  /** `blocking(...)`: the opening lines, the nested lines (their trailing
      blank line dropped), `end`, and a blank line. */
  function Block(key: string, doBlock: string, m: Metadata, n: nat, path: seq<string>, b: Blocking,
                 inner: seq<Line>): seq<Line>
  {
    DropBlank(BlockHead(key, doBlock, m, n, path, b) + inner) + [[Prepending(n), "end"], [""]]
  }

  /** The name the nested block's parameter gets. */
  function DoBlock(key: string): string
  {
    key + "_config"
  }

  /** `generate(...)` from field `i` on, flattened one level as every caller
      does: the lines of each field in turn. */
  function Lines(reg: Registry, i: nat, n: nat, path: seq<string>): (r: seq<Line>)
    requires i <= |reg.entries|
    ensures forall l :: l in r ==> Commented(l, n)
    decreases reg, 1, |reg.entries| - i
  {
    if i == |reg.entries| then []
    else Entry(reg, i, n, path) + Lines(reg, i + 1, n, path)
  }

  /** The lines of field `i`: a blocking field is rendered as a block over
      its nested class (nothing when it has none); a field with children as
      the banner (when it has a description) and the children's lines under
      the extended call chain; any other field by `spec`. */
  function Entry(reg: Registry, i: nat, n: nat, path: seq<string>): (r: seq<Line>)
    requires i < |reg.entries|
    ensures forall l :: l in r ==> Commented(l, n)
    decreases reg, 0, |reg.entries| - i
  {
    var e := reg.entries[i];
    var m := e.meta;
    assert e in reg.entries;
    if m.blocking.Some? then
      if m.children.Some? then
        var inner := Lines(m.children.value, 0, n + 2, [DoBlock(e.name)]);
        BlockCommented(e.name, DoBlock(e.name), m, n, path, m.blocking.value, inner);
        Block(e.name, DoBlock(e.name), m, n, path, m.blocking.value, inner)
      else []
    else if m.children.Some? then
      (if m.desc.Some? then ChildBanner(n, m.desc.value, e.name) else []) +
      Lines(m.children.value, 0, n, path + [e.name])
    else Spec(e.name, m, n, path)
  }

  /** A block is commented when its nested lines are, at any deeper
      indentation. */
  lemma BlockCommented(key: string, doBlock: string, m: Metadata, n: nat, path: seq<string>, b: Blocking,
                       inner: seq<Line>)
    requires forall l :: l in inner ==> Commented(l, n + 2)
    ensures forall l :: l in Block(key, doBlock, m, n, path, b, inner) ==> Commented(l, n)
  {
    var head := BlockHead(key, doBlock, m, n, path, b);
    var all := head + inner;
    forall l | l in all
      ensures Commented(l, n)
    {
      if l in inner {
        assert Commented(l, n + 2);
      }
    }
    var kept := DropBlank(all);
    assert forall l :: l in kept ==> l in all;
  }

  /** The `require` line, when a file is given. */
  function Header(requireFile: Option<string>): string
  {
    if requireFile.Some? then "require \"" + requireFile.value + "\"\n\n" else ""
  }

  /** The line that opens the wrapping block. */
  function Opening(wrapping: string, configName: string): string
  {
    "\n" + wrapping + " do |" + configName + "|\n"
  }

  /** `flattened_config.pop if flattened_config[-1] == ""`. */
  function Trimmed(body: seq<string>): (r: seq<string>)
    ensures |body| > 0 && body[|body| - 1] == "" ==> r == body[..|body| - 1]
    ensures !(|body| > 0 && body[|body| - 1] == "") ==> r == body
  {
    if |body| > 0 && body[|body| - 1] == "" then body[..|body| - 1] else body
  }

  /** `GenerateConfig.new(instance:).execute(...)`: the class must be a
      composed one; the text is an optional `require` line, the notice, the
      opening of the wrapping block, the generated lines joined by spaces
      (a final blank one dropped), and `end`. */
  function Execute(t: Tag, wrapping: string, requireFile: Option<string>, spaceCount: nat,
                   configName: string): (r: Result<string>)
    ensures r.Ok? <==> t.Composed?
    ensures r.Err? ==> r.failure == Failure(ArgumentError, NotGenerator)
    ensures r.Ok? ==> |r.value| >= 4 && r.value[|r.value| - 4..] == "\nend"
  {
    if !t.Composed? then Err(Failure(ArgumentError, NotGenerator))
    else
      var body := Flatten(Lines(t.klass.mapping, 0, spaceCount, [configName]));
      Ok(Header(requireFile) + Notice + Opening(wrapping, configName) + Join(Trimmed(body), "\n") + "\nend")
  }

  /** `map { _1.join(" ") }`. */
  function Flatten(ls: seq<Line>): (r: seq<string>)
    ensures |r| == |ls|
    ensures forall k :: 0 <= k < |ls| ==> r[k] == Join(ls[k], " ")
  {
    if |ls| == 0 then [] else [Join(ls[0], " ")] + Flatten(ls[1..])
  }
}
