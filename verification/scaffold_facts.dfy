/** Properties of the generated configuration scaffold: call chains read back
    as the path they were built from, banners are rectangular, every line is
    commented out, every plain field (directly, nested, or inside a block)
    gets its assignment line, and where the two engines' mappings render
    differently. */
module ScaffoldFacts {
  import opened Text
  import opened Types
  import opened Mappings
  import opened Registration
  import opened RegistrationFacts
  import opened Scaffold

  /** Joining one more part appends the separator and the part. */
  lemma {:induction false} JoinSnoc(xs: seq<string>, y: string, sep: string)
    requires |xs| > 0
    ensures Join(xs + [y], sep) == Join(xs, sep) + sep + y
    decreases |xs|
  {
    if |xs| == 1 {
      assert (xs + [y])[1..] == [y];
    } else {
      assert (xs + [y])[1..] == xs[1..] + [y];
      JoinSnoc(xs[1..], y, sep);
    }
  }

  /** A call chain is the chain so far, a dot, and the key. */
  lemma DemeterExtends(key: string, path: seq<string>)
    ensures path == [] ==> ConcatDemeter(key, path) == key
    ensures path != [] ==> ConcatDemeter(key, path) == Join(path, ".") + "." + key
  {
    if path != [] {
      JoinSnoc(path, key, ".");
    } else {
      assert path + [key] == [key];
    }
  }

  /** A string without the separator is a single field. */
  lemma {:induction false} FieldsWhole(a: string, c: char)
    requires c !in a
    ensures Fields(a, c) == [a]
    decreases |a|
  {
    if |a| > 0 {
      FieldsWhole(a[1..], c);
      assert [a[0]] + a[1..] == a;
    }
  }

  /** Splitting at the first separator. */
  lemma {:induction false} FieldsCons(a: string, c: char, b: string)
    requires c !in a
    ensures Fields(a + [c] + b, c) == [a] + Fields(b, c)
    decreases |a|
  {
    var s := a + [c] + b;
    if |a| == 0 {
      assert s == [c] + b && s[1..] == b;
    } else {
      assert s[0] == a[0] && s[1..] == a[1..] + [c] + b;
      FieldsCons(a[1..], c, b);
      assert [a[0]] + a[1..] == a;
    }
  }

  /** Splitting a chain joined with a separator no part contains gives the
      parts back. */
  lemma {:induction false} FieldsOfJoin(parts: seq<string>, c: char)
    requires |parts| > 0
    requires forall k :: 0 <= k < |parts| ==> c !in parts[k]
    ensures Fields(Join(parts, [c]), c) == parts
    decreases |parts|
  {
    if |parts| == 1 {
      FieldsWhole(parts[0], c);
    } else {
      FieldsOfJoin(parts[1..], c);
      FieldsCons(parts[0], c, Join(parts[1..], [c]));
      assert [parts[0]] + parts[1..] == parts;
    }
  }

  /** The call chain `concat_demeter_with_key` builds reads back, split at
      its dots, as the path and the key, when none of them contains a dot. */
  lemma DemeterRoundTrip(key: string, path: seq<string>)
    requires '.' !in key
    requires forall k :: 0 <= k < |path| ==> '.' !in path[k]
    ensures Fields(ConcatDemeter(key, path), '.') == path + [key]
  {
    var parts := path + [key];
    assert forall k :: 0 <= k < |parts| ==> '.' !in parts[k] by {
      forall k | 0 <= k < |parts| ensures '.' !in parts[k] {
        if k < |path| {
          assert parts[k] == path[k];
        }
      }
    }
    assert "." == ['.'];
    FieldsOfJoin(parts, '.');
  }

  /** A key without underscores is titled by capitalizing it. */
  lemma TitledSingleWord(key: string)
    requires |key| > 0 && '_' !in key
    ensures Titled(key) == Capitalize(key)
  {
    FieldsWhole(key, '_');
    assert Text.Split(key, '_') == [key];
  }

  /** The banner is a rectangle: its four frame lines and its title line
      are equally wide, 22 characters plus the key; the outer ones are all
      hashes, the two inner ones are spaces between a hash at each end, and
      the title sits between nine hashes and two spaces on each side. */
  lemma BannerFrame(n: nat, desc: string, key: string)
    ensures var b := ChildBanner(n, desc, key);
            var w := 22 + |key|;
            && (forall k :: 0 <= k < 5 ==> |b[k]| == 2 && b[k][0] == Prepending(n) && |b[k][1]| == w)
            && (forall c :: 0 <= c < w ==> b[0][1][c] == '#' && b[4][1][c] == '#')
            && b[1][1][0] == '#' && b[1][1][w - 1] == '#'
            && b[3][1][0] == '#' && b[3][1][w - 1] == '#'
            && (forall c :: 0 < c < w - 1 ==> b[1][1][c] == ' ' && b[3][1][c] == ' ')
            && b[2][1][..11] == BannerBase + "  "
            && b[2][1][11..11 + |key|] == Capitalize(key)
            && b[2][1][11 + |key|..] == "  " + BannerBase
            && b[5] == [Prepending(n), "## " + desc]
  {
    var b := ChildBanner(n, desc, key);
    var t := Capitalize(key);
    assert b[2][1] == BannerBase + "  " + t + "  " + BannerBase;
    assert b[2][1][..11] == BannerBase + "  ";
    assert b[2][1][11..11 + |key|] == t;
    assert b[2][1][11 + |key|..] == "  " + BannerBase;
  }

  /** The walk from `i` is field `i`'s lines followed by the walk from
      `i + 1`. */
  lemma LinesCons(reg: Registry, i: nat, n: nat, path: seq<string>)
    requires i < |reg.entries|
    ensures Lines(reg, i, n, path) == Entry(reg, i, n, path) + Lines(reg, i + 1, n, path)
  {
  }

  /** The number of lines each field produces, in mapping order. */
  function Sizes(reg: Registry, n: nat, path: seq<string>): (r: seq<nat>)
    ensures |r| == |reg.entries|
    ensures forall k :: 0 <= k < |r| ==> r[k] == |Entry(reg, k, n, path)|
  {
    seq(|reg.entries|, k requires 0 <= k < |reg.entries| => |Entry(reg, k, n, path)|)
  }

  /** `xs[i] + ... + xs[j - 1]`. */
  function Sum(xs: seq<nat>, i: nat, j: nat): nat
    requires i <= j <= |xs|
    decreases j - i
  {
    if i == j then 0 else xs[i] + Sum(xs, i + 1, j)
  }

  lemma {:induction false} SumSplit(xs: seq<nat>, i: nat, j: nat, k: nat)
    requires i <= j <= k <= |xs|
    ensures Sum(xs, i, k) == Sum(xs, i, j) + Sum(xs, j, k)
    decreases j - i
  {
    if i < j {
      SumSplit(xs, i + 1, j, k);
    }
  }

  /** How many lines the fields from `i` up to, not including, `j` produce. */
  function Offset(reg: Registry, i: nat, j: nat, n: nat, path: seq<string>): nat
    requires i <= j <= |reg.entries|
  {
    Sum(Sizes(reg, n, path), i, j)
  }

  lemma OffsetCons(reg: Registry, i: nat, j: nat, n: nat, path: seq<string>)
    requires i < j <= |reg.entries|
    ensures Offset(reg, i, j, n, path) == |Entry(reg, i, n, path)| + Offset(reg, i + 1, j, n, path)
  {
  }

  lemma SliceGlue(a: seq<Line>, b: seq<Line>, w: seq<Line>, x: seq<Line>, k: nat, at: nat)
    requires w == a + b && k + |x| <= |b| && b[k..k + |x|] == x && at == |a| + k
    ensures at + |x| <= |w| && w[at..at + |x|] == x
  {
    assert w[|a| + k..|a| + k + |x|] == b[k..k + |x|];
  }

  lemma PrefixGlue(a: seq<Line>, b: seq<Line>, w: seq<Line>)
    requires w == a + b
    ensures |a| <= |w| && w[0..|a|] == a
  {
  }

  /** The walk from `i` holds the lines of field `j` as one run, right after
      the lines of the fields between `i` and `j`. */
  lemma {:induction false} EntryAt(reg: Registry, i: nat, j: nat, n: nat, path: seq<string>)
    requires i <= j < |reg.entries|
    ensures Offset(reg, i, j, n, path) + |Entry(reg, j, n, path)| <= |Lines(reg, i, n, path)|
    ensures Lines(reg, i, n, path)[Offset(reg, i, j, n, path)..Offset(reg, i, j, n, path) + |Entry(reg, j, n, path)|]
              == Entry(reg, j, n, path)
    decreases j - i
  {
    LinesCons(reg, i, n, path);
    if i < j {
      EntryAt(reg, i + 1, j, n, path);
      OffsetCons(reg, i, j, n, path);
      SliceGlue(Entry(reg, i, n, path), Lines(reg, i + 1, n, path), Lines(reg, i, n, path),
                Entry(reg, j, n, path), Offset(reg, i + 1, j, n, path), Offset(reg, i, j, n, path));
    } else {
      PrefixGlue(Entry(reg, i, n, path), Lines(reg, i + 1, n, path), Lines(reg, i, n, path));
    }
  }

  /** The walk from `i` is made of the fields' lines and nothing else. */
  lemma {:induction false} LinesLength(reg: Registry, i: nat, n: nat, path: seq<string>)
    requires i <= |reg.entries|
    ensures |Lines(reg, i, n, path)| == Offset(reg, i, |reg.entries|, n, path)
    decreases |reg.entries| - i
  {
    if i < |reg.entries| {
      LinesCons(reg, i, n, path);
      LinesLength(reg, i + 1, n, path);
      OffsetCons(reg, i, |reg.entries|, n, path);
      LengthGlue(Entry(reg, i, n, path), Lines(reg, i + 1, n, path), Lines(reg, i, n, path),
                 Offset(reg, i + 1, |reg.entries|, n, path), Offset(reg, i, |reg.entries|, n, path));
    }
  }

  lemma LengthGlue(a: seq<Line>, b: seq<Line>, w: seq<Line>, rest: nat, total: nat)
    requires w == a + b && |b| == rest && total == |a| + rest
    ensures |w| == total
  {
  }

  /** The walk follows the mapping's order: every line of an earlier field
      comes before every line of a later one. */
  lemma FieldsInOrder(reg: Registry, j: nat, k: nat, n: nat, path: seq<string>)
    requires j < k < |reg.entries|
    ensures Offset(reg, 0, j, n, path) + |Entry(reg, j, n, path)| <= Offset(reg, 0, k, n, path)
  {
    SumSplit(Sizes(reg, n, path), 0, j, k);
    OffsetCons(reg, j, k, n, path);
  }

  /** The lines of every field from `i` on appear in the walk from `i`, as
      many times at least as the field produces them. */
  lemma {:induction false} EntryCounted(reg: Registry, i: nat, j: nat, n: nat, path: seq<string>)
    requires i <= j < |reg.entries|
    ensures multiset(Entry(reg, j, n, path)) <= multiset(Lines(reg, i, n, path))
    decreases j - i
  {
    LinesCons(reg, i, n, path);
    if i < j {
      EntryCounted(reg, i + 1, j, n, path);
      CountedGlue(Entry(reg, i, n, path), Lines(reg, i + 1, n, path), Lines(reg, i, n, path),
                  Entry(reg, j, n, path), false);
    } else {
      CountedGlue(Entry(reg, i, n, path), Lines(reg, i + 1, n, path), Lines(reg, i, n, path),
                  Entry(reg, j, n, path), true);
    }
  }

  lemma CountedGlue(e: seq<Line>, rest: seq<Line>, whole: seq<Line>, x: seq<Line>, same: bool)
    requires whole == e + rest
    requires same ==> x == e
    requires !same ==> multiset(x) <= multiset(rest)
    ensures multiset(x) <= multiset(whole)
  {
  }

  /** The lines of every field from `i` on appear in the walk from `i`. */
  lemma EntryListed(reg: Registry, i: nat, j: nat, n: nat, path: seq<string>)
    requires i <= j < |reg.entries|
    ensures forall l :: l in Entry(reg, j, n, path) ==> l in Lines(reg, i, n, path)
  {
    EntryCounted(reg, i, j, n, path);
    SubMultisetIn(Entry(reg, j, n, path), Lines(reg, i, n, path));
  }

  lemma SubMultisetIn(x: seq<Line>, y: seq<Line>)
    requires multiset(x) <= multiset(y)
    ensures forall l :: l in x ==> l in y
  {
    forall l | l in x
      ensures l in y
    {
      assert l in multiset(x);
    }
  }

  /** Every plain field from `i` on gets its assignment line. */
  lemma LeafListed(reg: Registry, i: nat, j: nat, n: nat, path: seq<string>)
    requires i <= j < |reg.entries|
    requires reg.entries[j].meta.blocking.None? && reg.entries[j].meta.children.None?
    ensures AssignmentLine(reg.entries[j].name, reg.entries[j].meta, n, path) in Lines(reg, i, n, path)
  {
    var e := reg.entries[j];
    var sp := Spec(e.name, e.meta, n, path);
    assert Entry(reg, j, n, path) == sp;
    assert sp[|sp| - 2] in sp;
    EntryListed(reg, i, j, n, path);
  }

  /** The fields of a field with children (not a blocking one) are listed
      at the same indentation under the call chain extended by its key. */
  lemma NestedListed(reg: Registry, i: nat, j: nat, n: nat, path: seq<string>)
    requires i <= j < |reg.entries|
    requires reg.entries[j].meta.blocking.None? && reg.entries[j].meta.children.Some?
    ensures forall l :: l in Lines(reg.entries[j].meta.children.value, 0, n, path + [reg.entries[j].name]) ==>
              l in Lines(reg, i, n, path)
  {
    EntryListed(reg, i, j, n, path);
  }

  /** The frame `DropBlank(head + inner) + tail` keeps the head in front, the
      nested lines after it (a final blank one aside) and the tail at the end. */
  lemma FrameLayout(head: seq<Line>, inner: seq<Line>, tail: seq<Line>, blk: seq<Line>)
    requires |head| > 0 && head[|head| - 1] != [""]
    requires blk == DropBlank(head + inner) + tail
    ensures |blk| >= |head| + |tail|
    ensures forall k :: 0 <= k < |head| ==> blk[k] == head[k]
    ensures forall k :: 0 <= k < |inner| - 1 ==> blk[|head| + k] == inner[k]
    ensures |inner| > 0 && inner[|inner| - 1] != [""] ==> blk[|head| + |inner| - 1] == inner[|inner| - 1]
    ensures forall k :: 0 <= k < |tail| ==> blk[|blk| - |tail| + k] == tail[k]
  {
    var all := head + inner;
    var kept := DropBlank(all);
    assert |kept| >= |head|;
    forall k | 0 <= k < |head|
      ensures blk[k] == head[k]
    {
      assert kept[k] == all[k];
    }
    forall k | 0 <= k < |inner| - 1
      ensures blk[|head| + k] == inner[k]
    {
      assert kept[|head| + k] == all[|head| + k];
    }
  }

  /** A block holds its `do` line and every nested line but a final blank
      one. */
  lemma BlockContains(key: string, doBlock: string, m: Metadata, n: nat, path: seq<string>, b: Blocking,
                      inner: seq<Line>)
    ensures [Prepending(n), ConcatDemeter(b.blockName, path), "do", "|" + doBlock + "|"]
              in Block(key, doBlock, m, n, path, b, inner)
    ensures forall k :: 0 <= k < |inner| - 1 ==> inner[k] in Block(key, doBlock, m, n, path, b, inner)
    ensures |inner| > 0 && inner[|inner| - 1] != [""] ==> inner[|inner| - 1] in Block(key, doBlock, m, n, path, b, inner)
  {
    var head := BlockHead(key, doBlock, m, n, path, b);
    var blk := Block(key, doBlock, m, n, path, b, inner);
    FrameLayout(head, inner, [[Prepending(n), "end"], [""]], blk);
    assert blk[|head| - 1] == head[|head| - 1];
    forall k | 0 <= k < |inner| - 1
      ensures inner[k] in blk
    {
      assert blk[|head| + k] == inner[k];
    }
    if |inner| > 0 && inner[|inner| - 1] != [""] {
      assert blk[|head| + |inner| - 1] == inner[|inner| - 1];
    }
  }

  /** A block opens with its title and the description, then the note about
      the enable flag when there is one, then the `do` line, and closes with
      `end` and a blank line. */
  lemma BlockShape(key: string, doBlock: string, m: Metadata, n: nat, path: seq<string>, b: Blocking,
                   inner: seq<Line>)
    ensures var blk := Block(key, doBlock, m, n, path, b, inner);
            var p := Prepending(n);
            var opening := [p, ConcatDemeter(b.blockName, path), "do", "|" + doBlock + "|"];
            && |blk| >= 5
            && blk[0] == [p, "### Block to configure " + Titled(key) + " ###"]
            && blk[1] == [p, m.desc.GetOr("")]
            && (b.enableAttr.Some? ==>
                  blk[2] == [p, "When using the block, the " + b.enableAttr.value +
                                " flag will automatically get set to true"] &&
                  blk[3] == opening)
            && (b.enableAttr.None? ==> blk[2] == opening)
            && blk[|blk| - 2] == [p, "end"] && blk[|blk| - 1] == [""]
  {
    var head := BlockHead(key, doBlock, m, n, path, b);
    var tail := [[Prepending(n), "end"], [""]];
    var blk := Block(key, doBlock, m, n, path, b, inner);
    FrameLayout(head, inner, tail, blk);
    assert blk[0] == head[0] && blk[1] == head[1] && blk[2] == head[2];
    assert |head| == 4 ==> blk[3] == head[3];
    assert blk[|blk| - 2] == tail[0] && blk[|blk| - 1] == tail[1];
  }

  /** A blocking field over a nested class opens a `do` block on its block
      method, and lists the nested class's lines two spaces deeper under the
      block parameter (a final blank one aside). */
  lemma BlockListed(reg: Registry, i: nat, j: nat, n: nat, path: seq<string>)
    requires i <= j < |reg.entries|
    requires reg.entries[j].meta.blocking.Some? && reg.entries[j].meta.children.Some?
    ensures var e := reg.entries[j];
            [Prepending(n), ConcatDemeter(e.meta.blocking.value.blockName, path), "do", "|" + DoBlock(e.name) + "|"]
              in Lines(reg, i, n, path)
    ensures var e := reg.entries[j];
            var inner := Lines(e.meta.children.value, 0, n + 2, [DoBlock(e.name)]);
            forall k :: 0 <= k < |inner| - 1 ==> inner[k] in Lines(reg, i, n, path)
    ensures var e := reg.entries[j];
            var inner := Lines(e.meta.children.value, 0, n + 2, [DoBlock(e.name)]);
            |inner| > 0 && inner[|inner| - 1] != [""] ==> inner[|inner| - 1] in Lines(reg, i, n, path)
  {
    var e := reg.entries[j];
    var inner := Lines(e.meta.children.value, 0, n + 2, [DoBlock(e.name)]);
    assert Entry(reg, j, n, path) == Block(e.name, DoBlock(e.name), e.meta, n, path, e.meta.blocking.value, inner);
    BlockContains(e.name, DoBlock(e.name), e.meta, n, path, e.meta.blocking.value, inner);
    EntryListed(reg, i, j, n, path);
  }

  /** A blocking field without a nested composed class renders nothing. */
  lemma BlockWithoutChildrenSilent(reg: Registry, j: nat, n: nat, path: seq<string>)
    requires j < |reg.entries|
    requires reg.entries[j].meta.blocking.Some? && reg.entries[j].meta.children.None?
    ensures Entry(reg, j, n, path) == []
    ensures Lines(reg, j, n, path) == Lines(reg, j + 1, n, path)
  {
  }

  /** A symbolic dynamic default is shown as the call chain of the field it
      names, which (in a well-formed registry) is an earlier field's own
      assignment target. */
  lemma DynamicDefaultShowsEarlierField(reg: Registry, j: nat, n: nat, path: seq<string>)
    requires WellFormed(reg) && j < |reg.entries|
    requires !(reg.entries[j].meta.defaultShown.Some? && Truthy(reg.entries[j].meta.defaultShown.value))
    requires reg.entries[j].meta.dynamicDefault.Some? && reg.entries[j].meta.dynamicDefault.value.Sym?
    ensures exists k :: 0 <= k < j &&
              RenderedDefault(reg.entries[j].meta, path) ==
              AssignmentLine(reg.entries[k].name, reg.entries[k].meta, n, path)[1]
  {
    assert EntryOk(reg, j);
    var x := reg.entries[j].meta.dynamicDefault.value;
    var k :| 0 <= k < j && reg.entries[k].name == x.name;
    assert AssignmentLine(reg.entries[k].name, reg.entries[k].meta, n, path)[1] == ConcatDemeter(x.name, path);
  }

  /** With a truthy `default_shown`, the split engine's mapping shows it
      through `to_s`; the older engine folds it into `:default`, so it is
      quoted when `String` is allowed and shown as `inspect` when it is a
      symbol. */
  lemma ShownDefaultByEngine(decl: Declaration, path: seq<string>)
    requires Truthy(decl.defaultShown)
    ensures RenderedDefault(MetadataOf(Split, decl, Normalize(decl.allowed)), path) == Piece(decl.defaultShown)
    ensures Builtin("String") in Normalize(decl.allowed) ==>
              RenderedDefault(MetadataOf(Legacy, decl, Normalize(decl.allowed)), path) ==
              "\"" + ToS(decl.defaultShown) + "\""
    ensures Builtin("String") !in Normalize(decl.allowed) && decl.defaultShown.Sym? ==>
              RenderedDefault(MetadataOf(Legacy, decl, Normalize(decl.allowed)), path) ==
              ":" + decl.defaultShown.name
    ensures Builtin("String") !in Normalize(decl.allowed) && !decl.defaultShown.Sym? ==>
              RenderedDefault(MetadataOf(Legacy, decl, Normalize(decl.allowed)), path) ==
              RenderedDefault(MetadataOf(Split, decl, Normalize(decl.allowed)), path)
  {
    DefaultShownPlacement(decl);
  }

  /** Without a truthy `default_shown`, what the split engine shows after
      `=` for a plain field: a fixed note for a Proc dynamic default, the
      referenced field's call chain for a symbolic one, and otherwise the
      recorded default, quoted when `String` is allowed and through
      `custom_case` when it is not. */
  lemma RenderedDefaultPriority(decl: Declaration, path: seq<string>)
    requires !Truthy(decl.defaultShown)
    ensures var r := RenderedDefault(MetadataOf(Split, decl, Normalize(decl.allowed)), path);
            var recorded := Recorded(Split, decl.defaultShown, DefaultOf(decl));
            && (decl.dynamicDefault.Proc? ==>
                  r == " # Proc provided for :dynamic_default parameter. :default_shown parameter not provided")
            && (decl.dynamicDefault.Sym? ==> r == ConcatDemeter(decl.dynamicDefault.name, path))
            && (!Truthy(decl.dynamicDefault) && Builtin("String") in Normalize(decl.allowed) ==>
                  r == "\"" + ToS(recorded) + "\"")
            && (!Truthy(decl.dynamicDefault) && Builtin("String") !in Normalize(decl.allowed) ==>
                  r == CustomCase(recorded))
  {
    var recorded := Recorded(Split, decl.defaultShown, DefaultOf(decl));
    assert Compact(recorded).GetOr(Nil) == recorded;
  }

  /** A joined line starts with its first piece. */
  lemma JoinStarts(parts: seq<string>, sep: string)
    requires |parts| > 0
    ensures StartsWith(Join(parts, sep), parts[0])
  {
    if |parts| > 1 {
      assert Join(parts, sep) == parts[0] + (sep + Join(parts[1..], sep));
    }
  }

  /** `GenerateConfig` accepts exactly the composed classes. */
  lemma ExecuteAccepts(t: Tag, wrapping: string, requireFile: Option<string>, spaceCount: nat, configName: string)
    ensures Execute(t, wrapping, requireFile, spaceCount, configName).Ok? <==> t.Composed?
    ensures !t.Composed? ==> Execute(t, wrapping, requireFile, spaceCount, configName) ==
                             Err(Failure(ArgumentError, NotGenerator))
  {
  }

  /** A string starts with any prefix it was built from. */
  lemma StartsWithConcat(a: string, b: string)
    ensures StartsWith(a + b, a)
  {
    assert (a + b)[..|a|] == a;
  }

  /** A prefix stays a prefix when more is appended. */
  lemma StartsWithExtend(s: string, p: string, q: string)
    requires StartsWith(s, p)
    ensures StartsWith(s + q, p)
  {
    assert (s + q)[..|p|] == s[..|p|];
  }

  /** The text starts with the `require` line when a file is given and
      with the notice otherwise, and ends with `end`. */
  lemma ExecuteFrame(t: Tag, wrapping: string, requireFile: Option<string>, spaceCount: nat, configName: string)
    requires t.Composed?
    ensures var s := Execute(t, wrapping, requireFile, spaceCount, configName).value;
            && (requireFile.Some? ==> StartsWith(s, "require \"" + requireFile.value + "\"\n\n" + Notice))
            && (requireFile.None? ==> StartsWith(s, Notice))
            && |s| >= 4 && s[|s| - 4..] == "\nend"
  {
    var body := Flatten(Lines(t.klass.mapping, 0, spaceCount, [configName]));
    var h := Header(requireFile) + Notice;
    var o := Opening(wrapping, configName);
    var j := Join(Trimmed(body), "\n");
    StartsWithConcat(h, o);
    StartsWithExtend(h + o, h, j);
    StartsWithExtend(h + o + j, h, "\nend");
    if requireFile.None? {
      assert h == Notice;
    }
  }

  /** Every line of the generated body is blank or starts with a comment
      mark indented at least `space_count`. */
  lemma ExecuteBodyCommented(k: Klass, spaceCount: nat, configName: string)
    ensures var body := Flatten(Lines(k.mapping, 0, spaceCount, [configName]));
            forall j :: 0 <= j < |body| ==> body[j] == "" || exists w :: Mark(w, spaceCount) && StartsWith(body[j], w)
  {
    var ls := Lines(k.mapping, 0, spaceCount, [configName]);
    var body := Flatten(ls);
    forall j | 0 <= j < |body|
      ensures body[j] == "" || exists w :: Mark(w, spaceCount) && StartsWith(body[j], w)
    {
      assert ls[j] in ls;
      assert Commented(ls[j], spaceCount);
      if ls[j] != [] && ls[j] != [""] {
        JoinStarts(ls[j], " ");
      }
    }
  }
}
