/**
 * The font catalogue: each font file name is filed under its stem, the part
 * before the first `.`, and the font combobox offers the stems in the order
 * a Python dict keeps its keys (first insertion).
 */
module Fonts {
  import opened Outcomes

  /** Python's `name.split(".")[0]`: everything before the first `.`, or all of it. */
  function Stem(name: string): (r: string)
    ensures |r| <= |name| && r == name[..|r|]
    ensures '.' !in r
    ensures |r| < |name| ==> name[|r|] == '.'
  {
    if name == [] || name[0] == '.' then []
    else [name[0]] + Stem(name[1..])
  }

  /** The stems of a list of font file names, as a set. */
  ghost function Stems(names: seq<string>): set<string>
  {
    set n | n in names :: Stem(n)
  }

  /**
   * `{i.split(".")[0]: i for i in font_names}`: the comprehension inserts the
   * names from left to right, so a later name with the same stem overwrites
   * an earlier one.
   */
  function FontDict(names: seq<string>): (catalog: map<string, string>)
    ensures catalog.Keys == Stems(names)
    ensures forall k :: k in catalog ==> catalog[k] in names && Stem(catalog[k]) == k
    decreases |names|
  {
    if names == [] then map[]
    else
      var last := names[|names| - 1];
      var init := names[..|names| - 1];
      assert names == init + [last];
      FontDict(init)[Stem(last) := last]
  }

  /** A name no later name shares a stem with is the one its stem maps to. */
  lemma {:induction false} FontDictLastWins(names: seq<string>, i: nat)
    requires i < |names|
    requires forall j :: i < j < |names| ==> Stem(names[j]) != Stem(names[i])
    ensures Stem(names[i]) in FontDict(names)
    ensures FontDict(names)[Stem(names[i])] == names[i]
    decreases |names|
  {
    var init := names[..|names| - 1];
    if i < |names| - 1 {
      assert forall j :: i < j < |init| ==> init[j] == names[j];
      FontDictLastWins(init, i);
      assert init[i] == names[i];
    }
  }

  /**
   * `list(font_dict.keys())`: a Python dict keeps the position of a key's
   * first insertion when the key is later overwritten, so the options are
   * the distinct stems in order of first appearance.
   */
  function FontOptions(names: seq<string>): (options: seq<string>)
    ensures forall i, j :: 0 <= i < j < |options| ==> options[i] != options[j]
    ensures forall o :: o in options <==> o in Stems(names)
    decreases |names|
  {
    if names == [] then []
    else
      var last := names[|names| - 1];
      var init := names[..|names| - 1];
      assert names == init + [last];
      var earlier := FontOptions(init);
      if Stem(last) in earlier then earlier else earlier + [Stem(last)]
  }

  /** Every option the combobox offers resolves to a font file in the catalogue. */
  lemma OptionsResolve(names: seq<string>, o: string)
    requires o in FontOptions(names)
    ensures o in FontDict(names) && Stem(FontDict(names)[o]) == o
  {
  }

  /** Adding names never reorders or drops the options already offered. */
  lemma {:induction false} FontOptionsKeepOrder(names: seq<string>, k: nat)
    requires k <= |names|
    ensures FontOptions(names[..k]) <= FontOptions(names)
    decreases |names| - k
  {
    if k < |names| {
      FontOptionsKeepOrder(names, k + 1);
      var longer := names[..k + 1];
      assert longer[..k] == names[..k];
      assert FontOptions(names[..k]) <= FontOptions(longer);
    } else {
      assert names[..k] == names;
    }
  }

  /** Python's `font_dict.get(name)`. */
  function FontFile(catalog: map<string, string>, name: string): (r: Option<string>)
    ensures r.Some? <==> name in catalog
    ensures r.Some? ==> r.value == catalog[name]
  {
    if name in catalog then Some(catalog[name]) else None
  }

  /** `current(5)` on the combobox: the sixth option, which fails when there are fewer. */
  function DefaultFont(options: seq<string>, index: nat): (r: Option<string>)
    ensures r.Some? <==> index < |options|
    ensures r.Some? ==> r.value == options[index] && r.value in options
  {
    if index < |options| then Some(options[index]) else None
  }
}
