/**
 * Drawing templates (src/utils/TemplateManager.js): a name -> template dictionary with six built-in
 * templates that delete, update and import must not touch, and a favourites list with a toggle.
 * localStorage is modelled by two fields holding the last stored copy of each key.
 */
module Templates {
  import opened Wrappers

  /** An option value: a number, a string (colours) or a list of numbers (Fibonacci levels). */
  datatype OptionValue = Num(n: real) | Text(s: string) | Nums(ns: seq<real>)

  type Options = map<string, OptionValue>

  /** One template; the three time stamps are ISO strings, present only once set. */
  datatype Template = Template(
    id: string, name: string, tool: string, options: Options, isDefault: bool, icon: string,
    createdAt: Option<string>, updatedAt: Option<string>, importedAt: Option<string>)

  function BuiltIn(id: string, name: string, tool: string, options: Options, icon: string): Template {
    Template(id, name, tool, options, true, icon, None, None, None)
  }

  /** The names of the built-in templates. */
  const DefaultNames: seq<string> :=
    ["Support/Resistance", "Fibonacci Golden", "Bullish Pattern", "Bearish Pattern", "Key Level", "Trend Channel"]

  /** The built-in template stored under `name` (the six names of DefaultNames; no other name is used). */
  function BuiltInFor(name: string): (r: Template)
    ensures r.isDefault && r.name == name && r.createdAt.None?
  {
    if name == "Support/Resistance" then
      BuiltIn("default_sr", name, "horizontal",
        map["color" := Text("#2196F3"), "lineWidth" := Num(2.0)], "\U{1F4CA}")
    else if name == "Fibonacci Golden" then
      BuiltIn("default_fib", name, "fibonacci",
        map["color" := Text("#FF9800"), "lineWidth" := Num(2.0),
            "levels" := Nums([0.0, 0.236, 0.382, 0.5, 0.618, 0.786, 1.0])], "\U{1F531}")
    else if name == "Bullish Pattern" then
      BuiltIn("default_bull", name, "trendline",
        map["color" := Text("#4CAF50"), "lineWidth" := Num(2.0), "fillColor" := Text("rgba(76, 175, 80, 0.1)")], "\U{1F4C8}")
    else if name == "Bearish Pattern" then
      BuiltIn("default_bear", name, "trendline",
        map["color" := Text("#F23645"), "lineWidth" := Num(2.0), "fillColor" := Text("rgba(242, 54, 69, 0.1)")], "\U{1F4C9}")
    else if name == "Key Level" then
      BuiltIn("default_key", name, "horizontal",
        map["color" := Text("#FFEB3B"), "lineWidth" := Num(3.0)], "\U{2B50}")
    else
      BuiltIn("default_channel", name, "parallel_channel",
        map["color" := Text("#9C27B0"), "lineWidth" := Num(2.0), "fillColor" := Text("rgba(156, 39, 176, 0.1)")], "\U{1F4D0}")
  }

  /** getDefaultTemplates: every built-in template is marked default and stored under its own name. */
  function Defaults(): (r: map<string, Template>)
    ensures forall n :: n in r <==> n in DefaultNames
    ensures forall n :: n in r ==> r[n].isDefault && r[n].name == n
  {
    map n | n in DefaultNames :: BuiltInFor(n)
  }

  /** loadTemplates: the stored dictionary when it parses to an object (None: no item, unparseable
      text or a parsed value that is not an object), else the built-in templates. */
  function LoadTemplates(stored: Option<map<string, Template>>): (r: map<string, Template>)
    ensures stored.Some? ==> r == stored.value
    ensures stored.None? ==> forall n :: n in r ==> r[n].isDefault
  {
    if stored.Some? then stored.value else Defaults()
  }

  /** A partial template given to updateTemplate: each present field replaces the stored one. */
  datatype TemplateUpdate = TemplateUpdate(
    id: Option<string>, name: Option<string>, tool: Option<string>, options: Option<Options>,
    isDefault: Option<bool>, icon: Option<string>, createdAt: Option<string>, importedAt: Option<string>)

  const NoChanges := TemplateUpdate(None, None, None, None, None, None, None, None)

  /** `{...t, ...u, updatedAt: stamp}` */
  function Merge(t: Template, u: TemplateUpdate, stamp: string): (r: Template)
    ensures r.updatedAt == Some(stamp)
    ensures u.tool.Some? ==> r.tool == u.tool.value
    ensures u.tool.None? ==> r.tool == t.tool
    ensures u.options.Some? ==> r.options == u.options.value
    ensures u.options.None? ==> r.options == t.options
    ensures u.isDefault.Some? ==> r.isDefault == u.isDefault.value
    ensures u.isDefault.None? ==> r.isDefault == t.isDefault
    ensures u.id.Some? ==> r.id == u.id.value
    ensures u.id.None? ==> r.id == t.id
    ensures u.name.Some? ==> r.name == u.name.value
    ensures u.name.None? ==> r.name == t.name
    ensures u.icon.Some? ==> r.icon == u.icon.value
    ensures u.icon.None? ==> r.icon == t.icon
    ensures u.createdAt.Some? ==> r.createdAt == u.createdAt
    ensures u.createdAt.None? ==> r.createdAt == t.createdAt
    ensures u.importedAt.Some? ==> r.importedAt == u.importedAt
    ensures u.importedAt.None? ==> r.importedAt == t.importedAt
  {
    Template(
      u.id.GetOr(t.id), u.name.GetOr(t.name), u.tool.GetOr(t.tool), u.options.GetOr(t.options),
      u.isDefault.GetOr(t.isDefault), u.icon.GetOr(t.icon),
      if u.createdAt.Some? then u.createdAt else t.createdAt,
      Some(stamp),
      if u.importedAt.Some? then u.importedAt else t.importedAt)
  }

  /** An empty update only stamps the template. */
  lemma MergeNothingOnlyStamps(t: Template, stamp: string)
    ensures Merge(t, NoChanges, stamp) == t.(updatedAt := Some(stamp))
  {
  }

  /** What applyTemplate returns: the tool and a copy of the options. */
  datatype Applied = Applied(tool: string, options: Options)

  /** One element of an imported array: Missing is null or undefined (reading its name throws);
      every other element is read as a template whose empty name or tool stands for a missing or falsy
      field, with `hasOptions` telling whether `options` is present. */
  datatype ImportItem = Missing | Item(t: Template, hasOptions: bool)

  /** The argument of importTemplates: a string that is not JSON, a value that is not an array, or an
      array. */
  datatype ImportInput = Unparseable | NonArray | Entries(items: seq<ImportItem>)

  predicate Importable(item: ImportItem) {
    item.Item? && item.t.name != "" && item.t.tool != "" && item.hasOptions
  }

  /** The effect of one array element on the dictionary. */
  function ImportEntry(m: map<string, Template>, item: ImportItem, stamp: string): (r: map<string, Template>)
    // well-formed entries are stored under their name unless a default holds that name
    ensures Importable(item) && !(item.t.name in m && m[item.t.name].isDefault) ==>
      r == m[item.t.name := item.t.(isDefault := false, importedAt := Some(stamp))]
    // anything else leaves the dictionary as it was
    ensures !Importable(item) || (item.t.name in m && m[item.t.name].isDefault) ==> r == m
  {
    if Importable(item) && !(item.t.name in m && m[item.t.name].isDefault) then
      m[item.t.name := item.t.(isDefault := false, importedAt := Some(stamp))]
    else m
  }

  /** The dictionary after importing a sequence of elements in order. */
  function ImportAll(m: map<string, Template>, items: seq<ImportItem>, stamp: string): map<string, Template>
  {
    if items == [] then m
    else ImportEntry(ImportAll(m, items[..|items| - 1], stamp), items[|items| - 1], stamp)
  }

  /** The position of the first null element, where forEach throws. */
  function FirstMissing(items: seq<ImportItem>): (r: Option<nat>)
    ensures r.Some? ==> r.value < |items| && items[r.value].Missing? && forall j :: 0 <= j < r.value ==> items[j].Item?
    ensures r.None? ==> forall j :: 0 <= j < |items| ==> items[j].Item?
  {
    if items == [] then None
    else if items[0].Missing? then Some(0)
    else
      var rest := FirstMissing(items[1..]);
      if rest.Some? then Some(rest.value + 1) else None
  }

  /** An import never replaces or removes a default template. */
  lemma {:induction false} ImportKeepsDefaults(m: map<string, Template>, items: seq<ImportItem>, stamp: string)
    ensures forall n :: n in m && m[n].isDefault ==> n in ImportAll(m, items, stamp) && ImportAll(m, items, stamp)[n] == m[n]
  {
    if items != [] {
      ImportKeepsDefaults(m, items[..|items| - 1], stamp);
    }
  }

  /** Every entry an import writes is custom and stamped; the rest is what was there before, and only
      names of well-formed elements are added. */
  lemma {:induction false} ImportWritesCustom(m: map<string, Template>, items: seq<ImportItem>, stamp: string)
    ensures var r := ImportAll(m, items, stamp);
      forall n :: n in r ==>
        (n in m && r[n] == m[n]) || (!r[n].isDefault && r[n].importedAt == Some(stamp) && r[n].name == n)
    ensures var r := ImportAll(m, items, stamp);
      forall n :: n in r && n !in m ==> exists i :: 0 <= i < |items| && Importable(items[i]) && items[i].t.name == n
  {
    if items != [] {
      var init := items[..|items| - 1];
      ImportWritesCustom(m, init, stamp);
      var r := ImportAll(m, items, stamp);
      forall n | n in r && n !in m
        ensures exists i :: 0 <= i < |items| && Importable(items[i]) && items[i].t.name == n
      {
        if n in ImportAll(m, init, stamp) {
          var i :| 0 <= i < |init| && Importable(init[i]) && init[i].t.name == n;
          assert items[i] == init[i];
        } else {
          assert items[|items| - 1].t.name == n;
        }
      }
    }
  }

  /** indexOf: the first position of n, or -1. */
  function IndexOf(xs: seq<string>, n: string): (r: int)
    ensures -1 <= r < |xs|
    ensures r == -1 <==> n !in xs
    ensures r >= 0 ==> xs[r] == n && n !in xs[..r]
  {
    if xs == [] then -1
    else if xs[0] == n then 0
    else
      var k := IndexOf(xs[1..], n);
      assert xs[1..][..if k < 0 then 0 else k] == xs[1..if k < 0 then 1 else k + 1];
      if k == -1 then -1 else k + 1
  }

  /** The favourites list after toggleFavorite(n): n appended if absent, its first occurrence spliced
      out if present. */
  function Toggled(xs: seq<string>, n: string): (r: seq<string>)
    ensures n !in xs ==> r == xs + [n]
    ensures n in xs ==> |r| == |xs| - 1 && multiset(r) == multiset(xs) - multiset{n}
    // the first occurrence goes; the names before it and after it keep their order
    ensures n in xs ==> var i := IndexOf(xs, n); r[..i] == xs[..i] && r[i..] == xs[i + 1..]
  {
    var i := IndexOf(xs, n);
    if i == -1 then xs + [n]
    else
      assert xs == xs[..i] + [n] + xs[i + 1..];
      xs[..i] + xs[i + 1..]
  }

  /** Toggling an absent name twice gives the original list back. */
  lemma ToggleTwiceRestores(xs: seq<string>, n: string)
    requires n !in xs
    ensures Toggled(Toggled(xs, n), n) == xs
  {
    var ys := xs + [n];
    assert ys[..|xs|] == xs;
    assert IndexOf(ys, n) == |xs|;
  }

  ghost predicate Distinct(xs: seq<string>) {
    forall i, j :: 0 <= i < j < |xs| ==> xs[i] != xs[j]
  }

  /** On a list without repetitions the toggle flips membership of n, keeps the list free of
      repetitions, and touches no other name. */
  lemma ToggleFlips(xs: seq<string>, n: string)
    requires Distinct(xs)
    ensures (n in Toggled(xs, n)) <==> n !in xs
    ensures forall m :: m != n ==> (m in Toggled(xs, n) <==> m in xs)
    ensures Distinct(Toggled(xs, n))
  {
    if n in xs {
      var i := IndexOf(xs, n);
      assert Toggled(xs, n) == xs[..i] + xs[i + 1..];
      SpliceDropsOnly(xs, i);
    } else {
      AppendFreshDistinct(xs, n);
    }
  }

  /** Splicing out position i of a list without repetitions removes exactly the element there. */
  lemma SpliceDropsOnly(xs: seq<string>, i: nat)
    requires Distinct(xs) && i < |xs|
    ensures forall m :: m in xs[..i] + xs[i + 1..] <==> m in xs && m != xs[i]
    ensures Distinct(xs[..i] + xs[i + 1..])
  {
    var r := xs[..i] + xs[i + 1..];
    assert forall k :: 0 <= k < |r| ==> r[k] == xs[if k < i then k else k + 1];
    forall m | m in xs && m != xs[i]
      ensures m in r
    {
      var j :| 0 <= j < |xs| && xs[j] == m;
      assert r[if j < i then j else j - 1] == m;
    }
  }

  /** Appending a name the list lacks keeps it free of repetitions. */
  lemma AppendFreshDistinct(xs: seq<string>, n: string)
    requires Distinct(xs) && n !in xs
    ensures Distinct(xs + [n])
  {
    var r := xs + [n];
    forall a, b | 0 <= a < b < |r|
      ensures r[a] != r[b]
    {
      if b == |xs| {
        assert r[a] == xs[a];
      }
    }
  }

  class TemplateManager {
    var templates: map<string, Template>
    /** The value last written under tv_drawing_templates (None: absent or not an object). */
    var persisted: Option<map<string, Template>>
    /** The value under tv_template_favorites (None: absent, unparseable or not an array). */
    var favoritesStore: Option<seq<string>>

    /** new TemplateManager(): the dictionary is loaded from the stored copy, or the built-in templates. */
    constructor (stored: Option<map<string, Template>>, favorites: Option<seq<string>>)
      ensures templates == LoadTemplates(stored) && persisted == stored && favoritesStore == favorites
    {
      templates := LoadTemplates(stored);
      persisted := stored;
      favoritesStore := favorites;
    }

    /** persist */
    method Persist()
      modifies this`persisted
      ensures persisted == Some(templates)
    {
      persisted := Some(templates);
    }

    /** saveTemplate: `idStamp` and `createdAt` stand for Date.now() and its ISO string. Any entry of
        that name, built-in ones included, is replaced. */
    method SaveTemplate(name: string, tool: string, options: Options, icon: string, idStamp: string, createdAt: string)
      returns (id: string)
      modifies this`templates, this`persisted
      ensures id == "custom_" + idStamp
      ensures templates == old(templates)[name := Template(id, name, tool, options, false, icon, Some(createdAt), None, None)]
      ensures persisted == Some(templates)
    {
      id := "custom_" + idStamp;
      templates := templates[name := Template(id, name, tool, options, false, icon, Some(createdAt), None, None)];
      Persist();
    }

    /** deleteTemplate: only an existing custom template is removed. */
    method DeleteTemplate(name: string) returns (deleted: bool)
      modifies this`templates, this`persisted
      ensures deleted <==> name in old(templates) && !old(templates)[name].isDefault
      ensures deleted ==> templates == old(templates) - {name} && persisted == Some(templates)
      ensures !deleted ==> templates == old(templates) && persisted == old(persisted)
    {
      if name in templates && !templates[name].isDefault {
        templates := templates - {name};
        Persist();
        return true;
      }
      return false;
    }

    /** updateTemplate: merges `u` over an existing custom template and stamps it; other names are
        never touched. */
    method UpdateTemplate(name: string, u: TemplateUpdate, stamp: string) returns (updated: bool)
      modifies this`templates, this`persisted
      ensures updated <==> name in old(templates) && !old(templates)[name].isDefault
      ensures updated ==> templates == old(templates)[name := Merge(old(templates)[name], u, stamp)] && persisted == Some(templates)
      ensures !updated ==> templates == old(templates) && persisted == old(persisted)
    {
      if name in templates && !templates[name].isDefault {
        templates := templates[name := Merge(templates[name], u, stamp)];
        Persist();
        return true;
      }
      return false;
    }

    /** getTemplate */
    function GetTemplate(name: string): (r: Option<Template>)
      reads this
      ensures r.Some? <==> name in templates
      ensures r.Some? ==> r.value == templates[name]
    {
      if name in templates then Some(templates[name]) else None
    }

    /** getAllTemplates, keyed by name (the enumeration order is not modelled). */
    function AllTemplates(): (r: map<string, Template>)
      reads this
      ensures forall n :: n in r <==> n in CustomTemplates() || n in DefaultTemplates()
      ensures forall n :: n in r ==> n in templates && r[n] == templates[n]
    {
      templates
    }

    /** getCustomTemplates */
    function CustomTemplates(): (r: map<string, Template>)
      reads this
      ensures forall n :: n in r <==> n in templates && !templates[n].isDefault
      ensures forall n :: n in r ==> r[n] == templates[n]
    {
      map n | n in templates && !templates[n].isDefault :: templates[n]
    }

    /** getDefaultTemplatesList */
    function DefaultTemplates(): (r: map<string, Template>)
      reads this
      ensures forall n :: n in r <==> n in templates && templates[n].isDefault
      ensures forall n :: n in r ==> r[n] == templates[n]
    {
      map n | n in templates && templates[n].isDefault :: templates[n]
    }

    /** applyTemplate */
    function ApplyTemplate(name: string): (r: Option<Applied>)
      reads this
      ensures r.Some? <==> name in templates
      ensures r.Some? ==> r.value.tool == templates[name].tool && r.value.options == templates[name].options
    {
      if name in templates then Some(Applied(templates[name].tool, templates[name].options)) else None
    }

    /** importTemplates: for an array, each element is imported in order; a null element throws, which
        leaves the elements before it imported but not persisted and yields false. `stamp` is the ISO
        time all imported entries get. */
    method ImportTemplates(input: ImportInput, stamp: string) returns (ok: bool)
      modifies this`templates, this`persisted
      ensures !input.Entries? ==> !ok && templates == old(templates) && persisted == old(persisted)
      ensures input.Entries? && FirstMissing(input.items).Some? ==>
        !ok && persisted == old(persisted)
        && templates == ImportAll(old(templates), input.items[..FirstMissing(input.items).value], stamp)
      ensures input.Entries? && FirstMissing(input.items).None? ==>
        ok && templates == ImportAll(old(templates), input.items, stamp) && persisted == Some(templates)
    {
      if !input.Entries? {
        return false;
      }
      var items := input.items;
      var i := 0;
      while i < |items|
        invariant 0 <= i <= |items|
        invariant forall j :: 0 <= j < i ==> items[j].Item?
        invariant templates == ImportAll(old(templates), items[..i], stamp)
        invariant persisted == old(persisted)
      {
        var item := items[i];
        if item.Missing? {
          assert FirstMissing(items) == Some(i) by {
            FirstMissingAt(items, i);
          }
          return false;
        }
        if item.t.name != "" && item.t.tool != "" && item.hasOptions {
          var name := item.t.name;
          if !(name in templates && templates[name].isDefault) {
            templates := templates[name := item.t.(isDefault := false, importedAt := Some(stamp))];
          }
        }
        assert items[..i + 1][..i] == items[..i];
        i := i + 1;
      }
      assert items[..i] == items;
      Persist();
      return true;
    }

    /** getFavorites */
    function GetFavorites(): (r: seq<string>)
      reads this
      ensures favoritesStore.None? ==> r == []
      ensures favoritesStore.Some? ==> r == favoritesStore.value
    {
      favoritesStore.GetOr([])
    }

    /** toggleFavorite: the toggled list is stored and returned. */
    method ToggleFavorite(n: string) returns (favorites: seq<string>)
      modifies this`favoritesStore
      ensures favorites == Toggled(old(GetFavorites()), n) && favoritesStore == Some(favorites)
    {
      var current := GetFavorites();
      var index := IndexOf(current, n);
      if index == -1 {
        favorites := current + [n];
      } else {
        favorites := current[..index] + current[index + 1..];
      }
      favoritesStore := Some(favorites);
    }
  }

  /** The first null element is the one FirstMissing reports. */
  lemma {:induction false} FirstMissingAt(items: seq<ImportItem>, i: nat)
    requires i < |items| && items[i].Missing?
    requires forall j :: 0 <= j < i ==> items[j].Item?
    ensures FirstMissing(items) == Some(i)
  {
    if i > 0 {
      FirstMissingAt(items[1..], i - 1);
    }
  }

  /** Custom and default templates partition the dictionary. */
  lemma CustomAndDefaultPartition(tm: TemplateManager)
    ensures tm.CustomTemplates().Keys !! tm.DefaultTemplates().Keys
    ensures tm.CustomTemplates().Keys + tm.DefaultTemplates().Keys == tm.AllTemplates().Keys
  {
  }

  /** Delete, update and import never lose or alter a built-in template, whatever their arguments. */
  method ProtectedDefaults(tm: TemplateManager, name: string, u: TemplateUpdate, input: ImportInput, stamp: string)
    modifies tm
    ensures forall n :: n in old(tm.templates) && old(tm.templates)[n].isDefault ==>
      n in tm.templates && tm.templates[n] == old(tm.templates)[n]
  {
    var _ := tm.DeleteTemplate(name);
    var _ := tm.UpdateTemplate(name, u, stamp);
    var before := tm.templates;
    var _ := tm.ImportTemplates(input, stamp);
    if input.Entries? {
      var items := input.items;
      if FirstMissing(items).Some? {
        ImportKeepsDefaults(before, items[..FirstMissing(items).value], stamp);
      } else {
        ImportKeepsDefaults(before, items, stamp);
      }
    }
  }
}
