/** The template gate of the FSE hybrid theme (class `Main` of inc/Main.php).

    A master theme setting switches full-site-editing templates on or off, and one
    setting per catalog template switches each template on or off. From a snapshot of
    those settings the gate decides whether the block-templates support is declared,
    which queried block templates survive, and whether the theme's
    `templates/index.html` is hidden from WordPress.

    WordPress's theme-mod store becomes the `settings` map, and
    `get_template_directory()` becomes the `templateDirectory` parameter. */
module FseHybridPoc {
  import opened Php

  /** The key of the master setting. */
  const MainFlag: string := "fse_hybrid_poc_enabled"

  /** The prefix of every per-template setting key. */
  const OptionPrefix: string := "fse_hybrid_poc_enable_"

  /** The query type the gate filters; every other type passes through. */
  const TemplateType: string := "wp_template"

  /** The file whose presence makes WordPress treat the theme as block-based. */
  const IndexTemplateFile: string := "templates/index.html"

  /** What `fix_file_path` appends to the template directory to hide the index file. */
  const NonExistentFile: string := "/templates/non-existent-file.html"

  /** The slugs of the template catalog, in the order the constructor lists them. */
  const Catalog: seq<string> := ["index", "front-page", "archive", "404", "search", "page", "single"]

  /** The theme-mod store: setting key to stored value. */
  type Settings = map<string, Value>

  /** `get_theme_mod($name, $default)`: the stored value, or the default when none is stored. */
  function GetThemeMod(settings: Settings, name: string, default: Value): (r: Value)
    ensures name in settings ==> r == settings[name]
    ensures name !in settings ==> r == default
  {
    if name in settings then settings[name] else default
  }

  /** The fields of a `WP_Block_Template` the model keeps; only `slug` is consulted. */
  datatype BlockTemplate = BlockTemplate(id: string, slug: string, content: string)

  // ---------------------------------------------------------------------------
  // Reading the settings

  /** `is_enabled`: the master setting cast to a boolean; a missing setting reads as off. */
  function IsEnabled(settings: Settings): (r: bool)
    ensures r <==> MainFlag in settings && ToBool(settings[MainFlag])
  {
    ToBool(GetThemeMod(settings, MainFlag, Bool(false)))
  }

  /** `get_option_slug_for_template`: the setting key of one template. */
  function OptionSlugForTemplate(template: string): (r: string)
    ensures |r| == |OptionPrefix| + |template|
    ensures r[..|OptionPrefix|] == OptionPrefix && r[|OptionPrefix|..] == template
  {
    OptionPrefix + template
  }

  /** `is_template_enabled`: the raw stored value of a template's setting, not cast to a
      boolean; a missing setting reads as `false`. */
  function IsTemplateEnabled(settings: Settings, template: string): (r: Value)
    ensures OptionSlugForTemplate(template) !in settings ==> r == Bool(false)
    ensures OptionSlugForTemplate(template) in settings ==> r == settings[OptionSlugForTemplate(template)]
  {
    GetThemeMod(settings, OptionSlugForTemplate(template), Bool(false))
  }

  /** `sanitize_checkbox`: coerces an incoming value to a boolean. */
  function SanitizeCheckbox(value: Value): (r: bool)
    ensures value.Bool? ==> r == value.b
    ensures r <==> value != Bool(false) && value != Int(0) && value != Str("") && value != Str("0")
  {
    ToBool(value)
  }

  /** What the customizer does with an incoming checkbox value: it passes it through
      `sanitize_checkbox`, the sanitize callback of every setting the theme registers,
      and stores the result. */
  function SaveCheckbox(settings: Settings, key: string, incoming: Value): (r: Settings)
    ensures r.Keys == settings.Keys + {key}
    ensures r[key] == Bool(SanitizeCheckbox(incoming))
    ensures forall k :: k in settings && k != key ==> r[k] == settings[k]
  {
    settings[key := Bool(SanitizeCheckbox(incoming))]
  }

  /** The gate's own settings for `slugs` hold real booleans (or are missing, which reads as
      `false`); other theme mods in the store may hold anything. */
  ghost predicate GateSanitized(slugs: seq<string>, settings: Settings) {
    forall i :: 0 <= i < |slugs| ==> IsTemplateEnabled(settings, slugs[i]).Bool?
  }

  // ---------------------------------------------------------------------------
  // should_load

  /** `array_map( is_template_enabled, $slugs )`: the stored value of each slug's setting. */
  function TemplateStatus(slugs: seq<string>, settings: Settings): (status: seq<Value>)
    ensures |status| == |slugs|
    ensures forall i :: 0 <= i < |slugs| ==> status[i] == IsTemplateEnabled(settings, slugs[i])
  {
    if slugs == [] then []
    else [IsTemplateEnabled(settings, slugs[0])] + TemplateStatus(slugs[1..], settings)
  }

  /** `in_array( true, $status, true )`: some slug's setting holds exactly `true`
      (a strict comparison, so a truthy `1` or `"on"` does not count). */
  function AnyTemplateEnabled(slugs: seq<string>, settings: Settings): (r: bool)
    ensures r <==> exists slug :: slug in slugs && IsTemplateEnabled(settings, slug) == Bool(true)
  {
    Bool(true) in TemplateStatus(slugs, settings)
  }

  // ---------------------------------------------------------------------------
  // filter_templates

  /** A template entry passes when its slug's setting is truthy; an entry whose slug has
      no stored setting never passes. */
  predicate Passes(settings: Settings, entry: Entry<BlockTemplate>)
    ensures Passes(settings, entry) <==>
              OptionSlugForTemplate(entry.value.slug) in settings &&
              ToBool(settings[OptionSlugForTemplate(entry.value.slug)])
  {
    ToBool(IsTemplateEnabled(settings, entry.value.slug))
  }

  /** The entries of `a` that pass, in their original order and with their original keys. */
  function EnabledEntries(settings: Settings, a: PhpArray<BlockTemplate>): (r: PhpArray<BlockTemplate>)
    ensures |r| <= |a|
    ensures forall e :: e in r <==> e in a && Passes(settings, e)
  {
    if a == [] then []
    else (if Passes(settings, a[0]) then [a[0]] else []) + EnabledEntries(settings, a[1..])
  }

  /** The reference definition of what `filter_templates` returns. */
  function FilteredTemplates(settings: Settings, templateType: string, queryResult: PhpArray<BlockTemplate>): (r: PhpArray<BlockTemplate>)
    ensures templateType != TemplateType ==> r == queryResult
    ensures templateType == TemplateType && !IsEnabled(settings) ==> r == []
    ensures |r| <= |queryResult|
    ensures forall e :: e in r ==> e in queryResult
    ensures templateType == TemplateType && IsEnabled(settings) ==>
              forall e :: e in r <==> e in queryResult && Passes(settings, e)
  {
    if templateType != TemplateType then queryResult
    else if !IsEnabled(settings) then []
    else EnabledEntries(settings, queryResult)
  }

  // ---------------------------------------------------------------------------
  // fix_file_path

  /** `fix_file_path`: while the feature is off, the lookup of `templates/index.html`
      is sent to a file that does not exist; every other lookup keeps its path. */
  function FixFilePath(settings: Settings, templateDirectory: string, path: string, file: string): (r: string)
    ensures IsEnabled(settings) ==> r == path
    ensures file != IndexTemplateFile ==> r == path
    ensures !IsEnabled(settings) && file == IndexTemplateFile ==> r == templateDirectory + NonExistentFile
  {
    if IsEnabled(settings) then path
    else if file == IndexTemplateFile then templateDirectory + NonExistentFile
    else path
  }

  // ---------------------------------------------------------------------------
  // The gate object

  class Main {
    /** The catalog of template slugs, fixed at construction (the labels are left out). */
    const templates: seq<string>

    constructor ()
      ensures templates == Catalog
    {
      templates := Catalog;
    }

    /** `should_load`: the feature is on and some catalog template's setting is exactly `true`. */
    function ShouldLoad(settings: Settings): (r: bool)
      ensures r <==> (IsEnabled(settings) &&
                      exists i :: 0 <= i < |templates| && IsTemplateEnabled(settings, templates[i]) == Bool(true))
    {
      if !IsEnabled(settings) then false
      else AnyTemplateEnabled(templates, settings)
    }

    /** `filter_templates`: walks a snapshot of the queried templates and unsets, by key,
        every entry whose template is not enabled. */
    method FilterTemplates(queryResult: PhpArray<BlockTemplate>, templateType: string, settings: Settings)
      returns (result: PhpArray<BlockTemplate>)
      requires DistinctKeys(queryResult)
      ensures result == FilteredTemplates(settings, templateType, queryResult)
      ensures templateType == TemplateType && IsEnabled(settings) ==>
                IsSubsequence(result, queryResult) &&
                forall e :: e in result <==> e in queryResult && ToBool(IsTemplateEnabled(settings, e.value.slug))
    {
      if templateType != TemplateType {
        return queryResult;
      }
      if !IsEnabled(settings) {
        return [];
      }
      result := queryResult;
      var i := 0;
      while i < |queryResult|
        invariant 0 <= i <= |queryResult|
        invariant result == EnabledEntries(settings, queryResult[..i]) + queryResult[i..]
      {
        var entry := queryResult[i];
        var enabled := IsTemplateEnabled(settings, entry.value.slug);
        FilterStep(settings, queryResult, i);
        if !ToBool(enabled) {
          result := Unset(result, entry.key);
        }
        i := i + 1;
      }
      assert queryResult[..|queryResult|] == queryResult;
      EnabledEntriesIsSubsequence(settings, queryResult);
    }
  }

  // ---------------------------------------------------------------------------
  // Lemmas behind FilterTemplates

  lemma {:induction false} EnabledEntriesAppend(settings: Settings, a: PhpArray<BlockTemplate>, b: PhpArray<BlockTemplate>)
    ensures EnabledEntries(settings, a + b) == EnabledEntries(settings, a) + EnabledEntries(settings, b)
  {
    if a == [] {
      assert a + b == b;
    } else {
      assert (a + b)[0] == a[0];
      assert (a + b)[1..] == a[1..] + b;
      EnabledEntriesAppend(settings, a[1..], b);
    }
  }

  /** One turn of the loop of `filter_templates`: keeping an enabled entry, or unsetting
      the key of a disabled one, extends the filtered prefix by one entry. */
  lemma FilterStep(settings: Settings, q: PhpArray<BlockTemplate>, i: nat)
    requires DistinctKeys(q) && i < |q|
    ensures var before := EnabledEntries(settings, q[..i]) + q[i..];
            var after := EnabledEntries(settings, q[..i + 1]) + q[i + 1..];
            if Passes(settings, q[i]) then before == after else Unset(before, q[i].key) == after
  {
    EnabledPrefixStep(settings, q, i);
    var done := EnabledEntries(settings, q[..i]);
    var rest := q[i + 1..];
    assert q[i..] == [q[i]] + rest;
    if Passes(settings, q[i]) {
      assert (done + [q[i]]) + rest == done + ([q[i]] + rest);
    } else {
      PrefixKeyFree(settings, q, i);
      SuffixKeyFree(q, i);
      UnsetBetween(done, q[i], rest);
      assert done + [] == done;
    }
  }

  /** Filtering one more entry of the prefix appends that entry when it passes. */
  lemma EnabledPrefixStep(settings: Settings, q: PhpArray<BlockTemplate>, i: nat)
    requires i < |q|
    ensures EnabledEntries(settings, q[..i + 1]) ==
            EnabledEntries(settings, q[..i]) + (if Passes(settings, q[i]) then [q[i]] else [])
  {
    assert q[..i + 1] == q[..i] + [q[i]];
    EnabledEntriesAppend(settings, q[..i], [q[i]]);
    assert [q[i]][1..] == [];
  }

  /** After the entries before `i` have been filtered, none of them carries the key of
      entry `i`: keys are distinct, and filtering only keeps entries of the prefix. */
  lemma PrefixKeyFree(settings: Settings, q: PhpArray<BlockTemplate>, i: nat)
    requires DistinctKeys(q) && i < |q|
    ensures KeyFree(EnabledEntries(settings, q[..i]), q[i].key)
  {
    var done := EnabledEntries(settings, q[..i]);
    forall j | 0 <= j < |done| ensures done[j].key != q[i].key {
      assert done[j] in q[..i];
      var m :| 0 <= m < i && q[..i][m] == done[j];
      assert q[m] == done[j];
    }
  }

  /** No entry after `i` carries the key of entry `i`. */
  lemma SuffixKeyFree(q: PhpArray<BlockTemplate>, i: nat)
    requires DistinctKeys(q) && i < |q|
    ensures KeyFree(q[i + 1..], q[i].key)
  {
  }

  /** Survivors keep their relative order. */
  lemma {:induction false} EnabledEntriesIsSubsequence(settings: Settings, a: PhpArray<BlockTemplate>)
    ensures IsSubsequence(EnabledEntries(settings, a), a)
  {
    if a != [] {
      EnabledEntriesIsSubsequence(settings, a[1..]);
      var r := EnabledEntries(settings, a);
      if Passes(settings, a[0]) {
        assert r[0] == a[0] && r[1..] == EnabledEntries(settings, a[1..]);
      } else {
        assert r == EnabledEntries(settings, a[1..]);
      }
    }
  }

  /** Filtering keeps a PHP array well formed: no two surviving entries share a key. */
  lemma {:induction false} EnabledEntriesDistinct(settings: Settings, a: PhpArray<BlockTemplate>)
    requires DistinctKeys(a)
    ensures DistinctKeys(EnabledEntries(settings, a))
  {
    if a != [] {
      var tail := a[1..];
      assert DistinctKeys(tail) by {
        forall i, j | 0 <= i < |tail| && 0 <= j < |tail| && i != j ensures tail[i].key != tail[j].key {
          assert tail[i] == a[i + 1] && tail[j] == a[j + 1];
        }
      }
      EnabledEntriesDistinct(settings, tail);
      var rest := EnabledEntries(settings, tail);
      if Passes(settings, a[0]) {
        var r := [a[0]] + rest;
        assert KeyFree(rest, a[0].key) by {
          forall j | 0 <= j < |rest| ensures rest[j].key != a[0].key {
            assert rest[j] in tail;
            var m :| 0 <= m < |tail| && tail[m] == rest[j];
            assert a[m + 1] == rest[j];
          }
        }
        forall i, j | 0 <= i < |r| && 0 <= j < |r| && i != j ensures r[i].key != r[j].key {
          if i > 0 && j > 0 {
            assert r[i] == rest[i - 1] && r[j] == rest[j - 1];
          } else if i == 0 {
            assert r[j] == rest[j - 1];
          } else {
            assert r[i] == rest[i - 1];
          }
        }
      }
    }
  }

  lemma {:induction false} EnabledEntriesIdempotent(settings: Settings, a: PhpArray<BlockTemplate>)
    ensures EnabledEntries(settings, EnabledEntries(settings, a)) == EnabledEntries(settings, a)
  {
    if a != [] {
      EnabledEntriesIdempotent(settings, a[1..]);
      var rest := EnabledEntries(settings, a[1..]);
      if Passes(settings, a[0]) {
        var r := [a[0]] + rest;
        assert EnabledEntries(settings, a) == r;
        assert r[0] == a[0] && r[1..] == rest;
        assert EnabledEntries(settings, r) == [a[0]] + EnabledEntries(settings, rest);
      } else {
        assert EnabledEntries(settings, a) == rest;
      }
    }
  }

  // ---------------------------------------------------------------------------
  // Properties of the gate

  /** With the master setting on, the result is exactly the enabled entries of the input:
      each survivor is an input entry, with its key, whose setting is truthy; each enabled
      input entry survives; survivors keep their order; nothing is added; no two share a key. */
  lemma FilterKeepsExactlyEnabled(settings: Settings, queryResult: PhpArray<BlockTemplate>)
    requires IsEnabled(settings) && DistinctKeys(queryResult)
    ensures var r := FilteredTemplates(settings, TemplateType, queryResult);
      && IsSubsequence(r, queryResult)
      && |r| <= |queryResult|
      && DistinctKeys(r)
      && (forall e :: e in r <==> e in queryResult && ToBool(IsTemplateEnabled(settings, e.value.slug)))
  {
    EnabledEntriesIsSubsequence(settings, queryResult);
    EnabledEntriesDistinct(settings, queryResult);
  }

  /** Filtering an already filtered result with the same settings and type changes nothing. */
  lemma FilterIdempotent(settings: Settings, templateType: string, queryResult: PhpArray<BlockTemplate>)
    ensures var r := FilteredTemplates(settings, templateType, queryResult);
      FilteredTemplates(settings, templateType, r) == r
  {
    if templateType == TemplateType && IsEnabled(settings) {
      EnabledEntriesIdempotent(settings, queryResult);
    }
  }

  /** Three queried templates, only `404` enabled: the `404` entry alone survives, under
      its original key 1. */
  lemma FilterExample()
    ensures var settings := map[MainFlag := Bool(true), OptionSlugForTemplate("404") := Bool(true)];
      var index := Entry(IntKey(0), BlockTemplate("theme//index", "index", ""));
      var notFound := Entry(IntKey(1), BlockTemplate("theme//404", "404", ""));
      var page := Entry(IntKey(2), BlockTemplate("theme//page", "page", ""));
      FilteredTemplates(settings, TemplateType, [index, notFound, page]) == [notFound]
  {
    var settings := map[MainFlag := Bool(true), OptionSlugForTemplate("404") := Bool(true)];
    OptionSlugInjective("index", "404");
    OptionSlugInjective("page", "404");
    var index := Entry(IntKey(0), BlockTemplate("theme//index", "index", ""));
    var notFound := Entry(IntKey(1), BlockTemplate("theme//404", "404", ""));
    var page := Entry(IntKey(2), BlockTemplate("theme//page", "page", ""));
    OptionSlugIsNotMainFlag("index");
    OptionSlugIsNotMainFlag("page");
    assert !Passes(settings, index) && Passes(settings, notFound) && !Passes(settings, page);
    var q := [index, notFound, page];
    assert q[1..] == [notFound, page] && q[1..][1..] == [page] && q[1..][1..][1..] == [];
    assert EnabledEntries(settings, [page]) == [];
    assert EnabledEntries(settings, [notFound, page]) == [notFound];
  }

  /** The file path changes only for `templates/index.html` with the master setting off,
      and then to the sentinel; in that case the theme's own index file can no longer be
      found at its usual place. */
  lemma FixFilePathHidesIndexOnly(settings: Settings, templateDirectory: string, path: string, file: string)
    ensures var r := FixFilePath(settings, templateDirectory, path, file);
      (r != path ==> !IsEnabled(settings) && file == IndexTemplateFile) &&
      (!IsEnabled(settings) && file == IndexTemplateFile && path == templateDirectory + "/" + IndexTemplateFile ==>
        r != path)
  {
  }

  /** The sentinel path differs from the index file in the same directory. */
  lemma SentinelIsNotIndex(templateDirectory: string)
    ensures templateDirectory + NonExistentFile != templateDirectory + "/" + IndexTemplateFile
  {
  }

  /** Distinct templates never share a setting. */
  lemma OptionSlugInjective(a: string, b: string)
    requires a != b
    ensures OptionSlugForTemplate(a) != OptionSlugForTemplate(b)
  {
  }

  /** No per-template setting key is the master setting key: at position 21 the prefix
      has `_` where the master key has `d`. */
  lemma OptionSlugIsNotMainFlag(template: string)
    ensures OptionSlugForTemplate(template) != MainFlag
  {
    assert OptionSlugForTemplate(template)[21] == '_';
    assert MainFlag[21] == 'd';
  }

  /** The N + 1 settings of the catalog are pairwise distinct keys. */
  lemma CatalogKeysDistinct()
    ensures forall i, j :: 0 <= i < |Catalog| && 0 <= j < |Catalog| && i != j ==>
              OptionSlugForTemplate(Catalog[i]) != OptionSlugForTemplate(Catalog[j])
    ensures forall i :: 0 <= i < |Catalog| ==> OptionSlugForTemplate(Catalog[i]) != MainFlag
  {
  }

  /** Whether a catalog template is enabled does not depend on the catalog's order. */
  lemma AnyTemplateEnabledOrderIndependent(a: seq<string>, b: seq<string>, settings: Settings)
    requires multiset(a) == multiset(b)
    ensures AnyTemplateEnabled(a, settings) == AnyTemplateEnabled(b, settings)
  {
    forall slug ensures slug in a <==> slug in b {
      assert slug in a <==> slug in multiset(a);
      assert slug in b <==> slug in multiset(b);
    }
  }

  /** `should_load` is independent of the order of the catalog. */
  lemma ShouldLoadOrderIndependent(m: Main, n: Main, settings: Settings)
    requires multiset(m.templates) == multiset(n.templates)
    ensures m.ShouldLoad(settings) == n.ShouldLoad(settings)
  {
    AnyTemplateEnabledOrderIndependent(m.templates, n.templates, settings);
  }

  /** The gate fails closed: with nothing stored, the feature is off, nothing loads,
      no `wp_template` survives and the index file is hidden. */
  lemma EmptyStoreFailsClosed(m: Main, templateDirectory: string, path: string, queryResult: PhpArray<BlockTemplate>, template: string)
    ensures !IsEnabled(map[])
    ensures IsTemplateEnabled(map[], template) == Bool(false)
    ensures !m.ShouldLoad(map[])
    ensures FilteredTemplates(map[], TemplateType, queryResult) == []
    ensures FixFilePath(map[], templateDirectory, path, IndexTemplateFile) == templateDirectory + NonExistentFile
  {
  }

  /** Sanitizing a sanitized value changes nothing. */
  lemma SanitizeCheckboxIdempotent(value: Value)
    ensures SanitizeCheckbox(Bool(SanitizeCheckbox(value))) == SanitizeCheckbox(value)
  {
  }

  /** Saving any setting through the sanitizer keeps the gate's settings real booleans. */
  lemma SaveCheckboxKeepsSanitized(slugs: seq<string>, settings: Settings, key: string, incoming: Value)
    requires GateSanitized(slugs, settings)
    ensures GateSanitized(slugs, SaveCheckbox(settings, key, incoming))
  {
  }

  /** When the catalog's settings hold real booleans, the strict test of `should_load` and the truthiness test
      of `filter_templates` agree: `should_load` holds exactly when the feature is on and
      some catalog template would survive the filter. */
  lemma ShouldLoadAgreesWithFilter(m: Main, settings: Settings)
    requires GateSanitized(m.templates, settings)
    ensures m.ShouldLoad(settings) <==>
              (IsEnabled(settings) &&
               exists i :: 0 <= i < |m.templates| && ToBool(IsTemplateEnabled(settings, m.templates[i])))
  {
  }

  /** On a store holding a truthy non-boolean (`1`) for the index template, the two tests
      disagree: `should_load` is false, yet the filter keeps the index template. */
  lemma StrictAndTruthyDisagree(m: Main)
    requires m.templates == Catalog
    ensures var settings := map[MainFlag := Bool(true), OptionSlugForTemplate("index") := Int(1)];
      var index := Entry(IntKey(0), BlockTemplate("theme//index", "index", ""));
      !m.ShouldLoad(settings) && FilteredTemplates(settings, TemplateType, [index]) == [index]
  {
  }
}
