# FSE hybrid theme: the template gate

This project models the template gate of the FSE hybrid proof-of-concept WordPress theme, class
`Main` in `inc/Main.php`, and proves properties of it. The gate lets an administrator switch
full-site-editing (FSE) block templates on with one master setting, `fse_hybrid_poc_enabled`. It
then switches each of seven catalog templates on or off with a setting
`fse_hybrid_poc_enable_<slug>`. From a snapshot of these settings the gate decides three things:

- should the block-templates theme support be declared (`should_load`)?
- which queried block templates survive (`filter_templates`)?
- should WordPress's lookup of `templates/index.html` be pointed at a file that does not exist,
  so that the theme is not treated as block-based (`fix_file_path`)?

Layout:

- `php.dfy`, module `Php`: the PHP semantics the gate depends on. It holds scalar values
  (`Bool`, `Int`, `Str`), the `(bool)` cast (`ToBool`), and arrays as ordered sequences of
  key => value entries. It also holds `unset` by key and the order-preservation predicate
  `IsSubsequence`.
- `main.dfy`, module `FseHybridPoc`: the constants, the catalog, and the settings readers as
  functions. Class `Main` holds the catalog field set by its constructor, `ShouldLoad` and the
  imperative `FilterTemplates`. The lemmas follow.

Host state becomes parameters:

- `get_theme_mod` becomes a lookup in a `Settings` map (key to stored PHP value). A missing key
  reads as the default `false`.
- `get_template_directory()` becomes the `templateDirectory` string parameter.

Stored values are modelled as PHP scalars, not as booleans. This keeps visible a difference the
code has:

- `should_load` compares strictly with `true` (`in_array( true, $status, true )`).
- `filter_templates` uses truthiness.
- `is_template_enabled` returns the raw stored value without a cast.

`ShouldLoadAgreesWithFilter` proves the two tests agree when the catalog's settings hold real
booleans; the store's other theme mods may hold anything. The `sanitize_checkbox` callback makes
the theme's own settings booleans, and saving any setting keeps them so
(`SaveCheckboxKeepsSanitized`).
`StrictAndTruthyDisagree` shows a concrete store on which they differ.

`filter_templates` removes entries with `unset` inside a `foreach`. PHP's `foreach` walks a
copy of the array, so the method walks the original sequence and unsets keys from its result.
Survivors keep their original keys and their relative order. The method requires distinct keys,
which every PHP array has. `FilteredTemplates` is the reference definition the method is proved
equal to.

Three details of the code the model keeps:

- Stored flags are raw PHP values, and the code tests them in two ways, as above.
- The filter returns a PHP array whose survivors keep their original keys, for example
  `[1 => 404]`; see `FilterExample`.
- The sentinel path is built from `get_template_directory()`, whatever directory `$path` is in.

## Model

| member | source | states |
|---|---|---|
| `FseHybridPoc.IsEnabled` | inc/Main.php:221-223 | the master flag is on exactly when the key is stored with a truthy value; a missing key reads as off |
| `FseHybridPoc.OptionSlugForTemplate` | inc/Main.php:187-189 | a template's setting key is the fixed prefix followed by the slug, with nothing added or dropped |
| `FseHybridPoc.IsTemplateEnabled` | inc/Main.php:176-178 | a template's flag is the raw stored value of its key, not cast; a missing key reads as `false` |
| `FseHybridPoc.SanitizeCheckbox` | inc/Main.php:244-246 | booleans pass through unchanged; the result is false exactly for `false`, `0`, `""` and `"0"` |
| `FseHybridPoc.SaveCheckbox` | inc/Main.php:69-75 | saving a checkbox stores the sanitized boolean under its key and leaves every other setting as it was |
| `FseHybridPoc.TemplateStatus` | inc/Main.php:202-207 | the status list has one entry per slug, in order, holding that slug's raw flag |
| `FseHybridPoc.AnyTemplateEnabled` | inc/Main.php:209-209 | the strict search is true exactly when some slug's flag is exactly `true` |
| `FseHybridPoc.GetThemeMod` | inc/Main.php:177-177 | the stored value when the key is present, otherwise the default (the reads at lines 177 and 222) |
| `FseHybridPoc.Passes` | inc/Main.php:134-136 | an entry passes exactly when its slug's setting key is stored with a truthy value; a slug with no stored setting never passes |
| `FseHybridPoc.FilteredTemplates` | inc/Main.php:124-144 | the reference result: other types unchanged, `[]` with the master flag off, else exactly the input entries that pass; never longer than the input and never holding an entry the input lacks |
| `FseHybridPoc.EnabledEntries` | inc/Main.php:133-141 | an entry survives exactly when it is an input entry whose flag is truthy; no entry is added |
| `FseHybridPoc.FixFilePath` | inc/Main.php:156-167 | with the feature on, or for any file other than `templates/index.html`, the path is unchanged; with the feature off the index lookup goes to `<template dir>/templates/non-existent-file.html` |
| `FseHybridPoc.Main.constructor` | inc/Main.php:21-30 | the catalog is the seven slugs index, front-page, archive, 404, search, page, single, in that order |
| `FseHybridPoc.Main.ShouldLoad` | inc/Main.php:196-214 | false whenever the master flag is off; otherwise true exactly when some catalog slug's flag is exactly `true` |
| `FseHybridPoc.Main.FilterTemplates` | inc/Main.php:124-144 | the unset-in-a-loop result equals the reference filter `FilteredTemplates`; with the master flag on and type `wp_template` it is an order-preserving subsequence of the input holding exactly the enabled entries |
| `FseHybridPoc.FilterStep` | inc/Main.php:133-141 | one turn of the loop, keeping an entry or unsetting its key, extends the filtered prefix by exactly that entry or by nothing |
| `FseHybridPoc.EnabledEntriesIsSubsequence` | inc/Main.php:133-143 | the survivors appear in the input's relative order |
| `FseHybridPoc.EnabledEntriesDistinct` | inc/Main.php:133-143 | the filtered array is still a well-formed PHP array: no two survivors share a key |
| `FseHybridPoc.EnabledEntriesIdempotent` | inc/Main.php:133-141 | filtering the enabled entries again removes nothing |
| `FseHybridPoc.FilterKeepsExactlyEnabled` | inc/Main.php:133-143 | with the master flag on, the result is exactly the truthy-flagged input entries, with their keys and order, no longer than the input and with distinct keys |
| `FseHybridPoc.FilterIdempotent` | inc/Main.php:124-144 | filtering the output again with the same settings and type yields the same output |
| `FseHybridPoc.FilterExample` | inc/Main.php:124-144 | for index, 404 and page with only 404 enabled, only the 404 entry survives, under its original key 1 |
| `FseHybridPoc.FixFilePathHidesIndexOnly` | inc/Main.php:156-167 | the path changes only for `templates/index.html` with the feature off; then the theme's own index path really is replaced |
| `FseHybridPoc.SentinelIsNotIndex` | inc/Main.php:162-164 | the sentinel path differs from `templates/index.html` in the same directory |
| `FseHybridPoc.OptionSlugInjective` | inc/Main.php:187-189 | distinct slugs never share a setting key |
| `FseHybridPoc.OptionSlugIsNotMainFlag` | inc/Main.php:187-189 | no per-template key equals the master key `fse_hybrid_poc_enabled` |
| `FseHybridPoc.CatalogKeysDistinct` | inc/Main.php:22-30 | the seven catalog keys and the master key are pairwise distinct settings |
| `FseHybridPoc.AnyTemplateEnabledOrderIndependent` | inc/Main.php:202-209 | reordering the slugs (same multiset) does not change the strict search |
| `FseHybridPoc.ShouldLoadOrderIndependent` | inc/Main.php:196-214 | `should_load` does not depend on the order of the catalog |
| `FseHybridPoc.EmptyStoreFailsClosed` | inc/Main.php:124-223 | with nothing stored: the feature is off, every template flag is `false`, nothing loads, no `wp_template` survives and the index file is hidden |
| `FseHybridPoc.SanitizeCheckboxIdempotent` | inc/Main.php:244-246 | sanitizing an already sanitized value gives the same boolean |
| `FseHybridPoc.SaveCheckboxKeepsSanitized` | inc/Main.php:92-98 | saving any setting through the sanitize callback keeps every gate setting a real boolean or missing, whatever the other theme mods hold |
| `FseHybridPoc.ShouldLoadAgreesWithFilter` | inc/Main.php:196-214 | when the catalog's settings hold real booleans (other theme mods may hold anything), `should_load` holds exactly when the feature is on and some catalog template would pass the filter's truthiness test |
| `FseHybridPoc.StrictAndTruthyDisagree` | inc/Main.php:202-209 | with `1` stored for index, `should_load` is false while the filter keeps the index template |
| `Php.ToBool` | inc/Main.php:222-222 | the `(bool)` cast keeps booleans and is false exactly for `false`, `0`, `""` and `"0"` |
| `Php.Unset` | inc/Main.php:140-140 | after `unset` the entries left are exactly the entries whose key differs from the removed one; the array is no longer |
| `Php.UnsetBetween` | inc/Main.php:140-140 | unsetting a key that only one entry carries removes that entry alone and keeps the rest in order |

## Left out

- Hook wiring in `init` (`add_action`, `add_filter`, and declaring support only when `should_load`
  holds) and `add_theme_support`: these are WordPress registration calls. Their one decision is
  `should_load`, which is modelled.
- `add_controls`: customizer UI registration over `WP_Customize_Manager`. Its `$priority`
  counter only orders controls. Only its sanitize callback is modelled: `sanitize_checkbox` itself as `SanitizeCheckbox`, and the customizer storing the sanitized value as `SaveCheckbox`.
- The catalog labels and every `__()` translation call: these are host string lookups. The
  catalog is modelled as its slugs.
- The `$customize_section` field: it only names a UI section.
- The `$query` argument of `filter_templates`: the code never reads it.
- `header.php`: it is HTML output through WordPress rendering calls, with no decision logic.
- WordPress's `get_theme_mod` internals (its `theme_mod_*` filters and its `isset` test) are
  not modelled. The lookup is a plain map read with default `false`.
- Floats, `null` and arrays as stored values are not modelled. Stored values are booleans,
  integers and strings.
- File existence on disk is not modelled. That the sentinel file of `fix_file_path`
  does not exist is assumed from the name the code gives it.
