# Moksha PostType — a Dafny model

`Moksha\PostType` is a small WordPress helper that registers custom post
types and taxonomies. For each declared name it derives a title-cased
singular and a pluralised label, builds a label array and a default
argument array, lets the caller's overrides replace defaults key by key
(`array_merge`), and calls `register_post_type(slug, args)` or
`register_taxonomy(slug, postType, options)` from a callback hooked to the
`init` action.

This project models that computation as pure functions. Host calls are not
side effects here: they come back as a trace, a `seq<RegCall>`.

- `Ascii` (ascii.dfy): `strtolower`, `ucwords` with its default delimiters, and `str_replace(' ', '-', …)`, on ASCII letters only.
- `PhpArray` (php_array.dfy): PHP arrays with string keys as ordered association lists (`seq<(string, Value)>`), lookup, assignment and `array_merge`.
- `Naming` (naming.dfy): the singular name and the slug derived from a declared name.
- `Options` (options.dfy): the 13 post-type labels, the 17 taxonomy labels, both default arrays and their merge with overrides. `Inflector::pluralize`, the `__` translation function and `sprintf` are not modelled. They are the three function-valued fields of a `Host` parameter.
- `Registrar` (registrar.dfy): the calls `registerPostType` and the `addTaxonomy` closures make. It also models the object's state (pending post types plus the list of callbacks scheduled on `init`) and the firing of `init`, where the callbacks run in the order they were scheduled. `createPostType` replaces the pending post types (PostType.php:48). The loops take the way argument arrays are built as a parameter (`Builders`), because the order and number of calls do not depend on it. `Standard(h)` is the class's own builder, defaults followed by `array_merge`, and the `*CallArgs` and `*RewriteSlug` lemmas are stated about it.
- `Scenarios` (scenarios.dfy): concrete declarations (`event`, `category` on `event`, none) and the calls they produce.

## Model

| member | source | states |
|---|---|---|
| Ascii.StrToLower | PostType.php:69 | `strtolower` keeps the length and lower-cases each ASCII letter, leaving other characters as they are; the result has no upper-case ASCII letter |
| Ascii.UcWords | PostType.php:69 | `ucwords` keeps the length; a character is upper-cased exactly when it starts the string or follows a space, tab, CR, LF, form feed or vertical tab; all others are left alone |
| Ascii.SpacesToHyphens | PostType.php:101 | `str_replace(' ', '-', s)` turns every space into a hyphen, keeps every other character in place, and leaves no space |
| Naming.SingularShape | PostType.php:69 | the singular name has the declared name's length; at each word start it holds the upper-cased letter (never a lower-case one), and everywhere else the lower-cased letter (never an upper-case one); word boundaries are those of the declared name |
| Naming.SlugIgnoresTitleCase | PostType.php:101-105 | slugging the title-cased singular gives the same result as `strtolower(str_replace(' ', '-', name))` on the raw name, so `ucwords` has no effect on the slug |
| Naming.Slug | PostType.php:105 | the registered slug is `strtolower(str_replace(' ', '-', name))`; it has the name's length and contains no space and no upper-case ASCII letter |
| Naming.SlugOfSlugShaped | PostType.php:155 | a name with no space and no upper-case letter is registered under itself as slug |
| Naming.SlugIdempotent | PostType.php:105 | slugging a slug changes nothing |
| PhpArray.GetFinds | PostType.php:104 | a lookup finds a value exactly when the key is present, and that value is stored under the key |
| PhpArray.Put | PostType.php:104 | assigning an existing key keeps its position, and a new key is appended; the key then maps to the new value and every other key keeps its value |
| PhpArray.PutWellFormed | PostType.php:104 | assignment never duplicates a key |
| PhpArray.GetAt | PostType.php:104 | in an array without duplicate keys, looking up the key at a position finds the value at that position |
| PhpArray.MergeGet | PostType.php:104 | `array_merge` is override-wins: a key of the overrides maps to the override's value, and any other key keeps its base value |
| PhpArray.MergeKeys | PostType.php:104 | after `array_merge`, the base keys keep their order and the overrides' new keys follow in their own order |
| PhpArray.MergeWellFormed | PostType.php:104 | `array_merge` of a duplicate-free base yields a duplicate-free array |
| Options.PostTypeLabels | PostType.php:71-85 | the post-type label array has exactly the 13 keys name … menu_name, in source order |
| Options.TaxonomyLabels | PostType.php:125-145 | the taxonomy label array has exactly the 17 keys name … not_found, in source order |
| Options.PostTypeDefaults | PostType.php:86-103 | the default post-type arguments have exactly the 16 keys labels … capability_type, in source order |
| Options.TaxonomyDefaults | PostType.php:124-153 | the default taxonomy options have exactly the 9 keys labels … rewrite, in source order |
| Options.PostTypeLabelValues | PostType.php:74-83 | each of the ten formatted post-type labels is the translation of its own template (`Add New %s`, `Edit %s`, …, `Parent %s:`) formatted with the singular or, for all_items, search_items, not_found and not_found_in_trash, with the plural |
| Options.PostTypeLabelNames | PostType.php:70-84 | `name` and `menu_name` are the plural, and `singular_name` is the singular |
| Options.PostTypeLabelsFromPlural | PostType.php:72-84 | name, all_items, search_items, not_found, not_found_in_trash and menu_name are the same for any two singular names with the same plural |
| Options.PostTypeLabelsFromSingular | PostType.php:73-83 | singular_name, add_new, add_new_item, edit_item, new_item, view_item and parent_item_colon are the same for any two plurals with the same singular |
| Options.TaxonomyLabelValues | PostType.php:128-143 | each of the thirteen templated taxonomy labels other than menu_name is the translation of its own template formatted with the singular (parent, edit, update, add-new, new-name, view) or the plural (search, all, popular, separate, add-or-remove, choose) |
| Options.TaxonomyLabelNames | PostType.php:126-142 | `name` is the plural, `singular_name` is the singular, and `menu_name` is the plural formatted through `%s` |
| Options.TaxonomyLabelsFromPlural | PostType.php:126-142 | the eight plural-sourced taxonomy labels do not depend on the singular |
| Options.TaxonomyLabelsFromSingular | PostType.php:127-143 | the eight singular-sourced taxonomy labels do not depend on the plural |
| Options.TaxonomyNotFoundFixed | PostType.php:144 | the taxonomy `not_found` label is the translated "Not Found" and depends on neither name |
| Options.PostTypeArgsMerge | PostType.php:86-104 | post-type arguments: each overridden key has the override's value; every other key keeps its default; default keys keep their order and new keys are appended; the result has no duplicate key; without a `labels` override the labels are the 13 derived ones |
| Options.TaxonomyArgsMerge | PostType.php:123-154 | the same override-wins, order-keeping, duplicate-free merge for taxonomy options, with the 17 derived labels when not overridden |
| Registrar.PostTypeCall | PostType.php:68-105 | each iteration emits a `register_post_type` whose slug is the lower-cased, hyphenated declared name |
| Registrar.TaxonomyCall | PostType.php:120-155 | each closure emits a `register_taxonomy` whose slug is the lower-cased, hyphenated taxonomy name and whose object type is the post-type key, unchanged |
| Registrar.RegisterPostTypes | PostType.php:66-107 | `registerPostType` emits exactly one call per pending entry, in iteration order; an empty map emits none |
| Registrar.PostTypeCallArgs | PostType.php:86-105 | the class's `register_post_type` call gets a duplicate-free argument array in which every caller key has the caller's value, and whose `labels`, if not overridden, are the 13 labels derived from the declared name |
| Registrar.TaxonomyCallArgs | PostType.php:121-155 | the class's `register_taxonomy` call gets a duplicate-free option array in which every caller key has the caller's value, and whose `labels`, if not overridden, are the 17 labels derived from the taxonomy name |
| Registrar.PostTypeRewriteSlug | PostType.php:101-105 | without a `rewrite` override, `rewrite.slug` in the arguments equals the slug passed to `register_post_type` |
| Registrar.TaxonomyRewriteSlug | PostType.php:153-155 | without a `rewrite` override, `rewrite.slug` in the options equals the slug passed to `register_taxonomy` |
| Registrar.CreatePostType | PostType.php:43-50 | `createPostType` replaces the pending post types with the given map and schedules `registerPostType` after the callbacks already scheduled |
| Registrar.AddTaxonomy | PostType.php:116-159 | `addTaxonomy` leaves the pending post types alone and appends one closure per (post type, taxonomy) pair after the callbacks already scheduled |
| Registrar.TaxonomyHooksFor | PostType.php:119-120 | the inner loop schedules one closure per taxonomy, in order; each captures its taxonomy name, the post-type key and the overrides |
| Registrar.TaxonomyHooks | PostType.php:118-158 | `addTaxonomy` schedules as many closures as there are (post type, taxonomy) pairs, and all of them are taxonomy closures |
| Registrar.TaxonomyHookAt | PostType.php:118-120 | the closure for the j-th taxonomy of the i-th post type comes after all pairs of earlier post types: nested iteration order is kept |
| Registrar.FlatMapAppend | PostType.php:59 | running the callbacks of two consecutive schedules gives the first schedule's calls followed by the second's |
| Registrar.FireAfterCreatePostType | PostType.php:43-50 | after `createPostType(decls)`, firing `init` runs the earlier callbacks and then `registerPostType`, all against `decls`; the previously pending map is gone |
| Registrar.CreatePostTypeRegistersEach | PostType.php:43-107 | a fresh object with one `createPostType` emits exactly `registerPostType`'s calls for the declared map, one per entry |
| Registrar.RunTaxonomyHooks | PostType.php:118-156 | the closures of `addTaxonomy` emit one `register_taxonomy` each, in scheduling order |
| Registrar.AddTaxonomyCount | PostType.php:116-159 | `addTaxonomy` keeps every earlier call and appends exactly one call per (post type, taxonomy) pair |
| Registrar.AddTaxonomyCallAt | PostType.php:118-156 | the call for the j-th taxonomy of the i-th post type sits at its nested-iteration position and takes the post-type key, unchanged, as its object type |
| Scenarios.NoDeclarationsNoCalls | PostType.php:68 | declaring no post types emits no call |
| Scenarios.DeclareEvent | PostType.php:68-105 | declaring `event` emits one call, with slug `event`, singular label "Event" and plural label pluralize("Event") |
| Scenarios.DeclareCategory | PostType.php:118-155 | a taxonomy `category` on `event` emits one `register_taxonomy` with slug `category` and object type `event` |

## Left out

- `session_start()` and the `$_SESSION['taxonomy_data']` initialisation (PostType.php:12, 45-47): global side effects whose result is never read.
- The constructor and `l10n` (PostType.php:31-35, 161-166): locale filtering and `.mo` file loading are host calls and file I/O. The `.mo` path there is built as `dirname(__FILE__) . '../languages/…'`, with no separator after the directory. This observation is not modelled.
- `Inflector::pluralize`, `__` and `sprintf`: their code is not part of this model. They appear as the uninterpreted function fields of `Host`. Labels are stated in terms of these fields, not in terms of their output text.
- The behaviour of `register_post_type`, `register_taxonomy` and `add_action` inside WordPress: only the arguments passed are modelled. `add_action` is modelled as appending a callback to a list. Every callback uses priority 999, so insertion order is the run order.
- WordPress's merging of an identical callback added twice: the model appends one `registerPostType` hook per `createPostType` call. Host-side, a repeated `array($this, 'registerPostType')` collapses into one.
- PHP's conversion of integer-like string keys to integers, and `array_merge`'s renumbering of integer keys: all keys here are strings.
- Arguments that are not arrays (a plain string passed to `createPostType`, a non-array override): PHP would warn or throw. The types here rule them out.
- Case mapping is ASCII-only: non-ASCII letters and locale-dependent `strtolower`/`ucwords` (PHP before 8.2) are not modelled.
