/**
  The label maps and default option arrays `Moksha\PostType` builds for a
  post type and for a taxonomy, and their shallow merge with the caller's
  overrides.
 */
module Options {
  import opened PhpArray
  import opened Naming

  /**
    The host functions whose code is not part of this model, as parameters:
    `Inflector::pluralize`, WordPress's `__` in the `_mok` text domain, and
    `sprintf` applied to a template and one argument.
   */
  datatype Host = Host(
    pluralize: string -> string,
    translate: string -> string,
    sprintf: (string, string) -> string)

  /** `sprintf(__(template, '_mok'), arg)`. */
  function Fmt(h: Host, template: string, arg: string): string
  {
    h.sprintf(h.translate(template), arg)
  }

  /** The plural label: the pluralised singular name. */
  function Plural(h: Host, name: string): string
  {
    h.pluralize(Singular(name))
  }

  /** The message ids passed to `__` in the `_mok` text domain. */
  const AddNewMsg: string := "Add New %s"
  const EditMsg: string := "Edit %s"
  const NewMsg: string := "New %s"
  const AllMsg: string := "All %s"
  const ViewMsg: string := "View %s"
  const SearchMsg: string := "Search %s"
  const NoneMsg: string := "No %s"
  const NoneInTrashMsg: string := "No %s found in Trash"
  const ParentColonMsg: string := "Parent %s:"
  const ParentMsg: string := "Parent %s"
  const UpdateMsg: string := "Update %s"
  const NewNameMsg: string := "New %s Name"
  const PopularMsg: string := "Popular %s"
  const SeparateMsg: string := "Separate %s with commas"
  const AddOrRemoveMsg: string := "Add or remove %s"
  const ChooseMsg: string := "Choose from the most used %s"
  const PlainMsg: string := "%s"
  const NotFoundMsg: string := "Not Found"

  const PostTypeLabelKeys: seq<string> := [
    "name", "singular_name", "add_new", "add_new_item", "edit_item", "new_item",
    "all_items", "view_item", "search_items", "not_found", "not_found_in_trash",
    "parent_item_colon", "menu_name"]

  const TaxonomyLabelKeys: seq<string> := [
    "name", "singular_name", "search_items", "all_items", "parent_item",
    "parent_item_colon", "edit_item", "update_item", "add_new_item", "new_item_name",
    "popular_items", "separate_items_with_commas", "add_or_remove_items",
    "choose_from_most_used", "menu_name", "view_item", "not_found"]

  const PostTypeOptionKeys: seq<string> := [
    "labels", "supports", "taxonomies", "hierarchical", "public", "show_ui",
    "show_in_menu", "show_in_nav_menus", "show_in_admin_bar", "menu_position",
    "can_export", "has_archive", "exclude_from_search", "publicly_queryable",
    "rewrite", "capability_type"]

  const TaxonomyOptionKeys: seq<string> := [
    "labels", "hierarchical", "show_ui", "query_var", "show_in_menu",
    "show_in_nav_menus", "show_tagcloud", "show_admin_column", "rewrite"]

  /** No key of a key list occurs twice. */
  predicate Distinct(ks: seq<string>)
  {
    forall i, j :: 0 <= i < j < |ks| ==> ks[i] != ks[j]
  }

  lemma PostTypeLabelKeysDistinct() ensures Distinct(PostTypeLabelKeys) {}
  lemma TaxonomyLabelKeysDistinct() ensures Distinct(TaxonomyLabelKeys) {}
  lemma PostTypeOptionKeysDistinct() ensures Distinct(PostTypeOptionKeys) {}
  lemma TaxonomyOptionKeysDistinct() ensures Distinct(TaxonomyOptionKeys) {}

  /** An array whose key sequence has no repetition is a PHP array. */
  lemma DistinctKeysWellFormed<V>(d: Array<V>, ks: seq<string>)
    requires Keys(d) == ks
    requires Distinct(ks)
    ensures WellFormed(d)
  {
    forall i, j | 0 <= i < j < |d| ensures d[i].0 != d[j].0 {
      assert ks[i] == d[i].0 && ks[j] == d[j].0;
    }
  }

  /** The 13 post-type labels. */
  function PostTypeLabels(h: Host, singular: string, plural: string): (r: Array<Value>)
    ensures Keys(r) == PostTypeLabelKeys
  {
    Zip(PostTypeLabelKeys, [
      Str(plural),                           // name
      Str(singular),                         // singular_name
      Str(Fmt(h, AddNewMsg, singular)),      // add_new
      Str(Fmt(h, AddNewMsg, singular)),      // add_new_item
      Str(Fmt(h, EditMsg, singular)),        // edit_item
      Str(Fmt(h, NewMsg, singular)),         // new_item
      Str(Fmt(h, AllMsg, plural)),           // all_items
      Str(Fmt(h, ViewMsg, singular)),        // view_item
      Str(Fmt(h, SearchMsg, plural)),        // search_items
      Str(Fmt(h, NoneMsg, plural)),          // not_found
      Str(Fmt(h, NoneInTrashMsg, plural)),   // not_found_in_trash
      Str(Fmt(h, ParentColonMsg, singular)), // parent_item_colon
      Str(plural)                            // menu_name
    ])
  }

  /** The 17 taxonomy labels. */
  function TaxonomyLabels(h: Host, singular: string, plural: string): (r: Array<Value>)
    ensures Keys(r) == TaxonomyLabelKeys
  {
    Zip(TaxonomyLabelKeys, [
      Str(plural),                           // name
      Str(singular),                         // singular_name
      Str(Fmt(h, SearchMsg, plural)),        // search_items
      Str(Fmt(h, AllMsg, plural)),           // all_items
      Str(Fmt(h, ParentMsg, singular)),      // parent_item
      Str(Fmt(h, ParentColonMsg, singular)), // parent_item_colon
      Str(Fmt(h, EditMsg, singular)),        // edit_item
      Str(Fmt(h, UpdateMsg, singular)),      // update_item
      Str(Fmt(h, AddNewMsg, singular)),      // add_new_item
      Str(Fmt(h, NewNameMsg, singular)),     // new_item_name
      Str(Fmt(h, PopularMsg, plural)),       // popular_items
      Str(Fmt(h, SeparateMsg, plural)),      // separate_items_with_commas
      Str(Fmt(h, AddOrRemoveMsg, plural)),   // add_or_remove_items
      Str(Fmt(h, ChooseMsg, plural)),        // choose_from_most_used
      Str(Fmt(h, PlainMsg, plural)),         // menu_name
      Str(Fmt(h, ViewMsg, singular)),        // view_item
      Str(h.translate(NotFoundMsg))          // not_found
    ])
  }

  /** The default arguments of `register_post_type` for a declared name. */
  function PostTypeDefaults(h: Host, name: string): (r: Array<Value>)
    ensures Keys(r) == PostTypeOptionKeys
  {
    var singular := Singular(name);
    Zip(PostTypeOptionKeys, [
      Dict(PostTypeLabels(h, singular, h.pluralize(singular))), // labels
      List([Str("title"), Str("editor"), Str("thumbnail")]),    // supports
      List([]),                                                 // taxonomies
      Bool(false),                                              // hierarchical
      Bool(true),                                               // public
      Bool(true),                                               // show_ui
      Bool(true),                                               // show_in_menu
      Bool(true),                                               // show_in_nav_menus
      Bool(true),                                               // show_in_admin_bar
      Int(20),                                                  // menu_position
      Bool(true),                                               // can_export
      Bool(true),                                               // has_archive
      Bool(false),                                              // exclude_from_search
      Bool(true),                                               // publicly_queryable
      Dict([("slug", Str(SlugOf(singular)))]),                  // rewrite
      Str("post")                                               // capability_type
    ])
  }

  /** The default arguments of `register_taxonomy` for a declared taxonomy name. */
  function TaxonomyDefaults(h: Host, name: string): (r: Array<Value>)
    ensures Keys(r) == TaxonomyOptionKeys
  {
    var singular := Singular(name);
    Zip(TaxonomyOptionKeys, [
      Dict(TaxonomyLabels(h, singular, h.pluralize(singular))), // labels
      Bool(true),                                               // hierarchical
      Bool(true),                                               // show_ui
      Bool(true),                                               // query_var
      Null,                                                     // show_in_menu
      Null,                                                     // show_in_nav_menus
      Null,                                                     // show_tagcloud
      Bool(false),                                              // show_admin_column
      Dict([("slug", Str(SlugOf(singular)))])                   // rewrite
    ])
  }

  lemma PostTypeLabelsWellFormed(h: Host, singular: string, plural: string)
    ensures WellFormed(PostTypeLabels(h, singular, plural))
  {
    PostTypeLabelKeysDistinct();
    DistinctKeysWellFormed(PostTypeLabels(h, singular, plural), PostTypeLabelKeys);
  }

  lemma TaxonomyLabelsWellFormed(h: Host, singular: string, plural: string)
    ensures WellFormed(TaxonomyLabels(h, singular, plural))
  {
    TaxonomyLabelKeysDistinct();
    DistinctKeysWellFormed(TaxonomyLabels(h, singular, plural), TaxonomyLabelKeys);
  }

  lemma PostTypeDefaultsWellFormed(h: Host, name: string)
    ensures WellFormed(PostTypeDefaults(h, name))
  {
    PostTypeOptionKeysDistinct();
    DistinctKeysWellFormed(PostTypeDefaults(h, name), PostTypeOptionKeys);
  }

  lemma TaxonomyDefaultsWellFormed(h: Host, name: string)
    ensures WellFormed(TaxonomyDefaults(h, name))
  {
    TaxonomyOptionKeysDistinct();
    DistinctKeysWellFormed(TaxonomyDefaults(h, name), TaxonomyOptionKeys);
  }

  /** `array_merge($args, $postTypeArgs)`. */
  function PostTypeArgs(h: Host, name: string, overrides: Array<Value>): Array<Value>
  {
    Merge(PostTypeDefaults(h, name), overrides)
  }

  /** `array_merge(<taxonomy defaults>, $taxonomyOptions)`. */
  function TaxonomyArgs(h: Host, name: string, overrides: Array<Value>): Array<Value>
  {
    Merge(TaxonomyDefaults(h, name), overrides)
  }

  /** Lookup of the i-th post-type label key finds the i-th label. */
  lemma PostTypeLabelAt(h: Host, singular: string, plural: string, i: int)
    requires 0 <= i < |PostTypeLabelKeys|
    ensures Get(PostTypeLabels(h, singular, plural), PostTypeLabelKeys[i])
         == Some(PostTypeLabels(h, singular, plural)[i].1)
  {
    PostTypeLabelsWellFormed(h, singular, plural);
    GetAt(PostTypeLabels(h, singular, plural), i);
  }

  /** Lookup of the i-th taxonomy label key finds the i-th label. */
  lemma TaxonomyLabelAt(h: Host, singular: string, plural: string, i: int)
    requires 0 <= i < |TaxonomyLabelKeys|
    ensures Get(TaxonomyLabels(h, singular, plural), TaxonomyLabelKeys[i])
         == Some(TaxonomyLabels(h, singular, plural)[i].1)
  {
    TaxonomyLabelsWellFormed(h, singular, plural);
    GetAt(TaxonomyLabels(h, singular, plural), i);
  }

  /** `name` and `menu_name` are the plural itself, `singular_name` the singular itself. */
  lemma PostTypeLabelNames(h: Host, singular: string, plural: string)
    ensures Get(PostTypeLabels(h, singular, plural), "name") == Some(Str(plural))
    ensures Get(PostTypeLabels(h, singular, plural), "menu_name") == Some(Str(plural))
    ensures Get(PostTypeLabels(h, singular, plural), "singular_name") == Some(Str(singular))
  {
    PostTypeLabelAt(h, singular, plural, 0);
    PostTypeLabelAt(h, singular, plural, 1);
    PostTypeLabelAt(h, singular, plural, 12);
  }

  /** Each formatted post-type label is its own translated template applied to the singular or the plural. */
  lemma PostTypeLabelValues(h: Host, singular: string, plural: string)
    ensures var l := PostTypeLabels(h, singular, plural);
      && Get(l, "add_new") == Some(Str(Fmt(h, AddNewMsg, singular)))
      && Get(l, "add_new_item") == Some(Str(Fmt(h, AddNewMsg, singular)))
      && Get(l, "edit_item") == Some(Str(Fmt(h, EditMsg, singular)))
      && Get(l, "new_item") == Some(Str(Fmt(h, NewMsg, singular)))
      && Get(l, "all_items") == Some(Str(Fmt(h, AllMsg, plural)))
      && Get(l, "view_item") == Some(Str(Fmt(h, ViewMsg, singular)))
      && Get(l, "search_items") == Some(Str(Fmt(h, SearchMsg, plural)))
      && Get(l, "not_found") == Some(Str(Fmt(h, NoneMsg, plural)))
      && Get(l, "not_found_in_trash") == Some(Str(Fmt(h, NoneInTrashMsg, plural)))
      && Get(l, "parent_item_colon") == Some(Str(Fmt(h, ParentColonMsg, singular)))
  {
    PostTypeLabelAt(h, singular, plural, 2);
    PostTypeLabelAt(h, singular, plural, 3);
    PostTypeLabelAt(h, singular, plural, 4);
    PostTypeLabelAt(h, singular, plural, 5);
    PostTypeLabelAt(h, singular, plural, 6);
    PostTypeLabelAt(h, singular, plural, 7);
    PostTypeLabelAt(h, singular, plural, 8);
    PostTypeLabelAt(h, singular, plural, 9);
    PostTypeLabelAt(h, singular, plural, 10);
    PostTypeLabelAt(h, singular, plural, 11);
  }

  /** The plural-sourced post-type labels do not depend on the singular name. */
  lemma PostTypeLabelsFromPlural(h: Host, singular1: string, singular2: string, plural: string)
    ensures var l1, l2 := PostTypeLabels(h, singular1, plural), PostTypeLabels(h, singular2, plural);
      && Get(l1, "name") == Get(l2, "name")
      && Get(l1, "all_items") == Get(l2, "all_items")
      && Get(l1, "search_items") == Get(l2, "search_items")
      && Get(l1, "not_found") == Get(l2, "not_found")
      && Get(l1, "not_found_in_trash") == Get(l2, "not_found_in_trash")
      && Get(l1, "menu_name") == Get(l2, "menu_name")
  {
    PostTypeLabelAt(h, singular1, plural, 0); PostTypeLabelAt(h, singular2, plural, 0);
    PostTypeLabelAt(h, singular1, plural, 6); PostTypeLabelAt(h, singular2, plural, 6);
    PostTypeLabelAt(h, singular1, plural, 8); PostTypeLabelAt(h, singular2, plural, 8);
    PostTypeLabelAt(h, singular1, plural, 9); PostTypeLabelAt(h, singular2, plural, 9);
    PostTypeLabelAt(h, singular1, plural, 10); PostTypeLabelAt(h, singular2, plural, 10);
    PostTypeLabelAt(h, singular1, plural, 12); PostTypeLabelAt(h, singular2, plural, 12);
  }

  /** The singular-sourced post-type labels do not depend on the plural name. */
  lemma PostTypeLabelsFromSingular(h: Host, singular: string, plural1: string, plural2: string)
    ensures var l1, l2 := PostTypeLabels(h, singular, plural1), PostTypeLabels(h, singular, plural2);
      && Get(l1, "singular_name") == Get(l2, "singular_name")
      && Get(l1, "add_new") == Get(l2, "add_new")
      && Get(l1, "add_new_item") == Get(l2, "add_new_item")
      && Get(l1, "edit_item") == Get(l2, "edit_item")
      && Get(l1, "new_item") == Get(l2, "new_item")
      && Get(l1, "view_item") == Get(l2, "view_item")
      && Get(l1, "parent_item_colon") == Get(l2, "parent_item_colon")
  {
    PostTypeLabelAt(h, singular, plural1, 1); PostTypeLabelAt(h, singular, plural2, 1);
    PostTypeLabelAt(h, singular, plural1, 2); PostTypeLabelAt(h, singular, plural2, 2);
    PostTypeLabelAt(h, singular, plural1, 3); PostTypeLabelAt(h, singular, plural2, 3);
    PostTypeLabelAt(h, singular, plural1, 4); PostTypeLabelAt(h, singular, plural2, 4);
    PostTypeLabelAt(h, singular, plural1, 5); PostTypeLabelAt(h, singular, plural2, 5);
    PostTypeLabelAt(h, singular, plural1, 7); PostTypeLabelAt(h, singular, plural2, 7);
    PostTypeLabelAt(h, singular, plural1, 11); PostTypeLabelAt(h, singular, plural2, 11);
  }

  /** `name` is the plural, `singular_name` the singular, `menu_name` the formatted plural. */
  lemma TaxonomyLabelNames(h: Host, singular: string, plural: string)
    ensures Get(TaxonomyLabels(h, singular, plural), "name") == Some(Str(plural))
    ensures Get(TaxonomyLabels(h, singular, plural), "singular_name") == Some(Str(singular))
    ensures Get(TaxonomyLabels(h, singular, plural), "menu_name") == Some(Str(Fmt(h, PlainMsg, plural)))
  {
    TaxonomyLabelAt(h, singular, plural, 0);
    TaxonomyLabelAt(h, singular, plural, 1);
    TaxonomyLabelAt(h, singular, plural, 14);
  }

  /** Each formatted taxonomy label is its own translated template applied to the singular or the plural. */
  lemma TaxonomyLabelValues(h: Host, singular: string, plural: string)
    ensures var l := TaxonomyLabels(h, singular, plural);
      && Get(l, "search_items") == Some(Str(Fmt(h, SearchMsg, plural)))
      && Get(l, "all_items") == Some(Str(Fmt(h, AllMsg, plural)))
      && Get(l, "parent_item") == Some(Str(Fmt(h, ParentMsg, singular)))
      && Get(l, "parent_item_colon") == Some(Str(Fmt(h, ParentColonMsg, singular)))
      && Get(l, "edit_item") == Some(Str(Fmt(h, EditMsg, singular)))
      && Get(l, "update_item") == Some(Str(Fmt(h, UpdateMsg, singular)))
      && Get(l, "add_new_item") == Some(Str(Fmt(h, AddNewMsg, singular)))
      && Get(l, "new_item_name") == Some(Str(Fmt(h, NewNameMsg, singular)))
      && Get(l, "popular_items") == Some(Str(Fmt(h, PopularMsg, plural)))
      && Get(l, "separate_items_with_commas") == Some(Str(Fmt(h, SeparateMsg, plural)))
      && Get(l, "add_or_remove_items") == Some(Str(Fmt(h, AddOrRemoveMsg, plural)))
      && Get(l, "choose_from_most_used") == Some(Str(Fmt(h, ChooseMsg, plural)))
      && Get(l, "view_item") == Some(Str(Fmt(h, ViewMsg, singular)))
  {
    TaxonomyLabelAt(h, singular, plural, 2);
    TaxonomyLabelAt(h, singular, plural, 3);
    TaxonomyLabelAt(h, singular, plural, 4);
    TaxonomyLabelAt(h, singular, plural, 5);
    TaxonomyLabelAt(h, singular, plural, 6);
    TaxonomyLabelAt(h, singular, plural, 7);
    TaxonomyLabelAt(h, singular, plural, 8);
    TaxonomyLabelAt(h, singular, plural, 9);
    TaxonomyLabelAt(h, singular, plural, 10);
    TaxonomyLabelAt(h, singular, plural, 11);
    TaxonomyLabelAt(h, singular, plural, 12);
    TaxonomyLabelAt(h, singular, plural, 13);
    TaxonomyLabelAt(h, singular, plural, 15);
  }

  /** The plural-sourced taxonomy labels do not depend on the singular name. */
  lemma TaxonomyLabelsFromPlural(h: Host, singular1: string, singular2: string, plural: string)
    ensures var l1, l2 := TaxonomyLabels(h, singular1, plural), TaxonomyLabels(h, singular2, plural);
      && Get(l1, "name") == Get(l2, "name")
      && Get(l1, "search_items") == Get(l2, "search_items")
      && Get(l1, "all_items") == Get(l2, "all_items")
      && Get(l1, "popular_items") == Get(l2, "popular_items")
      && Get(l1, "separate_items_with_commas") == Get(l2, "separate_items_with_commas")
      && Get(l1, "add_or_remove_items") == Get(l2, "add_or_remove_items")
      && Get(l1, "choose_from_most_used") == Get(l2, "choose_from_most_used")
      && Get(l1, "menu_name") == Get(l2, "menu_name")
  {
    TaxonomyLabelAt(h, singular1, plural, 0); TaxonomyLabelAt(h, singular2, plural, 0);
    TaxonomyLabelAt(h, singular1, plural, 2); TaxonomyLabelAt(h, singular2, plural, 2);
    TaxonomyLabelAt(h, singular1, plural, 3); TaxonomyLabelAt(h, singular2, plural, 3);
    TaxonomyLabelAt(h, singular1, plural, 10); TaxonomyLabelAt(h, singular2, plural, 10);
    TaxonomyLabelAt(h, singular1, plural, 11); TaxonomyLabelAt(h, singular2, plural, 11);
    TaxonomyLabelAt(h, singular1, plural, 12); TaxonomyLabelAt(h, singular2, plural, 12);
    TaxonomyLabelAt(h, singular1, plural, 13); TaxonomyLabelAt(h, singular2, plural, 13);
    TaxonomyLabelAt(h, singular1, plural, 14); TaxonomyLabelAt(h, singular2, plural, 14);
  }

  /** The singular-sourced taxonomy labels do not depend on the plural name. */
  lemma TaxonomyLabelsFromSingular(h: Host, singular: string, plural1: string, plural2: string)
    ensures var l1, l2 := TaxonomyLabels(h, singular, plural1), TaxonomyLabels(h, singular, plural2);
      && Get(l1, "singular_name") == Get(l2, "singular_name")
      && Get(l1, "parent_item") == Get(l2, "parent_item")
      && Get(l1, "parent_item_colon") == Get(l2, "parent_item_colon")
      && Get(l1, "edit_item") == Get(l2, "edit_item")
      && Get(l1, "update_item") == Get(l2, "update_item")
      && Get(l1, "add_new_item") == Get(l2, "add_new_item")
      && Get(l1, "new_item_name") == Get(l2, "new_item_name")
      && Get(l1, "view_item") == Get(l2, "view_item")
  {
    TaxonomyLabelAt(h, singular, plural1, 1); TaxonomyLabelAt(h, singular, plural2, 1);
    TaxonomyLabelAt(h, singular, plural1, 4); TaxonomyLabelAt(h, singular, plural2, 4);
    TaxonomyLabelAt(h, singular, plural1, 5); TaxonomyLabelAt(h, singular, plural2, 5);
    TaxonomyLabelAt(h, singular, plural1, 6); TaxonomyLabelAt(h, singular, plural2, 6);
    TaxonomyLabelAt(h, singular, plural1, 7); TaxonomyLabelAt(h, singular, plural2, 7);
    TaxonomyLabelAt(h, singular, plural1, 8); TaxonomyLabelAt(h, singular, plural2, 8);
    TaxonomyLabelAt(h, singular, plural1, 9); TaxonomyLabelAt(h, singular, plural2, 9);
    TaxonomyLabelAt(h, singular, plural1, 15); TaxonomyLabelAt(h, singular, plural2, 15);
  }

  /** The taxonomy `not_found` label is the translated constant "Not Found", whatever the names. */
  lemma TaxonomyNotFoundFixed(h: Host, singular1: string, plural1: string, singular2: string, plural2: string)
    ensures Get(TaxonomyLabels(h, singular1, plural1), "not_found") == Some(Str(h.translate(NotFoundMsg)))
    ensures Get(TaxonomyLabels(h, singular1, plural1), "not_found")
         == Get(TaxonomyLabels(h, singular2, plural2), "not_found")
  {
    TaxonomyLabelAt(h, singular1, plural1, 16);
    TaxonomyLabelAt(h, singular2, plural2, 16);
  }

  /**
    Shallow override-wins merge of a post type's arguments: the caller's keys
    win, the default keys keep their order, new keys are appended, and a
    `labels` override replaces the whole default label array.
   */
  lemma PostTypeArgsMerge(h: Host, name: string, overrides: Array<Value>)
    requires WellFormed(overrides)
    ensures WellFormed(PostTypeArgs(h, name, overrides))
    ensures Keys(PostTypeArgs(h, name, overrides))
         == PostTypeOptionKeys + NewKeys(PostTypeOptionKeys, Keys(overrides))
    ensures forall k :: k in Keys(overrides) ==> Get(PostTypeArgs(h, name, overrides), k) == Get(overrides, k)
    ensures forall k :: k !in Keys(overrides) ==>
              Get(PostTypeArgs(h, name, overrides), k) == Get(PostTypeDefaults(h, name), k)
    ensures "labels" !in Keys(overrides) ==>
              Get(PostTypeArgs(h, name, overrides), "labels")
              == Some(Dict(PostTypeLabels(h, Singular(name), Plural(h, name))))
  {
    var defaults := PostTypeDefaults(h, name);
    PostTypeDefaultsWellFormed(h, name);
    MergeWellFormed(defaults, overrides);
    MergeKeys(defaults, overrides);
    forall k | true
      ensures Get(PostTypeArgs(h, name, overrides), k)
           == if k in Keys(overrides) then Get(overrides, k) else Get(defaults, k)
    {
      MergeGet(defaults, overrides, k);
    }
    GetAt(defaults, 0);
  }

  /** The same shallow override-wins merge for a taxonomy's options. */
  lemma TaxonomyArgsMerge(h: Host, name: string, overrides: Array<Value>)
    requires WellFormed(overrides)
    ensures WellFormed(TaxonomyArgs(h, name, overrides))
    ensures Keys(TaxonomyArgs(h, name, overrides))
         == TaxonomyOptionKeys + NewKeys(TaxonomyOptionKeys, Keys(overrides))
    ensures forall k :: k in Keys(overrides) ==> Get(TaxonomyArgs(h, name, overrides), k) == Get(overrides, k)
    ensures forall k :: k !in Keys(overrides) ==>
              Get(TaxonomyArgs(h, name, overrides), k) == Get(TaxonomyDefaults(h, name), k)
    ensures "labels" !in Keys(overrides) ==>
              Get(TaxonomyArgs(h, name, overrides), "labels")
              == Some(Dict(TaxonomyLabels(h, Singular(name), Plural(h, name))))
  {
    var defaults := TaxonomyDefaults(h, name);
    TaxonomyDefaultsWellFormed(h, name);
    MergeWellFormed(defaults, overrides);
    MergeKeys(defaults, overrides);
    forall k | true
      ensures Get(TaxonomyArgs(h, name, overrides), k)
           == if k in Keys(overrides) then Get(overrides, k) else Get(defaults, k)
    {
      MergeGet(defaults, overrides, k);
    }
    GetAt(defaults, 0);
  }
}
