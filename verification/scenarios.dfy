/** Concrete declarations and the registration calls they lead to. */
module Scenarios {
  import opened PhpArray
  import opened Naming
  import opened Options
  import opened Registrar

  /** Declaring no post types leads to no `register_post_type` call. */
  lemma NoDeclarationsNoCalls(h: Host)
    ensures FireInit(Standard(h), CreatePostType(Initial, [])) == []
  {
    CreatePostTypeRegistersEach(Standard(h), []);
  }

  /** The name `event` is title-cased to "Event". */
  lemma EventSingular()
    ensures Singular("event") == "Event"
  {
  }

  /** `createPostType(array('event' => array()))` registers `event`, labelled "Event" / pluralize("Event"). */
  lemma DeclareEvent(h: Host)
    ensures var calls := FireInit(Standard(h), CreatePostType(Initial, [("event", [])]));
            && |calls| == 1
            && calls[0].RegisterPostType?
            && calls[0].slug == "event"
            && Get(calls[0].args, "labels") == Some(Dict(PostTypeLabels(h, "Event", h.pluralize("Event"))))
  {
    EventSingular();
    SlugOfSlugShaped("event");
    CreatePostTypeRegistersEach(Standard(h), [("event", [])]);
    PostTypeCallArgs(h, "event", []);
  }

  /** `addTaxonomy(array('event' => array('category' => array())))` registers `category` for `event`. */
  lemma DeclareCategory(h: Host)
    ensures var calls := FireInit(Standard(h), AddTaxonomy(Initial, [("event", [("category", [])])]));
            && |calls| == 1
            && calls[0] == TaxonomyCall(Standard(h), "category", "event", [])
            && calls[0].slug == "category"
            && calls[0].objectType == "event"
  {
    TaxonomyDeclaredOnce(h, [("event", [("category", [])])]);
    CategoryCall(h);
  }

  lemma CategoryCall(h: Host)
    ensures TaxonomyCall(Standard(h), "category", "event", []).slug == "category"
  {
    SlugOfSlugShaped("category");
  }

  lemma TaxonomyDeclaredOnce(h: Host, t: TaxonomyDecls)
    requires |t| == 1 && |t[0].1| == 1
    ensures var calls := FireInit(Standard(h), AddTaxonomy(Initial, t));
            |calls| == 1 && calls[0] == TaxonomyCall(Standard(h), t[0].1[0].0, t[0].0, t[0].1[0].1)
  {
    assert FireInit(Standard(h), Initial) == [];
    assert PairCount(t) == 1 && Offset(t, 0) == 0 by {
      assert t[1..] == [] && t[..0] == [];
    }
    AddTaxonomyCallAt(Standard(h), Initial, t, 0, 0);
    AddTaxonomyCount(Standard(h), Initial, t);
  }
}
