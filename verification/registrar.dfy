/**
  The registration side of `Moksha\PostType`: the calls it makes to the
  host's `register_post_type` and `register_taxonomy`, returned as a trace,
  and the deferred `init` callbacks that produce them.
 */
module Registrar {
  import opened Ascii
  import opened PhpArray
  import opened Naming
  import opened Options

  /** One call into the host. */
  datatype RegCall =
    | RegisterPostType(slug: string, args: Array<Value>)
    | RegisterTaxonomy(slug: string, objectType: string, args: Array<Value>)

  /** The pending post types: declared name => caller overrides. */
  type PostTypeDecls = Array<Array<Value>>

  /** The argument of `addTaxonomy`: post type => (taxonomy name => caller overrides). */
  type TaxonomyDecls = Array<Array<Array<Value>>>

  /**
    How a callback builds the argument array it passes to the host, from the
    declared name and the caller's overrides. The registration order does not
    depend on it, so the loops below take it as a parameter; `Standard` is the
    one `Moksha\PostType` uses.
   */
  datatype Builders = Builders(
    postTypeArgs: (string, Array<Value>) -> Array<Value>,
    taxonomyArgs: (string, Array<Value>) -> Array<Value>)

  /** The defaults-then-`array_merge` arguments of the class, for a given host. */
  function Standard(h: Host): Builders
  {
    Builders((name, overrides) => PostTypeArgs(h, name, overrides),
             (name, overrides) => TaxonomyArgs(h, name, overrides))
  }

  /** The body of one iteration of `registerPostType`. */
  function PostTypeCall(b: Builders, name: string, overrides: Array<Value>): (c: RegCall)
    ensures c.RegisterPostType?
    ensures c.slug == StrToLower(SpacesToHyphens(name))
  {
    RegisterPostType(Slug(name), b.postTypeArgs(name, overrides))
  }

  /** The body of the closure `addTaxonomy` schedules for one (post type, taxonomy) pair. */
  function TaxonomyCall(b: Builders, taxonomyName: string, postType: string, overrides: Array<Value>): (c: RegCall)
    ensures c.RegisterTaxonomy?
    ensures c.slug == StrToLower(SpacesToHyphens(taxonomyName))
    ensures c.objectType == postType
  {
    RegisterTaxonomy(Slug(taxonomyName), postType, b.taxonomyArgs(taxonomyName, overrides))
  }

  /** `registerPostType`: one `register_post_type` call per pending entry, in iteration order. */
  function RegisterPostTypes(b: Builders, pending: PostTypeDecls): (calls: seq<RegCall>)
    ensures |calls| == |pending|
    ensures forall i :: 0 <= i < |pending| ==> calls[i] == PostTypeCall(b, pending[i].0, pending[i].1)
  {
    if pending == [] then []
    else [PostTypeCall(b, pending[0].0, pending[0].1)] + RegisterPostTypes(b, pending[1..])
  }

  /**
    The class's `register_post_type` call carries the merged arguments: the
    caller's keys win, and without a `labels` override the labels are the 13
    derived from the declared name.
   */
  lemma PostTypeCallArgs(h: Host, name: string, overrides: Array<Value>)
    requires WellFormed(overrides)
    ensures var c := PostTypeCall(Standard(h), name, overrides);
            && WellFormed(c.args)
            && (forall k :: k in Keys(overrides) ==> Get(c.args, k) == Get(overrides, k))
            && ("labels" !in Keys(overrides) ==>
                  Get(c.args, "labels") == Some(Dict(PostTypeLabels(h, Singular(name), Plural(h, name)))))
  {
    PostTypeArgsMerge(h, name, overrides);
  }

  /**
    The class's `register_taxonomy` call carries the merged options: the
    caller's keys win, and without a `labels` override the labels are the 17
    derived from the taxonomy name.
   */
  lemma TaxonomyCallArgs(h: Host, taxonomyName: string, postType: string, overrides: Array<Value>)
    requires WellFormed(overrides)
    ensures var c := TaxonomyCall(Standard(h), taxonomyName, postType, overrides);
            && WellFormed(c.args)
            && (forall k :: k in Keys(overrides) ==> Get(c.args, k) == Get(overrides, k))
            && ("labels" !in Keys(overrides) ==>
                  Get(c.args, "labels") == Some(Dict(TaxonomyLabels(h, Singular(taxonomyName), Plural(h, taxonomyName)))))
  {
    TaxonomyArgsMerge(h, taxonomyName, overrides);
  }

  /** Without a `rewrite` override, the rewrite slug of a post type is the slug it is registered under. */
  lemma PostTypeRewriteSlug(h: Host, name: string, overrides: Array<Value>)
    requires WellFormed(overrides)
    requires "rewrite" !in Keys(overrides)
    ensures var c := PostTypeCall(Standard(h), name, overrides);
            Get(c.args, "rewrite") == Some(Dict([("slug", Str(c.slug))]))
  {
    var defaults := PostTypeDefaults(h, name);
    MergeGet(defaults, overrides, "rewrite");
    PostTypeDefaultsWellFormed(h, name);
    GetAt(defaults, 14);
  }

  /** Without a `rewrite` override, the rewrite slug of a taxonomy is the slug it is registered under. */
  lemma TaxonomyRewriteSlug(h: Host, taxonomyName: string, postType: string, overrides: Array<Value>)
    requires WellFormed(overrides)
    requires "rewrite" !in Keys(overrides)
    ensures var c := TaxonomyCall(Standard(h), taxonomyName, postType, overrides);
            Get(c.args, "rewrite") == Some(Dict([("slug", Str(c.slug))]))
  {
    var defaults := TaxonomyDefaults(h, taxonomyName);
    MergeGet(defaults, overrides, "rewrite");
    TaxonomyDefaultsWellFormed(h, taxonomyName);
    GetAt(defaults, 8);
  }

  /** A callback waiting on the host's `init` action. */
  datatype Hook =
    | RegisterPostTypesHook   // array($this, 'registerPostType'): reads the pending map when it runs
    | TaxonomyHook(taxonomyName: string, postType: string, overrides: Array<Value>) // closure over one pair

  /** The state of one `Moksha\PostType` object: its pending post types and the callbacks it has scheduled. */
  datatype State = State(customPostType: PostTypeDecls, initHooks: seq<Hook>)

  /** A freshly constructed object. */
  const Initial: State := State([], [])

  /** `createPostType`: replace the pending post types and schedule `registerPostType`. */
  function CreatePostType(st: State, decls: PostTypeDecls): (r: State)
    ensures r.customPostType == decls
    ensures r.initHooks == st.initHooks + [RegisterPostTypesHook]
  {
    State(decls, st.initHooks + [RegisterPostTypesHook])
  }

  /** The number of (post type, taxonomy) pairs in a declaration. */
  function PairCount(t: TaxonomyDecls): nat
  {
    if t == [] then 0 else |t[0].1| + PairCount(t[1..])
  }

  /** The number of pairs declared before the i-th post type. */
  function Offset(t: TaxonomyDecls, i: int): nat
    requires 0 <= i <= |t|
  {
    PairCount(t[..i])
  }

  /** The closures scheduled by the inner loop of `addTaxonomy` for one post type. */
  function TaxonomyHooksFor(postType: string, taxonomies: Array<Array<Value>>): (hooks: seq<Hook>)
    ensures |hooks| == |taxonomies|
    ensures forall j :: 0 <= j < |taxonomies| ==>
              hooks[j] == TaxonomyHook(taxonomies[j].0, postType, taxonomies[j].1)
  {
    if taxonomies == [] then []
    else [TaxonomyHook(taxonomies[0].0, postType, taxonomies[0].1)]
         + TaxonomyHooksFor(postType, taxonomies[1..])
  }

  /** The closures scheduled by both loops of `addTaxonomy`. */
  function TaxonomyHooks(t: TaxonomyDecls): (hooks: seq<Hook>)
    ensures |hooks| == PairCount(t)
    ensures forall n :: 0 <= n < |hooks| ==> hooks[n].TaxonomyHook?
  {
    if t == [] then [] else TaxonomyHooksFor(t[0].0, t[0].1) + TaxonomyHooks(t[1..])
  }

  /** `addTaxonomy`: schedule one closure per (post type, taxonomy) pair; pending post types are untouched. */
  function AddTaxonomy(st: State, t: TaxonomyDecls): (r: State)
    ensures r.customPostType == st.customPostType
    ensures r.initHooks == st.initHooks + TaxonomyHooks(t)
    ensures |r.initHooks| == |st.initHooks| + PairCount(t)
  {
    State(st.customPostType, st.initHooks + TaxonomyHooks(t))
  }

  /** What one callback emits when `init` fires, given the pending post types at that moment. */
  function RunHook(b: Builders, pending: PostTypeDecls, hook: Hook): seq<RegCall>
  {
    match hook
    case RegisterPostTypesHook => RegisterPostTypes(b, pending)
    case TaxonomyHook(taxonomyName, postType, overrides) => [TaxonomyCall(b, taxonomyName, postType, overrides)]
  }

  /** The callback runner for a given host and pending map. */
  function Runner(b: Builders, pending: PostTypeDecls): Hook -> seq<RegCall>
  {
    hook => RunHook(b, pending, hook)
  }

  /** The concatenated output of `run` over `xs`, in order. */
  function FlatMap<X, C>(run: X -> seq<C>, xs: seq<X>): seq<C>
  {
    if xs == [] then [] else run(xs[0]) + FlatMap(run, xs[1..])
  }

  /** The host fires `init`: the callbacks run in the order they were scheduled (all share priority 999), each against the object's state at that moment. */
  function FireInit(b: Builders, st: State): seq<RegCall>
  {
    FlatMap(Runner(b, st.customPostType), st.initHooks)
  }

  lemma {:induction false} FlatMapAppend<X, C>(run: X -> seq<C>, a: seq<X>, b: seq<X>)
    ensures FlatMap(run, a + b) == FlatMap(run, a) + FlatMap(run, b)
    decreases |a|
  {
    if a != [] {
      assert (a + b)[0] == a[0];
      assert (a + b)[1..] == a[1..] + b;
      FlatMapAppend(run, a[1..], b);
    } else {
      assert a + b == b;
    }
  }

  /** When every element yields exactly one output, the outputs line up with the inputs. */
  lemma {:induction false} FlatMapSingletons<X, C>(run: X -> seq<C>, xs: seq<X>)
    requires forall n :: 0 <= n < |xs| ==> |run(xs[n])| == 1
    ensures |FlatMap(run, xs)| == |xs|
    ensures forall n :: 0 <= n < |xs| ==> FlatMap(run, xs)[n] == run(xs[n])[0]
    decreases |xs|
  {
    if xs != [] {
      assert forall n :: 0 <= n < |xs[1..]| ==> xs[1..][n] == xs[n + 1];
      FlatMapSingletons(run, xs[1..]);
    }
  }

  /**
    The pairs before post type i plus its own j-th taxonomy place the closure
    for that pair at position Offset(t, i) + j: nested iteration order is kept.
   */
  lemma {:induction false} TaxonomyHookAt(t: TaxonomyDecls, i: int, j: int)
    requires 0 <= i < |t|
    requires 0 <= j < |t[i].1|
    ensures Offset(t, i) + j < |TaxonomyHooks(t)|
    ensures TaxonomyHooks(t)[Offset(t, i) + j] == TaxonomyHook(t[i].1[j].0, t[i].0, t[i].1[j].1)
  {
    var first := TaxonomyHooksFor(t[0].0, t[0].1);
    assert TaxonomyHooks(t) == first + TaxonomyHooks(t[1..]);
    if i == 0 {
      assert t[..0] == [];
    } else {
      assert t[..i][1..] == t[1..][..i - 1];
      assert Offset(t, i) == |t[0].1| + Offset(t[1..], i - 1);
      TaxonomyHookAt(t[1..], i - 1, j);
    }
  }

  /**
    Firing `init` after `createPostType(decls)` runs every earlier callback and then
    `registerPostType`, all against `decls`: whatever was pending before is gone.
   */
  lemma FireAfterCreatePostType(b: Builders, st: State, decls: PostTypeDecls)
    ensures FireInit(b, CreatePostType(st, decls))
         == FlatMap(Runner(b, decls), st.initHooks) + RegisterPostTypes(b, decls)
  {
    var run := Runner(b, decls);
    FlatMapAppend(run, st.initHooks, [RegisterPostTypesHook]);
    assert FlatMap(run, [RegisterPostTypesHook]) == run(RegisterPostTypesHook) + FlatMap(run, []);
  }

  /** A fresh object with one `createPostType` registers exactly the declared post types, in order. */
  lemma CreatePostTypeRegistersEach(b: Builders, decls: PostTypeDecls)
    ensures FireInit(b, CreatePostType(Initial, decls)) == RegisterPostTypes(b, decls)
    ensures |FireInit(b, CreatePostType(Initial, decls))| == |decls|
  {
    FireAfterCreatePostType(b, Initial, decls);
  }

  /** A taxonomy closure emits exactly its own `register_taxonomy` call. */
  lemma TaxonomyHookRuns(b: Builders, pending: PostTypeDecls, hook: Hook)
    requires hook.TaxonomyHook?
    ensures Runner(b, pending)(hook) == [TaxonomyCall(b, hook.taxonomyName, hook.postType, hook.overrides)]
  {
  }

  /** Running the closures of `addTaxonomy` emits one call per closure, in order. */
  lemma RunTaxonomyHooks(b: Builders, pending: PostTypeDecls, t: TaxonomyDecls)
    ensures var calls := FlatMap(Runner(b, pending), TaxonomyHooks(t));
            && |calls| == PairCount(t)
            && forall n :: 0 <= n < |calls| ==>
                 calls[n] == TaxonomyCall(b, TaxonomyHooks(t)[n].taxonomyName,
                                          TaxonomyHooks(t)[n].postType, TaxonomyHooks(t)[n].overrides)
  {
    var hooks := TaxonomyHooks(t);
    var run := Runner(b, pending);
    forall n | 0 <= n < |hooks| ensures |run(hooks[n])| == 1 {
      TaxonomyHookRuns(b, pending, hooks[n]);
    }
    FlatMapSingletons(run, hooks);
    forall n | 0 <= n < |hooks|
      ensures FlatMap(run, hooks)[n]
           == TaxonomyCall(b, hooks[n].taxonomyName, hooks[n].postType, hooks[n].overrides)
    {
      TaxonomyHookRuns(b, pending, hooks[n]);
    }
  }

  /**
    `addTaxonomy` leaves the earlier calls in place and appends exactly one
    `register_taxonomy` per (post type, taxonomy) pair.
   */
  lemma AddTaxonomyCount(b: Builders, st: State, t: TaxonomyDecls)
    ensures var before := FireInit(b, st);
            var after := FireInit(b, AddTaxonomy(st, t));
            |after| == |before| + PairCount(t) && after[..|before|] == before
  {
    FlatMapAppend(Runner(b, st.customPostType), st.initHooks, TaxonomyHooks(t));
    RunTaxonomyHooks(b, st.customPostType, t);
  }

  /**
    The call for the j-th taxonomy of the i-th post type sits at its nested
    iteration position after the earlier calls, and receives that post type's
    key unchanged, not slugified, as its object type.
   */
  lemma AddTaxonomyCallAt(b: Builders, st: State, t: TaxonomyDecls, i: int, j: int)
    requires 0 <= i < |t|
    requires 0 <= j < |t[i].1|
    ensures var before := FireInit(b, st);
            var after := FireInit(b, AddTaxonomy(st, t));
            && |before| + Offset(t, i) + j < |after|
            && after[|before| + Offset(t, i) + j] == TaxonomyCall(b, t[i].1[j].0, t[i].0, t[i].1[j].1)
            && after[|before| + Offset(t, i) + j].objectType == t[i].0
  {
    var run := Runner(b, st.customPostType);
    var before := FlatMap(run, st.initHooks);
    var added := FlatMap(run, TaxonomyHooks(t));
    var n := Offset(t, i) + j;
    FlatMapAppend(run, st.initHooks, TaxonomyHooks(t));
    RunTaxonomyHooks(b, st.customPostType, t);
    TaxonomyHookAt(t, i, j);
    assert added[n] == TaxonomyCall(b, t[i].1[j].0, t[i].0, t[i].1[j].1);
    assert (before + added)[|before| + n] == added[n];
  }
}
