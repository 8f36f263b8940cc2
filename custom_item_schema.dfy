/** The plugin's entry points: hook registration, the schema-editor field and its meta
    boxes, and the `wp_head` output that prints the stored schema as JSON-LD. */
module CustomItemSchema {
  import opened Php
  import opened JsonCodec
  import opened WordPress
  import opened SchemaEditorField

  // ---------------------------------------------------------------------------
  // Hook registration
  // ---------------------------------------------------------------------------

  const PostHookPrefix: string := "fm_post_"
  const TermHookPrefix: string := "fm_term_"
  const SubmenuHook: string := "fm_submenu_custom_item_schema"

  /** The Homepage Schema settings page, under Appearance, for `manage_options` users. */
  const HomepageSchemaPage: SubmenuPage :=
    SubmenuPage("custom_item_schema", "themes.php", "Homepage Schema", "Homepage Schema", "manage_options")

  /** One `add_editor_meta_box` action per name, hook `prefix + name`, in list order. */
  function EditorHooks(prefix: string, names: seq<string>): (acts: seq<Action>)
    ensures |acts| == |names|
  {
    if names == [] then []
    else EditorHooks(prefix, names[..|names| - 1]) + [Action(prefix + names[|names| - 1], AddEditorMetaBoxHandler)]
  }

  lemma {:induction false} EditorHooksAt(prefix: string, names: seq<string>, i: nat)
    requires i < |names|
    ensures EditorHooks(prefix, names)[i] == Action(prefix + names[i], AddEditorMetaBoxHandler)
  {
    var front := names[..|names| - 1];
    if i < |names| - 1 {
      EditorHooksAt(prefix, front, i);
    }
  }

  /** Every action `setup` adds, in the order it adds them. */
  function SetupActions(postTypes: seq<string>, taxonomies: seq<string>): seq<Action>
  {
    EditorHooks(PostHookPrefix, postTypes) + EditorHooks(TermHookPrefix, taxonomies)
      + [Action(SubmenuHook, HomepageSubmenuHandler)]
  }

  /** `setup` registers `fm_post_<type>` for each enabled post type, then `fm_term_<tax>`
      for each enabled taxonomy, all handled by `add_editor_meta_box`, then the submenu
      action. */
  lemma SetupActionsShape(postTypes: seq<string>, taxonomies: seq<string>)
    ensures |SetupActions(postTypes, taxonomies)| == |postTypes| + |taxonomies| + 1
    ensures forall i :: 0 <= i < |postTypes| ==>
              SetupActions(postTypes, taxonomies)[i] == Action(PostHookPrefix + postTypes[i], AddEditorMetaBoxHandler)
    ensures forall i :: 0 <= i < |taxonomies| ==>
              SetupActions(postTypes, taxonomies)[|postTypes| + i]
                == Action(TermHookPrefix + taxonomies[i], AddEditorMetaBoxHandler)
    ensures SetupActions(postTypes, taxonomies)[|postTypes| + |taxonomies|]
              == Action(SubmenuHook, HomepageSubmenuHandler)
  {
    var acts := SetupActions(postTypes, taxonomies);
    forall i | 0 <= i < |postTypes|
      ensures acts[i] == Action(PostHookPrefix + postTypes[i], AddEditorMetaBoxHandler)
    {
      EditorHooksAt(PostHookPrefix, postTypes, i);
    }
    forall i | 0 <= i < |taxonomies|
      ensures acts[|postTypes| + i] == Action(TermHookPrefix + taxonomies[i], AddEditorMetaBoxHandler)
    {
      EditorHooksAt(TermHookPrefix, taxonomies, i);
    }
  }

  /** `setup`: `postTypes` and `taxonomies` are the filtered lists `get_post_types()` and
      `get_taxonomies()` return; `submenuApi` is `function_exists( 'fm_register_submenu_page' )`. */
  method Setup(host: Host, postTypes: seq<string>, taxonomies: seq<string>, submenuApi: bool)
    modifies host
    ensures host.actions == old(host.actions) + SetupActions(postTypes, taxonomies)
    ensures host.metaBoxes == old(host.metaBoxes)
    ensures host.submenuPages == old(host.submenuPages) + (if submenuApi then [HomepageSchemaPage] else [])
  {
    for i := 0 to |postTypes|
      invariant host.actions == old(host.actions) + EditorHooks(PostHookPrefix, postTypes[..i])
      invariant host.metaBoxes == old(host.metaBoxes) && host.submenuPages == old(host.submenuPages)
    {
      host.AddAction(PostHookPrefix + postTypes[i], AddEditorMetaBoxHandler);
      assert postTypes[..i + 1][..i] == postTypes[..i];
    }
    assert postTypes[..|postTypes|] == postTypes;
    ghost var afterPosts := host.actions;
    for i := 0 to |taxonomies|
      invariant host.actions == afterPosts + EditorHooks(TermHookPrefix, taxonomies[..i])
      invariant host.metaBoxes == old(host.metaBoxes) && host.submenuPages == old(host.submenuPages)
    {
      host.AddAction(TermHookPrefix + taxonomies[i], AddEditorMetaBoxHandler);
      assert taxonomies[..i + 1][..i] == taxonomies[..i];
    }
    assert taxonomies[..|taxonomies|] == taxonomies;
    host.AddAction(SubmenuHook, HomepageSubmenuHandler);
    if submenuApi {
      host.RegisterSubmenuPage(HomepageSchemaPage);
    }
  }

  /** Loading the plugin file attaches `setup` to `plugins_loaded` and the renderer to `wp_head`. */
  method Load(host: Host)
    modifies host
    ensures host.actions == old(host.actions)
              + [Action("plugins_loaded", SetupHandler), Action("wp_head", CustomItemSchemaHandler)]
    ensures host.metaBoxes == old(host.metaBoxes) && host.submenuPages == old(host.submenuPages)
  {
    host.AddAction("plugins_loaded", SetupHandler);
    host.AddAction("wp_head", CustomItemSchemaHandler);
  }

  // ---------------------------------------------------------------------------
  // The editor field and its suggested formatting tags
  // ---------------------------------------------------------------------------

  const SiteTags: seq<string> := ["#site_name#", "#site_description#"]
  const PostTags: seq<string> :=
    ["#title#", "#excerpt#", "#date_published#", "#date_modified#",
     "#author#", "#categories#", "#tags#", "#thumbnail_url#"]

  /** The tags worth suggesting in a field context: the site tags everywhere, and the
      per-post tags after them in the `post` context only. */
  function SuggestedTags(context: string): (tags: seq<string>)
    ensures |tags| >= 2 && tags[..2] == SiteTags
    ensures context == "post" ==> |tags| == 10 && tags[2..] == PostTags
    ensures context != "post" ==> tags == SiteTags
  {
    if context == "post" then SiteTags + PostTags else SiteTags
  }

  /** `implode( sep, parts )`. */
  function Implode(sep: string, parts: seq<string>): string
  {
    if parts == [] then ""
    else if |parts| == 1 then parts[0]
    else parts[0] + sep + Implode(sep, parts[1..])
  }

  /** Where part `k` starts in `Implode(sep, parts)`. */
  function ImplodeOffset(sep: string, parts: seq<string>, k: nat): nat
    requires k < |parts|
  {
    if k == 0 then 0 else |parts[0]| + |sep| + ImplodeOffset(sep, parts[1..], k - 1)
  }

  /** Every part appears, whole, at its offset in the joined string. */
  lemma {:induction false} ImplodeContainsPart(sep: string, parts: seq<string>, k: nat)
    requires k < |parts|
    ensures ImplodeOffset(sep, parts, k) + |parts[k]| <= |Implode(sep, parts)|
    ensures Implode(sep, parts)[ImplodeOffset(sep, parts, k)..ImplodeOffset(sep, parts, k) + |parts[k]|] == parts[k]
  {
    if k == 0 {
      if |parts| > 1 {
        var rest := Implode(sep, parts[1..]);
        assert Implode(sep, parts) == parts[0] + (sep + rest);
      }
    } else {
      ImplodeContainsPart(sep, parts[1..], k - 1);
      var head := parts[0] + sep;
      var rest := Implode(sep, parts[1..]);
      var off := ImplodeOffset(sep, parts[1..], k - 1);
      assert Implode(sep, parts) == head + rest;
      assert (head + rest)[|head| + off..|head| + off + |parts[k]|] == rest[off..off + |parts[k]|];
    }
  }

  /** A tag as the description shows it. */
  function CodeTag(tag: string): string
  {
    "<code>" + tag + "</code>"
  }

  /** Each tag wrapped in `<code>`, in order. */
  function CodeTags(tags: seq<string>): (wrapped: seq<string>)
    ensures |wrapped| == |tags|
    ensures forall k :: 0 <= k < |tags| ==> wrapped[k] == CodeTag(tags[k])
  {
    seq(|tags|, k requires 0 <= k < |tags| => CodeTag(tags[k]))
  }

  const DescriptionOpen: string := "<p style=\"font-style: normal;\">You can use WP SEO formatting tags here: "
  const DescriptionClose: string := "</p>"

  /** The help text shown under the field. */
  function Description(tags: seq<string>): string
  {
    DescriptionOpen + Implode(" ", CodeTags(tags)) + DescriptionClose
  }

  /** The description opens and closes its paragraph and names every suggested tag in
      `<code>`, at the place the space-separated list puts it. */
  lemma DescriptionNamesEveryTag(tags: seq<string>, k: nat)
    requires k < |tags|
    ensures var d := Description(tags);
            var at := |DescriptionOpen| + ImplodeOffset(" ", CodeTags(tags), k);
            d[..|DescriptionOpen|] == DescriptionOpen
            && d[|d| - |DescriptionClose|..] == DescriptionClose
            && at + |CodeTag(tags[k])| <= |d|
            && d[at..at + |CodeTag(tags[k])|] == CodeTag(tags[k])
  {
    var parts := CodeTags(tags);
    var body := Implode(" ", parts);
    ImplodeContainsPart(" ", parts, k);
    var off := ImplodeOffset(" ", parts, k);
    var d := DescriptionOpen + body + DescriptionClose;
    assert d[|DescriptionOpen| + off..|DescriptionOpen| + off + |parts[k]|] == body[off..off + |parts[k]|];
  }

  /** Outside the `post` context the description names exactly the two site tags. */
  lemma SiteDescription(context: string)
    requires context != "post"
    ensures Description(SuggestedTags(context))
              == DescriptionOpen + CodeTag("#site_name#") + " " + CodeTag("#site_description#") + DescriptionClose
  {
  }

  /** The options `get_editor_meta_box_fields` passes to the field. */
  function FieldOptions(context: string): StringArray
  {
    map["name" := Str("custom_item_schema"),
        "description" := Str(Description(SuggestedTags(context))),
        "escape" := Arr(map["description" := "wp_kses_post"])]
  }

  /** What the field built for a context ends up with once its defaults are merged in:
      the caller's name, description and escaping, and the default document and style,
      which the caller does not override. */
  lemma FieldOptionsMerged(context: string)
    ensures var o := ArrayMerge(EditorDefaults(), FieldOptions(context));
            o.Keys == {"default_value", "attributes", "name", "description", "escape"}
            && o["name"] == Str("custom_item_schema")
            && o["description"] == Str(Description(SuggestedTags(context)))
            && o["escape"] == Arr(map["description" := "wp_kses_post"])
            && o["default_value"] == Str(DefaultValue)
            && o["attributes"] == Arr(map["style" := EditorStyle])
            && DefaultValueOf(o) == DefaultValue
  {
  }

  /** `get_editor_meta_box_fields( $context )`. */
  method GetEditorMetaBoxFields(context: string) returns (fm: SchemaEditor)
    ensures fresh(fm)
    ensures fm.fieldLabel == "" && fm.options == ArrayMerge(EditorDefaults(), FieldOptions(context))
    ensures fm.defaultValue == DefaultValue && fm.sanitize == Sanitizer
  {
    var tags := SiteTags;
    if context == "post" {
      tags := tags + PostTags;
    }
    var options: StringArray := map["name" := Str("custom_item_schema")];
    if tags != [] {
      options := options["description" := Str(Description(tags))];
      options := options["escape" := Arr(map["description" := "wp_kses_post"])];
    }
    assert options == FieldOptions(context);
    fm := new SchemaEditor("", options);
  }

  /** Which kind of meta box `add_editor_meta_box` adds in a context, if any. */
  function MetaBoxKindFor(context: string): (kind: Option<BoxKind>)
    ensures kind == Some(PostMetaBox) <==> context == "post"
    ensures kind == Some(TermMetaBox) <==> context == "term"
    ensures kind == None <==> context != "post" && context != "term"
  {
    if context == "post" then Some(PostMetaBox)
    else if context == "term" then Some(TermMetaBox)
    else None
  }

  const MetaBoxTitle: string := "Schema Editor"

  /** `add_editor_meta_box( $type )`; `context` is the first element `fm_calculate_context()` returns. */
  method AddEditorMetaBox(host: Host, typ: string, context: string)
    modifies host
    ensures MetaBoxKindFor(context).None? ==> host.metaBoxes == old(host.metaBoxes)
    ensures MetaBoxKindFor(context).Some? ==>
              host.metaBoxes == old(host.metaBoxes)
                + [MetaBox(MetaBoxKindFor(context).value, MetaBoxTitle, [typ],
                           ArrayMerge(EditorDefaults(), FieldOptions(context)))]
    ensures host.actions == old(host.actions) && host.submenuPages == old(host.submenuPages)
  {
    var fm := GetEditorMetaBoxFields(context);
    if context == "post" {
      host.AddMetaBox(MetaBox(PostMetaBox, MetaBoxTitle, [typ], fm.options));
    } else if context == "term" {
      host.AddMetaBox(MetaBox(TermMetaBox, MetaBoxTitle, [typ], fm.options));
    }
  }

  // ---------------------------------------------------------------------------
  // Rendering into wp_head
  // ---------------------------------------------------------------------------

  /** Where the schema for a request is read from. */
  datatype Scope = PostScope(id: int) | TermScope(id: int) | HomeScope | NoScope

  /** The first of: a singular page of an enabled post type; a tag or category archive;
      the posts home page. */
  function ResolveScope(postTypes: seq<string>, req: Request): (scope: Scope)
    ensures scope.PostScope? <==> postTypes != [] && IsSingular(req, postTypes)
    ensures scope.PostScope? ==> scope.id == req.postId
    ensures scope.TermScope? <==> !(postTypes != [] && IsSingular(req, postTypes)) && (req.isTag || req.isCategory)
    ensures scope.TermScope? ==> scope.id == req.queriedObjectId
    ensures scope.HomeScope? <==>
              !(postTypes != [] && IsSingular(req, postTypes)) && !req.isTag && !req.isCategory && req.isHome
  {
    if postTypes != [] && IsSingular(req, postTypes) then PostScope(req.postId)
    else if req.isTag || req.isCategory then TermScope(req.queriedObjectId)
    else if req.isHome then HomeScope
    else NoScope
  }

  /** The value of `$schema`: post and term meta are cast to string (so "" when nothing is
      stored); the option may be absent; with no scope the variable is never set. */
  function ReadSchema(store: Store, scope: Scope): (schema: Option<string>)
    ensures scope.PostScope? ==> schema == Some(SingleMeta(store.postMeta, scope.id))
    ensures scope.TermScope? ==> schema == Some(SingleMeta(store.termMeta, scope.id))
    ensures scope.HomeScope? ==> schema == store.option
    ensures scope.NoScope? ==> schema == None
  {
    match scope
    case PostScope(id) => Some(SingleMeta(store.postMeta, id))
    case TermScope(id) => Some(SingleMeta(store.termMeta, id))
    case HomeScope => store.option
    case NoScope => None
  }

  /** The text handed to the decoder: the SEO formatter's output when `wp_seo` exists,
      the stored text itself when it does not. */
  function Formatted(seo: Option<string -> string>, json: string): string
  {
    if seo.Some? then seo.value(json) else json
  }

  const BlockOpen: string := "\n\n<!-- Custom item schema. -->\n<script type=\"application/ld+json\">"
  const BlockClose: string := "</script>\n<!-- End custom item schema. -->\n\t\t\n"

  /** The printed block around the encoded JSON. */
  function SchemaBlock(encoded: string): string
  {
    BlockOpen + encoded + BlockClose
  }

  /** Reads the JSON back out of printed output; None when it is not one schema block. */
  function SchemaPayload(out: string): (payload: Option<string>)
    ensures payload.Some? ==> out == SchemaBlock(payload.value)
  {
    if |out| >= |BlockOpen| + |BlockClose| && out[..|BlockOpen|] == BlockOpen
       && out[|out| - |BlockClose|..] == BlockClose
    then
      var payload := out[|BlockOpen|..|out| - |BlockClose|];
      assert out == out[..|BlockOpen|] + payload + out[|out| - |BlockClose|..];
      Some(payload)
    else None
  }

  /** The block determines what was encoded in it, and empty output holds no block. */
  lemma SchemaPayloadRoundTrip(encoded: string)
    ensures SchemaPayload(SchemaBlock(encoded)) == Some(encoded)
    ensures SchemaPayload("") == None
  {
  }

  /** `the_item_schema( $json )`: prints nothing when the (formatted) text does not decode,
      otherwise exactly one block holding the re-encoded value. */
  function TheItemSchema(c: Codec, seo: Option<string -> string>, json: string): (out: string)
    ensures out == "" <==> c.decode(Formatted(seo, json)).None?
    ensures c.decode(Formatted(seo, json)).Some? ==>
              SchemaPayload(out) == Some(c.encode(c.decode(Formatted(seo, json)).value))
  {
    match c.decode(Formatted(seo, json))
    case None => ""
    case Some(d) =>
      SchemaPayloadRoundTrip(c.encode(d));
      SchemaBlock(c.encode(d))
  }

  /** `custom_item_schema()`, the `wp_head` callback: `postTypes` is the filtered list
      `get_post_types()` returns. */
  function RenderHead(c: Codec, seo: Option<string -> string>, postTypes: seq<string>,
                      req: Request, store: Store): (out: string)
    ensures Falsy(ReadSchema(store, ResolveScope(postTypes, req))) ==> out == ""
    ensures var schema := ReadSchema(store, ResolveScope(postTypes, req));
            !Falsy(schema) ==> out == TheItemSchema(c, seo, schema.value)
  {
    var schema := ReadSchema(store, ResolveScope(postTypes, req));
    if Falsy(schema) then "" else TheItemSchema(c, seo, schema.value)
  }

  /** Whatever is printed is one block holding the re-encoded decoded value, never the
      stored text itself and never a block around text that does not decode. */
  lemma RenderedIsReencoded(c: Codec, seo: Option<string -> string>, postTypes: seq<string>,
                            req: Request, store: Store)
    ensures var out := RenderHead(c, seo, postTypes, req, store);
            var schema := ReadSchema(store, ResolveScope(postTypes, req));
            out != "" ==>
              !Falsy(schema) && c.decode(Formatted(seo, schema.value)).Some?
              && SchemaPayload(out) == Some(c.encode(c.decode(Formatted(seo, schema.value)).value))
  {
  }

  /** A selected value whose formatted text does not decode prints nothing, whatever the
      scope. With a formatter installed, stored text that is malformed may still print
      once its tokens expand into well-formed JSON. */
  lemma MalformedIsNotRendered(c: Codec, seo: Option<string -> string>, postTypes: seq<string>,
                               req: Request, store: Store)
    requires var schema := ReadSchema(store, ResolveScope(postTypes, req));
             schema.Some? && c.decode(Formatted(seo, schema.value)).None?
    ensures RenderHead(c, seo, postTypes, req, store) == ""
  {
  }

  /** With nothing stored anywhere nothing is printed on any page. */
  lemma NothingStoredRendersNothing(c: Codec, seo: Option<string -> string>, postTypes: seq<string>,
                                    req: Request)
    ensures RenderHead(c, seo, postTypes, req, Store(map[], map[], None)) == ""
  {
  }

  /** Two texts whose formatted forms decode alike print alike: the output is the
      re-encoding. With no formatter this is about the texts themselves; with one, two
      texts that decode alike may still print differently, as the formatter expands only
      the literal tokens. */
  lemma OutputDependsOnDecodedValue(c: Codec, seo: Option<string -> string>, a: string, b: string)
    requires c.decode(Formatted(seo, a)) == c.decode(Formatted(seo, b))
    ensures TheItemSchema(c, seo, a) == TheItemSchema(c, seo, b)
  {
  }

  /** The formatter is consulted once, on the stored text: two formatters that agree on it
      print the same thing, and without one the stored text is decoded as it is. */
  lemma FormatterAppliedOnce(c: Codec, f: string -> string, g: string -> string, json: string)
    requires f(json) == g(json)
    ensures TheItemSchema(c, Some(f), json) == TheItemSchema(c, Some(g), json)
    ensures TheItemSchema(c, Some(f), json) == TheItemSchema(c, None, f(json))
  {
  }

  /** With no formatter installed, a stored text that is already in the encoder's form is
      printed verbatim, between the opening and closing of the block. */
  lemma CanonicalTextIsPrintedVerbatim(c: Codec, postTypes: seq<string>, req: Request, store: Store,
                                       s: string, d: Json)
    requires ReadSchema(store, ResolveScope(postTypes, req)) == Some(s)
    requires !EmptyString(s) && c.decode(s) == Some(d) && c.encode(d) == s
    ensures var out := RenderHead(c, None, postTypes, req, store);
            |BlockOpen| + |s| <= |out| && out[|BlockOpen|..|BlockOpen| + |s|] == s
  {
  }

  /** A post of an enabled type, viewed singly, prints its own post meta. */
  lemma SingularPostUsesPostMeta(c: Codec, seo: Option<string -> string>, postTypes: seq<string>,
                                 req: Request, store: Store)
    requires req.singularPostType.Some? && req.singularPostType.value in postTypes
    requires req.postId in store.postMeta && !EmptyString(store.postMeta[req.postId])
    ensures RenderHead(c, seo, postTypes, req, store) == TheItemSchema(c, seo, store.postMeta[req.postId])
  {
  }

  /** A tag or category archive that is not a singular page prints the term's meta and
      ignores the site option, even on the home page. */
  lemma ArchiveUsesTermMeta(c: Codec, seo: Option<string -> string>, postTypes: seq<string>,
                            req: Request, store: Store)
    requires req.singularPostType.None? && (req.isTag || req.isCategory)
    requires req.queriedObjectId in store.termMeta && !EmptyString(store.termMeta[req.queriedObjectId])
    ensures RenderHead(c, seo, postTypes, req, store)
              == TheItemSchema(c, seo, store.termMeta[req.queriedObjectId])
  {
  }

  /** A page that is not singular and not a tag, category or home page has no scope
      and prints nothing, whatever is stored. This includes the archive of any other
      taxonomy, enabled for editing or not: only tag and category archives read term
      meta. */
  lemma UnscopedPageRendersNothing(c: Codec, seo: Option<string -> string>, postTypes: seq<string>,
                                           req: Request, store: Store)
    requires req.singularPostType.None? && !req.isTag && !req.isCategory && !req.isHome
    ensures RenderHead(c, seo, postTypes, req, store) == ""
  {
  }

  /** `"0"` is PHP-empty: a selected value of `"0"` prints nothing, so it never reaches
      the decoder or the formatter. */
  lemma ZeroIsNotRendered(c: Codec, seo: Option<string -> string>, postTypes: seq<string>,
                          req: Request, store: Store)
    requires ReadSchema(store, ResolveScope(postTypes, req)) == Some("0")
    ensures RenderHead(c, seo, postTypes, req, store) == ""
  {
  }

  /** Malformed JSON passes `presave_alter_values` unchanged but is never printed as it
      is: text the assoc decoder rejects survives presave and, if it is the selected value
      and no formatter is installed, prints nothing, because the object decoder rejects it
      too. */
  lemma MalformedStoredButNotRendered(c: Codec, e: SchemaEditor, s: string, postTypes: seq<string>,
                                      req: Request, store: Store)
    requires ObjectModeRejectsMalformed(c) && DefaultDecodes(c, e)
    requires c.decodeAssoc(s).None?
    requires ReadSchema(store, ResolveScope(postTypes, req)) == Some(s)
    ensures e.PresaveAlterValues(c, [Some(s)]) == [Some(s)]
    ensures RenderHead(c, None, postTypes, req, store) == ""
  {
    MalformedIsSaved(c, e, [Some(s)]);
    assert c.decode(Formatted(None, s)).None?;
  }
}
