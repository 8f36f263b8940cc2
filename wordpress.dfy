/** The parts of the WordPress host the plugin talks to: its action registry, the
    Fieldmanager meta-box and submenu registries, the resolved request and the
    metadata store. All of these are inputs to, or state changed by, the plugin. */
module WordPress {
  import opened Php

  /** The plugin callbacks that get attached to actions. */
  datatype Handler =
    | SetupHandler              // Custom_Item_Schema\setup
    | CustomItemSchemaHandler   // Custom_Item_Schema\custom_item_schema
    | AddEditorMetaBoxHandler   // Custom_Item_Schema\add_editor_meta_box
    | HomepageSubmenuHandler    // the closure that activates the homepage settings page

  /** One `add_action( $hook, $handler )` call. */
  datatype Action = Action(hook: string, handler: Handler)

  datatype BoxKind = PostMetaBox | TermMetaBox

  /** One `add_meta_box` / `add_term_meta_box` call made on a field: its title, the
      object types it applies to, and the options of the field it edits. */
  datatype MetaBox = MetaBox(kind: BoxKind, title: string, types: seq<string>, field: StringArray)

  /** One `fm_register_submenu_page( $name, $parent, $page_title, $menu_title, $capability )` call. */
  datatype SubmenuPage = SubmenuPage(name: string, parent: string, pageTitle: string,
                                     menuTitle: string, capability: string)

  /** The conditional tags of the current request. `singularPostType` is the post type of
      the queried post on a singular page and None elsewhere; `postId` is `get_the_ID()`
      and `queriedObjectId` is `get_queried_object_id()`. */
  datatype Request = Request(singularPostType: Option<string>, postId: int,
                             isTag: bool, isCategory: bool, isHome: bool,
                             queriedObjectId: int)

  /** The stored `custom_item_schema` values: post meta by post id, term meta by term id,
      and the site option (None when `get_option` returns false). */
  datatype Store = Store(postMeta: map<int, string>, termMeta: map<int, string>,
                         option: Option<string>)

  /** `is_singular( $post_types )`: with an empty list WordPress answers for any singular
      page; otherwise the queried post's type must be in the list. */
  predicate IsSingular(req: Request, postTypes: seq<string>)
  {
    req.singularPostType.Some? && (postTypes == [] || req.singularPostType.value in postTypes)
  }

  /** `get_post_meta( $id, $key, true )` and `get_term_meta( ..., true )`: "" when nothing is stored. */
  function SingleMeta(meta: map<int, string>, id: int): (v: string)
    ensures id in meta ==> v == meta[id]
    ensures id !in meta ==> v == ""
  {
    if id in meta then meta[id] else ""
  }

  /** The host's registries of actions, meta boxes and submenu pages. */
  class Host {
    var actions: seq<Action>
    var metaBoxes: seq<MetaBox>
    var submenuPages: seq<SubmenuPage>

    constructor ()
      ensures actions == [] && metaBoxes == [] && submenuPages == []
    {
      actions, metaBoxes, submenuPages := [], [], [];
    }

    /** `add_action( hook, handler )`. */
    method AddAction(hook: string, handler: Handler)
      modifies this
      ensures actions == old(actions) + [Action(hook, handler)]
      ensures metaBoxes == old(metaBoxes) && submenuPages == old(submenuPages)
    {
      actions := actions + [Action(hook, handler)];
    }

    /** `$fm->add_meta_box(...)` or `$fm->add_term_meta_box(...)`. */
    method AddMetaBox(box: MetaBox)
      modifies this
      ensures metaBoxes == old(metaBoxes) + [box]
      ensures actions == old(actions) && submenuPages == old(submenuPages)
    {
      metaBoxes := metaBoxes + [box];
    }

    /** `fm_register_submenu_page(...)`. */
    method RegisterSubmenuPage(page: SubmenuPage)
      modifies this
      ensures submenuPages == old(submenuPages) + [page]
      ensures actions == old(actions) && metaBoxes == old(metaBoxes)
    {
      submenuPages := submenuPages + [page];
    }
  }
}
