# Custom Item Schema — a Dafny model

Custom Item Schema is a WordPress plugin that lets editors attach Schema.org JSON-LD
to a post, a taxonomy term or the site home page, and prints it in `wp_head`. This
project models its decision core and proves what it promises:

- **Rendering** (`custom_item_schema`, `the_item_schema`). One scope is picked per
  request: a singular page of an enabled post type, then a tag or category archive,
  then the posts home page. A PHP-empty value (`""`, `"0"`, no option) prints nothing.
  Otherwise the optional WP SEO formatter runs once and the text is decoded. Text that
  fails to decode prints nothing. Text that decodes prints one fixed HTML block around
  the *re-encoded* value, never around the stored text.
- **The editor field** (`Fieldmanager_Schema_Editor`). Construction merges the
  caller's options over the defaults and fixes the sanitizer. The form shows stored JSON
  pretty-printed, shows malformed text unchanged, and shows the default document when the
  value is falsy. Presave drops slot 0 when it decodes `===` to the decoded default.
  Everything else passes `presave_alter_values` unchanged and unvalidated, malformed JSON
  included.
- **Field options and help text** (`get_editor_meta_box_fields`). The suggested
  formatting tags depend on the context, and the description lists each one in `<code>`.
- **Registration** (`setup`, `add_editor_meta_box`). `setup` adds one action per enabled
  post type and one per enabled taxonomy, in list order, then the submenu action. The
  meta-box handler adds a post box, a term box or nothing, depending on the context.

JSON itself is abstract. `JsonCodec.Json` is an uninterpreted type. `JsonCodec.Codec`
bundles these as function values: `json_decode` in object mode and in assoc mode,
`wp_json_encode` with default flags and with
`JSON_PRETTY_PRINT | JSON_UNESCAPED_SLASHES`, and the `null` value a failed decode
yields. Every operation takes the codec as a parameter, so each property holds for any
JSON library. A lemma that needs a fact about the library says so in its `requires`,
for example that the default decodes, that pretty-printing a value the assoc decoder
returned decodes back to it (`PrettyRoundTrips`), or that text the assoc decoder rejects
is rejected by the object decoder too (`ObjectModeRejectsMalformed`). PHP's two modes
run one parser, and object mode also rejects an object key that starts with `"\u0000"`.

The WP SEO formatter is an `Option<string -> string>` (None when `wp_seo` does not
exist). The WordPress conditional tags, `get_the_ID`, `get_queried_object_id`, the
filtered post-type and taxonomy lists, the stored meta and option, and
`fm_calculate_context` are inputs (`WordPress.Request`, `WordPress.Store` and plain
parameters). The action, meta-box and submenu registries are the fields of the
`WordPress.Host` class, which the imperative entry points modify.

Modules: `Php` (PHP truthiness, string-keyed arrays, `array_merge`), `JsonCodec`,
`WordPress` (host state and inputs), `SchemaEditorField`
(inc/class-fieldmanager-schema-editor.php) and `CustomItemSchema`
(custom-item-schema.php).

Observations and choices:
- The code computes `$taxonomies` in `custom_item_schema` and never uses it. Term meta
  is read on tag and category archives only. On the archive of any other taxonomy
  nothing is printed, even though `setup` gives that taxonomy a schema editor. The model
  follows the code (`CustomItemSchema.UnscopedPageRendersNothing`).
- `is_singular( [] )` is true on every singular page in WordPress. The model keeps this
  (`WordPress.IsSingular`), which is why the `! empty( $post_types )` guard matters: with
  no enabled post types, a singular page falls through to the archive and home checks.
- `presave_alter_values` compares the two `json_decode` results with `===`, and a failed
  decode evaluates to `null`. So malformed text could equal a default that also failed
  to decode. The real default decodes to an array, and `MalformedIsSaved` states its
  guarantee under exactly that fact (`DefaultDecodes`).
- The repository's test of a valid schema (tests/test-schema.php:17-28) stores
  `{"@context":"http:\/\/schema.org\/",…}`. WordPress unslashes meta on write, so the
  stored text has plain slashes; the page still contains the original text because the
  printed payload is the re-encoding, which escapes the slashes again. The test therefore
  bears out `CustomItemSchema.RenderedIsReencoded` and
  `CustomItemSchema.SingularPostUsesPostMeta` rather than a verbatim copy of stored text.
- Text such as `{"\u0000a":1}` decodes in assoc mode but not in object mode. It is
  therefore kept by presave and shown pretty-printed in the editor, yet never printed in the page.
- With the WP SEO formatter present, the decoder sees the formatted text. Stored text
  that is malformed can still be printed when its tokens expand into well-formed JSON.
- `format_for_form`, `presave_alter_values` and the value choice in `form_element` only
  reassign locals: PHP passes `$values` by value. They are modelled as functions
  on the field object (`reads this`). `setup`'s two `foreach` loops are a method with
  loop invariants over `Host.actions`.

## Model

| member | source | states |
|---|---|---|
| `CustomItemSchema.Setup` | custom-item-schema.php:21-43 | appends exactly `SetupActions(postTypes, taxonomies)` to the action registry, and the Homepage Schema submenu page only when `fm_register_submenu_page` exists; registers no meta box |
| `CustomItemSchema.SetupActionsShape` | custom-item-schema.php:25-36 | the post-type actions come first, `fm_post_<type>` for each enabled type in order, then `fm_term_<tax>` for each enabled taxonomy in order, all handled by `add_editor_meta_box`, then the one submenu action, and nothing else |
| `CustomItemSchema.EditorHooks` | custom-item-schema.php:26-28 | one action per name |
| `CustomItemSchema.EditorHooksAt` | custom-item-schema.php:31-33 | the action at index i has hook `prefix + names[i]` and handler `add_editor_meta_box`, so list order is kept |
| `CustomItemSchema.Load` | custom-item-schema.php:44 | loading the file attaches `setup` to `plugins_loaded` and `custom_item_schema` to `wp_head` (line 173), in that order |
| `CustomItemSchema.SuggestedTags` | custom-item-schema.php:53-73 | the list starts `#site_name#`, `#site_description#`; context `post` gives exactly 10 tags with the eight post tags appended in order; any other context gives exactly those 2 |
| `CustomItemSchema.CodeTags` | custom-item-schema.php:86-91 | one `<code>tag</code>` entry per tag, in order |
| `CustomItemSchema.ImplodeContainsPart` | custom-item-schema.php:84-92 | every part of an `implode` appears whole at its computed offset |
| `CustomItemSchema.DescriptionNamesEveryTag` | custom-item-schema.php:79-93 | the description opens with the fixed paragraph text, closes with `</p>`, and holds `<code>tag</code>` for every suggested tag at its place in the space-joined list |
| `CustomItemSchema.SiteDescription` | custom-item-schema.php:53-93 | outside the `post` context the description is exactly the opening text, `<code>#site_name#</code> <code>#site_description#</code>` and `</p>` |
| `CustomItemSchema.FieldOptionsMerged` | custom-item-schema.php:75-97 | the field ends up with name `custom_item_schema`, the description always set, `escape.description` = `wp_kses_post`, and the default document and style surviving the merge |
| `CustomItemSchema.GetEditorMetaBoxFields` | custom-item-schema.php:52-98 | returns a new field labelled "" whose options are the defaults merged with `FieldOptions(context)`, with the default document as its value and the textarea sanitizer |
| `CustomItemSchema.MetaBoxKindFor` | custom-item-schema.php:109-113 | a post box exactly for context `post`, a term box exactly for `term`, none otherwise |
| `CustomItemSchema.AddEditorMetaBox` | custom-item-schema.php:105-114 | adds one "Schema Editor" box for `[type]` carrying the field's options in the `post` and `term` contexts, nothing otherwise; touches no other registry |
| `CustomItemSchema.ResolveScope` | custom-item-schema.php:161-167 | post meta of `get_the_ID()` iff post types are enabled and the page is singular for them; else term meta of the queried object iff a tag or category archive; else the option iff home; else no scope |
| `CustomItemSchema.ReadSchema` | custom-item-schema.php:162-166 | post and term meta read as strings ("" when absent), the option as stored or absent, and no value without a scope |
| `CustomItemSchema.RenderHead` | custom-item-schema.php:157-172 | a PHP-empty selected value prints nothing; any other value prints `the_item_schema` of that value |
| `CustomItemSchema.TheItemSchema` | custom-item-schema.php:180-200 | output is empty iff the formatted text fails to decode; otherwise it is one schema block whose payload is `Encode` of the decoded value |
| `CustomItemSchema.SchemaPayload` | custom-item-schema.php:192-197 | a payload read back from output is what the fixed block was wrapped around |
| `CustomItemSchema.SchemaPayloadRoundTrip` | custom-item-schema.php:191-199 | reading back the block around `e` gives `e`; empty output holds no block |
| `CustomItemSchema.RenderedIsReencoded` | custom-item-schema.php:185-199 | non-empty output implies a non-empty value that decodes, and its payload is the re-encoding of the decoded value |
| `CustomItemSchema.MalformedIsNotRendered` | custom-item-schema.php:185-189 | a selected value whose formatted text does not decode prints nothing in any scope |
| `CustomItemSchema.NothingStoredRendersNothing` | custom-item-schema.php:161-171 | with no meta and no option stored, nothing is printed on any request |
| `CustomItemSchema.OutputDependsOnDecodedValue` | custom-item-schema.php:181-198 | two texts whose formatted forms decode alike print the same output; with no formatter installed, two texts that decode alike print alike |
| `CustomItemSchema.FormatterAppliedOnce` | custom-item-schema.php:181-185 | output depends on the formatter only through its value on the stored text, and equals decoding that value directly |
| `CustomItemSchema.CanonicalTextIsPrintedVerbatim` | custom-item-schema.php:185-198 | with no formatter installed, text already in the encoder's form is printed verbatim right after the block opening |
| `CustomItemSchema.SingularPostUsesPostMeta` | custom-item-schema.php:161-162 | a singular page of an enabled type prints that post's non-empty meta |
| `CustomItemSchema.ArchiveUsesTermMeta` | custom-item-schema.php:163-164 | a non-singular tag or category archive prints the term's meta even when it is also home |
| `CustomItemSchema.UnscopedPageRendersNothing` | custom-item-schema.php:158-167 | a page that is not singular, tag, category or home prints nothing whatever is stored |
| `CustomItemSchema.ZeroIsNotRendered` | custom-item-schema.php:169-171 | a selected value of `"0"` is PHP-empty and prints nothing |
| `CustomItemSchema.MalformedStoredButNotRendered` | custom-item-schema.php:185-189 | when object mode rejects whatever assoc mode rejects and the default decodes, text that fails to decode survives presave unchanged and, once selected with no formatter, prints nothing |
| `Php.ArrayMerge` | inc/class-fieldmanager-schema-editor.php:26-34 | keeps every key of both arrays; the caller's value wins on a shared key; a default key the caller lacks keeps its default |
| `SchemaEditorField.SchemaEditor.constructor` | inc/class-fieldmanager-schema-editor.php:25-38 | options are the defaults merged with the caller's; the default value is `[ { "@context": "http://schema.org" } ]` unless the caller supplies one, and in every case it is the merged `default_value` when that is a string and "" otherwise; the style survives unless overridden; `sanitize` is `sanitize_textarea_field` |
| `SchemaEditorField.SchemaEditor.FormatForForm` | inc/class-fieldmanager-schema-editor.php:106-114 | text that fails to decode is returned unchanged; decoded text is returned pretty-printed |
| `SchemaEditorField.SchemaEditor.FormElementText` | inc/class-fieldmanager-schema-editor.php:77-81 | a non-falsy value is shown formatted; a falsy value (`null`, `""`, `"0"`) shows the formatted default, pretty-printed when it decodes |
| `SchemaEditorField.SchemaEditor.PresaveAlterValues` | inc/class-fieldmanager-schema-editor.php:91-98 | same length; slots after 0 unchanged; slot 0 is null iff it was null or `===`-decodes to the default; otherwise it is kept verbatim |
| `SchemaEditorField.MalformedIsSaved` | inc/class-fieldmanager-schema-editor.php:92-97 | when the default decodes to a non-null value, malformed text passes presave unchanged |
| `SchemaEditorField.NonDefaultIsSaved` | inc/class-fieldmanager-schema-editor.php:92-97 | when the default decodes to a non-null value, text decoding to anything else, `null` included, passes presave unchanged |
| `SchemaEditorField.DefaultIsDropped` | inc/class-fieldmanager-schema-editor.php:92-95 | text decoding to the decoded default, however it is laid out, becomes null |
| `SchemaEditorField.PresaveIdempotent` | inc/class-fieldmanager-schema-editor.php:91-98 | presaving the presaved values changes nothing |
| `SchemaEditorField.FormatPreservesValue` | inc/class-fieldmanager-schema-editor.php:106-114 | if pretty-printing what the assoc decoder returns round-trips, the shown text decodes exactly as the stored text does |
| `SchemaEditorField.FormatIdempotent` | inc/class-fieldmanager-schema-editor.php:106-114 | if pretty-printing what the assoc decoder returns round-trips, formatting formatted text changes nothing |
| `SchemaEditorField.UntouchedDefaultIsNotSaved` | inc/class-fieldmanager-schema-editor.php:77-98 | opening an unsaved field and submitting the shown text unchanged stores null |

## Left out

- JSON parsing and serialisation (`json_decode`, `json_last_error`, `wp_json_encode`): library calls, modelled as the abstract `Codec`. The case where `wp_json_encode` returns `false` (depth or encoding errors) is not modelled: the encoders return a string.
- `wp_seo()->format` token expansion: an external plugin, modelled as an optional function.
- `require_once` of the class file, and `get_post_types()` / `get_taxonomies()` (custom-item-schema.php:121-152): these only query WordPress and run `apply_filters`, so their filtered lists are inputs.
- Fieldmanager's own behaviour: the parent constructor (beyond recording the merged options and the default value), `parent::presave_alter_values` (treated as passing values through), `parent::form_element` HTML, what `add_meta_box`, `add_term_meta_box`, `activate_submenu_page` and `fm_register_submenu_page` then do, and `fm_calculate_context` (an input). All of this is framework code.
- The code-editor enqueue and inline script in `form_element` (inc/class-fieldmanager-schema-editor.php:47-71): UI plumbing with no effect on the value shown.
- Translation (`__`) is the identity. `printf` output is the returned string.
- PHP array key order and numeric keys in `array_merge`: options are string-keyed maps. A caller's `default_value` that is not a string becomes "" in `DefaultValueOf`.
- Stored meta of a non-string type, and an option of a non-string type: stored values are strings (or an absent option).
- Submitted `$values` are modelled as a list of strings and nulls indexed from 0; other array shapes are not modelled.
- The sanitizer pass (`sanitize_textarea_field`) that Fieldmanager applies to slot 0 after `presave_alter_values` and before storage: it strips tags and percent-encoded octets and trims whitespace, so text that is malformed only because of such parts may be stored well-formed. Wherever the model says "stored" or "saved", it means the value as `presave_alter_values` returns it; the sanitizer's name is recorded (`SchemaEditor.sanitize`) but not applied.
- Only the schema (the `custom_item_schema` key) of the current post or term is modelled; other meta keys and the storage write path are not.
