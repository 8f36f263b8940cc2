/** The Fieldmanager_Schema_Editor field: a textarea for JSON-LD that shows stored JSON
    pretty-printed, shows the default document when nothing is stored, and declines to
    save a value that decodes to the default. Saving never validates the JSON. */
module SchemaEditorField {
  import opened Php
  import opened JsonCodec

  /** The default document shown in an empty editor and compared against on save. */
  const DefaultValue: string := "[ { \"@context\": \"http://schema.org\" } ]"

  /** The textarea style the field sets unless the caller overrides `attributes`. */
  const EditorStyle: string := "width: 100%; height: 400px;"

  /** The sanitizer installed after construction (it preserves tabs). */
  const Sanitizer: string := "sanitize_textarea_field"

  /** The options the field merges the caller's options over. */
  function EditorDefaults(): StringArray
  {
    map["default_value" := Str(DefaultValue),
        "attributes" := Arr(map["style" := EditorStyle])]
  }

  /** The `default_value` property the Fieldmanager parent takes from its options;
      "" stands for a missing or non-string entry. */
  function DefaultValueOf(options: StringArray): string
  {
    if "default_value" in options && options["default_value"].Str? then options["default_value"].s else ""
  }

  class SchemaEditor {
    var fieldLabel: string
    /** The options handed to the parent constructor. */
    var options: StringArray
    var defaultValue: string
    var sanitize: string

    constructor (fieldLabel: string, options: StringArray)
      ensures this.fieldLabel == fieldLabel
      ensures this.options == ArrayMerge(EditorDefaults(), options)
      ensures "default_value" !in options ==> defaultValue == DefaultValue
      ensures "default_value" in options && options["default_value"].Str? ==>
                defaultValue == options["default_value"].s
      ensures "attributes" !in options ==> this.options["attributes"] == Arr(map["style" := EditorStyle])
      ensures defaultValue == DefaultValueOf(this.options)
      ensures sanitize == Sanitizer
    {
      this.fieldLabel := fieldLabel;
      var merged := ArrayMerge(EditorDefaults(), options);
      this.options := merged;
      defaultValue := DefaultValueOf(merged);
      sanitize := Sanitizer;
    }

    /** `format_for_form`: malformed text is shown as typed so that it can be fixed;
        well-formed text is shown pretty-printed with slashes unescaped. */
    function FormatForForm(c: Codec, raw: string): (shown: string)
      ensures c.decodeAssoc(raw).None? ==> shown == raw
      ensures c.decodeAssoc(raw).Some? ==> shown == c.prettyEncode(c.decodeAssoc(raw).value)
    {
      match c.decodeAssoc(raw)
      case None => raw
      case Some(d) => c.prettyEncode(d)
    }

    /** The text `form_element` hands to the parent textarea for a stored `value`
        (None is `null`): a falsy value is replaced by the default first. */
    function FormElementText(c: Codec, value: Option<string>): (shown: string)
      reads this
      ensures !Falsy(value) ==> shown == FormatForForm(c, value.value)
      ensures Falsy(value) && c.decodeAssoc(defaultValue).Some? ==>
                shown == c.prettyEncode(c.decodeAssoc(defaultValue).value)
      ensures Falsy(value) && c.decodeAssoc(defaultValue).None? ==> shown == defaultValue
    {
      var chosen := if Falsy(value) then defaultValue else value.value;
      FormatForForm(c, chosen)
    }

    /** Whether submitted text is the default in disguise: its assoc decoding is `===`
        to the default's (a failed decode evaluates to `null`). */
    predicate IsDefault(c: Codec, s: string)
      reads this
    {
      PhpDecodeAssoc(c, s) == PhpDecodeAssoc(c, defaultValue)
    }

    /** `presave_alter_values` (the parent's hook passes values through): slot 0 becomes
        null when it is set and is the default; every other slot, and slot 0 otherwise,
        is kept exactly as submitted, well-formed or not. */
    function PresaveAlterValues(c: Codec, values: seq<Option<string>>): (saved: seq<Option<string>>)
      reads this
      ensures |saved| == |values|
      ensures forall i :: 0 < i < |values| ==> saved[i] == values[i]
      ensures |values| > 0 ==>
                (saved[0] == None <==> values[0] == None || IsDefault(c, values[0].value))
      ensures |values| > 0 && saved[0] != None ==> saved[0] == values[0]
    {
      if |values| > 0 && values[0].Some? && IsDefault(c, values[0].value) then
        values[0 := None]
      else
        values
    }
  }

  /** The default decodes, and not to `null`: true of the real default document. */
  predicate DefaultDecodes(c: Codec, e: SchemaEditor)
    reads e
  {
    c.decodeAssoc(e.defaultValue).Some? && c.decodeAssoc(e.defaultValue).value != c.nullValue
  }

  /** Malformed JSON passes `presave_alter_values` unchanged: a failed decode never equals
      the decoded default. */
  lemma MalformedIsSaved(c: Codec, e: SchemaEditor, values: seq<Option<string>>)
    requires DefaultDecodes(c, e)
    requires |values| > 0 && values[0].Some? && c.decodeAssoc(values[0].value).None?
    ensures e.PresaveAlterValues(c, values) == values
  {
  }

  /** Text that decodes to something other than the decoded default (`null` included)
      passes `presave_alter_values` unchanged. */
  lemma NonDefaultIsSaved(c: Codec, e: SchemaEditor, values: seq<Option<string>>)
    requires |values| > 0 && values[0].Some?
    requires c.decodeAssoc(values[0].value).Some?
    requires DefaultDecodes(c, e)
    requires c.decodeAssoc(values[0].value) != c.decodeAssoc(e.defaultValue)
    ensures e.PresaveAlterValues(c, values) == values
  {
  }

  /** Any text that decodes to the decoded default, however it is laid out, is dropped. */
  lemma DefaultIsDropped(c: Codec, e: SchemaEditor, values: seq<Option<string>>)
    requires |values| > 0 && values[0].Some?
    requires c.decodeAssoc(values[0].value).Some?
    requires c.decodeAssoc(values[0].value) == c.decodeAssoc(e.defaultValue)
    ensures e.PresaveAlterValues(c, values) == values[0 := None]
  {
  }

  /** Presaving twice is presaving once. */
  lemma PresaveIdempotent(c: Codec, e: SchemaEditor, values: seq<Option<string>>)
    ensures e.PresaveAlterValues(c, e.PresaveAlterValues(c, values)) == e.PresaveAlterValues(c, values)
  {
  }

  /** Formatting keeps the meaning: what is shown decodes as the stored text does. */
  lemma FormatPreservesValue(c: Codec, e: SchemaEditor, raw: string)
    requires PrettyRoundTrips(c)
    ensures c.decodeAssoc(e.FormatForForm(c, raw)) == c.decodeAssoc(raw)
  {
  }

  /** Formatting an already formatted text changes nothing. */
  lemma FormatIdempotent(c: Codec, e: SchemaEditor, raw: string)
    requires PrettyRoundTrips(c)
    ensures e.FormatForForm(c, e.FormatForForm(c, raw)) == e.FormatForForm(c, raw)
  {
  }

  /** Opening an unsaved field and submitting it untouched stores nothing. */
  lemma UntouchedDefaultIsNotSaved(c: Codec, e: SchemaEditor, d: Json)
    requires c.decodeAssoc(e.defaultValue) == Some(d)
    requires c.decodeAssoc(c.prettyEncode(d)) == Some(d)
    ensures e.PresaveAlterValues(c, [Some(e.FormElementText(c, None))]) == [None]
  {
  }
}
