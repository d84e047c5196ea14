/** The add-product form's submit handler,
    frontend/src/components/AddProduct.tsx: the tag parser, the
    required-field guard and the multipart form data built field by field. */
module AddProduct {
  import opened Wrappers
  import opened JsStrings

  // ---------------------------------------------------------------------
  // Tags

  /** The tag list: the input trimmed, split at every comma, and the empty
      pieces dropped. */
  function ParseTags(tags: string): (r: seq<string>)
    ensures "" !in r
    ensures forall t :: t in r ==> ',' !in t
  {
    NonEmpty(Split(Trim(tags), ','))
  }

  /** Empty or all-whitespace input gives no tags. */
  lemma BlankTagsGiveNone(tags: string)
    requires forall i :: 0 <= i < |tags| ==> IsWhitespace(tags[i])
    ensures ParseTags(tags) == []
  {
    TrimAllWhitespace(tags);
    assert Split("", ',') == [""];
  }

  /** Only the outer whitespace of the whole input goes: the space after the
      comma stays in the second tag. */
  lemma InnerSpacesKept()
    ensures ParseTags("a, b") == ["a", " b"]
  {
    var tags := ["a", " b"];
    assert Join(tags, ',') == "a, b";
    ParseJoinedTags(tags);
  }

  /** A joined string starts with its first piece's first character and
      ends with its last piece's last character. */
  lemma {:induction false} JoinEnds(parts: seq<string>, sep: char)
    requires |parts| >= 1 && forall i :: 0 <= i < |parts| ==> parts[i] != ""
    ensures var s := Join(parts, sep);
      |s| > 0 && s[0] == parts[0][0] && s[|s| - 1] == parts[|parts| - 1][|parts[|parts| - 1]| - 1]
    decreases |parts|
  {
    if |parts| > 1 {
      var rest := parts[1..];
      assert rest[|rest| - 1] == parts[|parts| - 1];
      JoinEnds(rest, sep);
      assert Join(parts, sep) == parts[0] + [sep] + Join(rest, sep);
    }
  }

  /** Tags without commas, none of them empty, with no whitespace at the
      very start or the very end, are read back from their comma-joined
      form unchanged and in order. */
  lemma ParseJoinedTags(tags: seq<string>)
    requires |tags| >= 1 && forall i :: 0 <= i < |tags| ==> tags[i] != "" && ',' !in tags[i]
    requires !IsWhitespace(tags[0][0]) && !IsWhitespace(tags[|tags| - 1][|tags[|tags| - 1]| - 1])
    ensures ParseTags(Join(tags, ',')) == tags
  {
    var s := Join(tags, ',');
    JoinEnds(tags, ',');
    TrimNoOuterWhitespace(s);
    SplitJoin(tags, ',');
    NonEmptyKeepsNonEmpty(tags);
  }

  // ---------------------------------------------------------------------
  // The form and its submission

  /** The chosen image file, known here only by its name. */
  datatype ImageFile = ImageFile(fileName: string)

  /** The form state; `image` is `null` until a file is picked. */
  datatype ProductForm = ProductForm(
    name: string, price: string, mrp: string, image: Option<ImageFile>,
    categoryId: string, brandId: string, tags: string)

  /** The submit guard: the name, the image, the category, the brand or the
      MRP is missing. */
  predicate MissingRequiredField(form: ProductForm) {
    form.name == "" || form.image.None? || form.categoryId == "" || form.brandId == "" || form.mrp == ""
  }

  /** Neither the price nor the tags take part in the guard. */
  lemma PriceAndTagsNotChecked(form: ProductForm, price: string, tags: string)
    ensures MissingRequiredField(form.(price := price, tags := tags)) == MissingRequiredField(form)
  {
  }

  /** A form data value: text, the image file, or the parsed tag list (sent
      as its JSON text). */
  datatype FieldValue = Text(text: string) | File(file: ImageFile) | TagList(tags: seq<string>)

  datatype FormEntry = FormEntry(key: string, value: FieldValue)

  datatype SubmitOutcome = ValidationError | Submitted(formData: seq<FormEntry>)

  const FieldOrder: seq<string> := ["name", "image", "category", "brand", "tags", "MRP", "price"]

  /** `handleSubmit`: the "Validation Error" outcome exactly when a
      required field is empty; otherwise the seven fields are appended in
      the order name, image, category, brand, tags, MRP, price, with the
      form's values (price possibly empty) and the parsed tags. */
  method HandleSubmit(form: ProductForm) returns (outcome: SubmitOutcome)
    ensures outcome.ValidationError? <==> MissingRequiredField(form)
    ensures outcome.Submitted? ==>
      var d := outcome.formData;
      && |d| == |FieldOrder|
      && (forall i :: 0 <= i < |d| ==> d[i].key == FieldOrder[i])
      && d[0].value == Text(form.name)
      && form.image.Some? && d[1].value == File(form.image.value)
      && d[2].value == Text(form.categoryId)
      && d[3].value == Text(form.brandId)
      && d[4].value == TagList(ParseTags(form.tags))
      && d[5].value == Text(form.mrp)
      && d[6].value == Text(form.price)
  {
    var tagsArr := ParseTags(form.tags);
    if MissingRequiredField(form) {
      return ValidationError;
    }
    var formData: seq<FormEntry> := [];
    formData := formData + [FormEntry("name", Text(form.name))];
    formData := formData + [FormEntry("image", File(form.image.value))];
    formData := formData + [FormEntry("category", Text(form.categoryId))];
    formData := formData + [FormEntry("brand", Text(form.brandId))];
    formData := formData + [FormEntry("tags", TagList(tagsArr))];
    formData := formData + [FormEntry("MRP", Text(form.mrp))];
    formData := formData + [FormEntry("price", Text(form.price))];
    outcome := Submitted(formData);
  }
}
