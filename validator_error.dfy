/** util/validator/error.go: turning the first failed binding rule into a
    readable message named after the field's tag (`json` or `form`). Go
    reflection is modelled by a small type description; the places where the
    source's reflection calls panic become `Err(Panic)` results. */
module ValidatorError {
  import opened Prelude
  import opened GoStrings

  /** One entry of `validator.ValidationErrors`: the rule that failed, its
      parameter (`100` for `max=100`) and the namespace of the field, such as
      `CreateProductRequestBody.Category` or `Order.Items[2].Name`. */
  datatype FieldError = FieldError(actualTag: string, param: string, namespace: string)

  /** The part of `reflect.Type` the message builder looks at. A struct tag is
      taken already parsed into its key/value pairs. */
  datatype GoType =
    | StructType(fields: seq<StructField>)
    | PointerType(elem: GoType)
    | SliceType(elem: GoType)
    | ArrayType(elem: GoType)
    | MapType(elem: GoType)
    | BasicType(name: string)

  datatype StructField = StructField(name: string, tag: map<string, string>, typ: GoType)

  /** The runtime panics the builder can hit. */
  datatype Panic =
    | IndexOutOfRange          // `err[0]` or `fieldList[0]` of an empty slice
    | FieldByNameOfNonStruct   // `reflect.Type.FieldByName` on a non-struct type
    | ElemOfInvalidType        // `reflect.Type.Elem` on a type without an element type
    | NilTypeDereference       // `Elem` on the nil type of a field that was not found

  /** What `ErrValidate` returns: a described error, or the validation errors
      themselves for a rule it has no message for. */
  datatype Outcome = Described(err: Error) | Unchanged(errs: seq<FieldError>)

  function ErrRequired(field: string): Error
  {
    Msg(field + " should be required")
  }

  function ErrMax(field: string, param: string): Error
  {
    Msg(field + "'s length should be " + "smaller than or equals to " + param)
  }

  function ErrPhoneNumber(field: string): Error
  {
    Msg(field + " should be phone number format")
  }

  function ErrProductSize(field: string): Error
  {
    Msg(field + " should be small or large")
  }

  function ErrDate(field: string): Error
  {
    Msg(field + " should be 0000-00-00 format")
  }

  /** The rules `ErrValidate` has a message for. */
  const DescribedTags: set<string> := {"required", "max", "phone_number", "product_size", "date"}

  /** The message for the rule `fe` names, when there is one: each described
      rule has its own message about the field, and no other rule has one. */
  function Describe(fe: FieldError, tagName: string): (r: Option<Error>)
    ensures r.Some? <==> fe.actualTag in DescribedTags
    ensures fe.actualTag == "required" ==> r == Some(ErrRequired(tagName))
    ensures fe.actualTag == "max" ==> r == Some(ErrMax(tagName, fe.param))
    ensures fe.actualTag == "phone_number" ==> r == Some(ErrPhoneNumber(tagName))
    ensures fe.actualTag == "product_size" ==> r == Some(ErrProductSize(tagName))
    ensures fe.actualTag == "date" ==> r == Some(ErrDate(tagName))
    ensures r.Some? ==> r.value.Msg? && tagName <= r.value.text
  {
    var t := fe.actualTag;
    if t == "required" then Some(ErrRequired(tagName))
    else if t == "max" then Some(ErrMax(tagName, fe.param))
    else if t == "phone_number" then Some(ErrPhoneNumber(tagName))
    else if t == "product_size" then Some(ErrProductSize(tagName))
    else if t == "date" then Some(ErrDate(tagName))
    else None
  }

  /** Different rules give different messages about the same field, so the
      client can tell which rule failed. */
  lemma DescribedMessagesDiffer(a: FieldError, b: FieldError, tagName: string)
    requires a.actualTag in DescribedTags && b.actualTag in DescribedTags && a.actualTag != b.actualTag
    ensures Describe(a, tagName) != Describe(b, tagName)
  {
    var n := |tagName|;
    MessageMarks(tagName, a.param);
    MessageMarks(tagName, b.param);
    var ma, mb := Describe(a, tagName).value.text, Describe(b, tagName).value.text;
    assert ma[n] != mb[n] || ma[n + 11] != mb[n + 11];
  }

  /** The characters that tell the messages apart: the one right after the
      field, and the first one after " should be ". */
  lemma MessageMarks(field: string, param: string)
    ensures var n := |field|;
      && |ErrMax(field, param).text| > n && ErrMax(field, param).text[n] == '\''
      && |ErrRequired(field).text| > n + 11 && ErrRequired(field).text[n] == ' ' && ErrRequired(field).text[n + 11] == 'r'
      && |ErrPhoneNumber(field).text| > n + 11 && ErrPhoneNumber(field).text[n] == ' ' && ErrPhoneNumber(field).text[n + 11] == 'p'
      && |ErrProductSize(field).text| > n + 11 && ErrProductSize(field).text[n] == ' ' && ErrProductSize(field).text[n + 11] == 's'
      && |ErrDate(field).text| > n + 11 && ErrDate(field).text[n] == ' ' && ErrDate(field).text[n + 11] == '0'
  {
    var rest := "'s length should be " + ("smaller than or equals to " + param);
    assert rest[0] == '\'';
    assert ErrMax(field, param).text == field + rest;
    assert (field + rest)[|field|] == rest[0];
  }

  /** The first field of `fs` named `name`. */
  function FirstField(fs: seq<StructField>, name: string): (r: Option<StructField>)
    ensures r.Some? ==> r.value in fs && r.value.name == name
    ensures r.None? <==> forall i :: 0 <= i < |fs| ==> fs[i].name != name
  {
    if fs == [] then None
    else if fs[0].name == name then Some(fs[0])
    else FirstField(fs[1..], name)
  }

  /** `reflect.Type.FieldByName`; `None` stands for the zero `StructField`
      returned when there is no such field. */
  function FieldByName(t: GoType, name: string): (r: Result<Option<StructField>, Panic>)
    ensures r.Err? <==> !t.StructType?
    ensures r.Err? ==> r.error == FieldByNameOfNonStruct
    ensures r.Ok? ==> r.value == FirstField(t.fields, name)
  {
    if t.StructType? then Ok(FirstField(t.fields, name)) else Err(FieldByNameOfNonStruct)
  }

  /** `reflect.Type.Elem`. */
  function Elem(t: GoType): (r: Result<GoType, Panic>)
    ensures r.Ok? <==> t.PointerType? || t.SliceType? || t.ArrayType? || t.MapType?
    ensures r.Ok? ==> r.value == t.elem
    ensures r.Err? ==> r.error == ElemOfInvalidType
  {
    match t
    case PointerType(e) => Ok(e)
    case SliceType(e) => Ok(e)
    case ArrayType(e) => Ok(e)
    case MapType(e) => Ok(e)
    case _ => Err(ElemOfInvalidType)
  }

  /** `reflect.StructTag.Lookup`, keeping only the value (empty when absent). */
  function Lookup(tag: map<string, string>, key: string): string
  {
    if key in tag then tag[key] else ""
  }

  /** `getErrFieldList`: the namespace of the first error with every `[digits]`
      removed, split at the dots, without the leading type name. */
  function GetErrFieldList(errs: seq<FieldError>): (r: Result<seq<string>, Panic>)
    ensures errs == [] <==> r == Err(IndexOutOfRange)
    ensures r.Ok? ==> forall i :: 0 <= i < |r.value| ==> '.' !in r.value[i]
  {
    if errs == [] then Err(IndexOutOfRange)
    else Ok(Split(RemoveIndexes(errs[0].namespace), '.')[1..])
  }

  /** `findTagName`: walks `fieldList` down the nested types, joining with dots
      the `tag` value of each field on the way. A missing last field
      contributes an empty name; a missing inner field panics. */
  function FindTagName(t: GoType, tag: string, fieldList: seq<string>): (r: Result<string, Panic>)
    ensures fieldList == [] ==> r == Err(IndexOutOfRange)
    ensures fieldList != [] && !t.StructType? ==> r == Err(FieldByNameOfNonStruct)
    ensures |fieldList| == 1 && t.StructType? ==>
              r == Ok(if FirstField(t.fields, fieldList[0]).Some?
                      then Lookup(FirstField(t.fields, fieldList[0]).value.tag, tag) else "")
    ensures |fieldList| > 1 && t.StructType? && FirstField(t.fields, fieldList[0]).None? ==> r == Err(NilTypeDereference)
    decreases |fieldList|
  {
    if fieldList == [] then Err(IndexOutOfRange)
    else
      match FieldByName(t, fieldList[0])
      case Err(p) => Err(p)
      case Ok(found) =>
        var tagName := if found.Some? then Lookup(found.value.tag, tag) else "";
        if |fieldList| == 1 then Ok(tagName)
        else if found.None? then Err(NilTypeDereference)
        else
          match Elem(found.value.typ)
          case Err(p) => Err(p)
          case Ok(ft) =>
            match FindTagName(ft, tag, fieldList[1..])
            case Err(p) => Err(p)
            case Ok(rest) => Ok(tagName + "." + rest)
  }

  /** `ErrValidate(err, obj, tag)` with `obj` of type `objType`: the element
      type of `obj`, the field list and the tag name are all computed before
      the rule is looked at, so their panics come first, in that order. */
  function ErrValidate(errs: seq<FieldError>, objType: GoType, tag: string): (r: Result<Outcome, Panic>)
    ensures Elem(objType).Err? ==> r == Err(ElemOfInvalidType)
    ensures Elem(objType).Ok? && errs == [] ==> r == Err(IndexOutOfRange)
    ensures Elem(objType).Ok? && errs != [] ==>
              var names := FindTagName(Elem(objType).value, tag, GetErrFieldList(errs).value);
              && (names.Err? ==> r == Err(names.error))
              && (names.Ok? ==>
                    r == Ok(if errs[0].actualTag in DescribedTags then Described(Describe(errs[0], names.value).value)
                            else Unchanged(errs)))
    ensures r.Ok? ==> errs != [] && (r.value.Unchanged? <==> errs[0].actualTag !in DescribedTags)
    ensures r.Ok? && r.value.Unchanged? ==> r.value.errs == errs
    ensures r.Ok? && r.value.Described? ==>
              && Elem(objType).Ok?
              && GetErrFieldList(errs).Ok?
              && FindTagName(Elem(objType).value, tag, GetErrFieldList(errs).value).Ok?
              && Some(r.value.err) == Describe(errs[0], FindTagName(Elem(objType).value, tag, GetErrFieldList(errs).value).value)
  {
    match Elem(objType)
    case Err(p) => Err(p)
    case Ok(e) =>
      match GetErrFieldList(errs)
      case Err(p) => Err(p)
      case Ok(fieldList) =>
        match FindTagName(e, tag, fieldList)
        case Err(p) => Err(p)
        case Ok(tagName) =>
          match Describe(errs[0], tagName)
          case Some(m) => Ok(Described(m))
          case None => Ok(Unchanged(errs))
  }

  // ---------------------------------------------------------------------------
  // Namespaces and tag paths.

  /** The namespace the validator reports for the field reached from `root`
      through `names`, with `indexes[k]` the slice positions written after
      `names[k]`. */
  function Namespace(root: string, names: seq<string>, indexes: seq<seq<string>>): string
    requires |names| == |indexes|
  {
    Join([root] + Segments(names, indexes), '.')
  }

  function Segments(names: seq<string>, indexes: seq<seq<string>>): (r: seq<string>)
    requires |names| == |indexes|
    ensures |r| == |names|
    ensures forall k :: 0 <= k < |r| ==> r[k] == names[k] + IndexSuffix(indexes[k])
  {
    if names == [] then [] else [names[0] + IndexSuffix(indexes[0])] + Segments(names[1..], indexes[1..])
  }

  /** A Go identifier as it appears in a namespace: no dot and no bracket. */
  predicate PlainName(s: string)
  {
    '.' !in s && '[' !in s
  }

  predicate DigitIndexes(indexes: seq<seq<string>>)
  {
    forall k, j :: 0 <= k < |indexes| && 0 <= j < |indexes[k]| ==> AllDigits(indexes[k][j])
  }

  lemma {:induction false} RemoveIndexesOfSegments(names: seq<string>, indexes: seq<seq<string>>)
    requires |names| == |indexes| >= 1
    requires forall k :: 0 <= k < |names| ==> PlainName(names[k])
    requires DigitIndexes(indexes)
    ensures RemoveIndexes(Join(Segments(names, indexes), '.')) == Join(names, '.')
    decreases |names|
  {
    var segs := Segments(names, indexes);
    assert forall j :: 0 <= j < |indexes[0]| ==> AllDigits(indexes[0][j]);
    if |names| == 1 {
      assert Join(segs, '.') == names[0] + IndexSuffix(indexes[0]) + [];
      SegmentLosesIndexes(names[0], indexes[0], []);
    } else {
      var rest := Join(segs[1..], '.');
      assert segs[1..] == Segments(names[1..], indexes[1..]);
      assert Join(segs, '.') == names[0] + IndexSuffix(indexes[0]) + ("." + rest);
      SegmentLosesIndexes(names[0], indexes[0], "." + rest);
      RemoveIndexesSkipsText(".", rest);
      DigitIndexesOfTail(indexes);
      RemoveIndexesOfSegments(names[1..], indexes[1..]);
    }
  }

  /** One segment of a namespace keeps its name and loses its indexes. */
  lemma SegmentLosesIndexes(name: string, indexes: seq<string>, z: string)
    requires PlainName(name)
    requires forall j :: 0 <= j < |indexes| ==> AllDigits(indexes[j])
    ensures RemoveIndexes(name + IndexSuffix(indexes) + z) == name + RemoveIndexes(z)
  {
    assert name + IndexSuffix(indexes) + z == name + (IndexSuffix(indexes) + z);
    RemoveIndexesSkipsText(name, IndexSuffix(indexes) + z);
    RemoveIndexesDropsSuffix(indexes, z);
  }

  lemma DigitIndexesOfTail(indexes: seq<seq<string>>)
    requires |indexes| >= 1 && DigitIndexes(indexes)
    ensures DigitIndexes(indexes[1..])
  {
    forall k, j | 0 <= k < |indexes[1..]| && 0 <= j < |indexes[1..][k]|
      ensures AllDigits(indexes[1..][k][j])
    {
      assert indexes[1..][k] == indexes[k + 1];
    }
  }

  /** The field list recovered from a namespace is exactly the field names on
      the way, whatever slice positions the namespace carries. */
  lemma FieldListOfNamespace(root: string, names: seq<string>, indexes: seq<seq<string>>, fe: FieldError)
    requires |names| == |indexes| >= 1
    requires PlainName(root) && forall k :: 0 <= k < |names| ==> PlainName(names[k])
    requires DigitIndexes(indexes)
    requires fe.namespace == Namespace(root, names, indexes)
    ensures GetErrFieldList([fe]) == Ok(names)
  {
    var segs := Segments(names, indexes);
    assert Join([root] + segs, '.') == root + "." + Join(segs, '.') by {
      assert ([root] + segs)[1..] == segs;
    }
    RemoveIndexesSkipsText(root + ".", Join(segs, '.'));
    assert root + "." + Join(segs, '.') == (root + ".") + Join(segs, '.');
    RemoveIndexesOfSegments(names, indexes);
    assert Join([root] + names, '.') == root + "." + Join(names, '.') by {
      assert ([root] + names)[1..] == names;
    }
    SplitJoin([root] + names, '.');
    assert ([root] + names)[1..] == names;
  }

  /** `names` leads from `t` through nested structs, each reached through a
      pointer, slice, array or map, and the field met at step `k` has the tag
      value `values[k]`. */
  predicate TagPath(t: GoType, tag: string, names: seq<string>, values: seq<string>)
    decreases |names|
  {
    && |names| == |values| >= 1
    && t.StructType?
    && FirstField(t.fields, names[0]).Some?
    && Lookup(FirstField(t.fields, names[0]).value.tag, tag) == values[0]
    && (|names| > 1 ==>
         && Elem(FirstField(t.fields, names[0]).value.typ).Ok?
         && TagPath(Elem(FirstField(t.fields, names[0]).value.typ).value, tag, names[1..], values[1..]))
  }

  /** Along such a path the tag name is the tag values joined with dots, and
      when no tag value holds a dot, splitting it at the dots gives them back. */
  lemma {:induction false} FindTagNameOnPath(t: GoType, tag: string, names: seq<string>, values: seq<string>)
    requires TagPath(t, tag, names, values)
    ensures FindTagName(t, tag, names) == Ok(Join(values, '.'))
    ensures (forall k :: 0 <= k < |values| ==> '.' !in values[k]) ==> Split(Join(values, '.'), '.') == values
    decreases |names|
  {
    if |names| > 1 {
      var f := FirstField(t.fields, names[0]).value;
      FindTagNameOnPath(Elem(f.typ).value, tag, names[1..], values[1..]);
    }
    if forall k :: 0 <= k < |values| ==> '.' !in values[k] {
      SplitJoin(values, '.');
    }
  }

  /** End to end: a failed rule on a field reached through `names` is described
      with the dotted tag path of that field, or passed on unchanged when
      the rule has no message. */
  lemma ErrValidateOnPath(objType: GoType, tag: string, root: string, names: seq<string>,
                          indexes: seq<seq<string>>, values: seq<string>, fe: FieldError, more: seq<FieldError>)
    requires objType.PointerType? && TagPath(objType.elem, tag, names, values)
    requires |indexes| == |names|
    requires PlainName(root) && forall k :: 0 <= k < |names| ==> PlainName(names[k])
    requires DigitIndexes(indexes)
    requires fe.namespace == Namespace(root, names, indexes)
    ensures ErrValidate([fe] + more, objType, tag)
         == Ok(if fe.actualTag in DescribedTags then Described(Describe(fe, Join(values, '.')).value)
               else Unchanged([fe] + more))
  {
    FieldListOfNamespace(root, names, indexes, fe);
    assert GetErrFieldList([fe] + more) == GetErrFieldList([fe]);
    FindTagNameOnPath(objType.elem, tag, names, values);
  }

  // ---------------------------------------------------------------------------
  // The request body of product creation, as the controller validates it.

  function JsonTag(name: string): map<string, string>
  {
    map["json" := name]
  }

  const CreateProductRequestBodyType: GoType := StructType([
    StructField("Category", JsonTag("category"), BasicType("string")),
    StructField("Price", JsonTag("price"), BasicType("int32")),
    StructField("Cost", JsonTag("cost"), BasicType("int32")),
    StructField("Name", JsonTag("name"), BasicType("string")),
    StructField("Description", JsonTag("description"), BasicType("string")),
    StructField("Barcode", JsonTag("barcode"), BasicType("string")),
    StructField("ExpirationDate", JsonTag("expiration_date"), BasicType("string")),
    StructField("Size", JsonTag("size"), BasicType("string"))])

  /** A failed rule on a field of the top-level struct is described with that
      field's tag value. */
  lemma TopLevelFieldMessage(fields: seq<StructField>, i: nat, tag: string, root: string,
                             fe: FieldError, more: seq<FieldError>)
    requires i < |fields| && FirstField(fields, fields[i].name) == Some(fields[i])
    requires PlainName(root) && PlainName(fields[i].name)
    requires fe.namespace == root + "." + fields[i].name
    ensures ErrValidate([fe] + more, PointerType(StructType(fields)), tag)
         == Ok(if fe.actualTag in DescribedTags then Described(Describe(fe, Lookup(fields[i].tag, tag)).value)
               else Unchanged([fe] + more))
  {
    var name := fields[i].name;
    var ns := root + "." + name;
    assert '[' !in ns;
    RemoveIndexesSkipsText(ns, []);
    assert ns + [] == ns;
    assert Join([root, name], '.') == ns;
    SplitJoin([root, name], '.');
    assert GetErrFieldList([fe] + more) == Ok([name]);
  }

  /** The message the controller tests expect for a missing category. */
  lemma MissingCategoryMessage(more: seq<FieldError>)
    ensures ErrValidate([FieldError("required", "", "CreateProductRequestBody.Category")] + more,
                        PointerType(CreateProductRequestBodyType), "json")
         == Ok(Described(ErrRequired("category")))
  {
    var fe := FieldError("required", "", "CreateProductRequestBody.Category");
    CategoryField();
    TopLevelFieldMessage(CreateProductRequestBodyType.fields, 0, "json", "CreateProductRequestBody", fe, more);
  }

  /** The message the controller tests expect for a category over 100 runes. */
  lemma LongCategoryMessage(more: seq<FieldError>)
    ensures ErrValidate([FieldError("max", "100", "CreateProductRequestBody.Category")] + more,
                        PointerType(CreateProductRequestBodyType), "json")
         == Ok(Described(ErrMax("category", "100")))
  {
    var fe := FieldError("max", "100", "CreateProductRequestBody.Category");
    CategoryField();
    TopLevelFieldMessage(CreateProductRequestBodyType.fields, 0, "json", "CreateProductRequestBody", fe, more);
  }

  /** The message the controller tests expect for a badly formatted expiration date. */
  lemma BadExpirationDateMessage(more: seq<FieldError>)
    ensures ErrValidate([FieldError("date", "", "CreateProductRequestBody.ExpirationDate")] + more,
                        PointerType(CreateProductRequestBodyType), "json")
         == Ok(Described(ErrDate("expiration_date")))
  {
    var fe := FieldError("date", "", "CreateProductRequestBody.ExpirationDate");
    ExpirationDateField();
    TopLevelFieldMessage(CreateProductRequestBodyType.fields, 6, "json", "CreateProductRequestBody", fe, more);
  }

  lemma CategoryField()
    ensures PlainName("CreateProductRequestBody")
    ensures CreateProductRequestBodyType.fields[0].name == "Category" && PlainName("Category")
    ensures Lookup(CreateProductRequestBodyType.fields[0].tag, "json") == "category"
    ensures FirstField(CreateProductRequestBodyType.fields, "Category") == Some(CreateProductRequestBodyType.fields[0])
    ensures "CreateProductRequestBody.Category" == "CreateProductRequestBody" + "." + "Category"
  {
    NamespaceLiterals();
  }

  lemma ExpirationDateField()
    ensures PlainName("CreateProductRequestBody")
    ensures CreateProductRequestBodyType.fields[6].name == "ExpirationDate" && PlainName("ExpirationDate")
    ensures Lookup(CreateProductRequestBodyType.fields[6].tag, "json") == "expiration_date"
    ensures FirstField(CreateProductRequestBodyType.fields, "ExpirationDate") == Some(CreateProductRequestBodyType.fields[6])
    ensures "CreateProductRequestBody.ExpirationDate" == "CreateProductRequestBody" + "." + "ExpirationDate"
  {
    NamespaceLiterals();
    ExpirationDateFound();
  }

  lemma NamespaceLiterals()
    ensures PlainName("CreateProductRequestBody") && PlainName("Category") && PlainName("ExpirationDate")
    ensures "CreateProductRequestBody.Category" == "CreateProductRequestBody" + "." + "Category"
    ensures "CreateProductRequestBody.ExpirationDate" == "CreateProductRequestBody" + "." + "ExpirationDate"
  {
    RootName();
    assert PlainName("Category");
    assert PlainName("ExpirationDate");
  }

  lemma RootName()
    ensures PlainName("CreateProductRequestBody")
  {
  }

  lemma ExpirationDateFound()
    ensures FirstField(CreateProductRequestBodyType.fields, "ExpirationDate") == Some(CreateProductRequestBodyType.fields[6])
  {
    var fs := CreateProductRequestBodyType.fields;
    assert forall k :: 0 <= k < 6 ==> fs[k].name != "ExpirationDate";
    FirstFieldAfter(fs, 6, "ExpirationDate");
  }

  lemma {:induction false} FirstFieldAfter(fs: seq<StructField>, i: nat, name: string)
    requires i < |fs| && fs[i].name == name
    requires forall k :: 0 <= k < i ==> fs[k].name != name
    ensures FirstField(fs, name) == Some(fs[i])
    decreases i
  {
    if i > 0 {
      FirstFieldAfter(fs[1..], i - 1, name);
    }
  }

  const GetProductListRequestQueryType: GoType := StructType([
    StructField("Page", map["form" := "page"], BasicType("int32")),
    StructField("Keyword", map["form" := "keyword"], BasicType("string"))])

  lemma PageField()
    ensures PlainName("GetProductListRequestQuery") && PlainName("Page")
    ensures GetProductListRequestQueryType.fields[0].name == "Page"
    ensures FirstField(GetProductListRequestQueryType.fields, "Page") == Some(GetProductListRequestQueryType.fields[0])
    ensures "GetProductListRequestQuery.Page" == "GetProductListRequestQuery" + "." + "Page"
    ensures "gte" !in DescribedTags
  {
    QueryName();
    assert PlainName("Page");
    assert "gte" != "required" && "gte" != "max" && "gte" != "date";
  }

  lemma QueryName()
    ensures PlainName("GetProductListRequestQuery")
  {
  }

  /** A rule without a message, such as `gte=1` on the list page, is passed on unchanged. */
  lemma PageRulePassesThrough(more: seq<FieldError>)
    ensures var errs := [FieldError("gte", "1", "GetProductListRequestQuery.Page")] + more;
            ErrValidate(errs, PointerType(GetProductListRequestQueryType), "form") == Ok(Unchanged(errs))
  {
    PageField();
    TopLevelFieldMessage(GetProductListRequestQueryType.fields, 0, "form", "GetProductListRequestQuery",
                         FieldError("gte", "1", "GetProductListRequestQuery.Page"), more);
  }
}
