/**
 The property patch bodies of the status-diff monitor:
 `_format_property_value` turns a Python value into the Notion property
 shape chosen first by the property name and then by the value's type, and
 the two `update_page_*` helpers wrap the result into a PATCH body. Python
 values are `Json` values; floats are not modelled.
 */
module PropertyFormat {
  import opened PyJson
  import opened Config
  import NotionClient

  function Named(v: Json): Json {
    JObj(map["name" := v])
  }

  /** `[{"name": item} for item in items]`. */
  function NameObjects(items: seq<Json>): (r: seq<Json>)
    ensures |r| == |items|
    ensures forall i :: 0 <= i < |items| ==> r[i] == Named(items[i])
  {
    if |items| == 0 then [] else [Named(items[0])] + NameObjects(items[1..])
  }

  /** `[{"name": str(item)} for item in items]`. */
  function TextNameObjects(items: seq<Json>): (r: Result<seq<Json>>)
    ensures r.Ok? <==> forall i :: 0 <= i < |items| ==> Hashable(items[i])
    ensures r.Err? ==> r.error == ReprNotModelled
    ensures r.Ok? ==> |r.value| == |items|
    ensures r.Ok? ==> forall i :: 0 <= i < |items| ==> r.value[i] == Named(JStr(PyStr(items[i]).value))
  {
    if |items| == 0 then Ok([])
    else
      match PyStr(items[0])
      case Err(e) => Err(e)
      case Ok(t) =>
        match TextNameObjects(items[1..])
        case Err(e) => Err(e)
        case Ok(rest) => Ok([Named(JStr(t))] + rest)
  }

  function MultiSelect(objs: seq<Json>): Json {
    JObj(map["multi_select" := JArr(objs)])
  }

  function Checkbox(b: bool): Json {
    JObj(map["checkbox" := JBool(b)])
  }

  /** The Python types the formatter tells apart (`float` is not modelled). */
  datatype Kind = NoneKind | BoolKind | IntKind | StrKind | ListKind | DictKind

  function KindOf(v: Json): Kind {
    match v
    case JNull => NoneKind
    case JBool(_) => BoolKind
    case JInt(_) => IntKind
    case JStr(_) => StrKind
    case JArr(_) => ListKind
    case JObj(_) => DictKind
  }

  /** The Notion property type a known property name fixes for a value type. */
  const NamedTypes: map<(string, Kind), string> := map[
    (PropTitle, StrKind) := "title",
    (PropStatus, StrKind) := "status",
    (PropAssignee, StrKind) := "multi_select",
    (PropAssignee, ListKind) := "multi_select",
    (PropSuppressNotify, BoolKind) := "checkbox",
    (PropForceNotify, BoolKind) := "checkbox"]

  /** The Notion property type any other property gets from its value type. */
  const GenericTypes: map<Kind, string> := map[
    BoolKind := "checkbox",
    IntKind := "number",
    StrKind := "select",
    ListKind := "multi_select"]

  /** The single key of the formatted body, or None when the value type is unsupported. */
  function PropertyType(name: string, kind: Kind): Option<string> {
    if (name, kind) in NamedTypes then Some(NamedTypes[(name, kind)])
    else if kind in GenericTypes then Some(GenericTypes[kind])
    else None
  }

  /**
   `_format_property_value(name, value)`: the title, status and assignee
   properties have their own shapes for the types they expect; everything
   else (including those names with another type) goes by the value's type,
   booleans before integers.
   */
  function FormatPropertyValue(name: string, value: Json): (r: Result<Json>)
    ensures r.Err? ==> r.error == ValueError || r.error == ReprNotModelled
    ensures r.Err? <==> (|| value.JNull? || value.JObj?
                         || (value.JArr? && name != PropAssignee
                             && exists i :: 0 <= i < |value.items| && !Hashable(value.items[i])))
  {
    if name == PropTitle && value.JStr? then
      Ok(JObj(map["title" := JArr([JObj(map["text" := JObj(map["content" := value])])])]))
    else if name == PropStatus && value.JStr? then
      Ok(JObj(map["status" := Named(value)]))
    else if name == PropAssignee && value.JArr? then
      Ok(JObj(map["multi_select" := JArr(NameObjects(value.items))]))
    else if name == PropAssignee && value.JStr? then
      Ok(JObj(map["multi_select" := JArr([Named(value)])]))
    else if (name == PropSuppressNotify || name == PropForceNotify) && value.JBool? then
      Ok(Checkbox(value.b))
    else
      match value
      case JBool(b) => Ok(Checkbox(b))
      case JInt(n) => Ok(JObj(map["number" := value]))
      case JStr(s) => Ok(JObj(map["select" := Named(value)]))
      case JArr(items) =>
        (match TextNameObjects(items)
         case Err(e) => Err(e)
         case Ok(objs) => Ok(JObj(map["multi_select" := JArr(objs)])))
      case JNull => Err(ValueError)
      case JObj(_) => Err(ValueError)
  }

  /**
   The formatted body holds exactly one key, the Notion property type the
   table assigns to the name and value type; a type without an entry is
   rejected with ValueError.
   */
  lemma FormatPropertyType(name: string, value: Json)
    ensures PropertyType(name, KindOf(value)).None? ==> FormatPropertyValue(name, value) == Err(ValueError)
    ensures FormatPropertyValue(name, value).Ok? ==>
              && PropertyType(name, KindOf(value)).Some?
              && FormatPropertyValue(name, value).value.JObj?
              && FormatPropertyValue(name, value).value.fields.Keys == {PropertyType(name, KindOf(value)).value}
  {
  }

  /** A boolean becomes a checkbox under every property name, never a number. */
  lemma BooleanIsCheckbox(name: string, b: bool)
    ensures FormatPropertyValue(name, JBool(b)) == Ok(Checkbox(b))
    ensures !("number" in FormatPropertyValue(name, JBool(b)).value.fields)
  {
  }

  /**
   The property type a Notion property body names and the value it sets,
   read back as a Python value.
   */
  function ReadBack(body: Json): Option<(string, Json)>
  {
    if !body.JObj? then None
    else
      var f := body.fields;
      if "checkbox" in f then Some(("checkbox", f["checkbox"]))
      else if "number" in f then Some(("number", f["number"]))
      else if "select" in f && f["select"].JObj? && "name" in f["select"].fields then Some(("select", f["select"].fields["name"]))
      else if "status" in f && f["status"].JObj? && "name" in f["status"].fields then Some(("status", f["status"].fields["name"]))
      else if "title" in f && f["title"].JArr? && |f["title"].items| == 1 then
        var frag := f["title"].items[0];
        if frag.JObj? && "text" in frag.fields && frag.fields["text"].JObj? && "content" in frag.fields["text"].fields
        then Some(("title", frag.fields["text"].fields["content"]))
        else None
      else if "multi_select" in f && f["multi_select"].JArr? then
        match ReadNames(f["multi_select"].items)
        case Some(names) => Some(("multi_select", JArr(names)))
        case None => None
      else None
  }

  function ReadNames(objs: seq<Json>): (r: Option<seq<Json>>)
    ensures r.Some? ==> |r.value| == |objs|
  {
    if |objs| == 0 then Some([])
    else if objs[0].JObj? && "name" in objs[0].fields then
      match ReadNames(objs[1..])
      case Some(rest) => Some([objs[0].fields["name"]] + rest)
      case None => None
    else None
  }

  lemma {:induction false} ReadNamesOfNameObjects(items: seq<Json>)
    ensures ReadNames(NameObjects(items)) == Some(items)
  {
    if |items| > 0 {
      ReadNamesOfNameObjects(items[1..]);
      assert NameObjects(items)[1..] == NameObjects(items[1..]);
      assert [items[0]] + items[1..] == items;
    }
  }

  /** A list of strings survives `str()` unchanged. */
  lemma {:induction false} TextNamesOfStrings(items: seq<Json>)
    requires forall i :: 0 <= i < |items| ==> items[i].JStr?
    ensures TextNameObjects(items) == Ok(NameObjects(items))
  {
    if |items| > 0 {
      TextNamesOfStrings(items[1..]);
    }
  }

  /**
   Reading back what the formatter produced gives the property type the
   name and value type select and the value again, except that a single
   assignee name comes back as a one-element list.
   */
  lemma FormatReadBack(name: string, value: Json)
    requires value.JBool? || value.JInt? || value.JStr?
      || (value.JArr? && forall i :: 0 <= i < |value.items| ==> value.items[i].JStr?)
    ensures FormatPropertyValue(name, value).Ok?
    ensures PropertyType(name, KindOf(value)).Some?
    ensures ReadBack(FormatPropertyValue(name, value).value)
      == Some((PropertyType(name, KindOf(value)).value,
               if name == PropAssignee && value.JStr? then JArr([value]) else value))
  {
    var key := PropertyType(name, KindOf(value));
    var body := FormatPropertyValue(name, value);
    if name == PropTitle && value.JStr? {
      assert key == Some("title");
      assert ReadBack(body.value) == Some(("title", value));
    } else if name == PropStatus && value.JStr? {
      assert key == Some("status");
      assert ReadBack(body.value) == Some(("status", value));
    } else if name == PropAssignee && value.JArr? {
      assert key == Some("multi_select");
      assert body.value == MultiSelect(NameObjects(value.items));
      NamesReadBack(value.items);
    } else if name == PropAssignee && value.JStr? {
      assert key == Some("multi_select");
      SingleNameReadBack(value);
      assert body.value == JObj(map["multi_select" := JArr([Named(value)])]);
      assert ReadBack(body.value) == Some(("multi_select", JArr([value])));
    } else if value.JBool? {
      assert key == Some("checkbox");
      assert body.value == Checkbox(value.b);
    } else if value.JInt? {
      assert key == Some("number");
      assert body.value == JObj(map["number" := value]);
    } else if value.JStr? {
      assert (name, StrKind) !in NamedTypes;
      assert key == Some("select");
      assert body.value == JObj(map["select" := Named(value)]);
    } else {
      assert (name, ListKind) !in NamedTypes;
      assert key == Some("multi_select");
      TextNamesOfStrings(value.items);
      assert body.value == MultiSelect(NameObjects(value.items));
      NamesReadBack(value.items);
    }
  }

  /** A `multi_select` body built from names reads back as those names. */
  lemma NamesReadBack(items: seq<Json>)
    ensures ReadBack(MultiSelect(NameObjects(items))) == Some(("multi_select", JArr(items)))
  {
    var f := MultiSelect(NameObjects(items)).fields;
    assert f.Keys == {"multi_select"};
    assert "checkbox" !in f && "number" !in f && "select" !in f && "status" !in f && "title" !in f;
    ReadNamesOfNameObjects(items);
  }

  /** A one-name `multi_select` list reads back as the one-element list. */
  lemma SingleNameReadBack(value: Json)
    ensures ReadNames([Named(value)]) == Some([value])
  {
    var objs := [Named(value)];
    assert objs[1..] == [];
    assert ReadNames(objs[1..]) == Some([]);
    assert [value] + [] == [value];
  }

  /** `update_page_property`'s PATCH body: only the named property, formatted. */
  function UpdatePageProperty(name: string, value: Json): (r: Result<Json>)
    ensures r.Ok? <==> FormatPropertyValue(name, value).Ok?
    ensures r.Ok? ==> r.value.JObj? && r.value.fields.Keys == {"properties"}
    ensures r.Ok? ==> r.value.fields["properties"] == JObj(map[name := FormatPropertyValue(name, value).value])
  {
    var body :- FormatPropertyValue(name, value);
    Ok(JObj(map["properties" := JObj(map[name := body])]))
  }

  /** The generic setter and `update_page_checkbox` send the same body for a boolean. */
  lemma CheckboxBodiesAgree(name: string, b: bool)
    ensures UpdatePageProperty(name, JBool(b)) == Ok(NotionClient.UpdatePageCheckbox(name, b))
  {
    BooleanIsCheckbox(name, b);
  }

  /** The property names of a Python dict, which are distinct. */
  predicate DistinctNames(props: seq<(string, Json)>) {
    forall i, j :: 0 <= i < j < |props| ==> props[i].0 != props[j].0
  }

  /**
   `update_page_multiple_properties`' PATCH body: the formatted dict has
   exactly the input's property names, each value formatted on its own; the
   first value that cannot be formatted aborts with its error.
   */
  method UpdatePageMultipleProperties(props: seq<(string, Json)>) returns (r: Result<Json>)
    requires DistinctNames(props)
    ensures r.Ok? <==> forall i :: 0 <= i < |props| ==> FormatPropertyValue(props[i].0, props[i].1).Ok?
    ensures r.Err? ==> exists i :: (0 <= i < |props| && FormatPropertyValue(props[i].0, props[i].1) == Err(r.error)
                                    && forall j :: 0 <= j < i ==> FormatPropertyValue(props[j].0, props[j].1).Ok?)
    ensures r.Ok? ==> r.value.JObj? && r.value.fields.Keys == {"properties"}
    ensures r.Ok? ==> r.value.fields["properties"].JObj?
    ensures r.Ok? ==> r.value.fields["properties"].fields.Keys == (set i | 0 <= i < |props| :: props[i].0)
    ensures r.Ok? ==> forall i :: 0 <= i < |props| ==>
              r.value.fields["properties"].fields[props[i].0] == FormatPropertyValue(props[i].0, props[i].1).value
  {
    var formatted: map<string, Json> := map[];
    var k := 0;
    while k < |props|
      invariant 0 <= k <= |props|
      invariant forall i :: 0 <= i < k ==> FormatPropertyValue(props[i].0, props[i].1).Ok?
      invariant formatted.Keys == (set i | 0 <= i < k :: props[i].0)
      invariant forall i :: 0 <= i < k ==> formatted[props[i].0] == FormatPropertyValue(props[i].0, props[i].1).value
    {
      var body := FormatPropertyValue(props[k].0, props[k].1);
      if body.Err? {
        r := Err(body.error);
        assert FormatPropertyValue(props[k].0, props[k].1) == Err(r.error);
        return;
      }
      formatted := formatted[props[k].0 := body.value];
      k := k + 1;
    }
    r := Ok(JObj(map["properties" := JObj(formatted)]));
  }
}
