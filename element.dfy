/**
 * The Element record: a string-keyed dictionary `data` with typed views
 * over reserved keys, its TableElement variant, and the `create_element`
 * factory that picks the variant from the `type` tag.
 */
module Elements {
  import opened Wrappers
  import opened Values

  /** The Python class of an element object. */
  datatype Kind = PlainKind | TableKind | ImageKind

  /** The state of one element object, as a value. */
  datatype Rec = Rec(kind: Kind, data: map<string, Value>)

  /** The keyword parameters of the TableElement constructor. */
  const TableParameters: set<string> := {"element", "title", "columns", "rows", "table", "tokens"}

  /** `d.get(key)`: None when the key is absent. */
  function Get(d: map<string, Value>, key: string): (r: Value)
    ensures key in d ==> r == d[key]
    ensures key !in d ==> r == Null
  {
    if key in d then d[key] else Null
  }

  /** The dictionary `UserDict(element, **kwargs)` starts from: `element`, then `kwargs` on top. */
  function Merge(element: Option<map<string, Value>>, kwargs: map<string, Value>): (d: map<string, Value>)
    ensures element.None? ==> d == kwargs
    ensures element.Some? ==> d.Keys == element.value.Keys + kwargs.Keys
    ensures forall k :: k in kwargs ==> d[k] == kwargs[k]
    ensures forall k :: element.Some? && k in element.value && k !in kwargs ==> d[k] == element.value[k]
  {
    (if element.Some? then element.value else map[]) + kwargs
  }

  /**
   * What the Element constructor leaves in `data`: the supplied entries
   * exactly as given, plus an empty `properties` dictionary when none was supplied.
   */
  function WithProperties(d: map<string, Value>): (r: map<string, Value>)
    ensures "properties" in r
    ensures r.Keys == d.Keys + {"properties"}
    ensures forall k :: k in d ==> r[k] == d[k]
    ensures "properties" !in d ==> r["properties"] == Dict(map[])
  {
    if "properties" in d then d else d["properties" := Dict(map[])]
  }

  /** `BoundingBox(*v)`: succeeds on a tuple or list of four numbers. */
  function Unpack(v: Value): (r: Result<BoundingBox, Error>)
    ensures r.Ok? <==> (v.Tuple? || v.List?) && |v.items| == 4 && forall x | x in v.items :: x.Num?
  {
    if (v.Tuple? || v.List?) && |v.items| == 4 && forall x | x in v.items :: x.Num? then
      Ok(BoundingBox(v.items[0].n, v.items[1].n, v.items[2].n, v.items[3].n))
    else
      Err(TypeError("BoundingBox() takes four coordinates"))
  }

  /**
   * The `bbox` getter: None when absent, a stored BoundingBox unchanged,
   * anything else rebuilt from its coordinates.
   */
  function BboxOf(d: map<string, Value>): (r: Result<Option<BoundingBox>, Error>)
    ensures Get(d, "bbox").Null? ==> r == Ok(None)
    ensures Get(d, "bbox").Box? ==> r == Ok(Some(Get(d, "bbox").box))
  {
    match Get(d, "bbox")
    case Null => Ok(None)
    case Box(b) => Ok(Some(b))
    case v =>
      match Unpack(v)
      case Ok(b) => Ok(Some(b))
      case Err(e) => Err(e)
  }

  /** `element.properties[key] = x`, as the new `data`. */
  function SetPropertyIn(d: map<string, Value>, key: string, x: Value): (r: Result<map<string, Value>, Error>)
    ensures r.Ok? <==> "properties" in d && d["properties"].Dict?
    ensures "properties" !in d ==> r == Err(KeyError("properties"))
    ensures "properties" in d && !d["properties"].Dict? ==> r.Err? && r.error.TypeError?
    ensures r.Ok? ==> r.value == d["properties" := Dict(d["properties"].entries[key := x])]
  {
    if "properties" !in d then Err(KeyError("properties"))
    else
      match AssignItem(d["properties"], key, x)
      case Ok(p) => Ok(d["properties" := p])
      case Err(e) => Err(e)
  }

  /** `element.properties[key]` read through the TableElement accessors. */
  function PropertyOf(d: map<string, Value>, key: string): (r: Result<Value, Error>)
    ensures r.Ok? <==> "properties" in d && d["properties"].Dict? && key in d["properties"].entries
    ensures r.Ok? ==> r.value == d["properties"].entries[key]
  {
    if "properties" !in d then Err(KeyError("properties")) else Subscript(d["properties"], key)
  }

  /** The TableElement constructor indexes `properties`, so a supplied one must be a dictionary. */
  predicate PropertiesIsDict(d: map<string, Value>)
  {
    "properties" in d ==> d["properties"].Dict?
  }

  /** What the TableElement constructor leaves in `data`. */
  function TableData(element: Option<map<string, Value>>, title: Value, columns: Value, rows: Value,
                     table: Value, tokens: Value, kwargs: map<string, Value>): (r: map<string, Value>)
    requires PropertiesIsDict(Merge(element, kwargs))
    ensures var input := Merge(element, kwargs);
      r.Keys == input.Keys + {"type", "properties", "table", "tokens"}
      && (forall k :: k in input && k != "type" && k != "properties" && k != "table" && k != "tokens" ==> r[k] == input[k])
    ensures r["type"] == Str("table") && r["table"] == table && r["tokens"] == tokens
    ensures r["properties"].Dict?
    ensures var p := r["properties"].entries;
      "title" in p && p["title"] == title && "columns" in p && p["columns"] == columns && "rows" in p && p["rows"] == rows
    ensures var input := Merge(element, kwargs); var p := r["properties"].entries;
      "properties" in input ==>
        p.Keys == input["properties"].entries.Keys + {"title", "columns", "rows"}
        && forall k :: k in input["properties"].entries && k != "title" && k != "columns" && k != "rows" ==>
             p[k] == input["properties"].entries[k]
    ensures "properties" !in Merge(element, kwargs) ==> r["properties"].entries.Keys == {"title", "columns", "rows"}
  {
    var base := WithProperties(Merge(element, kwargs));
    var p := base["properties"].entries["title" := title]["columns" := columns]["rows" := rows];
    base["type" := Str("table")]["properties" := Dict(p)]["table" := table]["tokens" := tokens]
  }

  /** ASCII lower-casing of one character. */
  function LowerChar(c: char): char
  {
    if 'A' <= c <= 'Z' then (c as int + 32) as char else c
  }

  /** `s.lower()`. */
  function Lower(s: string): (r: string)
    ensures |r| == |s| && forall i :: 0 <= i < |s| ==> r[i] == LowerChar(s[i])
  {
    seq(|s|, i requires 0 <= i < |s| => LowerChar(s[i]))
  }

  /** The `type` keyword argument, when one is supplied. */
  function TagOf(kwargs: map<string, Value>): Option<Value>
  {
    if "type" in kwargs then Some(kwargs["type"]) else None
  }

  /**
   * The variant `create_element` builds, decided by the tag alone:
   * TableElement when the tag lower-cases to "table"; a tag without
   * `.lower()` raises AttributeError; bytes lower-case to bytes, never
   * equal to the string "table".
   */
  function Dispatch(tag: Option<Value>): (r: Result<Kind, Error>)
    ensures r == Ok(TableKind) <==> tag.Some? && tag.value.Str? && Lower(tag.value.s) == "table"
    ensures r.Err? <==> tag.Some? && !tag.value.Str? && !tag.value.Bytes?
    ensures r.Ok? ==> r.value != ImageKind
    ensures r.Err? ==> r.error.AttributeError?
  {
    match tag
    case None => Ok(PlainKind)
    case Some(Str(s)) => if Lower(s) == "table" then Ok(TableKind) else Ok(PlainKind)
    case Some(Bytes(_)) => Ok(PlainKind)
    case Some(_) => Err(AttributeError("lower"))
  }

  /** The table tag is "table" in any mix of upper and lower case. */
  lemma {:induction false} DispatchIgnoresCase(s: string)
    ensures Dispatch(Some(Str(s))) == Ok(TableKind)
        <==> |s| == 5 && forall i :: 0 <= i < 5 ==> s[i] == "table"[i] || s[i] == "TABLE"[i]
  {
    if |s| == 5 && forall i :: 0 <= i < 5 ==> s[i] == "table"[i] || s[i] == "TABLE"[i] {
      forall i | 0 <= i < 5 ensures Lower(s)[i] == "table"[i] {
        assert s[i] == "table"[i] || s[i] == "TABLE"[i];
      }
      assert Lower(s) == "table";
    }
    if Lower(s) == "table" {
      forall i | 0 <= i < 5 ensures s[i] == "table"[i] || s[i] == "TABLE"[i] {
        assert LowerChar(s[i]) == "table"[i];
      }
    }
  }

  /** "Table", "TABLE" and "table" select TableElement; "Text", bytes or no tag select Element. */
  lemma DispatchExamples()
    ensures Dispatch(Some(Str("Table"))) == Ok(TableKind)
    ensures Dispatch(Some(Str("TABLE"))) == Ok(TableKind)
    ensures Dispatch(Some(Str("table"))) == Ok(TableKind)
    ensures Dispatch(Some(Str("Text"))) == Ok(PlainKind)
    ensures Dispatch(Some(Bytes([0x74, 0x61, 0x62, 0x6c, 0x65]))) == Ok(PlainKind)
    ensures Dispatch(None) == Ok(PlainKind)
    ensures Dispatch(Some(Null)) == Err(AttributeError("lower"))
  {
    DispatchIgnoresCase("Table");
    DispatchIgnoresCase("TABLE");
    DispatchIgnoresCase("table");
    DispatchIgnoresCase("Text");
  }

  /** How `TableElement(**kwargs)` binds the keyword arguments it receives from `create_element`. */
  datatype TableCall = TableCall(element: Option<map<string, Value>>, title: Value, columns: Value, rows: Value,
                                 table: Value, tokens: Value, rest: map<string, Value>)

  /**
   * Binds `element`, `title`, `columns`, `rows`, `table` and `tokens` to the
   * TableElement parameters (absent ones default to None) and leaves the
   * rest in `**kwargs`; fails as the constructor would on a `self` keyword
   * (which collides with the constructor's own first parameter), and on a
   * non-dictionary `element` or `properties`.
   */
  function BindTableCall(kwargs: map<string, Value>): (r: Result<TableCall, Error>)
    ensures r.Ok? ==> r.value.rest == kwargs - TableParameters
    ensures r.Ok? ==>
      r.value.title == Get(kwargs, "title") && r.value.columns == Get(kwargs, "columns")
      && r.value.rows == Get(kwargs, "rows") && r.value.table == Get(kwargs, "table")
      && r.value.tokens == Get(kwargs, "tokens")
    ensures r.Ok? ==>
      (r.value.element.None? <==> Get(kwargs, "element").Null?)
      && (r.value.element.Some? ==> Dict(r.value.element.value) == kwargs["element"])
    ensures r.Ok? ==> PropertiesIsDict(Merge(r.value.element, r.value.rest))
    ensures "self" in kwargs ==> r == Err(TypeError("got multiple values for argument 'self'"))
    ensures r.Err? ==> r.error.TypeError?
    ensures r.Err? <==>
      "self" in kwargs
      || !(Get(kwargs, "element").Null? || Get(kwargs, "element").Dict?)
      || !PropertiesIsDict(Merge(if Get(kwargs, "element").Dict? then Some(Get(kwargs, "element").entries) else None,
                                 kwargs - TableParameters))
  {
    var e := Get(kwargs, "element");
    if "self" in kwargs then Err(TypeError("got multiple values for argument 'self'"))
    else if !(e.Null? || e.Dict?) then Err(TypeError("element is not a mapping"))
    else
      var element := if e.Dict? then Some(e.entries) else None;
      var rest := kwargs - TableParameters;
      if !PropertiesIsDict(Merge(element, rest)) then Err(TypeError("properties does not support item assignment"))
      else Ok(TableCall(element, Get(kwargs, "title"), Get(kwargs, "columns"), Get(kwargs, "rows"),
                        Get(kwargs, "table"), Get(kwargs, "tokens"), rest))
  }

  /** One element object: the dictionary `data` and the Python class it was built as. */
  class Element {
    const kind: Kind
    var data: map<string, Value>

    /** `properties` is always present. */
    ghost predicate Valid()
      reads this
    {
      "properties" in data
    }

    /** The element's current state as a value. */
    function Record(): Rec
      reads this
    {
      Rec(kind, data)
    }

    /** `Element(element, **kwargs)`. */
    constructor (element: Option<map<string, Value>>, kwargs: map<string, Value>)
      ensures Valid() && kind == PlainKind
      ensures data == WithProperties(Merge(element, kwargs))
    {
      kind := PlainKind;
      data := Merge(element, kwargs);
      new;
      if "properties" !in data {
        data := data["properties" := Dict(map[])];
      }
    }

    /** `TableElement(element, title, columns, rows, table, tokens, **kwargs)`. */
    constructor TableElement(element: Option<map<string, Value>>, title: Value, columns: Value, rows: Value,
                             table: Value, tokens: Value, kwargs: map<string, Value>)
      requires PropertiesIsDict(Merge(element, kwargs))
      ensures Valid() && kind == TableKind
      ensures data == TableData(element, title, columns, rows, table, tokens, kwargs)
    {
      kind := TableKind;
      data := Merge(element, kwargs);
      new;
      if "properties" !in data {
        data := data["properties" := Dict(map[])];
      }
      ghost var base := data;
      data := data["type" := Str("table")];
      var props := data["properties"].entries;
      assert props == base["properties"].entries;
      props := props["title" := title];
      props := props["columns" := columns];
      props := props["rows" := rows];
      data := data["properties" := Dict(props)];
      data := data["table" := table];
      data := data["tokens" := tokens];
    }

    /** Rebuilds an element object of any class from a stored record. */
    constructor Restore(r: Rec)
      requires "properties" in r.data
      ensures Valid() && Record() == r
    {
      kind := r.kind;
      data := r.data;
    }

    /** The `type` getter. */
    function Type(): Value
      reads this
    {
      Get(data, "type")
    }

    /** The `type` setter. */
    method SetType(v: Value)
      requires Valid()
      modifies this
      ensures Valid() && data == old(data)["type" := v] && Type() == v
    {
      data := data["type" := v];
    }

    /** The `text_representation` getter. */
    function TextRepresentation(): Value
      reads this
    {
      Get(data, "text_representation")
    }

    /** The `text_representation` setter. */
    method SetTextRepresentation(v: Value)
      requires Valid()
      modifies this
      ensures Valid() && data == old(data)["text_representation" := v] && TextRepresentation() == v
    {
      data := data["text_representation" := v];
    }

    /** The `binary_representation` getter. */
    function BinaryRepresentation(): Value
      reads this
    {
      Get(data, "binary_representation")
    }

    /** The `binary_representation` setter. */
    method SetBinaryRepresentation(v: Value)
      requires Valid()
      modifies this
      ensures Valid() && data == old(data)["binary_representation" := v] && BinaryRepresentation() == v
    {
      data := data["binary_representation" := v];
    }

    /** The `bbox` getter. */
    function Bbox(): Result<Option<BoundingBox>, Error>
      reads this
    {
      BboxOf(data)
    }

    /** The `bbox` setter: stores the coordinate tuple, never the BoundingBox object. */
    method SetBbox(b: BoundingBox)
      requires Valid()
      modifies this
      ensures Valid() && data == old(data)["bbox" := b.Coordinates()]
      ensures data["bbox"].Tuple? && Bbox() == Ok(Some(b))
    {
      data := data["bbox" := b.Coordinates()];
    }

    /** The `properties` getter. */
    function Properties(): Value
      requires Valid()
      reads this
    {
      data["properties"]
    }

    /** The `properties` setter. */
    method SetProperties(p: map<string, Value>)
      requires Valid()
      modifies this
      ensures Valid() && data == old(data)["properties" := Dict(p)] && Properties() == Dict(p)
    {
      data := data["properties" := Dict(p)];
    }

    /** The `properties` deleter: resets the key to an empty dictionary instead of removing it. */
    method DeleteProperties()
      requires Valid()
      modifies this
      ensures Valid() && data == old(data)["properties" := Dict(map[])]
    {
      data := data["properties" := Dict(map[])];
    }

    /** `element.properties[key] = x`. */
    method SetProperty(key: string, x: Value) returns (r: Result<(), Error>)
      requires Valid()
      modifies this
      ensures Valid()
      ensures r.Ok? <==> old(data["properties"]).Dict?
      ensures r.Ok? ==> data == old(data)["properties" := Dict(old(data["properties"]).entries[key := x])]
      ensures r.Err? ==> data == old(data) && r.error == SetPropertyIn(old(data), key, x).error
      ensures r.Err? ==> r.error.TypeError?
    {
      match SetPropertyIn(data, key, x)
      case Ok(d) =>
        data := d;
        r := Ok(());
      case Err(e) =>
        r := Err(e);
    }

    /** The TableElement `rows` getter. */
    function Rows(): Result<Value, Error>
      requires kind == TableKind
      reads this
    {
      PropertyOf(data, "rows")
    }

    /** The TableElement `rows` setter. */
    method SetRows(rows: Value) returns (r: Result<(), Error>)
      requires Valid() && kind == TableKind
      modifies this
      ensures Valid()
      ensures r.Ok? <==> old(data["properties"]).Dict?
      ensures r.Ok? ==> data == old(data)["properties" := Dict(old(data["properties"]).entries["rows" := rows])]
      ensures r.Ok? ==> Rows() == Ok(rows)
      ensures r.Err? ==> data == old(data) && r.error.TypeError?
    {
      r := SetProperty("rows", rows);
    }

    /** The TableElement `columns` getter. */
    function Columns(): Result<Value, Error>
      requires kind == TableKind
      reads this
    {
      PropertyOf(data, "columns")
    }

    /** The TableElement `columns` setter. */
    method SetColumns(columns: Value) returns (r: Result<(), Error>)
      requires Valid() && kind == TableKind
      modifies this
      ensures Valid()
      ensures r.Ok? <==> old(data["properties"]).Dict?
      ensures r.Ok? ==> data == old(data)["properties" := Dict(old(data["properties"]).entries["columns" := columns])]
      ensures r.Ok? ==> Columns() == Ok(columns)
      ensures r.Err? ==> data == old(data) && r.error.TypeError?
    {
      r := SetProperty("columns", columns);
    }

    /** The TableElement `table` getter. */
    function Table(): Result<Value, Error>
      requires kind == TableKind
      reads this
    {
      Subscript(Dict(data), "table")
    }

    /** The TableElement `table` setter. */
    method SetTable(table: Value)
      requires Valid() && kind == TableKind
      modifies this
      ensures Valid() && data == old(data)["table" := table] && Table() == Ok(table)
    {
      data := data["table" := table];
    }

    /** The TableElement `tokens` getter. */
    function Tokens(): Result<Value, Error>
      requires kind == TableKind
      reads this
    {
      Subscript(Dict(data), "tokens")
    }

    /** The TableElement `tokens` setter. */
    method SetTokens(tokens: Value)
      requires Valid() && kind == TableKind
      modifies this
      ensures Valid() && data == old(data)["tokens" := tokens] && Tokens() == Ok(tokens)
    {
      data := data["tokens" := tokens];
    }
  }

  /**
   * `create_element(**kwargs)`: a TableElement exactly when the tag
   * lower-cases to "table", otherwise a plain Element.
   */
  method CreateElement(kwargs: map<string, Value>) returns (r: Result<Element, Error>)
    ensures Dispatch(TagOf(kwargs)).Err? ==> r == Err(Dispatch(TagOf(kwargs)).error)
    ensures Dispatch(TagOf(kwargs)) == Ok(PlainKind) ==>
              r.Ok? && fresh(r.value) && r.value.Valid() && r.value.kind == PlainKind
              && r.value.data == WithProperties(kwargs)
    ensures Dispatch(TagOf(kwargs)) == Ok(TableKind) ==>
              match BindTableCall(kwargs)
              case Err(e) => r == Err(e)
              case Ok(c) =>
                r.Ok? && fresh(r.value) && r.value.Valid() && r.value.kind == TableKind
                && r.value.data == TableData(c.element, c.title, c.columns, c.rows, c.table, c.tokens, c.rest)
  {
    var kind := Dispatch(TagOf(kwargs));
    if kind.Err? {
      r := Err(kind.error);
    } else if kind.value == TableKind {
      var call := BindTableCall(kwargs);
      if call.Err? {
        r := Err(call.error);
      } else {
        var c := call.value;
        var t := new Element.TableElement(c.element, c.title, c.columns, c.rows, c.table, c.tokens, c.rest);
        r := Ok(t);
      }
    } else {
      var e := new Element(None, kwargs);
      r := Ok(e);
    }
  }

  /** Reading `bbox` after writing it gives back the same four coordinates. */
  lemma BboxRoundTrip(d: map<string, Value>, b: BoundingBox)
    ensures BboxOf(d["bbox" := b.Coordinates()]) == Ok(Some(b))
  {
  }
}
