/** The catalog's entity response (lineage_core/adapters/omd/omd_response_models.py) and
    how a JSON body becomes one. The models accept a field under its alias or under its
    own name, ignore unknown keys, and reject a value of the wrong kind. A rejected
    value is a validation error, which is a `ValueError`. */
module ResponseModels {
  import opened Outcomes
  import opened Json

  datatype OMDColumn = OMDColumn(name: string, description: Option<string>, fullyQualifiedName: string)

  datatype OMDEntity = OMDEntity(
    id: string,
    entityType: Option<string>,
    fullyQualifiedName: Option<string>,
    name: Option<string>,
    description: Option<string>,
    columns: seq<OMDColumn>)

  /** Python truthiness of `entity.fully_qualified_name`: present and non-empty. */
  predicate HasFqn(e: OMDEntity)
  {
    e.fullyQualifiedName.Some? && |e.fullyQualifiedName.value| > 0
  }

  const ValidationError: Error := ValueError("validation error")

  /** The value supplied for a field: under its alias if present, else under its name. */
  function Lookup(fields: map<string, Json>, alias: string, name: string): (r: Option<Json>)
    ensures r.None? <==> alias !in fields && name !in fields
    ensures alias in fields ==> r == Some(fields[alias])
  {
    if alias in fields then Some(fields[alias]) else if name in fields then Some(fields[name]) else None
  }

  function RequiredString(v: Option<Json>): (r: Result<string>)
    ensures r.Ok? <==> v.Some? && v.value.JString?
    ensures r.Ok? ==> v.value == JString(r.value)
  {
    if v.Some? && v.value.JString? then Ok(v.value.s) else Err(ValidationError)
  }

  /** An `Optional[str]` field: absent or `null` is `None`, a string is kept, anything else
      is rejected. */
  function OptionalString(v: Option<Json>): (r: Result<Option<string>>)
    ensures r.Ok? <==> v.None? || v.value.JNull? || v.value.JString?
    ensures r.Ok? && r.value.Some? ==> v == Some(JString(r.value.value))
  {
    if v.None? || v.value.JNull? then Ok(None)
    else if v.value.JString? then Ok(Some(v.value.s))
    else Err(ValidationError)
  }

  function ColumnFromJson(j: Json): (r: Result<OMDColumn>)
    ensures r.Ok? ==> j.JObject?
    ensures r.Err? ==> r.error == ValidationError
  {
    if !j.JObject? then Err(ValidationError)
    else
      var name :- RequiredString(Lookup(j.fields, "name", "name"));
      var description :- OptionalString(Lookup(j.fields, "description", "description"));
      var fqn :- RequiredString(Lookup(j.fields, "fullyQualifiedName", "fully_qualified_name"));
      Ok(OMDColumn(name, description, fqn))
  }

  /** A list of columns is accepted only when every element is. */
  function ColumnsFromJson(items: seq<Json>): (r: Result<seq<OMDColumn>>)
    ensures r.Ok? <==> forall k :: 0 <= k < |items| ==> ColumnFromJson(items[k]).Ok?
    ensures r.Ok? ==> |r.value| == |items| && forall k :: 0 <= k < |items| ==> r.value[k] == ColumnFromJson(items[k]).value
    ensures r.Err? ==> r.error == ValidationError
    decreases |items|
  {
    if items == [] then Ok([])
    else
      var init := ColumnsFromJson(items[..|items| - 1]);
      var last := ColumnFromJson(items[|items| - 1]);
      if init.Err? then Err(init.error)
      else if last.Err? then Err(last.error)
      else Ok(init.value + [last.value])
  }

  /** `OMDResponseEntity(**data)`: a body that is not an object cannot be unpacked as
      keyword arguments (a `TypeError`); otherwise each field is validated. */
  function EntityFromJson(j: Json): (r: Result<OMDEntity>)
    ensures !j.JObject? ==> r.Err? && r.error.TypeError?
    ensures j.JObject? && r.Err? ==> r.error == ValidationError
    ensures r.Ok? ==> j.JObject? && "id" in j.fields && j.fields["id"] == JString(r.value.id)
    ensures r.Ok? && r.value.fullyQualifiedName.Some? ==>
      Lookup(j.fields, "fullyQualifiedName", "fully_qualified_name") == Some(JString(r.value.fullyQualifiedName.value))
  {
    if !j.JObject? then Err(TypeError("argument after ** must be a mapping"))
    else
      var f := j.fields;
      var id :- RequiredString(Lookup(f, "id", "id"));
      var typ :- OptionalString(Lookup(f, "entityType", "type"));
      var fqn :- OptionalString(Lookup(f, "fullyQualifiedName", "fully_qualified_name"));
      var name :- OptionalString(Lookup(f, "name", "name"));
      var description :- OptionalString(Lookup(f, "description", "description"));
      var columnsValue := GetOr(f, "columns", JArray([]));
      var columns :- if columnsValue.JArray? then ColumnsFromJson(columnsValue.items) else Err(ValidationError);
      Ok(OMDEntity(id, typ, fqn, name, description, columns))
  }

  function OptionJson(o: Option<string>): Json
  {
    if o.Some? then JString(o.value) else JNull
  }

  /** `model_dump(by_alias=True)` of a column. */
  function ColumnToJson(c: OMDColumn): Json
  {
    JObject(map["name" := JString(c.name), "description" := OptionJson(c.description),
                "fullyQualifiedName" := JString(c.fullyQualifiedName)])
  }

  /** `model_dump(by_alias=True)` of an entity. */
  function EntityToJson(e: OMDEntity): (j: Json)
    ensures j.JObject?
  {
    JObject(map[
      "id" := JString(e.id),
      "entityType" := OptionJson(e.entityType),
      "fullyQualifiedName" := OptionJson(e.fullyQualifiedName),
      "name" := OptionJson(e.name),
      "description" := OptionJson(e.description),
      "columns" := JArray(ColumnsToJson(e.columns))])
  }

  function ColumnsToJson(cs: seq<OMDColumn>): (items: seq<Json>)
    ensures |items| == |cs| && forall k :: 0 <= k < |cs| ==> items[k] == ColumnToJson(cs[k])
  {
    seq(|cs|, k requires 0 <= k < |cs| => ColumnToJson(cs[k]))
  }

  // ---------------------------------------------------------------- model_dump_json

  /** One character inside a JSON string as pydantic writes it: the double quote, the
      backslash and the control characters are escaped (`\b`, `\t`, `\n`, `\f`, `\r`,
      otherwise `\u00hh` in lower-case hexadecimal); every other character is kept. */
  function JsonEscapeChar(c: char): string
  {
    if c == '"' then "\\\""
    else if c == '\\' then "\\\\"
    else if c == '\U{0008}' then "\\b"
    else if c == '\t' then "\\t"
    else if c == '\n' then "\\n"
    else if c == '\U{000C}' then "\\f"
    else if c == '\r' then "\\r"
    else if c < ' ' then "\\u00" + [HexLow(c as int / 16), HexLow(c as int % 16)]
    else [c]
  }

  function JsonEscape(s: string): string
    decreases |s|
  {
    if s == [] then [] else JsonEscapeChar(s[0]) + JsonEscape(s[1..])
  }

  /** The character an escape sequence `\c` stands for (`\"` and `\\` stand for
      themselves). */
  function UnescapedChar(c: char): char
  {
    if c == 'b' then '\U{0008}'
    else if c == 't' then '\t'
    else if c == 'n' then '\n'
    else if c == 'f' then '\U{000C}'
    else if c == 'r' then '\r'
    else c
  }

  /** Reading the inside of a JSON string back. */
  function JsonUnescape(s: string): string
    decreases |s|
  {
    if |s| >= 6 && s[0] == '\\' && s[1] == 'u' then
      [(16 * HexLowValue(s[4]) + HexLowValue(s[5])) as char] + JsonUnescape(s[6..])
    else if |s| >= 2 && s[0] == '\\' then [UnescapedChar(s[1])] + JsonUnescape(s[2..])
    else if s == [] then []
    else [s[0]] + JsonUnescape(s[1..])
  }

  /** Reading one escaped character back gives the character. */
  lemma JsonEscapeCharRoundTrip(c: char, rest: string)
    ensures JsonUnescape(JsonEscapeChar(c) + rest) == [c] + JsonUnescape(rest)
  {
    var e := JsonEscapeChar(c);
    if c < ' ' && c !in {'\U{0008}', '\t', '\n', '\U{000C}', '\r'} {
      var hi, lo := c as int / 16, c as int % 16;
      assert e == ['\\', 'u', '0', '0', HexLow(hi), HexLow(lo)];
      assert (e + rest)[6..] == rest;
      assert (16 * HexLowValue(HexLow(hi)) + HexLowValue(HexLow(lo))) as char == c;
    } else if |e| == 2 {
      assert (e + rest)[2..] == rest;
    } else {
      assert e == [c];
      assert (e + rest)[1..] == rest;
    }
  }

  /** The escaping loses nothing: reading an escaped text back gives the text. */
  lemma {:induction false} JsonEscapeRoundTrip(s: string)
    ensures JsonUnescape(JsonEscape(s)) == s
    decreases |s|
  {
    if s != [] {
      JsonEscapeRoundTrip(s[1..]);
      JsonEscapeCharRoundTrip(s[0], JsonEscape(s[1..]));
      assert s == [s[0]] + s[1..];
    }
  }

  function JsonStringText(s: string): string
  {
    "\"" + JsonEscape(s) + "\""
  }

  function JsonOptionText(o: Option<string>): string
  {
    if o.Some? then JsonStringText(o.value) else "null"
  }

  /** `model_dump_json()` of a column: compact, fields under their own names. */
  function ColumnJsonText(c: OMDColumn): string
  {
    "{\"name\":" + JsonStringText(c.name)
      + ",\"description\":" + JsonOptionText(c.description)
      + ",\"fully_qualified_name\":" + JsonStringText(c.fullyQualifiedName) + "}"
  }

  /** The columns, comma-separated. */
  function ColumnItemsText(cs: seq<OMDColumn>): string
    decreases |cs|
  {
    if cs == [] then ""
    else if |cs| == 1 then ColumnJsonText(cs[0])
    else ColumnJsonText(cs[0]) + "," + ColumnItemsText(cs[1..])
  }

  /** `model_dump_json()` of an entity: compact JSON with the fields under their own
      names (not their aliases), in declaration order. */
  function EntityJsonText(e: OMDEntity): string
  {
    "{\"id\":" + JsonStringText(e.id)
      + ",\"type\":" + JsonOptionText(e.entityType)
      + ",\"fully_qualified_name\":" + JsonOptionText(e.fullyQualifiedName)
      + ",\"name\":" + JsonOptionText(e.name)
      + ",\"description\":" + JsonOptionText(e.description)
      + ",\"columns\":[" + ColumnItemsText(e.columns) + "]}"
  }

  lemma ColumnRoundTrip(c: OMDColumn)
    ensures ColumnFromJson(ColumnToJson(c)) == Ok(c)
  {
  }

  lemma {:induction false} ColumnsRoundTrip(cs: seq<OMDColumn>)
    ensures ColumnsFromJson(ColumnsToJson(cs)) == Ok(cs)
  {
    var items := ColumnsToJson(cs);
    forall k | 0 <= k < |cs| ensures ColumnFromJson(items[k]) == Ok(cs[k]) {
      ColumnRoundTrip(cs[k]);
    }
    var r := ColumnsFromJson(items);
    assert r.Ok?;
    assert r.value == cs;
  }

  /** Dumping an entity by alias and reading the dump back gives the same entity. */
  lemma EntityRoundTrip(e: OMDEntity)
    ensures EntityFromJson(EntityToJson(e)) == Ok(e)
  {
    var j := EntityToJson(e);
    ColumnsRoundTrip(e.columns);
    assert GetOr(j.fields, "columns", JArray([])) == JArray(ColumnsToJson(e.columns));
    assert Lookup(j.fields, "fullyQualifiedName", "fully_qualified_name") == Some(OptionJson(e.fullyQualifiedName));
    assert Lookup(j.fields, "entityType", "type") == Some(OptionJson(e.entityType));
    assert RequiredString(Lookup(j.fields, "id", "id")) == Ok(e.id);
    OptionRoundTrip(e.entityType);
    OptionRoundTrip(e.fullyQualifiedName);
    OptionRoundTrip(e.name);
    OptionRoundTrip(e.description);
    assert Lookup(j.fields, "name", "name") == Some(OptionJson(e.name));
    assert Lookup(j.fields, "description", "description") == Some(OptionJson(e.description));
  }

  lemma OptionRoundTrip(o: Option<string>)
    ensures OptionalString(Some(OptionJson(o))) == Ok(o)
  {
  }
}
