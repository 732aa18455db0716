/**
 * Helpers over the directory API's JSON responses: reading the `value` array
 * and the next-page link out of a response message, and copying a JSON object's
 * string attributes into a group record.
 */
module JsonHelpers {
  import opened Wrappers
  import opened JavaStrings
  import opened Groups

  /** A JSON value; a number keeps the text Java prints for it. */
  datatype Json =
    | JNull
    | JBool(b: bool)
    | JNum(text: string)
    | JStr(s: string)
    | JArr(items: seq<Json>)
    | JObj(fields: map<string, Json>)

  type JsonObject = map<string, Json>

  const RESPONSE_MSG: string := "responseMsg"
  const VALUE: string := "value"
  const NEXT_LINK: string := "odata.nextLink"
  const MEMBER_OF: string := "memberOf?"

  predicate IsScalar(j: Json) {
    !j.JArr? && !j.JObj?
  }

  /** `toString()` of a scalar JSON value. */
  function Text(j: Json): (r: string)
    requires IsScalar(j)
  {
    match j
    case JNull => "null"
    case JBool(b) => if b then "true" else "false"
    case JNum(t) => t
    case JStr(s) => s
  }

  /** `JSONObject.optString(key)`: the value's text, or "" when the key is absent or null. */
  function OptString(obj: JsonObject, key: string): (r: string)
    requires key in obj ==> IsScalar(obj[key])
    ensures key !in obj || obj[key] == JNull ==> r == ""
    ensures key in obj && obj[key].JStr? ==> r == obj[key].s
  {
    if key !in obj || obj[key] == JNull then "" else Text(obj[key])
  }

  /** The response carries a `responseMsg` object (otherwise the source dereferences null). */
  predicate HasResponseMsg(json: JsonObject) {
    RESPONSE_MSG in json && json[RESPONSE_MSG].JObj?
  }

  /** The `value` array of the response message, or null when it is missing or not an array. */
  function FetchDirectoryObjectJSONArray(json: JsonObject): (r: Option<seq<Json>>)
    requires HasResponseMsg(json)
    ensures var msg := json[RESPONSE_MSG].fields;
            (r.Some? <==> VALUE in msg && msg[VALUE].JArr?)
            && (r.Some? ==> r.value == msg[VALUE].items)
  {
    var msg := json[RESPONSE_MSG].fields;
    if VALUE in msg && msg[VALUE].JArr? then Some(msg[VALUE].items) else None
  }

  /** The next-page link's value prints as text (arrays and objects are not modelled). */
  predicate NextLinkReadable(json: JsonObject)
    requires HasResponseMsg(json)
  {
    var msg := json[RESPONSE_MSG].fields;
    NEXT_LINK in msg ==> IsScalar(msg[NEXT_LINK])
  }

  /**
   * The query part of the next-page link: whatever follows the last
   * "memberOf?" in `odata.nextLink`; null when there is no link.
   */
  function FetchNextPageLink(json: JsonObject): (r: Option<string>)
    requires HasResponseMsg(json) && NextLinkReadable(json)
    ensures var msg := json[RESPONSE_MSG].fields;
            (r.None? <==> NEXT_LINK !in msg)
            && (r.Some? ==> !Contains(r.value, MEMBER_OF))
            && (r.Some? && Contains(Text(msg[NEXT_LINK]), MEMBER_OF) ==>
                  var link := Text(msg[NEXT_LINK]);
                  link == link[..LastIndexOf(link, MEMBER_OF)] + MEMBER_OF + r.value)
            && (r.Some? && !Contains(Text(msg[NEXT_LINK]), MEMBER_OF) ==> r.value == "")
  {
    var msg := json[RESPONSE_MSG].fields;
    if NEXT_LINK in msg then
      var link := Text(msg[NEXT_LINK]);
      AfterLastHasNoSeparator(link, MEMBER_OF);
      Some(SubstringAfterLast(link, MEMBER_OF))
    else None
  }

  /** Each declared string attribute's value prints as text. */
  predicate StringFieldsReadable(json: JsonObject) {
    forall f: GroupField :: FieldName(f) in json ==> IsScalar(json[FieldName(f)])
  }

  /** The reflective setter call `dest.set<Field>(value)`. */
  method InvokeSetter(dest: AadGroup, f: GroupField, value: string)
    modifies dest
    ensures dest.Field(f) == Some(value)
    ensures forall g :: g != f ==> dest.Field(g) == old(dest.Field(g))
  {
    match f
    case ObjectId => dest.SetObjectId(Some(value));
    case ObjectType => dest.SetObjectType(Some(value));
    case DisplayName => dest.SetDisplayName(Some(value));
  }

  /**
   * Copies every declared string attribute of the record from the JSON key of
   * the same name, through the attribute's setter; a missing key gives "".
   */
  method ConvertJSONObjectToDirectoryObject(json: JsonObject, dest: AadGroup)
    requires StringFieldsReadable(json)
    modifies dest
    ensures forall f :: dest.Field(f) == Some(OptString(json, FieldName(f)))
  {
    var fieldList := DECLARED_STRING_FIELDS;
    for i := 0 to |fieldList|
      invariant forall k :: 0 <= k < i ==>
                  dest.Field(fieldList[k]) == Some(OptString(json, FieldName(fieldList[k])))
    {
      InvokeSetter(dest, fieldList[i], OptString(json, FieldName(fieldList[i])));
    }
    assert fieldList[0] == ObjectId && fieldList[1] == ObjectType && fieldList[2] == DisplayName;
  }
}
