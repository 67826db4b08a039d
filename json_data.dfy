/** Decoded JSON and Python dict values, and the state of a JSON file on disk.
    A dict is a map from its keys to its values; the insertion order Python
    keeps is not part of this model. */
module JsonData {
  import opened Wrappers
  import opened Text

  datatype Json =
    | JNull
    | JBool(b: bool)
    | JInt(i: int)
    | JNum(r: real)           // a Python float, kept as the value of its decimal literal
    | JStr(s: string)
    | JArr(items: seq<Json>)
    | JObj(fields: map<string, Json>)

  /** Keyword arguments of a tool call (the string-valued ones). */
  type Args = map<string, string>

  /** `args.get(key, default)` */
  function Arg(args: Args, key: string, default: string): string {
    if key in args then args[key] else default
  }

  /** `args.get(name, default).lower().replace(" ", "_")`: the key a lookup
      tool normalises before it looks the key up in its table. */
  function NormalisedArg(args: Args, name: string, default: string): (key: string)
    ensures key == ReplaceChar(Lower(Arg(args, name, default)), ' ', '_')
    ensures |key| == |Arg(args, name, default)| && IsNormalKey(key)
  {
    NormaliseKeyIsLowerThenReplace(Arg(args, name, default));
    NormaliseKeyIsNormal(Arg(args, name, default));
    NormaliseKey(Arg(args, name, default))
  }

  /** `d.get(k, default)` */
  function GetOr(d: map<string, Json>, k: string, default: Json): Json {
    if k in d then d[k] else default
  }

  /** The values of a list of strings, as a JSON array. */
  function Strs(ss: seq<string>): (r: Json)
    ensures r.JArr? && |r.items| == |ss|
    ensures forall i :: 0 <= i < |ss| ==> r.items[i] == JStr(ss[i])
  {
    JArr(seq(|ss|, i requires 0 <= i < |ss| => JStr(ss[i])))
  }

  /** A list of objects with an `"id"` string each: the list of those ids. */
  function Ids(items: seq<Json>): seq<Json> {
    seq(|items|, i requires 0 <= i < |items| =>
      if items[i].JObj? && "id" in items[i].fields then items[i].fields["id"] else JNull)
  }

  /** The name Python's `type(x).__name__` gives a decoded value. */
  function TypeName(j: Json): string {
    match j
    case JNull => "NoneType"
    case JBool(_) => "bool"
    case JInt(_) => "int"
    case JNum(_) => "float"
    case JStr(_) => "str"
    case JArr(_) => "list"
    case JObj(_) => "dict"
  }

  /** The message of the AttributeError raised by `x.<attr>` on a decoded
      value that is not a dict. */
  function NoAttribute(j: Json, attr: string): string {
    "'" + TypeName(j) + "' object has no attribute '" + attr + "'"
  }

  /** `len(x)`: the length of a list, string or dict; None for the values
      on which Python raises TypeError. */
  function Len(j: Json): Option<nat> {
    match j
    case JArr(a) => Some(|a|)
    case JStr(s) => Some(|s|)
    case JObj(f) => Some(|f|)
    case _ => None
  }

  /** The message of the TypeError raised by `len(x)` on an unsized value. */
  function NoLen(j: Json): string {
    "object of type '" + TypeName(j) + "' has no len()"
  }

  /** `list(d.keys())`: every key exactly once. Python lists them in
      insertion order, which this model does not keep, so the order here is
      unspecified. */
  method KeyList(d: map<string, Json>) returns (keys: seq<string>)
    ensures |keys| == |d|
    ensures forall k :: k in d <==> k in keys
    ensures forall i, j :: 0 <= i < j < |keys| ==> keys[i] != keys[j]
  {
    keys := [];
    var rest := d.Keys;
    while rest != {}
      invariant forall k :: k in d <==> k in keys || k in rest
      invariant forall k :: k in keys ==> k !in rest
      invariant forall i, j :: 0 <= i < j < |keys| ==> keys[i] != keys[j]
      invariant |keys| + |rest| == |d|
      decreases |rest|
    {
      var k :| k in rest;
      keys := keys + [k];
      rest := rest - {k};
    }
  }

  /** The state of a JSON file: absent (`os.path.exists` is false), present
      but failing to open or decode (with the exception's message), or
      holding a decoded value. */
  datatype FileState = Absent | Unreadable(reason: string) | Stored(doc: Json)
}
