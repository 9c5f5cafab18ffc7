/** JSON documents as serde holds them. */
module JsonValues {
  import opened Outcomes

  /** A number is the token it prints as; two numbers are equal iff they print alike. */
  datatype Json =
    | Null
    | Bool(b: bool)
    | Number(token: string)
    | String(s: string)
    | Array(items: seq<Json>)
    | Object(members: seq<Member>)

  datatype Member = Member(name: string, value: Json)

  function JsonType(v: Json): string {
    match v
    case Null => "null"
    case Bool(_) => "bool"
    case Number(_) => "number"
    case String(_) => "string"
    case Array(_) => "array"
    case Object(_) => "object"
  }

  function Lookup(members: seq<Member>, name: string): Option<Json> {
    if members == [] then None
    else if members[0].name == name then Some(members[0].value)
    else Lookup(members[1..], name)
  }

  /** `payload.get(name)`. */
  function Field(v: Json, name: string): Option<Json> {
    if v.Object? then Lookup(v.members, name) else None
  }

  /** `payload[name].as_str()`. */
  function StringField(v: Json, name: string): Option<string> {
    match Field(v, name)
    case Some(String(s)) => Some(s)
    case _ => None
  }
}
