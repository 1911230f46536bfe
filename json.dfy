/** The loosely typed tree that `json.loads` produces and that pydantic validates:
    dicts become `JObj`, lists `JArr`, every JSON number a `JNum`. */
module Json {

  datatype Json =
    | JNull
    | JBool(b: bool)
    | JNum(n: real)
    | JStr(s: string)
    | JArr(elems: seq<Json>)
    | JObj(fields: map<string, Json>)

  /** `d[key] = value` on a dict: the key is bound to the new value, every other key keeps
      its old binding and no key is added or dropped besides `key`. */
  function Assign(fields: map<string, Json>, key: string, value: Json): (r: map<string, Json>)
    ensures r.Keys == fields.Keys + {key}
    ensures r[key] == value
    ensures forall k :: k in fields && k != key ==> r[k] == fields[k]
  {
    fields[key := value]
  }
}
