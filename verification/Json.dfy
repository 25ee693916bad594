/** JSON and TOML documents: scalars, lists and tables with string keys. */
module Json {

  datatype Json =
    | Null
    | Bool(flag: bool)
    | Num(number: int)
    | Str(text: string)
    | Arr(elems: seq<Json>)
    | Obj(fields: map<string, Json>)
}
