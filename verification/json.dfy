/** JSON documents as produced by Go's encoding/json. Objects are maps, so the
    order in which members are written is not part of the model. */
module JsonValues {

  datatype Json =
    | JNull
    | JBool(b: bool)
    | JNum(n: int)
    | JStr(s: string)
    | JArr(items: seq<Json>)
    | JObj(members: map<string, Json>)
}
