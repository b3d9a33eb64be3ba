/** Value types shared by the client, the layer query and the KML encoder. */
module Values {

  datatype Option<+T> = None | Some(value: T)

  datatype Result<+T, +E> = Ok(value: T) | Err(error: E)

  /** A decoded JSON value, as `response.json()` gives it. Numbers are kept as
      their source text; objects are maps because no modelled behaviour depends
      on the order of a response's keys. */
  datatype Json =
    | JNull
    | JBool(b: bool)
    | JNum(text: string)
    | JStr(s: string)
    | JArr(items: seq<Json>)
    | JObj(members: map<string, Json>)

  /** A request parameter value: the CLI hands over strings, the code itself
      puts integers in (`resultRecordCount`, `resultOffset`). */
  datatype Param = PStr(s: string) | PInt(i: int)

  type Params = map<string, Param>
}
