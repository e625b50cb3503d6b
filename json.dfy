/**
 * JSON values, as far as the task builds them: the objects it logs and the report it
 * writes. Fields keep JavaScript's insertion order. How a value is rendered as text
 * (`JSON.stringify`) is not modelled: the run receives the renderers as parameters.
 */
module Json {

  datatype Value =
    | Null
    | Bool(b: bool)
    | Number(n: int)
    | Str(s: string)
    | Array(items: seq<Value>)
    | Object(fields: seq<(string, Value)>)
}
