/** Decoded JSON, as encoding/json hands it to Go code as an `any`. */
module Json {

  /** The characters a Go float64 is printed with. */
  predicate IsNumChar(c: char) {
    '0' <= c <= '9' || c == '-' || c == '+' || c == '.' || c == 'e' || c == 'E'
  }

  /** The text json.Marshal gives a float64; distinct values have distinct tokens. */
  type NumToken = s: string | s != "" && forall i :: 0 <= i < |s| ==> IsNumChar(s[i]) witness "0"

  datatype Json =
    | Null
    | Bool(b: bool)
    | Num(token: NumToken)
    | Str(s: string)
    | Arr(items: seq<Json>)
    | Obj(fields: map<string, Json>)

  datatype Option<+T> = None | Some(value: T) {
    function GetOr(default: T): T {
      if Some? then value else default
    }
  }

  datatype Result<+T> = Ok(value: T) | Err(message: string)
}
