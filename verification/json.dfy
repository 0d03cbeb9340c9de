/** A parsed JSON document, as handed over by `JSON.parse`, `request.json()`
    or `json.loads`. Parsing and serialising text are not modelled: every
    operation here starts from the structured value. */
module Json {
  import opened Wrappers

  datatype Value =
    | Null
    | Bool(b: bool)
    | Num(n: real)
    | Str(s: string)
    | Arr(items: seq<Value>)
    | Obj(fields: map<string, Value>)

  /** JavaScript property access `v[key]`; `None` stands for `undefined`. */
  function Get(v: Value, key: string): (r: Option<Value>)
    ensures r.Some? <==> v.Obj? && key in v.fields
    ensures r.Some? ==> r.value == v.fields[key]
  {
    if v.Obj? && key in v.fields then Some(v.fields[key]) else None
  }

  /** JavaScript truthiness of a JSON value. */
  predicate Truthy(v: Value) {
    match v
    case Null => false
    case Bool(b) => b
    case Num(n) => n != 0.0
    case Str(s) => s != ""
    case Arr(_) => true
    case Obj(_) => true
  }

  /** Truthiness of a property that may be `undefined`. */
  predicate TruthyField(v: Option<Value>) {
    v.Some? && Truthy(v.value)
  }

  predicate IsStrField(v: Option<Value>) {
    v.Some? && v.value.Str?
  }

  /** Every element of the array is a string. */
  predicate AllStrings(items: seq<Value>) {
    forall i :: 0 <= i < |items| ==> items[i].Str?
  }

  function Strings(items: seq<Value>): (r: seq<string>)
    requires AllStrings(items)
    ensures |r| == |items| && forall i :: 0 <= i < |r| ==> items[i] == Str(r[i])
  {
    seq(|items|, i requires 0 <= i < |items| => items[i].s)
  }

  function StrArray(xs: seq<string>): (r: seq<Value>)
    ensures AllStrings(r) && Strings(r) == xs
  {
    seq(|xs|, i requires 0 <= i < |xs| => Str(xs[i]))
  }

  /** A JSON object with a `message` and a `code` string, the error body
      shape used by the proxy route and the backend. */
  function ErrorBody(message: string, code: string): (v: Value)
    ensures Get(v, "message") == Some(Str(message)) && Get(v, "code") == Some(Str(code))
  {
    Obj(map["message" := Str(message), "code" := Str(code)])
  }
}
