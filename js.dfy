/**
 * The few JavaScript value semantics the dashboard relies on: JSON values as
 * `JSON.parse` and `response.json()` produce them, truthiness (what `||` and
 * `&&` test), conversion to a string (what `new Error(x)` and template
 * literals do), reading a property (which throws on `null`), the browser's
 * `File` object and the outcome of a browser-side `fetch`.
 */
module Js {
  import opened Wrappers

  /**
   * A parsed JSON value. Numbers are integers only, and they print in full:
   * JavaScript writes a magnitude of 10^21 or more in exponent form.
   */
  datatype JsonValue =
    | JNull
    | JBool(b: bool)
    | JNum(n: int)
    | JStr(s: string)
    | JArr(items: seq<JsonValue>)
    | JObj(members: map<string, JsonValue>)

  /** The object literal `{ <key>: <text> }`. */
  function TextObject(key: string, text: string): JsonValue {
    JObj(map[key := JStr(text)])
  }

  /** JavaScript truthiness: `null`, `false`, `0` and `""` are falsy, every array and object is truthy. */
  predicate Truthy(v: JsonValue) {
    match v
    case JNull => false
    case JBool(b) => b
    case JNum(n) => n != 0
    case JStr(s) => s != ""
    case JArr(_) => true
    case JObj(_) => true
  }

  /** Truthiness of a string that may be missing (`undefined` is falsy). */
  predicate TruthyText(o: Option<string>) {
    o.Some? && o.value != ""
  }

  function Digit(d: nat): char
    requires d < 10
  {
    "0123456789"[d]
  }

  function NatToString(n: nat): string
    decreases n
  {
    if n < 10 then [Digit(n)] else NatToString(n / 10) + [Digit(n % 10)]
  }

  /** `String(i)` for an integer below 10^21 in magnitude (larger ones print in exponent form in JavaScript). */
  function IntToString(i: int): string {
    if i < 0 then "-" + NatToString(-i) else NatToString(i)
  }

  /** `String(v)`: arrays join their elements with commas (null elements become empty), objects print as `[object Object]`. */
  function ToJsString(v: JsonValue): string
    decreases v, 1
  {
    match v
    case JNull => "null"
    case JBool(b) => if b then "true" else "false"
    case JNum(n) => IntToString(n)
    case JStr(s) => s
    case JArr(items) => JoinElements(v, 0)
    case JObj(_) => "[object Object]"
  }

  /** `Array.prototype.join(",")` over the elements of the array `arr` from index `k` on. */
  function JoinElements(arr: JsonValue, k: nat): string
    requires arr.JArr? && k <= |arr.items|
    decreases arr, 0, |arr.items| - k
  {
    if k == |arr.items| then ""
    else
      var head := if arr.items[k].JNull? then "" else ToJsString(arr.items[k]);
      if k + 1 == |arr.items| then head else head + "," + JoinElements(arr, k + 1)
  }

  /** What a template literal prints for a value that may be `undefined`. */
  function TemplateText(o: Option<JsonValue>): string {
    if o.None? then "undefined" else ToJsString(o.value)
  }

  /** What a template literal prints for a string that may be `undefined`. */
  function TemplateString(o: Option<string>): string {
    if o.None? then "undefined" else o.value
  }

  /** The message V8 gives the TypeError thrown by reading a property of `null`. */
  function NullReadMessage(key: string): string {
    "Cannot read properties of null (reading '" + key + "')"
  }

  /**
   * `v.key`: the member of an object (`None` is `undefined`), `undefined` for
   * the other non-null values, and a thrown TypeError for `null`.
   */
  function ReadProperty(v: JsonValue, key: string): (r: Result<Option<JsonValue>, string>)
    ensures r.Err? <==> v.JNull?
    ensures r.Ok? && r.value.Some? ==> v.JObj? && key in v.members && r.value.value == v.members[key]
    ensures v.JObj? && key in v.members ==> r == Ok(Some(v.members[key]))
  {
    match v
    case JNull => Err(NullReadMessage(key))
    case JObj(m) => Ok(if key in m then Some(m[key]) else None)
    case _ => Ok(None)
  }

  /** `v[key]` is truthy: `v` is an object holding a truthy member under `key`. */
  predicate TruthyMember(v: JsonValue, key: string) {
    v.JObj? && key in v.members && Truthy(v.members[key])
  }

  /** `keys[i]` is the first of `keys` under which `v` holds a truthy member. */
  predicate FirstTruthyKey(v: JsonValue, keys: seq<string>, i: int) {
    0 <= i < |keys| && TruthyMember(v, keys[i]) && forall j | 0 <= j < i :: !TruthyMember(v, keys[j])
  }

  /**
   * The message of `new Error(v[keys[0]] || v[keys[1]] || ... || fallback)`,
   * or the TypeError's message when `v` is `null` (the first read throws).
   */
  function ErrorMessage(v: JsonValue, keys: seq<string>, fallback: string): (msg: string)
    requires keys != []
    ensures v.JNull? ==> msg == NullReadMessage(keys[0])
    ensures forall i | FirstTruthyKey(v, keys, i) :: msg == ToJsString(v.members[keys[i]])
    ensures !v.JNull? && (forall i | 0 <= i < |keys| :: !TruthyMember(v, keys[i])) ==> msg == fallback
    ensures !v.JObj? && !v.JNull? ==> msg == fallback
  {
    if v.JNull? then NullReadMessage(keys[0]) else FirstTruthy(v, keys, fallback)
  }

  /** `v[keys[0]] || v[keys[1]] || ... || fallback`, turned into a string, for a `v` that is not `null`. */
  function FirstTruthy(v: JsonValue, keys: seq<string>, fallback: string): (msg: string)
    requires !v.JNull?
    ensures forall i | FirstTruthyKey(v, keys, i) :: msg == ToJsString(v.members[keys[i]])
    ensures (forall i | 0 <= i < |keys| :: !TruthyMember(v, keys[i])) ==> msg == fallback
    decreases |keys|
  {
    if keys == [] then fallback
    else if TruthyMember(v, keys[0]) then ToJsString(v.members[keys[0]])
    else
      assert forall i | FirstTruthyKey(v, keys, i) :: i > 0 && FirstTruthyKey(v, keys[1..], i - 1) by {
        forall i | FirstTruthyKey(v, keys, i) ensures i > 0 && FirstTruthyKey(v, keys[1..], i - 1) {
          forall j | 0 <= j < i - 1 ensures !TruthyMember(v, keys[1..][j]) {
            assert keys[1..][j] == keys[j + 1];
          }
        }
      }
      FirstTruthy(v, keys[1..], fallback)
  }

  /** A browser `File`: its name, declared MIME type and size in bytes. */
  datatype Blob = Blob(name: string, mimeType: string, size: nat)

  /**
   * The outcome of a browser-side `fetch` to one of the proxy routes:
   * the promise rejected with a message; or a response that is not OK, or
   * OK, with what `response.json()` gives (the thrown message when the
   * body does not parse). `T` is the shape an OK body decodes to.
   */
  datatype Fetched<T> =
    | Rejected(message: string)
    | NotOk(errorJson: Result<JsonValue, string>)
    | Succeeded(json: Result<T, string>)

  /** The step failed: the promise rejected, the response was not OK, or its OK body did not parse. */
  predicate FetchFailed<T>(reply: Fetched<T>) {
    !(reply.Succeeded? && reply.json.Ok?)
  }

  /**
   * The message a page shows for a failed fetch, `err.message` in its
   * `catch`: the rejection's message, the JSON parse error's message, or,
   * for a not-OK response, `new Error(body[keys[0]] || ... || fallback)`.
   */
  function FailureMessage<T>(reply: Fetched<T>, keys: seq<string>, fallback: string): (msg: string)
    requires FetchFailed(reply) && keys != []
    ensures reply.Rejected? ==> msg == reply.message
    ensures reply.NotOk? && reply.errorJson.Ok? ==> msg == ErrorMessage(reply.errorJson.value, keys, fallback)
    ensures reply.NotOk? && reply.errorJson.Err? ==> msg == reply.errorJson.error
    ensures reply.Succeeded? ==> msg == reply.json.error
  {
    match reply
    case Rejected(m) => m
    case NotOk(Err(m)) => m
    case NotOk(Ok(body)) => ErrorMessage(body, keys, fallback)
    case Succeeded(json) => json.error
  }
}
