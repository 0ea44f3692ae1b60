/**
 * Loose, dict-shaped records as the Python code sees them after `json.loads` or
 * `yaml.safe_load`: a value is None, a bool, a number, a string, a list or a dict.
 * Key presence is the domain of the record's map, so "key absent" and "key present
 * with value None" stay distinguishable.
 */
module Json {
  import opened Text

  datatype Option<T> = None | Some(value: T)

  /** A Python value decoded from JSON (or YAML). Python's int and float are both `Num`. */
  datatype Value =
    | Null
    | Bool(b: bool)
    | Num(n: real)
    | Str(s: string)
    | List(items: seq<Value>)
    | Obj(fields: map<string, Value>)

  /** A Python dict with string keys. */
  type Record = map<string, Value>

  /** Outcome of Python code that may raise on an ill-typed field. */
  datatype Outcome<T> = Done(value: T) | Raised

  /** A result dict that is either `{"error": message}` or the normal answer. */
  datatype Result<T> = Failure(error: string) | Success(value: T)

  /** `d.get(k, default)` */
  function GetOr(r: Record, k: string, default: Value): Value
  {
    if k in r then r[k] else default
  }

  /** `d.get(k)`: None when the key is absent. */
  function Get(r: Record, k: string): Value
  {
    GetOr(r, k, Null)
  }

  /** Python truthiness: None, False, 0, "", [] and {} are false. */
  predicate Truthy(v: Value)
  {
    match v
    case Null => false
    case Bool(b) => b
    case Num(n) => n != 0.0
    case Str(s) => |s| > 0
    case List(items) => |items| > 0
    case Obj(fields) => |fields| > 0
  }

  /** `isinstance(v, (int, float))`; a Python bool is an int. */
  predicate IsNumber(v: Value)
  {
    v.Num? || v.Bool?
  }

  /** The numeric value of an int, float or bool. */
  function NumberOf(v: Value): real
    requires IsNumber(v)
  {
    match v
    case Num(n) => n
    case Bool(b) => if b then 1.0 else 0.0
  }

  /** Lists and dicts cannot be dict keys or set members: using one raises TypeError. */
  predicate Hashable(v: Value)
  {
    !v.List? && !v.Obj?
  }

  /**
   * Python `str(v)` as used by f-strings. Strings, None and booleans are rendered
   * here; numbers, lists and dicts go through `repr`, which stands for Python's own
   * float and container formatting.
   */
  function PyStr(v: Value, repr: Value -> string): string
  {
    match v
    case Null => "None"
    case Bool(b) => if b then "True" else "False"
    case Str(s) => s
    case _ => repr(v)
  }

  /** The dict inside `d.get(k, {})`, or Raised when the value is not a dict
      (calling `.get` on it raises AttributeError). */
  function SubRecord(r: Record, k: string): Outcome<Record>
  {
    match GetOr(r, k, Obj(map[]))
    case Obj(m) => Done(m)
    case _ => Raised
  }

  /** `[f(x) for x in xs]` where `f` may raise: the first raise propagates. */
  function MapAll<A, B>(xs: seq<A>, f: A -> Outcome<B>): Outcome<seq<B>>
    decreases |xs|
  {
    if xs == [] then Done([])
    else
      match MapAll(xs[..|xs| - 1], f)
      case Raised => Raised
      case Done(ys) =>
        match f(xs[|xs| - 1])
        case Raised => Raised
        case Done(y) => Done(ys + [y])
  }

  /** The comprehension raises exactly when `f` raises on some element. */
  lemma {:induction false} MapAllDone<A, B>(xs: seq<A>, f: A -> Outcome<B>)
    ensures MapAll(xs, f).Done? <==> forall i :: 0 <= i < |xs| ==> f(xs[i]).Done?
    decreases |xs|
  {
    if xs != [] {
      var front := xs[..|xs| - 1];
      MapAllDone(front, f);
      assert forall i :: 0 <= i < |front| ==> front[i] == xs[i];
    }
  }

  /** A comprehension that completes has one result per element, the i-th from the i-th. */
  lemma {:induction false} MapAllPointwise<A, B>(xs: seq<A>, f: A -> Outcome<B>)
    requires MapAll(xs, f).Done?
    ensures |MapAll(xs, f).value| == |xs|
    ensures forall i :: 0 <= i < |xs| ==> f(xs[i]) == Done(MapAll(xs, f).value[i])
    decreases |xs|
  {
    if xs != [] {
      var front := xs[..|xs| - 1];
      MapAllPointwise(front, f);
      forall i | 0 <= i < |front|
        ensures f(xs[i]) == Done(MapAll(xs, f).value[i])
      {
        assert front[i] == xs[i];
      }
    }
  }

  /** One more element that does not raise adds its result at the end. */
  lemma MapAllSnoc<A, B>(xs: seq<A>, x: A, f: A -> Outcome<B>)
    requires MapAll(xs, f).Done? && f(x).Done?
    ensures MapAll(xs + [x], f) == Done(MapAll(xs, f).value + [f(x).value])
  {
    assert (xs + [x])[..|xs|] == xs;
  }

  /** The comprehension over one more element of a sequence. */
  lemma MapAllPrefixStep<A, B>(xs: seq<A>, i: nat, f: A -> Outcome<B>)
    requires i < |xs| && MapAll(xs[..i], f).Done? && f(xs[i]).Done?
    ensures MapAll(xs[..i + 1], f) == Done(MapAll(xs[..i], f).value + [f(xs[i]).value])
  {
    assert xs[..i + 1] == xs[..i] + [xs[i]];
    MapAllSnoc(xs[..i], xs[i], f);
  }

  /** Python's `xs[:n]`: a negative `n` drops that many elements from the end. */
  function SliceTo<T>(xs: seq<T>, n: int): (r: seq<T>)
    ensures |r| <= |xs| && r == xs[..|r|]
    ensures n >= 0 ==> |r| == if n < |xs| then n else |xs|
    ensures n < 0 ==> |r| == if |xs| + n < 0 then 0 else |xs| + n
  {
    if n >= 0 then (if n < |xs| then xs[..n] else xs)
    else if |xs| + n < 0 then [] else xs[..|xs| + n]
  }

  /** The text from the first `{` to the last `}` inclusive, as both the backend and the
      Lambda cut a model reply before `json.loads`; None when there is no `{`, or the
      last `}` comes before it. */
  function JsonSpan(s: string): Option<string>
  {
    var start := Find(s, '{');
    var end := RFind(s, '}') + 1;
    if start != -1 && end > start then Some(s[start..end]) else None
  }

  /** The span exists exactly when some `}` follows the first `{`; it then starts with
      `{`, ends with `}`, and nothing outside it is a `{` before or a `}` after. */
  lemma JsonSpanSpec(s: string)
    ensures JsonSpan(s).Some? <==> exists i, j :: 0 <= i <= j < |s| && s[i] == '{' && s[j] == '}'
    ensures JsonSpan(s).Some? ==>
      exists a, b :: 0 <= a < b <= |s| && JsonSpan(s).value == s[a..b]
        && s[a] == '{' && s[b - 1] == '}' && '{' !in s[..a] && '}' !in s[b..]
  {
    var start := Find(s, '{');
    var last := RFind(s, '}');
    if JsonSpan(s).Some? {
      assert s[start] == '{' && s[last] == '}';
    }
  }

  /** A reply made of text without `{`, one braced body and text without `}` is cut
      back to exactly that braced body. */
  lemma JsonSpanOfWrapped(pre: string, body: string, post: string)
    requires '{' !in pre && '}' !in post
    ensures JsonSpan(pre + "{" + body + "}" + post) == Some("{" + body + "}")
  {
    var s := pre + "{" + body + "}" + post;
    var a := |pre|;
    var b := |pre| + |body| + 2;
    assert s[a] == '{' && s[..a] == pre;
    assert s[b - 1] == '}' && s[b..] == post;
    assert Find(s, '{') == a;
    assert RFind(s, '}') == b - 1;
    assert s[a..b] == "{" + body + "}";
  }
}
