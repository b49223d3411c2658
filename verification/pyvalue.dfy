/** Decoded JSON values as the scanner's Python runtime holds them, and the
    handful of built-in operations the scanner applies to them: truthiness,
    iteration, len() and indexing, dict.get, float() and str().
    The parsers behind json.loads and float() on text are not modelled; they
    are taken as given through a Runtime value. */
module PyValue {

  datatype Option<+T> = None | Some(value: T)

  /** The Python exceptions the scanner lets escape. */
  datatype Exception =
    | TypeError       // iteration or len() on None, a bool or a number
    | IndexError      // a list or str indexed past its end
    | KeyError        // a dict indexed by an integer position
    | AttributeError  // .get on something that is not a dict

  /** The outcome of a Python expression: a value, or the exception it raised. */
  datatype Result<+T> = Ok(value: T) | Raised(exc: Exception)

  /** A value produced by json.loads. A dict keeps its keys in insertion
      order, which is the order Python iterates them in; its keys are
      distinct, so the first entry with a key is the only one. */
  datatype Value =
    | Null
    | Bool(b: bool)
    | Num(x: real)
    | Text(s: string)
    | List(items: seq<Value>)
    | Dict(entries: seq<(string, Value)>)

  /** The foreign parsers and formatters the scanner calls. */
  datatype Runtime = Runtime(
    loads: string -> Option<Value>,      // json.loads; None when it raises
    parseFloat: string -> Option<real>,  // float() of a str; None when it raises
    repr: Value -> string)               // str() of a number, list or dict

  /** Python's truth value of v (`if v:`). */
  predicate Truthy(v: Value)
  {
    match v
    case Null => false
    case Bool(b) => b
    case Num(x) => x != 0.0
    case Text(s) => s != ""
    case List(items) => items != []
    case Dict(entries) => entries != []
  }

  /** `key in d`. */
  predicate HasKey(entries: seq<(string, Value)>, key: string)
  {
    |entries| > 0 && (entries[0].0 == key || HasKey(entries[1..], key))
  }

  /** dict.get(key, default). */
  function Get(entries: seq<(string, Value)>, key: string, default: Value): (r: Value)
    ensures !HasKey(entries, key) ==> r == default
    ensures HasKey(entries, key) ==> (key, r) in entries
  {
    if |entries| == 0 then default
    else if entries[0].0 == key then entries[0].1
    else Get(entries[1..], key, default)
  }

  /** The elements `for x in v` visits, or the TypeError Python raises when
      v is not iterable. A str yields its one-character strings, a dict its keys. */
  function Iterate(v: Value): (r: Result<seq<Value>>)
    ensures r.Raised? <==> v.Null? || v.Bool? || v.Num?
    ensures r.Raised? ==> r.exc == TypeError
    ensures v.List? ==> r == Ok(v.items)
    ensures v.Text? ==> r.Ok? && |r.value| == |v.s|
    ensures v.Dict? ==> r.Ok? && |r.value| == |v.entries|
  {
    match v
    case List(items) => Ok(items)
    case Text(s) => Ok(seq(|s|, k requires 0 <= k < |s| => Text([s[k]])))
    case Dict(entries) => Ok(seq(|entries|, k requires 0 <= k < |entries| => Text(entries[k].0)))
    case _ => Raised(TypeError)
  }

  /** len(v). */
  function Len(v: Value): (r: Result<nat>)
    ensures r.Raised? <==> v.Null? || v.Bool? || v.Num?
    ensures v.List? ==> r == Ok(|v.items|)
    ensures v.Text? ==> r == Ok(|v.s|)
    ensures v.Dict? ==> r == Ok(|v.entries|)
  {
    match v
    case List(items) => Ok(|items|)
    case Text(s) => Ok(|s|)
    case Dict(entries) => Ok(|entries|)
    case _ => Raised(TypeError)
  }

  /** v[i] for a non-negative integer i. JSON object keys are strings, so an
      integer subscript of a decoded dict is always a KeyError. */
  function Index(v: Value, i: nat): (r: Result<Value>)
    ensures v.List? && i < |v.items| ==> r == Ok(v.items[i])
    ensures v.Dict? ==> r == Raised(KeyError)
    ensures v.Null? || v.Bool? || v.Num? ==> r == Raised(TypeError)
  {
    match v
    case List(items) => if i < |items| then Ok(items[i]) else Raised(IndexError)
    case Text(s) => if i < |s| then Ok(Text([s[i]])) else Raised(IndexError)
    case Dict(_) => Raised(KeyError)
    case _ => Raised(TypeError)
  }

  /** float(v), with every exception it may raise turned into None, as the
      scanner's bare `except:` does. */
  function ToFloat(rt: Runtime, v: Value): (r: Option<real>)
    ensures v.Num? ==> r == Some(v.x)
    ensures v.Null? || v.List? || v.Dict? ==> r == None
    ensures v.Text? ==> r == rt.parseFloat(v.s)
  {
    match v
    case Num(x) => Some(x)
    case Bool(b) => Some(if b then 1.0 else 0.0)
    case Text(s) => rt.parseFloat(s)
    case _ => None
  }

  /** str(v), as an f-string renders it. */
  function Str(rt: Runtime, v: Value): (r: string)
    ensures v.Text? ==> r == v.s
    ensures v.Null? ==> r == "None"
  {
    match v
    case Text(s) => s
    case Null => "None"
    case Bool(b) => if b then "True" else "False"
    case _ => rt.repr(v)
  }

  // ---------------------------------------------------------------------------
  // What the built-ins mean, element by element.

  /** `key in d` holds exactly when some entry of d has that key. */
  lemma {:induction false} HasKeyIff(entries: seq<(string, Value)>, key: string)
    ensures HasKey(entries, key) <==> exists k :: 0 <= k < |entries| && entries[k].0 == key
  {
    if |entries| > 0 {
      HasKeyIff(entries[1..], key);
      if HasKey(entries[1..], key) {
        var k :| 0 <= k < |entries| - 1 && entries[1..][k].0 == key;
        assert entries[k + 1].0 == key;
      }
      if exists k :: 0 <= k < |entries| && entries[k].0 == key {
        var k :| 0 <= k < |entries| && entries[k].0 == key;
        if k > 0 {
          assert entries[1..][k - 1].0 == key;
        }
      }
    }
  }

  /** A str, list or dict is truthy exactly when its len() is not zero. */
  lemma TruthyIsNonEmpty(v: Value)
    ensures Len(v).Ok? ==> (Truthy(v) <==> Len(v).value > 0)
  {
  }

  /** `for x in v` over a str visits its one-character strings, and over a
      dict its keys, in order. */
  lemma IterateElements(v: Value)
    ensures v.Text? ==> forall k :: 0 <= k < |v.s| ==> Iterate(v).value[k] == Text([v.s[k]])
    ensures v.Dict? ==> forall k :: 0 <= k < |v.entries| ==> Iterate(v).value[k] == Text(v.entries[k].0)
  {
  }

  /** v[i] on a str or a list: inside len(v) it is the element iteration
      visits at position i, and past the end it raises IndexError. */
  lemma IndexElements(v: Value, i: nat)
    ensures v.Text? && i < |v.s| ==> Index(v, i) == Ok(Text([v.s[i]]))
    ensures (v.Text? || v.List?) && i < Len(v).value ==> Index(v, i) == Ok(Iterate(v).value[i])
    ensures (v.Text? || v.List?) && i >= Len(v).value ==> Index(v, i) == Raised(IndexError)
  {
  }
}
