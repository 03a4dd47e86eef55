/**
 The values a Flask JSON request body decodes to, and the few pieces of Python
 semantics the bot applies to them: subscripting `d[k]`, `d.keys()`, and the
 membership operator `x in container`. Exceptions are values here, so that a
 caller's `try`/`except` can be modelled as an ordinary match.
 */
module JsonValues {

  /** A decoded JSON value. Objects are Python dicts keyed by strings. */
  datatype Json =
    | JNull
    | JBool(b: bool)
    | JInt(i: int)
    | JStr(s: string)
    | JList(items: seq<Json>)
    | JObj(fields: map<string, Json>)

  /** The Python exceptions the modelled code can raise. `Raised` stands for any
      exception that escapes an external collaborator (network, file system). */
  datatype Exception =
    | KeyError(key: string)
    | TypeError
    | AttributeError
    | Raised

  /** A computation that either returns a value or raises. */
  datatype Result<+T> = Ok(value: T) | Err(error: Exception) {

    predicate IsFailure() {
      Err?
    }

    function PropagateFailure<U>(): Result<U>
      requires Err?
    {
      Err(error)
    }

    function Extract(): T
      requires Ok?
    {
      value
    }
  }

  /** A Python function result that may be the implicit `None`. */
  datatype Option<+T> = None | Some(value: T)

  /** Python `container[key]` with a string key: only a dict supports it, and a
      dict without the key raises `KeyError`. */
  function Subscript(container: Json, key: string): (r: Result<Json>)
    ensures r.Ok? <==> container.JObj? && key in container.fields
    ensures r.Ok? ==> r.value == container.fields[key]
    ensures container.JObj? && key !in container.fields ==> r == Err(KeyError(key))
    ensures !container.JObj? ==> r == Err(TypeError)
  {
    match container
    case JObj(fields) => if key in fields then Ok(fields[key]) else Err(KeyError(key))
    case _ => Err(TypeError)
  }

  /** Python `value.keys()`: only a dict has the method. */
  function Keys(value: Json): (r: Result<set<string>>)
    ensures r.Ok? <==> value.JObj?
    ensures r.Ok? ==> r.value == value.fields.Keys
    ensures r.Err? ==> r.error == AttributeError
  {
    if value.JObj? then Ok(value.fields.Keys) else Err(AttributeError)
  }

  /** `needle` occurs in `hay` starting at index `i`. */
  predicate Occurs(needle: string, hay: string, i: int) {
    0 <= i && i + |needle| <= |hay| && hay[i..i + |needle|] == needle
  }

  /** Python's `needle in hay` on two strings, by a left-to-right scan. */
  function HasSubstring(needle: string, hay: string): (r: bool)
    ensures r <==> exists i :: Occurs(needle, hay, i)
    decreases |hay|
  {
    if |hay| < |needle| then
      false
    else if hay[..|needle|] == needle then
      assert Occurs(needle, hay, 0);
      true
    else
      ShiftOccurs(needle, hay);
      HasSubstring(needle, hay[1..])
  }

  /** When `needle` is not a prefix of `hay`, it occurs in `hay` exactly when it
      occurs in `hay` without its first character. */
  lemma ShiftOccurs(needle: string, hay: string)
    requires |needle| <= |hay| && hay[..|needle|] != needle
    ensures (exists i :: Occurs(needle, hay, i)) <==> (exists i :: Occurs(needle, hay[1..], i))
  {
    if i :| Occurs(needle, hay, i) {
      assert i != 0;
      assert hay[1..][i - 1..i - 1 + |needle|] == hay[i..i + |needle|];
      assert Occurs(needle, hay[1..], i - 1);
    }
    if i :| Occurs(needle, hay[1..], i) {
      assert hay[1..][i..i + |needle|] == hay[i + 1..i + 1 + |needle|];
      assert Occurs(needle, hay, i + 1);
    }
  }

  /** Python `item in container` for a string `item`: a substring test on a
      string, element equality on a list, key membership on a dict; any other
      value is not iterable and raises `TypeError`. */
  function Contains(container: Json, item: string): (r: Result<bool>)
    ensures container.JStr? ==> r == Ok(exists i :: Occurs(item, container.s, i))
    ensures container.JList? ==> r == Ok(exists k :: 0 <= k < |container.items| && container.items[k] == JStr(item))
    ensures container.JObj? ==> r == Ok(item in container.fields)
    ensures r.Err? <==> container.JNull? || container.JBool? || container.JInt?
    ensures r.Err? ==> r.error == TypeError
  {
    match container
    case JStr(s) => Ok(HasSubstring(item, s))
    case JList(items) => Ok(JStr(item) in items)
    case JObj(fields) => Ok(item in fields)
    case _ => Err(TypeError)
  }
}
