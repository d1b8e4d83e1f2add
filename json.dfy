/**
 * The values `json.loads` produces, and the handful of Python dict and
 * truthiness operations the renderer and the run orchestration apply to them.
 * Floating-point numbers are not represented.
 */
module Json {
  import opened Wrappers
  import opened PyText

  datatype Json =
    | Null
    | Bool(b: bool)
    | Int(n: int)
    | Str(s: string)
    | Arr(items: seq<Json>)
    | Obj(fields: seq<(string, Json)>)

  /** The exception a `.strip()` on a non-string raises (`AttributeError`), naming the key read. */
  datatype FieldError = NotAString(key: string)

  predicate HasKey(fields: seq<(string, Json)>, key: string) {
    exists k :: 0 <= k < |fields| && fields[k].0 == key
  }

  /**
   * `d.get(key)`: the value of the last binding of `key` (a JSON object with a
   * repeated key keeps its last value), or None when the key is absent.
   */
  function Get(fields: seq<(string, Json)>, key: string): Option<Json>
    decreases |fields|
  {
    if fields == [] then None
    else if fields[|fields| - 1].0 == key then Some(fields[|fields| - 1].1)
    else Get(fields[..|fields| - 1], key)
  }

  /** A value is found exactly when the key is bound, and it is the key's last binding. */
  lemma {:induction false} GetSpec(fields: seq<(string, Json)>, key: string)
    ensures Get(fields, key).Some? <==> HasKey(fields, key)
    ensures Get(fields, key).Some? ==>
      exists k :: 0 <= k < |fields| && fields[k] == (key, Get(fields, key).value) &&
        forall j :: k < j < |fields| ==> fields[j].0 != key
    decreases |fields|
  {
    if fields != [] && fields[|fields| - 1].0 == key {
      var k := |fields| - 1;
      assert fields[k] == (key, Get(fields, key).value);
    } else if fields != [] {
      var init := fields[..|fields| - 1];
      GetSpec(init, key);
      assert forall k :: 0 <= k < |init| ==> init[k] == fields[k];
      if HasKey(fields, key) {
        var k :| 0 <= k < |fields| && fields[k].0 == key;
        assert init[k].0 == key;
      }
      if Get(init, key).Some? {
        var k :| 0 <= k < |init| && init[k] == (key, Get(init, key).value) &&
          forall j :: k < j < |init| ==> init[j].0 != key;
        assert fields[k] == (key, Get(fields, key).value);
        assert forall j :: k < j < |fields| ==> fields[j].0 != key;
      }
    }
  }

  /** Python truthiness of a JSON value. */
  predicate Truthy(v: Json) {
    match v
    case Null => false
    case Bool(b) => b
    case Int(n) => n != 0
    case Str(s) => s != []
    case Arr(items) => items != []
    case Obj(fields) => fields != []
  }

  /**
   * `x = d.get(key)` followed by `if x and isinstance(x, list)`: the list's
   * items, or [] when the value is absent, falsy or not a list (in every such
   * case the guarded block is skipped, exactly as for an empty list).
   */
  function ListField(fields: seq<(string, Json)>, key: string): seq<Json> {
    match Get(fields, key)
    case Some(Arr(items)) => items
    case _ => []
  }

  /** `x = d.get(key)` followed by `if x and isinstance(x, dict)`. */
  function DictField(fields: seq<(string, Json)>, key: string): Option<seq<(string, Json)>> {
    match Get(fields, key)
    case Some(Obj(fs)) => if fs != [] then Some(fs) else None
    case _ => None
  }

  /**
   * `d.get(key, default).strip()`: the stripped string when the key is absent
   * (the default) or bound to a string; any other value raises.
   */
  function StrField(fields: seq<(string, Json)>, key: string, default: string): Result<string, FieldError> {
    match Get(fields, key)
    case None => Ok(Strip(default))
    case Some(Str(s)) => Ok(Strip(s))
    case Some(_) => Err(NotAString(key))
  }

  /** Two objects that bind a key to the same value read the same through every accessor. */
  lemma SameBinding(f1: seq<(string, Json)>, f2: seq<(string, Json)>, key: string)
    requires Get(f1, key) == Get(f2, key)
    ensures ListField(f1, key) == ListField(f2, key) && DictField(f1, key) == DictField(f2, key)
    ensures forall d :: StrField(f1, key, d) == StrField(f2, key, d)
  {
  }

  /** A missing key reads as an empty list, no object and the (stripped) default. */
  lemma Missing(fields: seq<(string, Json)>, key: string)
    requires !HasKey(fields, key)
    ensures ListField(fields, key) == [] && DictField(fields, key) == None
    ensures StrField(fields, key, "") == Ok([])
  {
    GetSpec(fields, key);
    StripSpec("");
  }

  /**
   * A list section runs exactly when the key holds a non-empty list, and then
   * over that list's items.
   */
  lemma ListFieldSpec(fields: seq<(string, Json)>, key: string)
    ensures var r := ListField(fields, key);
      && (r != [] <==> Get(fields, key).Some? && Get(fields, key).value.Arr? && Truthy(Get(fields, key).value))
      && (r != [] ==> Get(fields, key) == Some(Arr(r)))
  {
  }

  /** An object section runs exactly when the key holds a non-empty object. */
  lemma DictFieldSpec(fields: seq<(string, Json)>, key: string)
    ensures var r := DictField(fields, key);
      && (r.Some? <==> Get(fields, key).Some? && Get(fields, key).value.Obj? && Truthy(Get(fields, key).value))
      && (r.Some? ==> Get(fields, key) == Some(Obj(r.value)) && r.value != [])
  {
  }

  /**
   * The read raises exactly when the key is bound to something other than a
   * string, and then names that key; otherwise the result is the stripped
   * string, which is empty exactly when the string (or the default) is blank.
   */
  lemma StrFieldSpec(fields: seq<(string, Json)>, key: string, default: string)
    ensures HasKey(fields, key) <==> Get(fields, key).Some?
    ensures var r := StrField(fields, key, default);
      && (r.Err? <==> HasKey(fields, key) && !Get(fields, key).value.Str?)
      && (r.Err? ==> r.error == NotAString(key))
      && (!HasKey(fields, key) ==> r == Ok(Strip(default)) && (r.value == [] <==> AllSpace(default)))
      && (HasKey(fields, key) && Get(fields, key).value.Str? ==>
            r == Ok(Strip(Get(fields, key).value.s)) && (r.value == [] <==> AllSpace(Get(fields, key).value.s)))
  {
    GetSpec(fields, key);
    StripSpec(default);
    match Get(fields, key)
    case None =>
    case Some(v) =>
      if v.Str? {
        StripSpec(v.s);
      }
  }

  /** `isinstance(x, str) and x.strip()`: a string item that is not blank, as the stripped text. */
  function TextItem(x: Json): (r: Option<string>)
    ensures r.Some? <==> x.Str? && NonBlank(x.s)
    ensures r.Some? ==> r.value == Strip(x.s) && r.value != []
  {
    if x.Str? && NonBlank(x.s) then Some(Strip(x.s)) else None
  }

  /** Two `.get(key, default).strip()` reads in order; the first that raises ends it. */
  function StrPair(fields: seq<(string, Json)>, k1: string, d1: string, k2: string, d2: string)
    : Result<(string, string), FieldError>
  {
    var a :- StrField(fields, k1, d1);
    var b :- StrField(fields, k2, d2);
    Ok((a, b))
  }
}
