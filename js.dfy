/**
 * The slice of JavaScript semantics the entity layer relies on: JSON values,
 * `undefined`, property access (which throws a TypeError on `undefined` and
 * `null`), strict equality `===`, and `Array.prototype.findIndex`.
 */
module Js {

  datatype Option<+T> = None | Some(value: T)

  /** The two ways an operation of the entity layer can throw. */
  datatype Error =
    | TypeError                 // a property read on `undefined` or `null`
    | Forbidden(message: string) // the explicit permission check of `ban`

  datatype Result<+T> = Ok(value: T) | Err(error: Error)

  /** Completion of an operation that returns nothing (`void`) or throws. */
  datatype Outcome = Pass | Fail(error: Error)

  /** A parsed JSON value. `undefined` is not a value: it is `None` of an `Option<Value>`. */
  datatype Value =
    | Null
    | Bool(b: bool)
    | Num(n: int)
    | Str(s: string)
    | Arr(elements: seq<Value>)
    | Obj(fields: map<string, Value>)
  {
    predicate Primitive() { !Arr? && !Obj? }
  }

  /** `undefined` or `null`: reading a property of these throws. */
  predicate Nullish(o: Option<Value>) {
    o == None || o == Some(Null)
  }

  /**
   * `v.key` on a value that is not `undefined`/`null`: an object's own field,
   * `undefined` for an absent field and for every other kind of value (the keys
   * the entity layer reads are never properties of strings, numbers or arrays).
   */
  function Field(v: Value, key: string): (r: Option<Value>)
    ensures r.Some? ==> v.Obj? && key in v.fields && r.value == v.fields[key]
    ensures v.Obj? && key in v.fields ==> r.Some?
  {
    if v.Obj? && key in v.fields then Some(v.fields[key]) else None
  }

  /**
   * `body.key`, handed to a `_set_object` that reads fields of it: throws
   * when `body` is `null` or when the field is `undefined` or `null`.
   */
  function Payload(body: Value, key: string): (r: Result<Value>)
    ensures r.Ok? <==> body != Null && !Nullish(Field(body, key))
    ensures r.Ok? ==> Field(body, key) == Some(r.value)
    ensures r.Err? ==> r.error == TypeError
  {
    if body == Null then Err(TypeError)
    else match Field(body, key)
      case Some(v) => if v == Null then Err(TypeError) else Ok(v)
      case None => Err(TypeError)
  }

  /** `o.key` on a possibly undefined value. */
  function Prop(o: Option<Value>, key: string): (r: Result<Option<Value>>)
    ensures r.Err? <==> Nullish(o)
    ensures r.Err? ==> r.error == TypeError
    ensures r.Ok? ==> r.value == Field(o.value, key)
  {
    if Nullish(o) then Err(TypeError) else Ok(Field(o.value, key))
  }

  /**
   * `a === b`. `undefined === undefined` holds; primitives compare by value.
   * Values here are parsed JSON, and two separately parsed arrays or objects
   * are distinct references, so this model never finds them `===`.
   */
  predicate StrictEq(a: Option<Value>, b: Option<Value>) {
    match (a, b)
    case (None, None) => true
    case (Some(x), Some(y)) => x.Primitive() && x == y
    case _ => false
  }

  lemma StrictEqSymmetric(a: Option<Value>, b: Option<Value>)
    ensures StrictEq(a, b) <==> StrictEq(b, a)
  {
  }

  /**
   * Since two separately parsed arrays or objects are never `===`, an array
   * or object value is not `===` even to an equal one; only a primitive or
   * `undefined` is.
   */
  lemma StrictEqReflexiveOnPrimitives(a: Option<Value>)
    ensures StrictEq(a, a) <==> (a.None? || a.value.Primitive())
  {
  }

  /** Hence a lookup by an array or object key finds nothing, whatever the ids hold. */
  lemma NonPrimitiveNeverFound(ids: seq<Option<Value>>, a: Option<Value>)
    ensures a.Some? && !a.value.Primitive() ==> IndexOf(ids, a) == -1
  {
  }

  /**
   * `ids.findIndex(x => x === key)`: the first position whose entry is
   * identical to `key`, or -1 when there is none.
   */
  function IndexOf(ids: seq<Option<Value>>, key: Option<Value>): (r: int)
    ensures -1 <= r < |ids|
    ensures r == -1 <==> forall k :: 0 <= k < |ids| ==> !StrictEq(ids[k], key)
    ensures 0 <= r ==> StrictEq(ids[r], key)
    ensures 0 <= r ==> forall k :: 0 <= k < r ==> !StrictEq(ids[k], key)
  {
    IndexFrom(ids, key, 0)
  }

  /** The scan `findIndex` performs from position `k` on. */
  function IndexFrom(ids: seq<Option<Value>>, key: Option<Value>, k: nat): (r: int)
    requires k <= |ids|
    ensures r == -1 || k <= r < |ids|
    ensures r == -1 <==> forall j :: k <= j < |ids| ==> !StrictEq(ids[j], key)
    ensures r != -1 ==> StrictEq(ids[r], key) && forall j :: k <= j < r ==> !StrictEq(ids[j], key)
    decreases |ids| - k
  {
    if k == |ids| then -1
    else if StrictEq(ids[k], key) then k
    else IndexFrom(ids, key, k + 1)
  }

  /** Searching a longer sequence finds what a prefix finds. */
  lemma {:induction false} IndexOfPrefix(ids: seq<Option<Value>>, more: seq<Option<Value>>, key: Option<Value>)
    requires IndexOf(ids, key) != -1
    ensures IndexOf(ids + more, key) == IndexOf(ids, key)
  {
    var i := IndexOf(ids, key);
    assert (ids + more)[i] == ids[i];
    forall k | 0 <= k < i ensures !StrictEq((ids + more)[k], key) {
      assert (ids + more)[k] == ids[k];
    }
  }

  /** No two positions hold identical (`===`) entries. */
  ghost predicate Unique(ids: seq<Option<Value>>) {
    forall i, j :: 0 <= i < j < |ids| ==> !StrictEq(ids[i], ids[j])
  }

  /** Appending a key that a search does not find keeps the entries unique. */
  lemma AppendMissingKeepsUnique(ids: seq<Option<Value>>, key: Option<Value>)
    requires Unique(ids) && IndexOf(ids, key) == -1
    ensures Unique(ids + [key])
  {
    forall i, j | 0 <= i < j < |ids + [key]| ensures !StrictEq((ids + [key])[i], (ids + [key])[j]) {
      if j == |ids| {
        StrictEqSymmetric(ids[i], key);
      }
    }
  }
}
