/** JavaScript values as the console's telemetry, recordings and UI state carry them.

    An object is an ordered list of own properties (JavaScript keeps string keys in
    insertion order, which `Object.keys` and CSV headers expose). A number is carried as
    the text `Number.prototype.toString` gives it, so two numbers are `===` exactly when
    their texts agree, except NaN. */
module JsValues {

  datatype Value =
    | Undefined
    | Null
    | Bool(b: bool)
    | Num(text: string)
    | Str(s: string)
    | Arr(items: seq<Value>)
    | Obj(fields: seq<Field>)

  datatype Field = Field(key: string, val: Value)

  type Object = seq<Field>

  datatype Option<+T> = None | Some(value: T)

  /** How a JavaScript expression completes: with a value, or by throwing a TypeError. */
  datatype Completion<+T> = Normal(value: T) | TypeError

  /** JavaScript truthiness. */
  predicate Truthy(v: Value) {
    match v
    case Undefined => false
    case Null => false
    case Bool(b) => b
    case Num(t) => t != "0" && t != "NaN"
    case Str(s) => s != ""
    case Arr(_) => true
    case Obj(_) => true
  }

  predicate IsPrimitive(v: Value) {
    !v.Arr? && !v.Obj?
  }

  /** `null` or `undefined`: reading any property of one throws a TypeError. */
  predicate Nullish(v: Value) {
    v.Undefined? || v.Null?
  }

  /** The properties every plain object inherits from `Object.prototype`. Reading one that
      the object does not own gives a function (for `__proto__`, the prototype object), which
      is truthy, is no string and cannot be spread into an array or pushed onto. */
  const ObjectPrototypeNames: set<string> :=
    {"constructor", "hasOwnProperty", "isPrototypeOf", "propertyIsEnumerable",
     "toLocaleString", "toString", "valueOf", "__proto__", "__defineGetter__",
     "__defineSetter__", "__lookupGetter__", "__lookupSetter__"}

  /** Whether `obj[k]` on a plain object that does not own `k` reads an inherited member. */
  predicate Inherited(k: string) {
    k in ObjectPrototypeNames
  }

  /** `String(Object.prototype[k])` for an inherited name `k`: a built-in method prints as
      its native source text, and `__proto__` reads the prototype itself, an object. */
  function InheritedText(k: string): (t: string)
    requires Inherited(k)
    ensures |t| > 0
  {
    if k == "__proto__" then "[object Object]"
    else if k == "constructor" then "function Object() { [native code] }"
    else "function " + k + "() { [native code] }"
  }

  /** `a === b`. Arrays and objects compare by reference. The model gives them no
      reference, so it never finds two of them strictly equal: right for values decoded
      from separate messages, wrong for an id copied out of a stored record and compared
      with that record's own id. */
  predicate StrictEquals(a: Value, b: Value) {
    IsPrimitive(a) && a == b && a != Num("NaN")
  }

  /** Property access `v.k` on a value that is not null or undefined, for keys that no
      built-in prototype defines (such as "x", "latitude" or "id"). */
  function Member(v: Value, k: string): Value {
    if v.Obj? then Get(v.fields, k) else Undefined
  }

  // ---------------------------------------------------------------------------
  // Objects as ordered property lists

  function Keys(o: Object): (ks: seq<string>)
    ensures |ks| == |o|
    ensures forall i :: 0 <= i < |o| ==> ks[i] == o[i].key
  {
    seq(|o|, i requires 0 <= i < |o| => o[i].key)
  }

  predicate Has(o: Object, k: string) {
    k in Keys(o)
  }

  /** Every JavaScript object has distinct property names. */
  predicate UniqueKeys(o: Object) {
    forall i, j :: 0 <= i < j < |o| ==> o[i].key != o[j].key
  }

  /** A value a JSON decoder can produce: every object in it has distinct keys. */
  predicate WellFormed(v: Value) {
    match v
    case Arr(items) => forall i :: 0 <= i < |items| ==> WellFormed(items[i])
    case Obj(fields) =>
      UniqueKeys(fields) && forall i :: 0 <= i < |fields| ==> WellFormed(fields[i].val)
    case _ => true
  }

  /** Position of the property named `k`, or `|o|` when there is none. */
  function KeyIndex(o: Object, k: string): (i: nat)
    ensures i <= |o|
    ensures i < |o| ==> o[i].key == k
    ensures forall j :: 0 <= j < i ==> o[j].key != k
  {
    if |o| == 0 then 0
    else if o[0].key == k then 0
    else 1 + KeyIndex(o[1..], k)
  }

  /** `o[k]`: undefined when the property is absent. */
  function Get(o: Object, k: string): Value {
    var i := KeyIndex(o, k);
    if i < |o| then o[i].val else Undefined
  }

  /** `o[k] = v`: an existing property keeps its position, a new one goes last. */
  function Set(o: Object, k: string, v: Value): Object {
    var i := KeyIndex(o, k);
    if i < |o| then o[i := Field(k, v)] else o + [Field(k, v)]
  }

  /** `delete o[k]`. */
  function Delete(o: Object, k: string): Object {
    if |o| == 0 then []
    else (if o[0].key == k then [] else [o[0]]) + Delete(o[1..], k)
  }

  /** The own properties a spread `...v` contributes. Spreading undefined, null, a
      number or a boolean contributes nothing. */
  function SpreadOf(v: Value): Object {
    if v.Obj? then v.fields else []
  }

  /** `{...target, ...source}` applied to an existing `target`: each property of `source`
      is assigned in order. */
  function Assign(target: Object, source: Object): Object
    decreases |source|
  {
    if |source| == 0 then target
    else Assign(Set(target, source[0].key, source[0].val), source[1..])
  }

  /** `String(v)`, as template literals and property keys convert values. */
  function ToJsString(v: Value): string
    decreases v, 1
  {
    match v
    case Undefined => "undefined"
    case Null => "null"
    case Bool(b) => if b then "true" else "false"
    case Num(t) => t
    case Str(s) => s
    case Arr(items) => JoinedItems(v, |items|)
    case Obj(_) => "[object Object]"
  }

  /** `a.slice(0, n).join(",")` for the array `v`: null and undefined elements are written as
      the empty string. */
  function JoinedItems(v: Value, n: nat): string
    requires v.Arr? && n <= |v.items|
    decreases v, 0, n
  {
    if n == 0 then ""
    else
      var last := v.items[n - 1];
      var text := if last.Undefined? || last.Null? then "" else ToJsString(last);
      if n == 1 then text else JoinedItems(v, n - 1) + "," + text
  }

  // ---------------------------------------------------------------------------
  // Laws of property access, assignment and deletion

  lemma KeyIndexOfPresent(o: Object, i: nat)
    requires UniqueKeys(o) && i < |o|
    ensures KeyIndex(o, o[i].key) == i
  {
  }

  lemma HasIffKeyIndex(o: Object, k: string)
    ensures Has(o, k) <==> KeyIndex(o, k) < |o|
  {
    if Has(o, k) {
      var j :| 0 <= j < |o| && Keys(o)[j] == k;
      assert KeyIndex(o, k) <= j;
    }
  }

  /** Reading back after an assignment: the assigned key gives the new value, every other
      key gives what it gave before. */
  lemma GetSet(o: Object, k: string, v: Value, k': string)
    ensures Get(Set(o, k, v), k') == if k' == k then v else Get(o, k')
  {
    var i := KeyIndex(o, k);
    var o' := Set(o, k, v);
    var j := KeyIndex(o', k');
    if k' == k {
      assert o'[i].key == k;
      assert j == i;
    } else {
      var j0 := KeyIndex(o, k');
      if j0 < |o| {
        assert o'[j0] == o[j0];
        assert j == j0;
      } else {
        assert forall m :: 0 <= m < |o'| ==> o'[m].key != k';
        assert j == |o'|;
      }
    }
  }

  /** An assignment keeps the key order; a new key is appended at the end. */
  lemma KeysSet(o: Object, k: string, v: Value)
    ensures Keys(Set(o, k, v)) == if Has(o, k) then Keys(o) else Keys(o) + [k]
  {
    HasIffKeyIndex(o, k);
  }

  lemma SetUnique(o: Object, k: string, v: Value)
    requires UniqueKeys(o)
    ensures UniqueKeys(Set(o, k, v))
  {
  }

  lemma GetCons(o: Object, k: string)
    requires |o| > 0 && o[0].key != k
    ensures Get(o, k) == Get(o[1..], k)
  {
    assert KeyIndex(o, k) == 1 + KeyIndex(o[1..], k);
  }

  lemma {:induction false} GetDelete(o: Object, k: string, k': string)
    ensures Get(Delete(o, k), k') == if k' == k then Undefined else Get(o, k')
    decreases |o|
  {
    if |o| > 0 {
      var rest := Delete(o[1..], k);
      GetDelete(o[1..], k, k');
      if o[0].key == k {
        assert Delete(o, k) == rest;
        if k' != k { GetCons(o, k'); }
      } else {
        var d := [o[0]] + rest;
        assert Delete(o, k) == d;
        assert d[1..] == rest;
        if k' != o[0].key {
          GetCons(o, k');
          GetCons(d, k');
        }
      }
    }
  }

  /** Deleting keeps the order of the remaining keys and removes exactly `k`. */
  lemma {:induction false} HasDelete(o: Object, k: string, k': string)
    ensures Has(Delete(o, k), k') <==> Has(o, k') && k' != k
    decreases |o|
  {
    if |o| > 0 {
      HasDelete(o[1..], k, k');
      HasTail(o, k');
      var rest := Delete(o[1..], k);
      if o[0].key != k {
        var d := [o[0]] + rest;
        assert Delete(o, k) == d;
        assert d[1..] == rest;
        HasTail(d, k');
      } else {
        assert Delete(o, k) == rest;
      }
    }
  }

  /** Deleting another key leaves the first property first. */
  lemma DeleteKeepsFirst(o: Object, k: string)
    requires |o| > 0 && o[0].key != k
    ensures |Delete(o, k)| > 0 && Delete(o, k)[0] == o[0]
  {
    assert Delete(o, k) == [o[0]] + Delete(o[1..], k);
  }

  lemma {:induction false} DeleteUnique(o: Object, k: string)
    requires UniqueKeys(o)
    ensures UniqueKeys(Delete(o, k))
    decreases |o|
  {
    if |o| > 0 {
      DeleteUnique(o[1..], k);
      var rest := Delete(o[1..], k);
      if o[0].key != k {
        var d := [o[0]] + rest;
        assert Delete(o, k) == d;
        forall j | 0 <= j < |rest| ensures rest[j].key != o[0].key {
          assert Keys(rest)[j] == rest[j].key;
          HasDelete(o[1..], k, rest[j].key);
          var m :| 0 <= m < |o| - 1 && Keys(o[1..])[m] == rest[j].key;
          assert o[m + 1].key == rest[j].key;
        }
      } else {
        assert Delete(o, k) == rest;
      }
    }
  }

  /** Two objects with the same keys in the same order and the same value under every key
      are the same object. */
  lemma ObjectExt(a: Object, b: Object)
    requires UniqueKeys(a) && UniqueKeys(b) && Keys(a) == Keys(b)
    requires forall k :: Has(a, k) ==> Get(a, k) == Get(b, k)
    ensures a == b
  {
    forall i | 0 <= i < |a| ensures a[i] == b[i] {
      assert Keys(a)[i] == a[i].key && Keys(b)[i] == b[i].key;
      KeyIndexOfPresent(a, i);
      KeyIndexOfPresent(b, i);
      assert Has(a, a[i].key);
    }
  }

  /** Spreading an object with distinct keys into a literal after `t` appends its
      properties in order. */
  lemma {:induction false} AssignFresh(t: Object, s: Object)
    requires UniqueKeys(t + s)
    ensures Assign(t, s) == t + s
    decreases |s|
  {
    if |s| > 0 {
      assert (t + s)[|t|] == s[0];
      assert forall j :: 0 <= j < |t| ==> t[j].key != s[0].key by {
        forall j | 0 <= j < |t| ensures t[j].key != s[0].key {
          assert (t + s)[j] == t[j];
        }
      }
      assert Set(t, s[0].key, s[0].val) == t + [s[0]];
      assert (t + [s[0]]) + s[1..] == t + s;
      AssignFresh(t + [s[0]], s[1..]);
    }
  }

  /** `{...o}` copies an object exactly. */
  lemma SpreadCopies(o: Object)
    requires UniqueKeys(o)
    ensures Assign([], o) == o
  {
    assert [] + o == o;
    AssignFresh([], o);
  }

  lemma HasTail(s: Object, k: string)
    requires |s| > 0
    ensures Has(s, k) <==> s[0].key == k || Has(s[1..], k)
  {
    if Has(s, k) {
      var j :| 0 <= j < |s| && Keys(s)[j] == k;
      if j > 0 { assert Keys(s[1..])[j - 1] == k; }
    }
    if Has(s[1..], k) {
      var j :| 0 <= j < |s| - 1 && Keys(s[1..])[j] == k;
      assert Keys(s)[j + 1] == k;
    }
  }

  /** The rest of an object with distinct keys has distinct keys, none of them the first. */
  lemma UniqueTail(s: Object)
    requires |s| > 0 && UniqueKeys(s)
    ensures UniqueKeys(s[1..]) && !Has(s[1..], s[0].key)
  {
    forall j | 0 <= j < |s| - 1 ensures Keys(s[1..])[j] != s[0].key {
      assert s[1..][j] == s[j + 1];
    }
  }

  /** Last write wins: after `Object.assign(t, s)` a key of `s` reads as in `s`, every
      other key reads as in `t`. */
  lemma {:induction false} AssignGet(t: Object, s: Object, k: string)
    requires UniqueKeys(s)
    ensures Get(Assign(t, s), k) == if Has(s, k) then Get(s, k) else Get(t, k)
    decreases |s|
  {
    if |s| > 0 {
      var t' := Set(t, s[0].key, s[0].val);
      UniqueTail(s);
      AssignGet(t', s[1..], k);
      GetSet(t, s[0].key, s[0].val, k);
      HasTail(s, k);
      if s[0].key != k {
        GetCons(s, k);
      }
    }
  }

  /** Assignment keeps the target's keys in place, and the result has exactly the keys of
      both; when every key of `s` is already in `t`, the key order is that of `t`. */
  lemma {:induction false} AssignKeys(t: Object, s: Object)
    ensures |Assign(t, s)| >= |t| && Keys(Assign(t, s))[..|t|] == Keys(t)
    ensures forall k :: Has(Assign(t, s), k) <==> Has(t, k) || Has(s, k)
    ensures (forall k :: Has(s, k) ==> Has(t, k)) ==> Keys(Assign(t, s)) == Keys(t)
    decreases |s|
  {
    if |s| > 0 {
      var t' := Set(t, s[0].key, s[0].val);
      KeysSet(t, s[0].key, s[0].val);
      AssignKeys(t', s[1..]);
      forall k ensures Has(s, k) <==> s[0].key == k || Has(s[1..], k) {
        HasTail(s, k);
      }
      forall k ensures Has(t', k) <==> Has(t, k) || k == s[0].key {
        if Has(t', k) && !Has(t, k) {
          var j :| 0 <= j < |t'| && Keys(t')[j] == k;
          assert j == |t|;
        }
        if k == s[0].key { assert Keys(t')[KeyIndex(t', k)] == k || Keys(t')[|t|] == k; }
      }
      assert Keys(t')[..|t|] == Keys(t);
      assert Keys(Assign(t, s))[..|t|] == Keys(t')[..|t|];
    }
  }

  lemma {:induction false} AssignUnique(t: Object, s: Object)
    requires UniqueKeys(t)
    ensures UniqueKeys(Assign(t, s))
    decreases |s|
  {
    if |s| > 0 {
      SetUnique(t, s[0].key, s[0].val);
      AssignUnique(Set(t, s[0].key, s[0].val), s[1..]);
    }
  }
}
