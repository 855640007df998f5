/**
 * JavaScript values as the client sees them, and plain objects as ordered
 * lists of properties with the precedence rules of `Object.assign`.
 */
module Js {

  datatype Option<+T> = None | Some(value: T)

  /** A JavaScript value: enough structure for truthiness and for the
      option, query and body objects the client builds. */
  datatype Value =
    | Undefined
    | Null
    | Bool(b: bool)
    | Num(n: int)
    | Str(s: string)
    | Arr(items: seq<Value>)
    | Obj(fields: seq<Field>)

  datatype Field = Field(key: string, value: Value)

  /** A plain object: its own enumerable properties in insertion order. */
  type JsObject = seq<Field>

  /** A value whose only observable aspects are whether `typeof` says
      "string" and how `util.format('%s', …)` prints it. */
  datatype Arg = Text(s: string) | NotText(shown: string)
  {
    /** The text `%s` produces for this value. */
    function Shown(): string {
      match this
      case Text(s) => s
      case NotText(t) => t
    }
  }

  /** JavaScript truthiness (`!v` is false). NaN is not modelled. */
  predicate Truthy(v: Value): (b: bool)
    ensures !b <==> v == Undefined || v == Null || v == Bool(false) || v == Num(0) || v == Str("")
  {
    match v
    case Undefined => false
    case Null => false
    case Bool(b) => b
    case Num(n) => n != 0
    case Str(s) => s != ""
    case Arr(_) => true
    case Obj(_) => true
  }

  predicate Distinct(ks: seq<string>) {
    forall i, j :: 0 <= i < j < |ks| ==> ks[i] != ks[j]
  }

  /** `Object.keys(o)`. */
  function Keys(o: JsObject): (ks: seq<string>)
    ensures |ks| == |o|
    ensures forall i :: 0 <= i < |o| ==> ks[i] == o[i].key
  {
    if o == [] then [] else [o[0].key] + Keys(o[1..])
  }

  predicate DistinctKeys(o: JsObject) {
    Distinct(Keys(o))
  }

  /** Property lookup `o[k]`; `None` is `undefined`. */
  function Get(o: JsObject, k: string): (r: Option<Value>)
    ensures r.None? <==> k !in Keys(o)
  {
    if o == [] then None
    else if o[0].key == k then Some(o[0].value)
    else Get(o[1..], k)
  }

  /** The keys of a two-property object. */
  lemma KeysOfPair(f: Field, g: Field)
    ensures Keys([f, g]) == [f.key, g.key]
  {
    assert [f, g][1..] == [g];
  }

  /** The keys of a three-property object. */
  lemma KeysOfTriple(f: Field, g: Field, h: Field)
    ensures Keys([f, g, h]) == [f.key, g.key, h.key]
  {
    assert [f, g, h][1..] == [g, h];
    KeysOfPair(g, h);
  }

  /** On an object with distinct keys, a lookup finds exactly the property
      that is stored. */
  lemma {:induction false} GetFindsField(o: JsObject, k: string, v: Value)
    requires DistinctKeys(o)
    ensures Get(o, k) == Some(v) <==> Field(k, v) in o
  {
    if o != [] {
      assert Keys(o[1..]) == Keys(o)[1..];
      if o[0].key == k {
        forall i | 1 <= i < |o| ensures o[i].key != k {
          assert Keys(o)[0] != Keys(o)[i];
        }
      } else {
        GetFindsField(o[1..], k, v);
      }
    }
  }

  /** The assignment `o[k] = v` on a plain object: an existing property keeps
      its position and takes the new value, a new one is appended. */
  function Put(o: JsObject, k: string, v: Value): (r: JsObject)
    ensures Keys(r) == if k in Keys(o) then Keys(o) else Keys(o) + [k]
  {
    if o == [] then [Field(k, v)]
    else if o[0].key == k then
      var r := [Field(k, v)] + o[1..];
      assert r[1..] == o[1..];
      r
    else
      var rest := Put(o[1..], k, v);
      var r := [o[0]] + rest;
      assert r[1..] == rest;
      r
  }

  /** After `o[k] = v`, `o[k]` is `v` and every other property reads as
      before. */
  lemma {:induction false} PutGet(o: JsObject, k: string, v: Value, j: string)
    ensures Get(Put(o, k, v), j) == if j == k then Some(v) else Get(o, j)
  {
    if o != [] && o[0].key != k {
      PutGet(o[1..], k, v, j);
    }
  }

  /** Writing back the value a property already has changes nothing. */
  lemma {:induction false} PutSame(o: JsObject, k: string, v: Value)
    requires Get(o, k) == Some(v)
    ensures Put(o, k, v) == o
  {
    if o[0].key != k {
      PutSame(o[1..], k, v);
    }
  }

  /** The keys of `ks` that are not in `seen`, each once, in order of first
      appearance: the keys `Object.assign` appends. */
  function Unseen(ks: seq<string>, seen: seq<string>): (r: seq<string>)
  {
    if ks == [] then []
    else if ks[0] in seen then Unseen(ks[1..], seen)
    else [ks[0]] + Unseen(ks[1..], seen + [ks[0]])
  }

  /** Every appended key comes from the source, is new to the target, and
      the target's keys followed by the appended ones are distinct. */
  lemma {:induction false} UnseenFresh(ks: seq<string>, seen: seq<string>)
    requires Distinct(seen)
    ensures forall k :: k in Unseen(ks, seen) ==> k in ks && k !in seen
    ensures Distinct(seen + Unseen(ks, seen))
  {
    if ks != [] {
      if ks[0] in seen {
        UnseenFresh(ks[1..], seen);
      } else {
        var grown := seen + [ks[0]];
        UnseenFresh(ks[1..], grown);
        UnseenStep(ks, seen);
        assert Unseen(ks, seen) == [ks[0]] + Unseen(ks[1..], grown);
      }
    }
  }

  /** Keys that are new and distinct are all appended, in order. */
  lemma {:induction false} UnseenAllNew(ks: seq<string>, seen: seq<string>)
    requires Distinct(seen + ks)
    ensures Unseen(ks, seen) == ks
  {
    if ks != [] {
      var all := seen + ks;
      forall i | 0 <= i < |seen| ensures seen[i] != ks[0] {
        assert all[i] == seen[i] && all[|seen|] == ks[0];
      }
      assert (seen + [ks[0]]) + ks[1..] == all;
      UnseenAllNew(ks[1..], seen + [ks[0]]);
    }
  }

  /** A key that is not among distinct keys can be put in front of them. */
  lemma ConsDistinct(k: string, ks: seq<string>)
    requires Distinct(ks) && k !in ks
    ensures Distinct([k] + ks)
  {
    var all := [k] + ks;
    forall i, j | 0 <= i < j < |all| ensures all[i] != all[j] {
      assert all[j] == ks[j - 1];
      if i > 0 {
        assert all[i] == ks[i - 1];
      }
    }
  }

  /** `Object.assign(target, source)`: the properties of `source` are put
      onto `target` one by one, in order. */
  function Assign(target: JsObject, source: JsObject): (r: JsObject)
    ensures |target| <= |r| <= |target| + |source|
    decreases source
  {
    if source == [] then target
    else Assign(Put(target, source[0].key, source[0].value), source[1..])
  }

  /** The target's keys keep their places; the source's new keys follow, in
      the source's order. */
  lemma {:induction false} AssignKeys(target: JsObject, source: JsObject)
    ensures Keys(Assign(target, source)) == Keys(target) + Unseen(Keys(source), Keys(target))
    decreases source
  {
    if source != [] {
      var f := source[0];
      assert Keys(source)[0] == f.key && Keys(source)[1..] == Keys(source[1..]);
      AssignKeys(Put(target, f.key, f.value), source[1..]);
      UnseenStep(Keys(source), Keys(target));
    }
  }

  /** One step of `Unseen`: the first key joins the seen keys unless it is
      already there. */
  lemma UnseenStep(ks: seq<string>, seen: seq<string>)
    requires ks != []
    ensures var grown := if ks[0] in seen then seen else seen + [ks[0]];
      seen + Unseen(ks, seen) == grown + Unseen(ks[1..], grown)
  {
  }

  /** The last writer wins: a key of the source has the source's value, any
      other key keeps the target's. */
  lemma {:induction false} AssignGet(target: JsObject, source: JsObject, k: string)
    requires DistinctKeys(source)
    ensures Get(Assign(target, source), k) == if k in Keys(source) then Get(source, k) else Get(target, k)
    decreases source
  {
    if source != [] {
      var f := source[0];
      assert Keys(source)[0] == f.key && Keys(source)[1..] == Keys(source[1..]);
      assert f.key !in Keys(source[1..]);
      PutGet(target, f.key, f.value, k);
      AssignGet(Put(target, f.key, f.value), source[1..], k);
    }
  }

  /** Assigning distinct keys preserves distinct keys. */
  lemma AssignDistinct(target: JsObject, source: JsObject)
    requires DistinctKeys(target)
    ensures DistinctKeys(Assign(target, source))
  {
    AssignKeys(target, source);
    UnseenFresh(Keys(source), Keys(target));
  }

  /** Assigning properties none of which the target has, and which are
      distinct among themselves, is concatenation. In particular
      `Object.assign({}, d) == d` for every plain object `d`. */
  lemma {:induction false} AssignDisjoint(target: JsObject, source: JsObject)
    requires DistinctKeys(target + source)
    ensures Assign(target, source) == target + source
    decreases source
  {
    if source != [] {
      var f := source[0];
      var grown := target + [f];
      assert grown + source[1..] == target + source;
      FirstKeyIsNew(target, source);
      PutAppends(target, f.key, f.value);
      AssignDisjoint(grown, source[1..]);
    }
  }

  /** With distinct keys overall, the source's first key is not the
      target's. */
  lemma FirstKeyIsNew(target: JsObject, source: JsObject)
    requires source != [] && DistinctKeys(target + source)
    ensures source[0].key !in Keys(target)
  {
    var ks := Keys(target + source);
    assert ks[|target|] == source[0].key;
    forall i | 0 <= i < |target| ensures Keys(target)[i] != source[0].key {
      assert ks[i] == Keys(target)[i];
    }
  }

  /** `Object.assign({}, defaults, query)` for plain objects: the query's
      keys win, the defaults fill the rest; the defaults keep their order and
      the query's other keys follow them in the query's order. */
  lemma AssignOverDefaults(defaults: JsObject, query: JsObject)
    requires DistinctKeys(defaults) && DistinctKeys(query)
    ensures var q := Assign(Assign([], defaults), query);
      && Assign([], defaults) == defaults
      && DistinctKeys(q)
      && Keys(q) == Keys(defaults) + Unseen(Keys(query), Keys(defaults))
      && forall k :: Get(q, k) == if k in Keys(query) then Get(query, k) else Get(defaults, k)
  {
    AssignKeys(defaults, query);
    assert [] + defaults == defaults;
    AssignDisjoint([], defaults);
    AssignDistinct(defaults, query);
    forall k {
      AssignGet(defaults, query, k);
    }
  }

  /** Assigning a new key and then a key that already has the value written
      appends the new key and changes nothing else. */
  lemma AppendThenKeep(o: JsObject, k1: string, v1: Value, k2: string, v2: Value)
    requires k1 !in Keys(o) && Get(o, k2) == Some(v2)
    ensures Assign(o, [Field(k1, v1), Field(k2, v2)]) == o + [Field(k1, v1)]
  {
    var source := [Field(k1, v1), Field(k2, v2)];
    var grown := Put(o, k1, v1);
    assert source[1..] == [Field(k2, v2)];
    assert Assign(o, source) == Assign(grown, [Field(k2, v2)]);
    assert Assign(grown, [Field(k2, v2)]) == Put(grown, k2, v2);
    assert k2 != k1;
    PutGet(o, k1, v1, k2);
    PutSame(grown, k2, v2);
    PutAppends(o, k1, v1);
  }

  /** Putting a key the object does not have appends it. */
  lemma {:induction false} PutAppends(o: JsObject, k: string, v: Value)
    requires k !in Keys(o)
    ensures Put(o, k, v) == o + [Field(k, v)]
  {
    if o != [] {
      assert Keys(o)[0] == o[0].key && Keys(o)[1..] == Keys(o[1..]);
      PutAppends(o[1..], k, v);
    }
  }
}
