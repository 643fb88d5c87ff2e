/**
 * JavaScript data as runContainer sees it: JSON-shaped values, plain objects
 * as ordered lists of own properties (insertion order, the order Object.keys
 * reports), property read, assignment and delete, truthiness, and the text a
 * template literal substitutes for a value.
 */
module JsValues {
  import opened Wrappers
  import opened Text

  /** A JSON-shaped JavaScript value. Numbers are integral. */
  datatype Json =
    | JNull
    | JBool(b: bool)
    | JNum(n: int)
    | JStr(s: string)
    | JArr(items: seq<Json>)
    | JObj(fields: seq<(string, Json)>)

  /** The own properties of a plain object, in insertion order. */
  type Fields = seq<(string, Json)>

  /** The property names, in order (Object.keys). */
  function Keys(fs: Fields): seq<string>
    decreases |fs|
  {
    if fs == [] then [] else [fs[0].0] + Keys(fs[1..])
  }

  /** An object never holds the same property twice. */
  predicate DistinctKeys(fs: Fields) {
    forall i, j :: 0 <= i < j < |fs| ==> fs[i].0 != fs[j].0
  }

  /** Property read `o[k]`; None stands for undefined. */
  function Get(fs: Fields, k: string): (r: Option<Json>)
    ensures r.Some? <==> k in Keys(fs)
    ensures r.Some? ==> (k, r.value) in fs
    decreases |fs|
  {
    if fs == [] then None
    else if fs[0].0 == k then Some(fs[0].1)
    else Get(fs[1..], k)
  }

  /**
   * Property assignment `o[k] = v`: an existing property keeps its place and
   * takes the new value; a new one goes last.
   */
  function Set(fs: Fields, k: string, v: Json): (r: Fields)
    ensures Get(r, k) == Some(v)
    ensures forall k' :: k' != k ==> Get(r, k') == Get(fs, k')
    decreases |fs|
  {
    if fs == [] then [(k, v)]
    else if fs[0].0 == k then [(k, v)] + fs[1..]
    else
      var rest := Set(fs[1..], k, v);
      assert ([fs[0]] + rest)[1..] == rest;
      [fs[0]] + rest
  }

  /** Assignment keeps the order of the existing properties and appends a new one. */
  lemma {:induction false} SetKeys(fs: Fields, k: string, v: Json)
    ensures Keys(Set(fs, k, v)) == if k in Keys(fs) then Keys(fs) else Keys(fs) + [k]
    decreases |fs|
  {
    if fs != [] && fs[0].0 != k {
      var rest := Set(fs[1..], k, v);
      assert ([fs[0]] + rest)[1..] == rest;
      SetKeys(fs[1..], k, v);
    } else if fs != [] {
      assert ([(k, v)] + fs[1..])[1..] == fs[1..];
    }
  }

  /** The names are the first components, one per property. */
  lemma {:induction false} KeysAt(fs: Fields)
    ensures |Keys(fs)| == |fs|
    ensures forall i :: 0 <= i < |fs| ==> Keys(fs)[i] == fs[i].0
    decreases |fs|
  {
    if fs != [] {
      KeysAt(fs[1..]);
    }
  }

  /** Assigning a property that is missing appends it. */
  lemma {:induction false} SetAbsent(fs: Fields, k: string, v: Json)
    requires k !in Keys(fs)
    ensures Set(fs, k, v) == fs + [(k, v)]
    decreases |fs|
  {
    if fs != [] {
      SetAbsent(fs[1..], k, v);
      assert [fs[0]] + (fs[1..] + [(k, v)]) == fs + [(k, v)];
    }
  }

  /** Assigning a property the value it already has changes nothing. */
  lemma {:induction false} SetPresent(fs: Fields, k: string, v: Json)
    requires Get(fs, k) == Some(v)
    ensures Set(fs, k, v) == fs
    decreases |fs|
  {
    if fs[0].0 != k {
      SetPresent(fs[1..], k, v);
      assert [fs[0]] + fs[1..] == fs;
    } else {
      assert [(k, v)] + fs[1..] == fs;
    }
  }

  /** Assignment never creates a duplicate property. */
  lemma SetDistinct(fs: Fields, k: string, v: Json)
    requires DistinctKeys(fs)
    ensures DistinctKeys(Set(fs, k, v))
  {
    var r := Set(fs, k, v);
    SetKeys(fs, k, v);
    KeysAt(fs);
    KeysAt(r);
    forall i, j | 0 <= i < j < |r|
      ensures r[i].0 != r[j].0
    {
      assert r[i].0 == Keys(r)[i] && r[j].0 == Keys(r)[j];
      if j < |fs| {
        assert Keys(r)[i] == Keys(fs)[i] && Keys(r)[j] == Keys(fs)[j];
      } else {
        assert k !in Keys(fs) && Keys(r)[j] == k;
        assert Keys(r)[i] == Keys(fs)[i];
      }
    }
  }

  /** `delete o[k]`: the property k disappears, the others keep their values. */
  function Delete(fs: Fields, k: string): (r: Fields)
    ensures forall k' :: k' != k ==> Get(r, k') == Get(fs, k')
    decreases |fs|
  {
    if fs == [] then []
    else if fs[0].0 == k then fs[1..]
    else
      var rest := Delete(fs[1..], k);
      assert ([fs[0]] + rest)[1..] == rest;
      [fs[0]] + rest
  }

  /** Delete removes at most the one property named k, keeping the order of the rest. */
  lemma {:induction false} DeleteShape(fs: Fields, k: string)
    ensures Delete(fs, k) == fs || exists i :: 0 <= i < |fs| && fs[i].0 == k && Delete(fs, k) == fs[..i] + fs[i + 1..]
    decreases |fs|
  {
    if fs == [] {
    } else if fs[0].0 == k {
      assert Delete(fs, k) == fs[..0] + fs[0 + 1..];
    } else {
      var rest := Delete(fs[1..], k);
      assert Delete(fs, k) == [fs[0]] + rest;
      DeleteShape(fs[1..], k);
      if rest == fs[1..] {
        assert [fs[0]] + rest == fs;
      } else {
        var i :| 0 <= i < |fs[1..]| && fs[1..][i].0 == k && rest == fs[1..][..i] + fs[1..][i + 1..];
        SpliceCons(fs, i);
      }
    }
  }

  /** Removing the element after position i of the tail, then restoring the head, removes element i + 1. */
  lemma SpliceCons<T>(s: seq<T>, i: nat)
    requires i + 1 < |s|
    ensures [s[0]] + (s[1..][..i] + s[1..][i + 1..]) == s[..i + 1] + s[i + 2..]
  {
    assert s[1..][..i] == s[1..i + 1] && s[1..][i + 1..] == s[i + 2..];
    assert [s[0]] + s[1..i + 1] == s[..i + 1];
  }

  /** An object has distinct names when its tail does and its first name is not among the tail's. */
  lemma DistinctCons(fs: Fields)
    requires fs != []
    ensures DistinctKeys(fs) <==> DistinctKeys(fs[1..]) && fs[0].0 !in Keys(fs[1..])
  {
    KeysAt(fs[1..]);
    if DistinctKeys(fs[1..]) && fs[0].0 !in Keys(fs[1..]) {
      forall i, j | 0 <= i < j < |fs| ensures fs[i].0 != fs[j].0 {
        if i == 0 {
          assert fs[j].0 == Keys(fs[1..])[j - 1];
        } else {
          assert fs[i] == fs[1..][i - 1] && fs[j] == fs[1..][j - 1];
        }
      }
    }
    if DistinctKeys(fs) {
      forall i, j | 0 <= i < j < |fs[1..]| ensures fs[1..][i].0 != fs[1..][j].0 {
        assert fs[1..][i] == fs[i + 1] && fs[1..][j] == fs[j + 1];
      }
    }
  }

  /** In an object, delete leaves the property undefined and creates no duplicate. */
  lemma {:induction false} DeleteRemoves(fs: Fields, k: string)
    requires DistinctKeys(fs)
    ensures Get(Delete(fs, k), k) == None
    ensures DistinctKeys(Delete(fs, k))
    decreases |fs|
  {
    if fs != [] {
      DistinctCons(fs);
      if fs[0].0 != k {
        DeleteRemoves(fs[1..], k);
        var rest := Delete(fs[1..], k);
        var r := [fs[0]] + rest;
        assert r[1..] == rest && r[0] == fs[0];
        assert Get(rest, fs[0].0) == Get(fs[1..], fs[0].0) == None;
        DistinctCons(r);
      }
    }
  }

  /** Deleting a property that is not there changes nothing. */
  lemma {:induction false} DeleteAbsent(fs: Fields, k: string)
    requires Get(fs, k) == None
    ensures Delete(fs, k) == fs
    decreases |fs|
  {
    if fs != [] {
      DeleteAbsent(fs[1..], k);
      assert [fs[0]] + fs[1..] == fs;
    }
  }

  /** Truthiness in a JavaScript condition: false, 0, "" and null are falsy. */
  predicate Truthy(v: Json) {
    match v
    case JNull => false
    case JBool(b) => b
    case JNum(n) => n != 0
    case JStr(s) => s != ""
    case JArr(_) => true
    case JObj(_) => true
  }

  /**
   * The text `${v}` substitutes: strings as they are, numbers in decimal,
   * arrays joined by "," with null elements empty, objects as "[object Object]".
   */
  function TemplateText(v: Json): string
    decreases v
  {
    match v
    case JNull => "null"
    case JBool(b) => if b then "true" else "false"
    case JNum(n) => Decimal(n)
    case JStr(s) => s
    case JArr(items) => TemplateItems(items)
    case JObj(_) => "[object Object]"
  }

  /** Array.prototype.join(","): null elements become empty. */
  function TemplateItems(items: seq<Json>): string
    decreases items
  {
    if items == [] then ""
    else
      var first := if items[0].JNull? then "" else TemplateText(items[0]);
      if |items| == 1 then first else first + "," + TemplateItems(items[1..])
  }

  /** The text `${o.k}` substitutes for a property that may be missing. */
  function PropertyText(p: Option<Json>): string {
    match p
    case None => "undefined"
    case Some(v) => TemplateText(v)
  }
}
