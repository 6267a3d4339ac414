/** A JavaScript `Map<number, T>` as a value: the keys in insertion order and
    the key-to-record mapping. `Set` on a key already present keeps its
    position; `Set` on a new key appends it. The generic list queries the store
    uses (`filter`, `find`) are defined here too, over the `Values()` view. */
module Tables {
  import opened Wrappers

  datatype Table<T> = Table(keys: seq<int>, rows: map<int, T>) {

    /** Keys are distinct and are exactly the mapped keys. */
    ghost predicate Valid() {
      && (forall i, j :: 0 <= i < j < |keys| ==> keys[i] != keys[j])
      && (forall k :: k in rows <==> k in keys)
    }

    /** `Map.prototype.get`. */
    function Get(k: int): (r: Option<T>)
      ensures r.Some? <==> k in rows
      ensures r.Some? ==> r.value == rows[k]
    {
      if k in rows then Some(rows[k]) else None
    }

    /** `Array.from(map.values())`: the records in insertion order. */
    function Values(): (vs: seq<T>)
      requires Valid()
      ensures |vs| == |keys|
      ensures forall i :: 0 <= i < |keys| ==> keys[i] in rows && vs[i] == rows[keys[i]]
    {
      assert forall i :: 0 <= i < |keys| ==> keys[i] in keys;
      seq(|keys|, i requires 0 <= i < |keys| => rows[keys[i]])
    }

    /** `Map.prototype.set`. */
    function Set(k: int, v: T): (t: Table<T>)
      requires Valid()
      ensures t.Valid()
      ensures t.rows == rows[k := v]
      ensures t.Get(k) == Some(v)
      ensures forall k' :: k' != k ==> t.Get(k') == Get(k')
      ensures k in rows ==> t.keys == keys
      ensures k !in rows ==> t.keys == keys + [k]
      // an existing key keeps its place in the iteration order
      ensures k in rows ==>
                |t.Values()| == |Values()| &&
                forall i :: 0 <= i < |keys| ==> t.Values()[i] == (if keys[i] == k then v else Values()[i])
      // a new key is iterated last
      ensures k !in rows ==> t.Values() == Values() + [v]
    {
      Table(if k in rows then keys else keys + [k], rows[k := v])
    }
  }

  function Empty<T>(): (t: Table<T>)
    ensures t.Valid() && t.Values() == [] && t.rows == map[]
  {
    Table([], map[])
  }

  /** Keys ascend strictly in insertion order and all lie in `[1, next)`:
      the shape every table of the store keeps, `next` being its id counter. */
  ghost predicate Ordered<T>(t: Table<T>, next: int) {
    && t.Valid()
    && (forall i, j :: 0 <= i < j < |t.keys| ==> t.keys[i] < t.keys[j])
    && (forall k :: k in t.rows ==> 1 <= k < next)
  }

  /** Storing under the counter value adds a key above every existing key, and
      the table stays ordered with the counter advanced by one. */
  lemma SetAtCounter<T>(t: Table<T>, next: int, v: T)
    requires Ordered(t, next) && 1 <= next
    ensures next !in t.rows
    ensures Ordered(t.Set(next, v), next + 1)
  {
    var u := t.Set(next, v);
    forall i, j | 0 <= i < j < |u.keys| ensures u.keys[i] < u.keys[j] {
      if j == |t.keys| {
        assert t.keys[i] in t.keys;
      }
    }
  }

  /** Overwriting a present key keeps the table ordered under the same counter. */
  lemma SetPresent<T>(t: Table<T>, next: int, k: int, v: T)
    requires Ordered(t, next) && k in t.rows
    ensures Ordered(t.Set(k, v), next)
  {
  }

  /** Every mapped record is listed, and everything listed is a mapped record. */
  lemma ValuesAreRows<T>(t: Table<T>)
    requires t.Valid()
    ensures forall k :: k in t.rows ==> t.rows[k] in t.Values()
    ensures forall x :: x in t.Values() ==> exists k :: k in t.rows && t.rows[k] == x
  {
    forall k | k in t.rows ensures t.rows[k] in t.Values() {
      var i :| 0 <= i < |t.keys| && t.keys[i] == k;
      assert t.Values()[i] == t.rows[k];
    }
  }

  /** `Array.prototype.filter`. */
  function Filter<T(!new)>(f: T -> bool, s: seq<T>): (r: seq<T>)
    ensures |r| <= |s|
    ensures forall x :: x in r <==> x in s && f(x)
  {
    if s == [] then []
    else
      assert s == [s[0]] + s[1..];
      if f(s[0]) then [s[0]] + Filter(f, s[1..]) else Filter(f, s[1..])
  }

  /** `Array.prototype.find`, as the index of the first match. */
  function Find<T>(p: T -> bool, s: seq<T>): (r: Option<nat>)
    ensures r.Some? ==> r.value < |s| && p(s[r.value])
    ensures r.Some? ==> forall j :: 0 <= j < r.value ==> !p(s[j])
    ensures r.None? <==> forall j :: 0 <= j < |s| ==> !p(s[j])
  {
    if s == [] then None
    else if p(s[0]) then Some(0)
    else match Find(p, s[1..])
      case None => None
      case Some(i) => Some(i + 1)
  }

  /** `a` lists some of `b`'s elements, in `b`'s order. */
  ghost predicate IsSubsequence<T>(a: seq<T>, b: seq<T>)
    decreases |b|
  {
    || a == []
    || (b != [] && ((a[0] == b[0] && IsSubsequence(a[1..], b[1..])) || IsSubsequence(a, b[1..])))
  }

  /** Filtering keeps the original order. */
  lemma {:induction false} FilterIsSubsequence<T(!new)>(f: T -> bool, s: seq<T>)
    ensures IsSubsequence(Filter(f, s), s)
  {
    if s != [] {
      FilterIsSubsequence(f, s[1..]);
      var r := Filter(f, s);
      if f(s[0]) {
        assert r[0] == s[0] && r[1..] == Filter(f, s[1..]);
      }
    }
  }

  /** Filtering a list extended at the end extends the filtered list at most
      by that one element. */
  lemma {:induction false} FilterAppend<T(!new)>(f: T -> bool, s: seq<T>, x: T)
    ensures Filter(f, s + [x]) == Filter(f, s) + (if f(x) then [x] else [])
  {
    if s == [] {
      assert s + [x] == [x];
    } else {
      assert (s + [x])[0] == s[0];
      assert (s + [x])[1..] == s[1..] + [x];
      FilterAppend(f, s[1..], x);
    }
  }

  /** A filter that rejects nothing is the identity. */
  lemma {:induction false} FilterAll<T(!new)>(f: T -> bool, s: seq<T>)
    requires forall i :: 0 <= i < |s| ==> f(s[i])
    ensures Filter(f, s) == s
  {
    if s != [] {
      FilterAll(f, s[1..]);
      assert s == [s[0]] + s[1..];
    }
  }

  /** `find` comes back empty exactly when `filter` with the same test does. */
  lemma FindNoneIffFilterEmpty<T(!new)>(p: T -> bool, s: seq<T>)
    ensures Find(p, s).None? <==> Filter(p, s) == []
  {
    var r := Filter(p, s);
    if r != [] {
      assert r[0] in r;
    }
  }
}
