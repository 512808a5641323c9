/**
 * The extractor's dictionaries (`Dict[str, str]`): the pattern table and the
 * extracted record. A Python dictionary keeps its keys distinct and remembers
 * the order in which they were first inserted. Here it is the list of its items
 * in that order.
 */
module Records {
  import opened Options

  /** One `key: value` item */
  datatype Entry = Entry(field: string, value: string)

  /** The items of a dictionary, in insertion order */
  type Record = seq<Entry>

  /** `list(d.keys())` */
  function Fields(r: Record): seq<string>
  {
    seq(|r|, i requires 0 <= i < |r| => r[i].field)
  }

  /** No key occurs twice */
  predicate DistinctFields(r: Record)
  {
    forall i, j :: 0 <= i < j < |r| ==> r[i].field != r[j].field
  }

  /** No name occurs twice in a list of names */
  predicate Distinct(names: seq<string>)
  {
    forall i, j :: 0 <= i < j < |names| ==> names[i] != names[j]
  }

  /** `d.get(k)`: the value of the first item whose key is `k` */
  function Get(r: Record, k: string): (v: Option<string>)
    ensures v.Some? <==> k in Fields(r)
    ensures v.Some? ==> Entry(k, v.value) in r
  {
    if r == [] then None
    else if r[0].field == k then
      assert Fields(r)[0] == k;
      Some(r[0].value)
    else
      assert Fields(r) == [r[0].field] + Fields(r[1..]);
      Get(r[1..], k)
  }

  /**
   * `d[k] = v`: an existing key keeps its place and gets the new value; a new key
   * is added at the end.
   */
  function Put(r: Record, k: string, v: string): Record
  {
    if r == [] then [Entry(k, v)]
    else if r[0].field == k then [Entry(k, v)] + r[1..]
    else [r[0]] + Put(r[1..], k, v)
  }

  lemma FieldsCons(e: Entry, r: Record)
    ensures Fields([e] + r) == [e.field] + Fields(r)
  {
  }

  /** Assignment keeps the key order and adds a new key last. */
  lemma {:induction false} PutFields(r: Record, k: string, v: string)
    ensures Fields(Put(r, k, v)) == if k in Fields(r) then Fields(r) else Fields(r) + [k]
  {
    if r == [] {
    } else {
      FieldsCons(r[0], r[1..]);
      assert r == [r[0]] + r[1..];
      if r[0].field == k {
        FieldsCons(Entry(k, v), r[1..]);
      } else {
        PutFields(r[1..], k, v);
        FieldsCons(r[0], Put(r[1..], k, v));
      }
    }
  }

  /** After `d[k] = v`, `d.get(k)` is `v` and every other key keeps its value. */
  lemma {:induction false} PutGet(r: Record, k: string, v: string)
    ensures Get(Put(r, k, v), k) == Some(v)
    ensures forall k' :: k' != k ==> Get(Put(r, k, v), k') == Get(r, k')
  {
    if r != [] && r[0].field != k {
      PutGet(r[1..], k, v);
      var p := Put(r, k, v);
      assert p[1..] == Put(r[1..], k, v);
    } else if r != [] {
      var p := Put(r, k, v);
      assert p[1..] == r[1..];
    }
  }

  /** Assignment adds no item other than the one assigned. */
  lemma {:induction false} PutEntries(r: Record, k: string, v: string)
    ensures forall e :: e in Put(r, k, v) ==> e in r || e == Entry(k, v)
  {
    if r != [] && r[0].field != k {
      PutEntries(r[1..], k, v);
      assert r == [r[0]] + r[1..];
    } else if r != [] {
      assert r == [r[0]] + r[1..];
    }
  }

  /** The first key of a dictionary with distinct keys does not recur in the rest, which has distinct keys too. */
  lemma DistinctTail(r: Record)
    requires r != [] && DistinctFields(r)
    ensures DistinctFields(r[1..]) && r[0].field !in Fields(r[1..])
  {
    var rest := r[1..];
    assert forall i :: 0 <= i < |rest| ==> rest[i] == r[i + 1];
  }

  /** An item whose key is new, put in front of distinct keys, keeps them distinct. */
  lemma DistinctCons(e: Entry, r: Record)
    requires DistinctFields(r) && e.field !in Fields(r)
    ensures DistinctFields([e] + r)
  {
    var p := [e] + r;
    assert forall i :: 0 < i < |p| ==> p[i] == r[i - 1];
    assert forall i :: 0 <= i < |r| ==> Fields(r)[i] == r[i].field;
  }

  /** Assignment keeps the keys of a dictionary distinct. */
  lemma {:induction false} PutDistinct(r: Record, k: string, v: string)
    requires DistinctFields(r)
    ensures DistinctFields(Put(r, k, v))
  {
    if r != [] {
      var rest := r[1..];
      DistinctTail(r);
      if r[0].field == k {
        DistinctCons(Entry(k, v), rest);
      } else {
        PutDistinct(rest, k, v);
        PutFields(rest, k, v);
        DistinctCons(r[0], Put(rest, k, v));
      }
    }
  }
}
