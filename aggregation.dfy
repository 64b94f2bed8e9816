/**
  * Aggregation of one poll: every raw bridge record is reduced to a facet
  * (skipped, assigned under its key, or merged into the entry under its key)
  * and the facets are folded, in bridge order, into an insertion-ordered dict.
  * Every `parse_hue_api_response` revision is an instance of this fold.
  */
module Aggregation {
  import opened PyBase

  /** What one raw record contributes: nothing, `d[key] = record`, or a merge into `d[key]`. */
  datatype Facet = Skip | Put(key: string, record: Record) | Merge(key: string, record: Record)

  predicate Names(f: Facet, k: string) {
    !f.Skip? && f.key == k
  }

  /**
    * One loop iteration: `Put` assigns; `Merge` is
    * `if key not in d: d[key] = record else: d[key].update(record)`.
    */
  function AddFacet(d: Dict, f: Facet): Dict {
    match f
    case Skip => d
    case Put(k, r) => d.Assign(k, r)
    case Merge(k, r) => if k in d.items then d.Assign(k, d.items[k] + r) else d.Assign(k, r)
  }

  /** The dict the loop builds from `fs`, folded left to right. */
  function Collect(fs: seq<Facet>): Dict
    decreases |fs|
  {
    if fs == [] then EmptyDict else AddFacet(Collect(fs[..|fs| - 1]), fs[|fs| - 1])
  }

  /** Every dict the loop builds lists each of its keys exactly once. */
  lemma {:induction false} CollectValid(fs: seq<Facet>)
    ensures Collect(fs).Valid()
    decreases |fs|
  {
    if fs != [] {
      var init := fs[..|fs| - 1];
      CollectValid(init);
      var d := Collect(init);
      var f := fs[|fs| - 1];
      match f
      case Skip =>
      case Put(k, r) => AssignValid(d, k, r);
      case Merge(k, r) =>
        if k in d.items { AssignValid(d, k, d.items[k] + r); } else { AssignValid(d, k, r); }
    }
  }

  /** The same fold when producing a facet can raise: the first exception wins. */
  function CollectResults(rs: seq<Result<Facet>>): (r: Result<Dict>)
    decreases |rs|
  {
    if rs == [] then Ok(EmptyDict)
    else
      var d :- CollectResults(rs[..|rs| - 1]);
      var f :- rs[|rs| - 1];
      Ok(AddFacet(d, f))
  }

  predicate AllOk(rs: seq<Result<Facet>>) {
    forall i :: 0 <= i < |rs| ==> rs[i].Ok?
  }

  function Values(rs: seq<Result<Facet>>): (fs: seq<Facet>)
    requires AllOk(rs)
    ensures |fs| == |rs| && forall i :: 0 <= i < |rs| ==> fs[i] == rs[i].value
  {
    seq(|rs|, i requires 0 <= i < |rs| && AllOk(rs) => rs[i].value)
  }

  /** The fold raises iff some facet raises, and then with the first facet's error; otherwise it is `Collect`. */
  lemma {:induction false} CollectResultsSpec(rs: seq<Result<Facet>>)
    ensures CollectResults(rs).Ok? <==> AllOk(rs)
    ensures AllOk(rs) ==> CollectResults(rs) == Ok(Collect(Values(rs)))
    ensures !AllOk(rs) ==> exists i :: 0 <= i < |rs| && rs[i].Raises? && AllOk(rs[..i])
                                      && CollectResults(rs).error == rs[i].error
    decreases |rs|
  {
    if rs != [] {
      var init := rs[..|rs| - 1];
      CollectResultsSpec(init);
      if AllOk(init) {
        if AllOk(rs) {
          assert Values(init) == Values(rs)[..|rs| - 1];
        } else {
          var i := |rs| - 1;
          assert rs[..i] == init;
        }
      } else {
        var i :| 0 <= i < |init| && init[i].Raises? && AllOk(init[..i]) && CollectResults(init).error == init[i].error;
        assert rs[i] == init[i] && rs[..i] == init[..i];
      }
    }
  }

  /** One more record: the loop so far, then that record's facet. */
  lemma CollectResultsAppend(rs: seq<Result<Facet>>, r: Result<Facet>)
    ensures CollectResults(rs + [r]) == (var d :- CollectResults(rs); var f :- r; Ok(AddFacet(d, f)))
  {
    assert (rs + [r])[..|rs|] == rs;
  }

  /** Once a prefix of the records raises, the whole loop raises with that error. */
  lemma {:induction false} CollectResultsPrefixRaises(rs: seq<Result<Facet>>, n: nat)
    requires n <= |rs| && CollectResults(rs[..n]).Raises?
    ensures CollectResults(rs) == CollectResults(rs[..n])
    decreases |rs|
  {
    if n < |rs| {
      var init := rs[..|rs| - 1];
      assert init[..n] == rs[..n];
      CollectResultsPrefixRaises(init, n);
    } else {
      assert rs[..n] == rs;
    }
  }

  /** The dict the loop builds lists only keys it stores. */
  lemma CollectListed(fs: seq<Facet>)
    ensures Collect(fs).Listed()
  {
    CollectValid(fs);
    ValidIsListed(Collect(fs));
  }

  /** A key is in the dict iff some facet names it; skipped records contribute nothing. */
  lemma {:induction false} CollectKeys(fs: seq<Facet>, k: string)
    ensures k in Collect(fs).items <==> exists i :: 0 <= i < |fs| && Names(fs[i], k)
    decreases |fs|
  {
    if fs != [] {
      var init := fs[..|fs| - 1];
      CollectKeys(init, k);
      if exists i :: 0 <= i < |init| && Names(init[i], k) {
        var i :| 0 <= i < |init| && Names(init[i], k);
        assert fs[i] == init[i];
      }
      if exists i :: 0 <= i < |fs| && Names(fs[i], k) {
        var i :| 0 <= i < |fs| && Names(fs[i], k);
        if i < |fs| - 1 {
          assert init[i] == fs[i];
        }
      }
    }
  }

  /** The keys come out in the order in which their first facet appears. */
  lemma {:induction false} CollectOrder(fs: seq<Facet>, i: nat, j: nat)
    requires i < j < |fs| && !fs[i].Skip? && !fs[j].Skip? && fs[i].key != fs[j].key
    requires forall m :: 0 <= m < i ==> !Names(fs[m], fs[j].key)
    ensures Position(Collect(fs).keys, fs[i].key) < Position(Collect(fs).keys, fs[j].key)
    decreases |fs|, 1
  {
    var init := fs[..|fs| - 1];
    if j < |fs| - 1 {
      assert init[i] == fs[i] && init[j] == fs[j];
      forall m | 0 <= m < i ensures !Names(init[m], init[j].key) { assert init[m] == fs[m]; }
      CollectOrder(init, i, j);
      CollectKeys(init, fs[i].key);
      CollectKeys(init, fs[j].key);
      CollectValid(init);
      ValidListed(Collect(init), fs[i].key);
      ValidListed(Collect(init), fs[j].key);
      AddFacetKeepsOrder(Collect(init), fs[|fs| - 1], fs[i].key, fs[j].key);
    } else {
      CollectOrderLast(fs, i);
    }
  }

  /** The step of `CollectOrder` where the later facet is the last one. */
  lemma {:induction false} CollectOrderLast(fs: seq<Facet>, i: nat)
    requires i < |fs| - 1 && !fs[i].Skip? && !fs[|fs| - 1].Skip? && fs[i].key != fs[|fs| - 1].key
    requires forall m :: 0 <= m < i ==> !Names(fs[m], fs[|fs| - 1].key)
    ensures Position(Collect(fs).keys, fs[i].key) < Position(Collect(fs).keys, fs[|fs| - 1].key)
    decreases |fs|, 0
  {
    var init := fs[..|fs| - 1];
    var d := Collect(init);
    var k := fs[|fs| - 1].key;
    CollectKeys(init, fs[i].key);
    assert init[i] == fs[i];
    CollectValid(init);
    ValidListed(d, fs[i].key);
    ValidListed(d, k);
    if k in d.items {
      CollectKeys(init, k);
      var m :| 0 <= m < |init| && Names(init[m], k);
      assert init[m] == fs[m];
      forall n | 0 <= n < i ensures !Names(init[n], init[m].key) { assert init[n] == fs[n]; }
      CollectOrder(init, i, m);
      AddFacetKeepsOrder(d, fs[|fs| - 1], fs[i].key, k);
    } else {
      assert AddFacet(d, fs[|fs| - 1]).keys == d.keys + [k];
      PositionAppend(d.keys, fs[i].key, k);
    }
  }

  /** The index of `k` in a key order that holds it. */
  function Position(keys: seq<string>, k: string): (p: nat)
    ensures k in keys ==> p < |keys| && keys[p] == k
    ensures k !in keys ==> p == |keys|
  {
    if keys == [] then 0 else if keys[0] == k then 0 else 1 + Position(keys[1..], k)
  }

  lemma {:induction false} PositionPrefix(keys: seq<string>, extra: seq<string>, k: string)
    requires k in keys
    ensures Position(keys + extra, k) == Position(keys, k)
    decreases |keys|
  {
    if keys[0] != k {
      assert (keys + extra)[1..] == keys[1..] + extra;
      PositionPrefix(keys[1..], extra, k);
    }
  }

  lemma PositionAppend(keys: seq<string>, k: string, n: string)
    requires k in keys && n !in keys
    ensures Position(keys + [n], k) < Position(keys + [n], n)
  {
    PositionPrefix(keys, [n], k);
    assert n in keys + [n];
    var p := Position(keys + [n], n);
    assert forall q :: 0 <= q < |keys| ==> (keys + [n])[q] != n;
    assert p >= |keys|;
  }

  lemma AddFacetKeepsOrder(d: Dict, f: Facet, a: string, b: string)
    requires a in d.keys && b in d.keys
    requires Position(d.keys, a) < Position(d.keys, b)
    ensures Position(AddFacet(d, f).keys, a) < Position(AddFacet(d, f).keys, b)
  {
    var d' := AddFacet(d, f);
    if d'.keys != d.keys {
      PositionPrefix(d.keys, d'.keys[|d.keys|..], a);
      PositionPrefix(d.keys, d'.keys[|d.keys|..], b);
      assert d'.keys == d.keys + d'.keys[|d.keys|..];
    }
  }

  // ---------------------------------------------------------------------------
  // What ends up under one key

  /** Every facet that names `k` merges (no facet replaces the entry). */
  predicate AllMerge(fs: seq<Facet>, k: string) {
    forall i :: 0 <= i < |fs| && Names(fs[i], k) ==> fs[i].Merge?
  }

  /** Reference definition: the value of `fld` in the last facet naming `k` that carries `fld`. */
  function LastWith(fs: seq<Facet>, k: string, fld: Field): (v: Option<Value>)
    decreases |fs|
  {
    if fs == [] then None
    else
      var f := fs[|fs| - 1];
      if Names(f, k) && fld in f.record then Some(f.record[fld]) else LastWith(fs[..|fs| - 1], k, fld)
  }

  /** Merged entries: a field is present iff some facet carries it, with the last such facet's value. */
  lemma {:induction false} CollectMerged(fs: seq<Facet>, k: string, fld: Field)
    requires AllMerge(fs, k)
    ensures (k in Collect(fs).items && fld in Collect(fs).items[k]) <==> LastWith(fs, k, fld).Some?
    ensures LastWith(fs, k, fld).Some? ==> Collect(fs).items[k][fld] == LastWith(fs, k, fld).value
    decreases |fs|
  {
    if fs != [] {
      var init := fs[..|fs| - 1];
      assert AllMerge(init, k) by {
        forall i | 0 <= i < |init| && Names(init[i], k) ensures init[i].Merge? { assert init[i] == fs[i]; }
      }
      CollectMerged(init, k, fld);
    }
  }

  /** A field carried by any facet of `k` is present, and the last facet carrying it decides its value. */
  lemma {:induction false} LastWithIsLast(fs: seq<Facet>, k: string, fld: Field, i: nat)
    requires i < |fs| && Names(fs[i], k) && fld in fs[i].record
    ensures LastWith(fs, k, fld).Some?
    ensures (forall j :: i < j < |fs| && Names(fs[j], k) ==> fld !in fs[j].record)
            ==> LastWith(fs, k, fld) == Some(fs[i].record[fld])
    decreases |fs|
  {
    var last := fs[|fs| - 1];
    if i < |fs| - 1 && !(Names(last, k) && fld in last.record) {
      var init := fs[..|fs| - 1];
      assert init[i] == fs[i];
      LastWithIsLast(init, k, fld, i);
      if forall j :: i < j < |fs| && Names(fs[j], k) ==> fld !in fs[j].record {
        forall j | i < j < |init| && Names(init[j], k) ensures fld !in init[j].record { assert init[j] == fs[j]; }
      }
    }
  }

  /** A field no facet of `k` carries is absent from the merged entry. */
  lemma {:induction false} LastWithNone(fs: seq<Facet>, k: string, fld: Field)
    requires forall i :: 0 <= i < |fs| && Names(fs[i], k) ==> fld !in fs[i].record
    ensures LastWith(fs, k, fld).None?
    decreases |fs|
  {
    if fs != [] {
      var init := fs[..|fs| - 1];
      forall i | 0 <= i < |init| && Names(init[i], k) ensures fld !in init[i].record { assert init[i] == fs[i]; }
      LastWithNone(init, k, fld);
    }
  }

  /** A `Put` that no later facet of the same key follows decides the entry outright. */
  lemma {:induction false} CollectReplaced(fs: seq<Facet>, i: nat)
    requires i < |fs| && fs[i].Put?
    requires forall j :: i < j < |fs| ==> !Names(fs[j], fs[i].key)
    ensures fs[i].key in Collect(fs).items && Collect(fs).items[fs[i].key] == fs[i].record
    decreases |fs|
  {
    if i < |fs| - 1 {
      var init := fs[..|fs| - 1];
      assert init[i] == fs[i];
      forall j | i < j < |init| ensures !Names(init[j], init[i].key) { assert init[j] == fs[j]; }
      CollectReplaced(init, i);
    }
  }

  /** Every field of an entry comes from some facet that names its key. */
  lemma {:induction false} CollectEntryFields(fs: seq<Facet>, k: string, fld: Field)
    requires k in Collect(fs).items && fld in Collect(fs).items[k]
    ensures exists j :: 0 <= j < |fs| && Names(fs[j], k) && fld in fs[j].record
    decreases |fs|
  {
    var init := fs[..|fs| - 1];
    var last := fs[|fs| - 1];
    if !(Names(last, k) && fld in last.record) {
      assert k in Collect(init).items && fld in Collect(init).items[k];
      CollectEntryFields(init, k, fld);
      var j :| 0 <= j < |init| && Names(init[j], k) && fld in init[j].record;
      assert fs[j] == init[j];
    }
  }

  /**
    * A facet that no later facet of its key follows, and whose fields include
    * those of every earlier facet of its key, decides the entry outright, even
    * when it merges.
    */
  lemma {:induction false} CollectCovered(fs: seq<Facet>, i: nat)
    requires i < |fs| && !fs[i].Skip?
    requires forall j :: i < j < |fs| ==> !Names(fs[j], fs[i].key)
    requires forall j :: 0 <= j < i && Names(fs[j], fs[i].key) ==> fs[j].record.Keys <= fs[i].record.Keys
    ensures fs[i].key in Collect(fs).items && Collect(fs).items[fs[i].key] == fs[i].record
    decreases |fs|
  {
    var init := fs[..|fs| - 1];
    var k := fs[i].key;
    if i < |fs| - 1 {
      assert init[i] == fs[i];
      forall j | i < j < |init| ensures !Names(init[j], k) { assert init[j] == fs[j]; }
      forall j | 0 <= j < i && Names(init[j], k) ensures init[j].record.Keys <= fs[i].record.Keys { assert init[j] == fs[j]; }
      CollectCovered(init, i);
    } else if fs[i].Merge? && k in Collect(init).items {
      var e := Collect(init).items[k];
      forall fld | fld in e ensures fld in fs[i].record {
        CollectEntryFields(init, k, fld);
        var j :| 0 <= j < |init| && Names(init[j], k) && fld in init[j].record;
        assert fs[j] == init[j];
      }
      assert e + fs[i].record == fs[i].record;
    }
  }

  /** Two merges into the same key whose field sets are disjoint can arrive in either order. */
  lemma SwapDisjointMerges(fs: seq<Facet>, k: string, a: Record, b: Record)
    requires a.Keys !! b.Keys
    ensures Collect(fs + [Merge(k, a), Merge(k, b)]) == Collect(fs + [Merge(k, b), Merge(k, a)])
  {
    CollectTwo(fs, Merge(k, a), Merge(k, b));
    CollectTwo(fs, Merge(k, b), Merge(k, a));
    SwapMerges(Collect(fs), k, a, b);
  }

  /** The fold reads what came before only through the dict built so far: equal dicts stay equal under the same later records. */
  lemma {:induction false} CollectSameTail(xs: seq<Facet>, ys: seq<Facet>, rest: seq<Facet>)
    requires Collect(xs) == Collect(ys)
    ensures Collect(xs + rest) == Collect(ys + rest)
    decreases |rest|
  {
    if rest == [] {
      assert xs + rest == xs && ys + rest == ys;
    } else {
      var init := rest[..|rest| - 1];
      CollectSameTail(xs, ys, init);
      assert (xs + rest)[..|xs + rest| - 1] == xs + init;
      assert (ys + rest)[..|ys + rest| - 1] == ys + init;
    }
  }

  lemma SwapMerges(d: Dict, k: string, a: Record, b: Record)
    requires a.Keys !! b.Keys
    ensures AddFacet(AddFacet(d, Merge(k, a)), Merge(k, b)) == AddFacet(AddFacet(d, Merge(k, b)), Merge(k, a))
  {
    if k in d.items {
      MergeTwiceOld(d, k, a, b);
      MergeTwiceOld(d, k, b, a);
      UpdateCommutes(d.items[k], a, b);
    } else {
      MergeTwiceNew(d, k, a, b);
      MergeTwiceNew(d, k, b, a);
      DisjointUnionCommutes(a, b);
    }
  }

  /** Two merges into a present key update its entry twice and keep the order. */
  lemma MergeTwiceOld(d: Dict, k: string, a: Record, b: Record)
    requires k in d.items
    ensures AddFacet(AddFacet(d, Merge(k, a)), Merge(k, b)) == Dict(d.keys, d.items[k := d.items[k] + a + b])
  {
  }

  /** Two merges into an absent key append it once, holding both records. */
  lemma MergeTwiceNew(d: Dict, k: string, a: Record, b: Record)
    requires k !in d.items
    ensures AddFacet(AddFacet(d, Merge(k, a)), Merge(k, b)) == Dict(d.keys + [k], d.items[k := a + b])
  {
  }

  /** `e.update(a); e.update(b)` is `e.update(b); e.update(a)` when `a` and `b` share no key. */
  lemma UpdateCommutes(e: Record, a: Record, b: Record)
    requires a.Keys !! b.Keys
    ensures e + a + b == e + b + a
  {
    var l := e + a + b;
    var r := e + b + a;
    assert l.Keys == r.Keys;
    forall x | x in l ensures l[x] == r[x] {
      if x in b { assert x !in a; }
    }
  }

  lemma DisjointUnionCommutes(a: Record, b: Record)
    requires a.Keys !! b.Keys
    ensures a + b == b + a
  {
    forall x | x in a + b ensures (a + b)[x] == (b + a)[x] {
      if x in b { assert x !in a; }
    }
  }

  lemma CollectTwo(fs: seq<Facet>, f: Facet, g: Facet)
    ensures Collect(fs + [f, g]) == AddFacet(AddFacet(Collect(fs), f), g)
  {
    var s := fs + [f, g];
    assert s[..|s| - 1] == fs + [f];
    assert (fs + [f])[..|fs|] == fs;
  }
}
