/** std::map<float, chromosome> as the solver uses it (c_sorted): entries in
    ascending key order with no key twice; `m[k] = c` replaces the entry of
    key k, or inserts one in its ordered place. */
module FitnessIndex {
  import opened Genome
  import opened Chromosomes

  datatype Entry = Entry(key: real, member: Individual)

  type Index = seq<Entry>

  /** Strictly ascending keys. */
  predicate Ordered(m: Index) {
    forall i, j :: 0 <= i < j < |m| ==> m[i].key < m[j].key
  }

  /** Every entry is filed under its member's fitness, as every map of the
      solver is. */
  predicate Keyed(m: Index) {
    forall i :: 0 <= i < |m| ==> m[i].member.fitness == m[i].key
  }

  function Keys(m: Index): set<real> {
    if m == [] then {} else {m[0].key} + Keys(m[1..])
  }

  /** The keys of an index are the keys of its entries. */
  lemma {:induction false} KeysOf(m: Index, k: real)
    ensures k in Keys(m) <==> exists i :: 0 <= i < |m| && m[i].key == k
    decreases |m|
  {
    if m != [] {
      KeysOf(m[1..], k);
      if k in Keys(m[1..]) {
        var i :| 0 <= i < |m[1..]| && m[1..][i].key == k;
        assert m[i + 1].key == k;
      }
      if exists i :: 0 <= i < |m| && m[i].key == k {
        var i :| 0 <= i < |m| && m[i].key == k;
        if i > 0 {
          assert m[1..][i - 1].key == k;
        }
      }
    }
  }

  /** In an ordered index no key lies below the first. */
  lemma {:induction false} KeysAbove(m: Index, k: real)
    requires Ordered(m) && (m == [] || k < m[0].key)
    ensures k !in Keys(m)
  {
    KeysOf(m, k);
    if m != [] {
      assert forall i :: 0 < i < |m| ==> m[0].key < m[i].key;
    }
  }

  /** The members held, in key order. */
  function Members(m: Index): (r: seq<Individual>)
    ensures |r| == |m|
    ensures forall i :: 0 <= i < |m| ==> r[i] == m[i].member
  {
    seq(|m|, i requires 0 <= i < |m| => m[i].member)
  }

  /** m.find(k): the member filed under k, if any. */
  function Lookup(m: Index, k: real): (r: Option<Individual>)
    ensures r.Some? <==> k in Keys(m)
    ensures r.Some? ==> Entry(k, r.value) in m
  {
    if m == [] then None
    else if m[0].key == k then Some(m[0].member)
    else Lookup(m[1..], k)
  }

  /** m[k] = v: the entry of key k now holds v, every other key keeps its
      entry, and the order is kept. */
  function Put(m: Index, k: real, v: Individual): (r: Index)
    requires Ordered(m)
    ensures Ordered(r)
    ensures Keys(r) == Keys(m) + {k}
    ensures |r| == if k in Keys(m) then |m| else |m| + 1
  {
    if m == [] then [Entry(k, v)]
    else if k < m[0].key then
      KeysAbove(m, k);
      assert ([Entry(k, v)] + m)[1..] == m;
      [Entry(k, v)] + m
    else if k == m[0].key then
      KeysAbove(m[1..], k);
      assert ([Entry(k, v)] + m[1..])[1..] == m[1..];
      [Entry(k, v)] + m[1..]
    else
      var tail := Put(m[1..], k, v);
      assert forall j :: 0 <= j < |tail| ==> m[0].key < tail[j].key by {
        forall j | 0 <= j < |tail|
          ensures m[0].key < tail[j].key
        {
          KeysOf(tail, tail[j].key);
          KeysOf(m[1..], tail[j].key);
        }
      }
      KeysAbove(m[1..], m[0].key);
      assert ([m[0]] + tail)[1..] == tail;
      [m[0]] + tail
  }

  /** An ordered index holds each key once, so Lookup finds the entry at
      its position. */
  lemma {:induction false} LookupAt(m: Index, i: nat)
    requires Ordered(m) && i < |m|
    ensures Lookup(m, m[i].key) == Some(m[i].member)
    decreases i
  {
    if i > 0 {
      assert m[0].key < m[i].key;
      LookupAt(m[1..], i - 1);
    }
  }

  /** After m[k] = v, looking k up gives v and every other key gives what
      it gave before: the last write to a key wins. */
  lemma {:induction false} PutLookup(m: Index, k: real, v: Individual, q: real)
    requires Ordered(m)
    ensures Lookup(Put(m, k, v), q) == if q == k then Some(v) else Lookup(m, q)
    decreases |m|
  {
    if m != [] && m[0].key < k {
      PutLookup(m[1..], k, v, q);
    }
  }

  /** m[k] = v holds the entry (k, v), and otherwise exactly the entries of
      m under keys other than k. */
  lemma {:induction false} PutEntries(m: Index, k: real, v: Individual)
    requires Ordered(m)
    ensures Entry(k, v) in Put(m, k, v)
    ensures forall e :: e in Put(m, k, v) && e.key != k ==> e in m
    ensures forall e :: e in m && e.key != k ==> e in Put(m, k, v)
    decreases |m|
  {
    if m != [] && m[0].key < k {
      PutEntries(m[1..], k, v);
      assert Put(m, k, v) == [m[0]] + Put(m[1..], k, v);
      assert m == [m[0]] + m[1..];
    } else if m != [] && m[0].key == k {
      assert m == [m[0]] + m[1..];
    }
  }

  /** Writing a key greater than every key present appends an entry. */
  lemma {:induction false} PutGreatest(m: Index, k: real, v: Individual)
    requires Ordered(m)
    requires forall i :: 0 <= i < |m| ==> m[i].key < k
    ensures Put(m, k, v) == m + [Entry(k, v)]
    decreases |m|
  {
    if m != [] {
      PutGreatest(m[1..], k, v);
      assert [m[0]] + (m[1..] + [Entry(k, v)]) == m + [Entry(k, v)];
    }
  }

  /** Writing entries that respect their keys keeps every entry keyed. */
  lemma PutKeyed(m: Index, v: Individual)
    requires Ordered(m) && Keyed(m)
    ensures Keyed(Put(m, v.fitness, v))
  {
    var r := Put(m, v.fitness, v);
    forall i | 0 <= i < |r|
      ensures r[i].member.fitness == r[i].key
    {
      if r[i].key == v.fitness {
        LookupAt(r, i);
        PutLookup(m, v.fitness, v, v.fitness);
      } else {
        PutEntries(m, v.fitness, v);
        assert r[i] in r;
      }
    }
  }

  /** Every entry after m[k] = v is an entry of m or the one just written. */
  lemma PutFrom(m: Index, k: real, v: Individual, e: Entry)
    requires Ordered(m) && e in Put(m, k, v)
    ensures e in m || e == Entry(k, v)
  {
    PutEntries(m, k, v);
    if e.key == k {
      var r := Put(m, k, v);
      var i :| 0 <= i < |r| && r[i] == e;
      LookupAt(r, i);
      PutLookup(m, k, v, k);
    }
  }

  /** An ordered index has one entry per key. */
  lemma {:induction false} KeysCount(m: Index)
    requires Ordered(m)
    ensures |Keys(m)| == |m|
    decreases |m|
  {
    if m != [] {
      KeysCount(m[1..]);
      KeysAbove(m[1..], m[0].key);
    }
  }
}
