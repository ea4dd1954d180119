/** A Python `dict` from strings to strings, as the script uses it: entries
    keep the order in which their keys were first inserted, and assigning to
    an existing key replaces its value where it stands. */
module Dict {
  import opened Wrappers

  type Dict = seq<(string, string)>

  function Keys(d: Dict): (ks: seq<string>)
    ensures |ks| == |d|
    ensures forall i :: 0 <= i < |d| ==> ks[i] == d[i].0
  {
    seq(|d|, i requires 0 <= i < |d| => d[i].0)
  }

  predicate DistinctKeys(d: Dict) {
    forall i, j :: 0 <= i < j < |d| ==> d[i].0 != d[j].0
  }

  /** `d.get(k)`. */
  function Lookup(d: Dict, k: string): Option<string> {
    if d == [] then None
    else if d[0].0 == k then Some(d[0].1)
    else Lookup(d[1..], k)
  }

  /** `d[k] = v`. */
  function Put(d: Dict, k: string, v: string): Dict {
    if d == [] then [(k, v)]
    else if d[0].0 == k then [(k, v)] + d[1..]
    else [d[0]] + Put(d[1..], k, v)
  }

  /** A key is found exactly when it is one of the keys. */
  lemma {:induction false} LookupFound(d: Dict, k: string)
    ensures Lookup(d, k).Some? <==> k in Keys(d)
  {
    if d != [] {
      assert Keys(d) == [d[0].0] + Keys(d[1..]);
      LookupFound(d[1..], k);
    }
  }

  /** A value found for a key is that of an entry of the dict. */
  lemma {:induction false} LookupEntry(d: Dict, k: string) returns (i: nat)
    requires Lookup(d, k).Some?
    ensures i < |d| && d[i] == (k, Lookup(d, k).value)
  {
    if d[0].0 == k {
      i := 0;
    } else {
      var j := LookupEntry(d[1..], k);
      i := j + 1;
    }
  }

  /** The keys of a dict that starts with entry `e`. */
  lemma KeysCons(e: (string, string), d: Dict)
    ensures Keys([e] + d) == [e.0] + Keys(d)
  {
  }

  /** Assigning to a key already present keeps the keys; assigning to a new
      key appends it. */
  lemma {:induction false} PutKeys(d: Dict, k: string, v: string)
    ensures Keys(Put(d, k, v)) == if k in Keys(d) then Keys(d) else Keys(d) + [k]
  {
    if d != [] {
      assert d == [d[0]] + d[1..];
      KeysCons(d[0], d[1..]);
      if d[0].0 != k {
        PutKeys(d[1..], k, v);
        KeysCons(d[0], Put(d[1..], k, v));
      } else {
        KeysCons((k, v), d[1..]);
      }
    }
  }

  /** After `d[k] = v`, `k` holds `v` and every other key holds what it held. */
  lemma {:induction false} PutLookup(d: Dict, k: string, v: string, k': string)
    ensures Lookup(Put(d, k, v), k') == if k' == k then Some(v) else Lookup(d, k')
  {
    if d != [] && d[0].0 != k {
      PutLookup(d[1..], k, v, k');
    }
  }

  /** Assignment never makes a key appear twice. */
  lemma PutDistinct(d: Dict, k: string, v: string)
    requires DistinctKeys(d)
    ensures DistinctKeys(Put(d, k, v))
  {
    var r := Put(d, k, v);
    PutKeys(d, k, v);
    forall i, j | 0 <= i < j < |r| ensures r[i].0 != r[j].0 {
      assert Keys(r)[i] == r[i].0 && Keys(r)[j] == r[j].0;
      if j < |d| {
        assert Keys(d)[i] == d[i].0 && Keys(d)[j] == d[j].0;
      } else {
        assert k !in Keys(d) && Keys(d)[i] == d[i].0;
      }
    }
  }

  /** The keys of `xs` in the order of their first occurrence. */
  function Dedup(xs: seq<string>): seq<string> {
    if xs == [] then []
    else
      var d := Dedup(xs[..|xs| - 1]);
      if xs[|xs| - 1] in d then d else d + [xs[|xs| - 1]]
  }

  /** The dict built by assigning `vs[i]` to `ks[i]`, for i from 0 up. */
  function Fill(ks: seq<string>, vs: seq<string>): Dict
    requires |ks| == |vs|
  {
    if ks == [] then []
    else Put(Fill(ks[..|ks| - 1], vs[..|vs| - 1]), ks[|ks| - 1], vs[|vs| - 1])
  }

  /** Filling with one more key assigns that key last. */
  lemma FillStep(ks: seq<string>, vs: seq<string>, j: nat)
    requires j < |ks| && |vs| == j + 1
    ensures Fill(ks[..j + 1], vs) == Put(Fill(ks[..j], vs[..j]), ks[j], vs[j])
  {
    assert ks[..j + 1][..j] == ks[..j];
  }

  /** The filled dict has each key once, its keys are the distinct keys
      assigned, in the order of their first assignment, and a key is in it
      exactly when it was assigned. */
  lemma {:induction false} FillKeys(ks: seq<string>, vs: seq<string>)
    requires |ks| == |vs|
    ensures DistinctKeys(Fill(ks, vs))
    ensures Keys(Fill(ks, vs)) == Dedup(ks)
    ensures forall k :: k in Keys(Fill(ks, vs)) <==> k in ks
  {
    if ks != [] {
      var n := |ks|;
      FillKeys(ks[..n - 1], vs[..n - 1]);
      PutKeys(Fill(ks[..n - 1], vs[..n - 1]), ks[n - 1], vs[n - 1]);
      PutDistinct(Fill(ks[..n - 1], vs[..n - 1]), ks[n - 1], vs[n - 1]);
      assert ks == ks[..n - 1] + [ks[n - 1]];
    }
  }

  /** The value a key holds is the one of its last assignment. */
  lemma {:induction false} FillLastWins(ks: seq<string>, vs: seq<string>, j: nat)
    requires |ks| == |vs| && j < |ks|
    requires ks[j] !in ks[j + 1..]
    ensures Lookup(Fill(ks, vs), ks[j]) == Some(vs[j])
  {
    var n := |ks|;
    var ks', vs' := ks[..n - 1], vs[..n - 1];
    var prev := Fill(ks', vs');
    assert Fill(ks, vs) == Put(prev, ks[n - 1], vs[n - 1]);
    PutLookup(prev, ks[n - 1], vs[n - 1], ks[j]);
    if j < n - 1 {
      assert ks[j + 1..] == ks'[j + 1..] + [ks[n - 1]];
      assert ks'[j] == ks[j] && vs'[j] == vs[j];
      FillLastWins(ks', vs', j);
    }
  }
}
