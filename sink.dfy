/** The per-request variable sink (Caddy's `*caddy.Replacer`): a mutable map
    from dotted keys to values, written by `Set`, last write wins. */
module Sink {
  import opened Basics
  import opened Records

  /** The kinds of value the projectors store. */
  datatype Value =
    | Str(s: string)
    | Bool(b: bool)
    | Nat(n: nat)
    | Float(f: Float64)
    | NameMap(names: Names)
    | Subdivs(subdivisions: seq<Subdivision>)

  /** One `repl.Set(key, value)` call. */
  datatype Write = Write(key: string, value: Value)

  /** The sink after performing the writes `w`, in order, on `m`. */
  function Apply(m: map<string, Value>, w: seq<Write>): map<string, Value>
    decreases |w|
  {
    if w == [] then m
    else Apply(m, w[..|w| - 1])[w[|w| - 1].key := w[|w| - 1].value]
  }

  /** One more write sets its key to its value; last write wins. */
  lemma ApplySnoc(m: map<string, Value>, before: seq<Write>, w: Write)
    ensures Apply(m, before + [w]) == Apply(m, before)[w.key := w.value]
  {
    assert (before + [w])[..|before|] == before;
  }

  /** The keys written, in order of writing. */
  function KeyList(w: seq<Write>): (ks: seq<string>)
    ensures |ks| == |w| && forall i :: 0 <= i < |w| ==> ks[i] == w[i].key
  {
    seq(|w|, i requires 0 <= i < |w| => w[i].key)
  }

  function KeysOf(w: seq<Write>): set<string> {
    set x | x in w :: x.key
  }

  lemma KeysOfConcat(a: seq<Write>, b: seq<Write>)
    ensures KeysOf(a + b) == KeysOf(a) + KeysOf(b)
  {
    forall k | k in KeysOf(a + b) ensures k in KeysOf(a) + KeysOf(b) {
      var x :| x in a + b && x.key == k;
    }
    forall k | k in KeysOf(a) + KeysOf(b) ensures k in KeysOf(a + b) {
      if k in KeysOf(a) {
        var x :| x in a && x.key == k;
        assert x in a + b;
      } else {
        var x :| x in b && x.key == k;
        assert x in a + b;
      }
    }
  }

  /** No key is written twice. */
  predicate DistinctKeys(w: seq<Write>) {
    forall i, j :: 0 <= i < j < |w| ==> w[i].key != w[j].key
  }

  /** The zero value of each kind: what a projector writes for a zero record. */
  predicate IsZero(v: Value) {
    match v
    case Str(s) => s == ""
    case Bool(b) => !b
    case Nat(n) => n == 0
    case Float(f) => f == ZeroFloat
    case NameMap(names) => names == map[]
    case Subdivs(subs) => forall i :: 0 <= i < |subs| ==> subs[i] == ZeroSubdivision
  }

  /** Every write stores a zero value. */
  predicate AllZero(w: seq<Write>) {
    forall x :: x in w ==> IsZero(x.value)
  }

  lemma AllZeroJoin(a: seq<Write>, b: seq<Write>)
    requires AllZero(a) && AllZero(b)
    ensures AllZero(a + b)
  {
  }

  /** Writing `a` then `b` is writing `a + b`. */
  lemma {:induction false} ApplyConcat(m: map<string, Value>, a: seq<Write>, b: seq<Write>)
    ensures Apply(m, a + b) == Apply(Apply(m, a), b)
    decreases |b|
  {
    if b != [] {
      assert (a + b)[..|a + b| - 1] == a + b[..|b| - 1];
      ApplyConcat(m, a, b[..|b| - 1]);
    } else {
      assert a + b == a;
    }
  }

  /** The writes add exactly their own keys to the sink. */
  lemma {:induction false} ApplyKeys(m: map<string, Value>, w: seq<Write>)
    ensures Apply(m, w).Keys == m.Keys + KeysOf(w)
    decreases |w|
  {
    if w != [] {
      var init := w[..|w| - 1];
      ApplyKeys(m, init);
      assert w == init + [w[|w| - 1]];
      assert KeysOf(w) == KeysOf(init) + {w[|w| - 1].key};
    }
  }

  /** A key none of the writes touches keeps its presence and value. */
  lemma {:induction false} ApplyUntouched(m: map<string, Value>, w: seq<Write>, k: string)
    requires k !in KeysOf(w)
    ensures k in Apply(m, w) <==> k in m
    ensures k in m ==> Apply(m, w)[k] == m[k]
    decreases |w|
  {
    if w != [] {
      var init := w[..|w| - 1];
      assert w[|w| - 1] in w;
      assert KeysOf(init) <= KeysOf(w) by {
        forall x | x in init ensures x in w { }
      }
      ApplyUntouched(m, init, k);
    }
  }

  /** A write that no later write overrides determines the key's final value. */
  lemma {:induction false} ApplyLastWrite(m: map<string, Value>, w: seq<Write>, j: nat)
    requires j < |w|
    requires forall i :: j < i < |w| ==> w[i].key != w[j].key
    ensures w[j].key in Apply(m, w) && Apply(m, w)[w[j].key] == w[j].value
    decreases |w|
  {
    if j < |w| - 1 {
      var init := w[..|w| - 1];
      ApplyLastWrite(m, init, j);
    }
  }

  /** Keys outside the writes keep their values. */
  lemma ApplyFrame(m: map<string, Value>, w: seq<Write>)
    ensures forall k :: k !in KeysOf(w) ==> (k in Apply(m, w) <==> k in m)
    ensures forall k :: k !in KeysOf(w) && k in m ==> Apply(m, w)[k] == m[k]
  {
    forall k | k !in KeysOf(w) ensures (k in Apply(m, w) <==> k in m) && (k in m ==> Apply(m, w)[k] == m[k]) {
      ApplyUntouched(m, w, k);
    }
  }

  /** Two write lists naming the same keys in the same order touch the same keys. */
  lemma KeysOfSame(a: seq<Write>, b: seq<Write>)
    requires KeyList(a) == KeyList(b)
    ensures KeysOf(a) == KeysOf(b)
  {
    forall k | k in KeysOf(a) ensures k in KeysOf(b) {
      var x :| x in a && x.key == k;
      var i :| 0 <= i < |a| && a[i] == x;
      assert KeyList(a)[i] == k;
      assert b[i] in b;
    }
    forall k | k in KeysOf(b) ensures k in KeysOf(a) {
      var x :| x in b && x.key == k;
      var i :| 0 <= i < |b| && b[i] == x;
      assert KeyList(b)[i] == k;
      assert a[i] in a;
    }
  }

  /** When every write stores a zero value, every key written holds a zero value. */
  lemma {:induction false} ApplyAllZero(m: map<string, Value>, w: seq<Write>)
    requires AllZero(w)
    ensures forall k :: k in KeysOf(w) ==> k in Apply(m, w) && IsZero(Apply(m, w)[k])
    decreases |w|
  {
    if w != [] {
      var init := w[..|w| - 1];
      var last := w[|w| - 1];
      assert w == init + [last];
      assert last in w;
      assert AllZero(init) by {
        forall x | x in init ensures IsZero(x.value) { assert x in w; }
      }
      ApplyAllZero(m, init);
      assert KeysOf(w) == KeysOf(init) + {last.key};
    }
  }

  /** When no key is written twice, every write survives. */
  lemma ApplyDistinct(m: map<string, Value>, w: seq<Write>)
    requires DistinctKeys(w)
    ensures forall x :: x in w ==> x.key in Apply(m, w) && Apply(m, w)[x.key] == x.value
  {
    forall x | x in w ensures x.key in Apply(m, w) && Apply(m, w)[x.key] == x.value {
      var j :| 0 <= j < |w| && w[j] == x;
      ApplyLastWrite(m, w, j);
    }
  }

  /** The sink after the writes is the old sink overridden by the writes alone. */
  lemma {:induction false} ApplyOverrides(m: map<string, Value>, w: seq<Write>)
    ensures Apply(m, w) == m + Apply(map[], w)
    decreases |w|
  {
    if w != [] {
      ApplyOverrides(m, w[..|w| - 1]);
    }
  }

  /** Performing the same writes again changes nothing. */
  lemma ApplyIdempotent(m: map<string, Value>, w: seq<Write>)
    ensures Apply(Apply(m, w), w) == Apply(m, w)
  {
    ApplyOverrides(m, w);
    ApplyOverrides(Apply(m, w), w);
    var a := Apply(map[], w);
    assert (m + a) + a == m + a;
  }

  lemma AppendAssociative(a: seq<Write>, b: seq<Write>, c: seq<Write>)
    ensures (a + b) + c == a + (b + c)
  {
  }

  /** The blocks of writes `bs` performed one after the other. */
  function Concat(bs: seq<seq<Write>>): seq<Write>
    decreases |bs|
  {
    if bs == [] then [] else Concat(bs[..|bs| - 1]) + bs[|bs| - 1]
  }

  /** Performing two lists of blocks one after the other. */
  lemma {:induction false} ConcatAppend(a: seq<seq<Write>>, b: seq<seq<Write>>)
    ensures Concat(a + b) == Concat(a) + Concat(b)
    decreases |b|
  {
    if b == [] {
      assert a + b == a;
    } else {
      var bi := b[..|b| - 1];
      ConcatAppend(a, bi);
      assert (a + b)[..|a + b| - 1] == a + bi;
      assert (a + b)[|a + b| - 1] == b[|b| - 1];
      AppendAssociative(Concat(a), Concat(bi), b[|b| - 1]);
    }
  }

  /** A key is written by a run of blocks exactly when one of the blocks writes it. */
  lemma {:induction false} ConcatKeys(bs: seq<seq<Write>>, k: string)
    ensures k in KeysOf(Concat(bs)) <==> exists i :: 0 <= i < |bs| && k in KeysOf(bs[i])
    decreases |bs|
  {
    if bs != [] {
      var init := bs[..|bs| - 1];
      ConcatKeys(init, k);
      KeysOfConcat(Concat(init), bs[|bs| - 1]);
      assert forall i :: 0 <= i < |init| ==> init[i] == bs[i];
    }
  }

  /** A write of block `j` stands after the whole run when block `j` writes
      its key once and no later block writes that key. */
  lemma ConcatLastWins(m: map<string, Value>, bs: seq<seq<Write>>, j: nat, x: Write)
    requires j < |bs| && x in bs[j] && DistinctKeys(bs[j])
    requires forall i :: j < i < |bs| ==> x.key !in KeysOf(bs[i])
    ensures x.key in Apply(m, Concat(bs)) && Apply(m, Concat(bs))[x.key] == x.value
  {
    var before := bs[..j];
    var after := bs[j + 1..];
    assert bs == (before + [bs[j]]) + after;
    ConcatAppend(before + [bs[j]], after);
    assert (before + [bs[j]])[..|before|] == before;
    var head := Concat(before) + bs[j];
    ApplyConcat(m, head, Concat(after));
    ApplyConcat(m, Concat(before), bs[j]);
    ApplyDistinct(Apply(m, Concat(before)), bs[j]);
    ConcatKeys(after, x.key);
    forall i | 0 <= i < |after| ensures x.key !in KeysOf(after[i]) {
      assert after[i] == bs[j + 1 + i];
    }
    ApplyUntouched(Apply(m, head), Concat(after), x.key);
  }

  /** Concatenating two write lists with disjoint keys keeps every key distinct. */
  lemma DistinctConcat(a: seq<Write>, b: seq<Write>)
    requires DistinctKeys(a) && DistinctKeys(b)
    requires KeysOf(a) !! KeysOf(b)
    ensures DistinctKeys(a + b)
  {
    forall i, j | 0 <= i < j < |a + b| ensures (a + b)[i].key != (a + b)[j].key {
      if i < |a| && j >= |a| {
        assert (a + b)[i] == a[i] && (a + b)[j] == b[j - |a|];
        assert a[i] in a && b[j - |a|] in b;
        assert a[i].key in KeysOf(a) && b[j - |a|].key in KeysOf(b);
      } else if j < |a| {
        assert (a + b)[i] == a[i] && (a + b)[j] == a[j];
      } else {
        assert (a + b)[i] == b[i - |a|] && (a + b)[j] == b[j - |a|];
      }
    }
  }

  /** The variable sink of one request. It keeps every `Set` in order; its
      content is the initial map with the log applied, so a later write of a
      key replaces an earlier one, as an assignment into Caddy's map does. */
  class Replacer {
    const initial: map<string, Value>
    var log: seq<Write>

    /** The current content of the sink. */
    function Vars(): map<string, Value>
      reads this
    {
      Apply(initial, log)
    }

    constructor (initialVars: map<string, Value>)
      ensures initial == initialVars && log == []
      ensures Vars() == initialVars
    {
      initial := initialVars;
      log := [];
    }

    /** `repl.Set(key, value)`. */
    method Set(key: string, value: Value)
      modifies this
      ensures log == old(log) + [Write(key, value)]
    {
      log := log + [Write(key, value)];
    }

    /** `repl.Get(key)`. */
    function Get(key: string): (r: Option<Value>)
      reads this
      ensures r.Some? <==> key in Vars()
      ensures r.Some? ==> r.value == Vars()[key]
    {
      if key in Vars() then Some(Vars()[key]) else None
    }
  }
}
