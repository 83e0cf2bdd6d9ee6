/**
 * Identity-based lookup and filtering over sequences of records, shared by
 * the node pass (identity = key) and the link pass (identity = from/to pair)
 * of the reconciliation in src/GojsDiagram.tsx. A record's identity is given
 * by the function `id`; records themselves are compared as values.
 */
module Identity {

  /** The set of identities carried by the records of `s`. */
  function Ids<T(==,!new), I>(s: seq<T>, id: T -> I): set<I>
  {
    set x | x in s :: id(x)
  }

  /** JavaScript's `s.findIndex(el => id(el) === k)`: the first position holding
      identity `k`, or -1 when there is none. */
  function FindIndex<T(==,!new), I(==)>(s: seq<T>, id: T -> I, k: I): (i: int)
    ensures -1 <= i < |s|
    ensures i == -1 <==> k !in Ids(s, id)
    ensures 0 <= i ==> id(s[i]) == k && forall j :: 0 <= j < i ==> id(s[j]) != k
  {
    if |s| == 0 then -1
    else if id(s[0]) == k then 0
    else
      var j := FindIndex(s[1..], id, k);
      assert Ids(s, id) == {id(s[0])} + Ids(s[1..], id) by { IdsCons(s, id); }
      if j == -1 then -1 else j + 1
  }

  /** JavaScript's `s.some(el => id(el) === k)`. */
  function Any<T(==,!new), I(==)>(s: seq<T>, id: T -> I, k: I): (b: bool)
    ensures b <==> k in Ids(s, id)
  {
    if |s| == 0 then false
    else
      assert Ids(s, id) == {id(s[0])} + Ids(s[1..], id) by { IdsCons(s, id); }
      id(s[0]) == k || Any(s[1..], id, k)
  }

  /** `xs.filter(e => from.findIndex(el => id(el) === id(e)) === -1)`: the records
      of `xs`, in their order, whose identity is absent from `from`. */
  function Missing<T(==,!new), I(==)>(xs: seq<T>, from: seq<T>, id: T -> I): (r: seq<T>)
    ensures |r| <= |xs|
    ensures forall x :: x in r <==> x in xs && id(x) !in Ids(from, id)
  {
    if |xs| == 0 then []
    else
      var rest := Missing(xs[1..], from, id);
      assert forall x :: x in xs <==> x == xs[0] || x in xs[1..];
      if FindIndex(from, id, id(xs[0])) == -1 then [xs[0]] + rest else rest
  }

  /** The engine's bulk removal: drop exactly the given records from `s`. */
  function Without<T(==,!new)>(s: seq<T>, batch: seq<T>): (r: seq<T>)
    ensures |r| <= |s|
    ensures forall x :: x in r <==> x in s && x !in batch
  {
    if |s| == 0 then []
    else
      var rest := Without(s[1..], batch);
      assert forall x :: x in s <==> x == s[0] || x in s[1..];
      if s[0] in batch then rest else [s[0]] + rest
  }

  /** The records of `s`, in their order, whose identity lies in `keep`. */
  function Retain<T(==,!new), I>(s: seq<T>, keep: set<I>, id: T -> I): (r: seq<T>)
    ensures forall x :: x in r <==> x in s && id(x) in keep
  {
    if |s| == 0 then []
    else
      var rest := Retain(s[1..], keep, id);
      assert forall x :: x in s <==> x == s[0] || x in s[1..];
      if id(s[0]) in keep then [s[0]] + rest else rest
  }

  /** One reconciliation pass of `engine` against `props`: append the props records
      whose identity the engine lacks, then remove, from the engine as it is after
      the additions, the records whose identity props lacks. */
  function Reconciled<T(==,!new), I(==)>(engine: seq<T>, props: seq<T>, id: T -> I): (r: seq<T>)
    ensures forall x :: x in r ==> (x in engine || x in props) && id(x) in Ids(props, id)
    ensures |r| <= |engine| + |props|
  {
    var added := engine + Missing(props, engine, id);
    Without(added, Missing(added, props, id))
  }

  /** No two records of `s` share an identity. */
  ghost predicate Unique<T(!new), I>(s: seq<T>, id: T -> I)
  {
    forall i, j :: 0 <= i < j < |s| ==> id(s[i]) != id(s[j])
  }

  lemma IdsCons<T(!new), I>(s: seq<T>, id: T -> I)
    requires |s| > 0
    ensures Ids(s, id) == {id(s[0])} + Ids(s[1..], id)
  {
    assert forall x :: x in s <==> x == s[0] || x in s[1..];
  }

  lemma IdsAppend<T(!new), I>(a: seq<T>, b: seq<T>, id: T -> I)
    ensures Ids(a + b, id) == Ids(a, id) + Ids(b, id)
  {
    assert forall x :: x in a + b <==> x in a || x in b;
  }

  /** Filtering commutes with concatenation, so the records to add keep the
      relative order they have in props. */
  lemma {:induction false} MissingAppend<T(!new), I>(a: seq<T>, b: seq<T>, from: seq<T>, id: T -> I)
    ensures Missing(a + b, from, id) == Missing(a, from, id) + Missing(b, from, id)
  {
    if |a| == 0 {
      assert a + b == b;
    } else {
      assert (a + b)[1..] == a[1..] + b;
      MissingAppend(a[1..], b, from, id);
    }
  }

  /** The missing records carry identities of `xs` that `from` lacks. */
  lemma MissingIds<T(!new), I>(xs: seq<T>, from: seq<T>, id: T -> I)
    ensures Ids(Missing(xs, from, id), id) <= Ids(xs, id)
    ensures Ids(Missing(xs, from, id), id) !! Ids(from, id)
  {
  }

  /** Nothing is missing exactly when every identity of `xs` occurs in `from`. */
  lemma MissingEmpty<T(!new), I>(xs: seq<T>, from: seq<T>, id: T -> I)
    ensures Missing(xs, from, id) == [] <==> Ids(xs, id) <= Ids(from, id)
  {
    var r := Missing(xs, from, id);
    if r != [] {
      assert r[0] in r;
    }
  }

  /** Removing nothing leaves the sequence as it is. */
  lemma {:induction false} WithoutNothing<T(!new)>(s: seq<T>)
    ensures Without(s, []) == s
  {
    if |s| > 0 {
      WithoutNothing(s[1..]);
    }
  }

  /** Removing a batch that holds exactly the records whose identity is outside
      `keep` is retaining the records whose identity is inside it. */
  lemma {:induction false} WithoutIsRetain<T(!new), I>(s: seq<T>, batch: seq<T>, keep: set<I>, id: T -> I)
    requires forall x :: x in s ==> (x in batch <==> id(x) !in keep)
    ensures Without(s, batch) == Retain(s, keep, id)
  {
    if |s| > 0 {
      assert forall x :: x in s[1..] ==> x in s;
      WithoutIsRetain(s[1..], batch, keep, id);
    }
  }

  lemma {:induction false} RetainAppend<T(!new), I>(a: seq<T>, b: seq<T>, keep: set<I>, id: T -> I)
    ensures Retain(a + b, keep, id) == Retain(a, keep, id) + Retain(b, keep, id)
  {
    if |a| == 0 {
      assert a + b == b;
    } else {
      assert (a + b)[1..] == a[1..] + b;
      RetainAppend(a[1..], b, keep, id);
    }
  }

  lemma {:induction false} RetainAll<T(!new), I>(s: seq<T>, keep: set<I>, id: T -> I)
    requires Ids(s, id) <= keep
    ensures Retain(s, keep, id) == s
  {
    if |s| > 0 {
      IdsCons(s, id);
      RetainAll(s[1..], keep, id);
    }
  }

  /** A pass keeps, in order, the engine records whose identity props still has,
      and appends after them exactly the props records the engine lacked: no
      surviving engine record is replaced, and nothing added is removed again. */
  lemma ReconciledShape<T(!new), I>(engine: seq<T>, props: seq<T>, id: T -> I)
    ensures Reconciled(engine, props, id)
         == Retain(engine, Ids(props, id), id) + Missing(props, engine, id)
  {
    var toAdd := Missing(props, engine, id);
    var added := engine + toAdd;
    var keep := Ids(props, id);
    WithoutIsRetain(added, Missing(added, props, id), keep, id);
    RetainAppend(engine, toAdd, keep, id);
    assert Ids(toAdd, id) <= keep;
    RetainAll(toAdd, keep, id);
  }

  /** The removal batch of a pass is exactly the engine's own records whose
      identity props lacks, in engine order: none of the records the pass has
      just added is removed again, and every engine record whose identity props
      keeps stays in the engine. */
  lemma ReconcileBatches<T(!new), I>(engine: seq<T>, props: seq<T>, id: T -> I)
    ensures var toAdd := Missing(props, engine, id);
      Missing(engine + toAdd, props, id) == Missing(engine, props, id)
    ensures var toAdd := Missing(props, engine, id);
      forall x :: x in toAdd ==> x !in Missing(engine + toAdd, props, id)
    ensures forall x :: x in engine && id(x) in Ids(props, id) ==> x in Reconciled(engine, props, id)
  {
    var toAdd := Missing(props, engine, id);
    MissingAppend(engine, toAdd, props, id);
    MissingIds(props, engine, id);
    MissingEmpty(toAdd, props, id);
    assert Missing(engine, props, id) + [] == Missing(engine, props, id);
  }

  /** After a pass the engine carries exactly the identities of props. */
  lemma ReconciledIds<T(!new), I>(engine: seq<T>, props: seq<T>, id: T -> I)
    ensures Ids(Reconciled(engine, props, id), id) == Ids(props, id)
  {
    ReconciledShape(engine, props, id);
    IdsAppend(Retain(engine, Ids(props, id), id), Missing(props, engine, id), id);
  }

  /** When the engine already carries exactly the identities of props, a pass has
      nothing to add and nothing to remove, and leaves the engine as it was. */
  lemma ReconciledIdempotent<T(!new), I>(engine: seq<T>, props: seq<T>, id: T -> I)
    requires Ids(engine, id) == Ids(props, id)
    ensures Missing(props, engine, id) == []
    ensures Missing(engine + Missing(props, engine, id), props, id) == []
    ensures Reconciled(engine, props, id) == engine
  {
    MissingEmpty(props, engine, id);
    assert engine + [] == engine;
    MissingEmpty(engine, props, id);
    WithoutNothing(engine);
  }

  /** Reconciling twice against the same props is reconciling once. */
  lemma ReconciledTwice<T(!new), I>(engine: seq<T>, props: seq<T>, id: T -> I)
    ensures Reconciled(Reconciled(engine, props, id), props, id) == Reconciled(engine, props, id)
  {
    ReconciledIds(engine, props, id);
    ReconciledIdempotent(Reconciled(engine, props, id), props, id);
  }

  lemma {:induction false} RetainUnique<T(!new), I>(s: seq<T>, keep: set<I>, id: T -> I)
    requires Unique(s, id)
    ensures Unique(Retain(s, keep, id), id)
  {
    if |s| > 0 {
      RetainUnique(s[1..], keep, id);
      var rest := Retain(s[1..], keep, id);
      if id(s[0]) in keep {
        forall j | 0 <= j < |rest| ensures id(rest[j]) != id(s[0]) {
          assert rest[j] in s[1..];
        }
      }
    }
  }

  lemma {:induction false} MissingUnique<T(!new), I>(xs: seq<T>, from: seq<T>, id: T -> I)
    requires Unique(xs, id)
    ensures Unique(Missing(xs, from, id), id)
  {
    if |xs| > 0 {
      MissingUnique(xs[1..], from, id);
      var rest := Missing(xs[1..], from, id);
      forall j | 0 <= j < |rest| ensures id(rest[j]) != id(xs[0]) {
        assert rest[j] in xs[1..];
      }
    }
  }

  /** A sequence without repeated identities has as many records as identities. */
  lemma {:induction false} UniqueCount<T(!new), I>(s: seq<T>, id: T -> I)
    requires Unique(s, id)
    ensures |Ids(s, id)| == |s|
  {
    if |s| > 0 {
      IdsCons(s, id);
      assert id(s[0]) !in Ids(s[1..], id) by {
        forall x | x in s[1..] ensures id(x) != id(s[0]) {
          var j :| 0 <= j < |s[1..]| && s[1..][j] == x;
          assert s[j + 1] == x;
        }
      }
      UniqueCount(s[1..], id);
    }
  }

  /** Two sequences without repeated identities, sharing no identity, concatenate
      to one without repeated identities. */
  lemma UniqueAppend<T(!new), I>(a: seq<T>, b: seq<T>, id: T -> I)
    requires Unique(a, id) && Unique(b, id) && Ids(a, id) !! Ids(b, id)
    ensures Unique(a + b, id)
  {
    var r := a + b;
    forall i, j | 0 <= i < j < |r| ensures id(r[i]) != id(r[j]) {
      if i < |a| <= j {
        assert r[i] == a[i] && r[j] == b[j - |a|];
        assert id(r[i]) in Ids(a, id) && id(r[j]) in Ids(b, id);
      } else if |a| <= i {
        assert r[i] == b[i - |a|] && r[j] == b[j - |a|];
      }
    }
  }

  /** When neither side repeats an identity, neither does the engine after a pass,
      and it then holds exactly as many records as props. */
  lemma ReconciledUnique<T(!new), I>(engine: seq<T>, props: seq<T>, id: T -> I)
    requires Unique(engine, id) && Unique(props, id)
    ensures Unique(Reconciled(engine, props, id), id)
    ensures |Reconciled(engine, props, id)| == |props|
  {
    var kept := Retain(engine, Ids(props, id), id);
    var toAdd := Missing(props, engine, id);
    ReconciledShape(engine, props, id);
    RetainUnique(engine, Ids(props, id), id);
    MissingUnique(props, engine, id);
    assert Ids(kept, id) <= Ids(engine, id);
    assert Ids(toAdd, id) !! Ids(engine, id);
    UniqueAppend(kept, toAdd, id);
    ReconciledIds(engine, props, id);
    UniqueCount(kept + toAdd, id);
    UniqueCount(props, id);
  }
}
