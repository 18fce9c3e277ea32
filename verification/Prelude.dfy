/** Small definitions every other module uses. */
module Prelude {
  /** The canonical text of a UUID, or the hash of a token. */
  type Id = string

  /** A moment, in whole seconds. */
  type Time = nat

  datatype Option<+T> = None | Some(value: T) {
    function GetOr(default: T): T {
      if Some? then value else default
    }
  }

  /** What a service call hands back: a value, or the HTTP status of the exception it raised.
      A database error nobody catches is a 500. */
  datatype Result<+T> = Ok(value: T) | Err(status: int) {
    predicate IsFailure() { Err? }

    function PropagateFailure<U>(): Result<U>
      requires Err?
    {
      Err(status)
    }

    function Extract(): T
      requires Ok?
    {
      value
    }
  }

  function Min(a: int, b: int): (m: int)
    ensures m <= a && m <= b && (m == a || m == b)
  {
    if a <= b then a else b
  }

  ghost predicate NoDup<T>(s: seq<T>) {
    forall i, j :: 0 <= i < j < |s| ==> s[i] != s[j]
  }

  ghost function Elements<T>(s: seq<T>): set<T> {
    set x | x in s
  }

  lemma {:induction false} NoDupSize<T>(s: seq<T>)
    requires NoDup(s)
    ensures |Elements(s)| == |s|
  {
    if s == [] {
    } else {
      var last := |s| - 1;
      NoDupSize(s[..last]);
      assert s == s[..last] + [s[last]];
      assert Elements(s) == Elements(s[..last]) + {s[last]};
    }
  }

  /** An injection into a set cannot come from a larger one. */
  lemma {:induction false} InjectionSize<A, B>(from: set<A>, into: set<B>, f: map<A, B>)
    requires forall a :: a in from ==> a in f && f[a] in into
    requires forall a, b :: a in from && b in from && f[a] == f[b] ==> a == b
    ensures |from| <= |into|
  {
    if from == {} {
    } else {
      var a :| a in from;
      InjectionSize(from - {a}, into - {f[a]}, f);
    }
  }

  lemma SubsetSize<T>(a: set<T>, b: set<T>)
    requires a <= b
    ensures |a| <= |b|
    ensures |a| == |b| ==> a == b
  {
    assert b == a + (b - a);
    assert |b| == |a| + |b - a|;
  }
}
