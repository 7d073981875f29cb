/** Order-preserving selection from a sequence. Two loops of the engine have
    this shape: the runnable-chunk selection in `runtime`, which skips entries
    with `continue`, and the stage selection in `compile_`, which calls
    `stage` only on modules where `hasattr` holds. */
module Seqs {

  /** Strictly increasing positions. */
  ghost predicate Increasing(ps: seq<nat>)
  {
    forall k, l :: 0 <= k < l < |ps| ==> ps[k] < ps[l]
  }

  /** The positions below `n` of the elements of `s` that `keep` accepts, in
      order: what a loop over the first `n` elements has collected. */
  function Positions<T>(s: seq<T>, n: nat, keep: T -> bool): (ps: seq<nat>)
    requires n <= |s|
    ensures |ps| <= n
    ensures forall k :: 0 <= k < |ps| ==> ps[k] < n && keep(s[ps[k]])
    ensures forall j :: 0 <= j < n && keep(s[j]) ==> j in ps
    ensures Increasing(ps)
  {
    if n == 0 then []
    else
      var front := Positions(s, n - 1, keep);
      if keep(s[n - 1]) then front + [n - 1] else front
  }

  /** The selection loop: walk `s` once from the front, collecting the
      position of every element `keep` accepts. */
  method Select<T>(s: seq<T>, keep: T -> bool) returns (ps: seq<nat>)
    ensures ps == Positions(s, |s|, keep)
  {
    ps := [];
    var i := 0;
    while i < |s|
      invariant 0 <= i <= |s|
      invariant ps == Positions(s, i, keep)
    {
      if keep(s[i]) {
        ps := ps + [i];
      }
      i := i + 1;
    }
  }

  /** The selection below `n` looks at nothing past the first `n` elements. */
  lemma {:induction false} PositionsPrefixOnly<T>(s: seq<T>, t: seq<T>, n: nat, keep: T -> bool)
    requires n <= |s| && n <= |t|
    requires forall j :: 0 <= j < n ==> s[j] == t[j]
    ensures Positions(s, n, keep) == Positions(t, n, keep)
  {
    if n > 0 {
      PositionsPrefixOnly(s, t, n - 1, keep);
    }
  }

  /** Appending one element extends the selection by that element's
      position exactly when it is kept. */
  lemma PositionsSnoc<T>(s: seq<T>, x: T, keep: T -> bool)
    ensures Positions(s + [x], |s| + 1, keep)
            == Positions(s, |s|, keep) + (if keep(x) then [|s|] else [])
  {
    PositionsPrefixOnly(s + [x], s, |s|, keep);
  }

  /** The positions below `n` of the kept elements, as a set. */
  function KeptSet<T>(s: seq<T>, n: nat, keep: T -> bool): set<nat>
    requires n <= |s|
  {
    set j: nat | j < n && keep(s[j])
  }

  /** Looking at one more element adds its position to the kept set exactly
      when it is kept. */
  lemma KeptSetSnoc<T>(s: seq<T>, n: nat, keep: T -> bool)
    requires n < |s|
    ensures KeptSet(s, n + 1, keep)
            == KeptSet(s, n, keep) + (if keep(s[n]) then {n} else {})
  {
  }

  /** The selection has one position per kept element: its length is the
      number of elements `keep` accepts. */
  lemma {:induction false} PositionsCount<T>(s: seq<T>, n: nat, keep: T -> bool)
    requires n <= |s|
    ensures |Positions(s, n, keep)| == |KeptSet(s, n, keep)|
  {
    if n > 0 {
      PositionsCount(s, n - 1, keep);
      KeptSetSnoc(s, n - 1, keep);
      assert n - 1 !in KeptSet(s, n - 1, keep);
    }
  }
}
