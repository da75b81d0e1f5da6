/**
 Sequence vocabulary shared by every stage: concatenation of pieces, and the
 one way of cutting a sequence into full blocks plus a short remainder.
 */
module Sequences {

  datatype Option<+T> = None | Some(value: T) {
    function UnwrapOr(default: T): T {
      if Some? then value else default
    }
  }

  lemma ConcatAssociative<T>(a: seq<T>, b: seq<T>, c: seq<T>)
    ensures (a + b) + c == a + (b + c)
  {
  }

  lemma SameBehind<T>(front: seq<T>, behind: seq<T>, otherFront: seq<T>, other: seq<T>)
    requires front + behind == otherFront + other
    ensures |front| == |otherFront| ==> behind == other
  {
    assert (front + behind)[|front|..] == behind && (otherFront + other)[|otherFront|..] == other;
  }

  lemma PrefixThrough<T>(s: seq<T>, front: seq<T>, shorter: seq<T>, longer: seq<T>)
    requires s <= front + shorter && shorter <= longer
    ensures s <= front + longer
  {
    assert front + longer == (front + shorter) + longer[|shorter|..];
  }

  function Flatten<T>(pieces: seq<seq<T>>): seq<T> {
    if |pieces| == 0 then [] else Flatten(pieces[..|pieces| - 1]) + pieces[|pieces| - 1]
  }

  lemma FlattenAppend<T>(pieces: seq<seq<T>>, last: seq<T>)
    ensures Flatten(pieces + [last]) == Flatten(pieces) + last
  {
    assert (pieces + [last])[..|pieces|] == pieces;
  }

  lemma FlattenSingle<T>(piece: seq<T>)
    ensures Flatten([piece]) == piece
  {
    FlattenAppend([], piece);
    assert [] + [piece] == [piece];
  }

  lemma {:induction false} FlattenConcat<T>(left: seq<seq<T>>, right: seq<seq<T>>)
    ensures Flatten(left + right) == Flatten(left) + Flatten(right)
    decreases |right|
  {
    if right == [] {
      assert left + right == left;
    } else {
      var front, last := right[..|right| - 1], right[|right| - 1];
      FlattenConcat(left, front);
      assert left + right == (left + front) + [last];
      FlattenAppend(left + front, last);
      ConcatAssociative(Flatten(left), Flatten(front), last);
    }
  }

  lemma FlattenCons<T>(first: seq<T>, rest: seq<seq<T>>)
    ensures Flatten([first] + rest) == first + Flatten(rest)
  {
    FlattenConcat([first], rest);
    FlattenSingle(first);
  }

  lemma FlattenPrefix<T>(pieces: seq<seq<T>>, n: nat)
    requires n <= |pieces|
    ensures Flatten(pieces[..n]) <= Flatten(pieces)
  {
    hide Flatten;
    var front, back := pieces[..n], pieces[n..];
    FlattenConcat(front, back);
    assert front + back == pieces;
  }

  /** The full blocks of `n` elements at the front of `s`. */
  function Chunks<T>(s: seq<T>, n: nat): (blocks: seq<seq<T>>)
    requires n > 0
    ensures forall i :: 0 <= i < |blocks| ==> |blocks[i]| == n
  {
    if |s| < n then [] else [s[..n]] + Chunks(s[n..], n)
  }

  /** What is left of `s` after its full blocks of `n` elements. */
  function Rest<T>(s: seq<T>, n: nat): (rest: seq<T>)
    requires n > 0
    ensures |rest| < n
  {
    if |s| < n then s else Rest(s[n..], n)
  }

  lemma FlattenFirst<T>(first: seq<T>, blocks: seq<seq<T>>, rest: seq<T>, tail: seq<T>)
    requires Flatten(blocks) + rest == tail
    ensures Flatten([first] + blocks) + rest == first + tail
  {
    hide Flatten;
    FlattenCons(first, blocks);
    ConcatAssociative(first, Flatten(blocks), rest);
  }

  lemma {:induction false} ChunksPartition<T>(s: seq<T>, n: nat)
    requires n > 0
    ensures Flatten(Chunks(s, n)) + Rest(s, n) == s
  {
    if |s| < n {
      assert [] + s == s;
    } else {
      var first, tail := s[..n], s[n..];
      ChunksPartition(tail, n);
      FlattenFirst(first, Chunks(tail, n), Rest(tail, n), tail);
      assert first + tail == s;
    }
  }

  /** Any cut into full blocks and a short remainder is the cut made by `Chunks` and `Rest`. */
  lemma {:induction false} ChunksUnique<T>(s: seq<T>, n: nat, blocks: seq<seq<T>>, rest: seq<T>)
    requires n > 0
    requires forall i :: 0 <= i < |blocks| ==> |blocks[i]| == n
    requires |rest| < n
    requires Flatten(blocks) + rest == s
    ensures Chunks(s, n) == blocks && Rest(s, n) == rest
    decreases |blocks|
  {
    if blocks == [] {
      assert s == rest;
    } else {
      var tail := blocks[1..];
      assert blocks == [blocks[0]] + tail;
      FlattenCons(blocks[0], tail);
      assert s == blocks[0] + (Flatten(tail) + rest);
      ChunksUnique(s[n..], n, tail, rest);
    }
  }

  lemma ChunksSnoc<T>(s: seq<T>, n: nat, x: T)
    requires n > 0
    ensures |Rest(s, n)| + 1 < n ==>
              Chunks(s + [x], n) == Chunks(s, n) && Rest(s + [x], n) == Rest(s, n) + [x]
    ensures |Rest(s, n)| + 1 == n ==>
              Chunks(s + [x], n) == Chunks(s, n) + [Rest(s, n) + [x]] && Rest(s + [x], n) == []
  {
    var blocks, rest := Chunks(s, n), Rest(s, n);
    ChunksPartition(s, n);
    if |rest| + 1 < n {
      assert Flatten(blocks) + (rest + [x]) == s + [x];
      ChunksUnique(s + [x], n, blocks, rest + [x]);
    } else {
      FlattenAppend(blocks, rest + [x]);
      assert Flatten(blocks + [rest + [x]]) + [] == s + [x];
      ChunksUnique(s + [x], n, blocks + [rest + [x]], []);
    }
  }

  /** Reading more input only adds blocks after the ones already cut. */
  lemma {:induction false} ChunksMonotonic<T>(s: seq<T>, t: seq<T>, n: nat)
    requires n > 0
    ensures Chunks(s, n) <= Chunks(s + t, n)
  {
    if |s| >= n {
      assert (s + t)[..n] == s[..n] && (s + t)[n..] == s[n..] + t;
      ChunksMonotonic(s[n..], t, n);
    }
  }

  /** The elements that `pick` takes, in order. */
  function FilterMap<S, T>(s: seq<S>, pick: S -> Option<T>): seq<T> {
    if s == [] then [] else (if pick(s[0]).Some? then [pick(s[0]).value] else []) + FilterMap(s[1..], pick)
  }

  lemma {:induction false} FilterMapConcat<S, T>(left: seq<S>, right: seq<S>, pick: S -> Option<T>)
    ensures FilterMap(left + right, pick) == FilterMap(left, pick) + FilterMap(right, pick)
  {
    if left == [] {
      assert left + right == right;
    } else {
      assert (left + right)[1..] == left[1..] + right;
      FilterMapConcat(left[1..], right, pick);
      var first := if pick(left[0]).Some? then [pick(left[0]).value] else [];
      ConcatAssociative(first, FilterMap(left[1..], pick), FilterMap(right, pick));
    }
  }

  lemma FilterMapOne<S, T>(x: S, pick: S -> Option<T>)
    ensures FilterMap([x], pick) == if pick(x).Some? then [pick(x).value] else []
  {
    assert FilterMap([x][1..], pick) == [];
  }

  function Repeat<T>(x: T, n: nat): (s: seq<T>)
    ensures |s| == n
    ensures forall i :: 0 <= i < n ==> s[i] == x
  {
    seq(n, _ => x)
  }
}
