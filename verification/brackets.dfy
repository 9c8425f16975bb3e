/**
 * The geometry-change bracket as it shows in the trace: the subsequence of
 * begin (true) and end (false) calls, what it means for them to alternate,
 * and how many of each there are.
 */
module GeometryBrackets {
  import opened PlayerTypes

  /** The bracket mark of one action: [true] for a begin, [false] for an end, [] otherwise. */
  function BracketOf(a: Action): (b: seq<bool>)
    ensures |b| <= 1
  {
    match a
    case BeginGeometryChange(_) => [true]
    case EndGeometryChange(_) => [false]
    case _ => []
  }

  /** The begin/end calls of a trace, in order, with every other action dropped. */
  function Brackets(t: seq<Action>): seq<bool>
  {
    if t == [] then [] else Brackets(t[..|t| - 1]) + BracketOf(t[|t| - 1])
  }

  /** Begins sit at the even positions, ends at the odd ones: the calls strictly alternate, starting with a begin. */
  ghost predicate Alternating(b: seq<bool>)
  {
    forall i | 0 <= i < |b| :: b[i] == (i % 2 == 0)
  }

  /** Number of begin calls. */
  function Opens(b: seq<bool>): nat
  {
    if b == [] then 0 else Opens(b[..|b| - 1]) + (if b[|b| - 1] then 1 else 0)
  }

  /** Number of end calls. */
  function Closes(b: seq<bool>): nat
  {
    if b == [] then 0 else Closes(b[..|b| - 1]) + (if b[|b| - 1] then 0 else 1)
  }

  /** Filtering the trace commutes with appending to it. */
  lemma {:induction false} BracketsAppend(t: seq<Action>, u: seq<Action>)
    ensures Brackets(t + u) == Brackets(t) + Brackets(u)
  {
    if u == [] {
      assert t + u == t;
    } else {
      var u' := u[..|u| - 1];
      assert (t + u)[..|t + u| - 1] == t + u';
      BracketsAppend(t, u');
    }
  }

  /** The bracket marks of a short run of appended actions. */
  lemma BracketsOfPair(a: Action, b: Action)
    ensures Brackets([a]) == BracketOf(a)
    ensures Brackets([a, b]) == BracketOf(a) + BracketOf(b)
  {
    assert [a, b][..1] == [a];
    assert [a][..0] == [];
  }

  /** A stretch of trace with no begin or end call contributes no bracket marks. */
  lemma {:induction false} BracketsOfPlain(t: seq<Action>)
    requires forall a | a in t :: BracketOf(a) == []
    ensures Brackets(t) == []
  {
    if t != [] {
      var t' := t[..|t| - 1];
      assert forall a | a in t' :: a in t;
      assert t[|t| - 1] in t;
      BracketsOfPlain(t');
    }
  }

  /** Counting begins distributes over concatenation. */
  lemma {:induction false} OpensAppend(b: seq<bool>, c: seq<bool>)
    ensures Opens(b + c) == Opens(b) + Opens(c)
  {
    if c == [] {
      assert b + c == b;
    } else {
      var c' := c[..|c| - 1];
      assert (b + c)[..|b + c| - 1] == b + c';
      OpensAppend(b, c');
    }
  }

  /** In an alternating sequence there is one more begin than end exactly when its length is odd. */
  lemma {:induction false} AlternatingBalance(b: seq<bool>)
    requires Alternating(b)
    ensures Opens(b) == Closes(b) + |b| % 2
  {
    if b != [] {
      var b' := b[..|b| - 1];
      assert Alternating(b') by {
        forall i | 0 <= i < |b'| ensures b'[i] == (i % 2 == 0) {
          assert b'[i] == b[i];
        }
      }
      AlternatingBalance(b');
    }
  }

  /** Appending a begin keeps alternation exactly when no bracket is open; appending an end, exactly when one is. */
  lemma AlternatingExtend(b: seq<bool>, x: bool)
    requires Alternating(b)
    ensures Alternating(b + [x]) <==> x == (|b| % 2 == 0)
  {
    if x == (|b| % 2 == 0) {
      forall i | 0 <= i < |b + [x]| ensures (b + [x])[i] == (i % 2 == 0) {
        if i < |b| { assert (b + [x])[i] == b[i]; }
      }
    } else {
      assert (b + [x])[|b|] == x;
    }
  }
}
