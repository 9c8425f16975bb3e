/**
 * Playlist looping: the command-line URIs are played in order and playback
 * wraps back to the first URI after the last one.
 */
module Playlist {
  import opened PlayerTypes

  /** A C `argv`: `argc` strings followed by the NULL terminator. */
  ghost predicate CommandLine(argv: seq<Option<string>>)
  {
    && |argv| >= 1
    && argv[|argv| - 1].None?
    && forall i | 0 <= i < |argv| - 1 :: argv[i].Some?
  }

  /** `argc`: the number of strings before the terminator. */
  function Argc(argv: seq<Option<string>>): nat
    requires |argv| >= 1
  {
    |argv| - 1
  }

  /**
   * The index `on_about_to_finish` moves to: the next argument, or back to the
   * first URI (index 1) when the next slot is the NULL terminator. The result
   * always names a URI.
   */
  function NextUri(argv: seq<Option<string>>, current: nat): (next: nat)
    requires CommandLine(argv) && 1 <= current < Argc(argv)
    ensures 1 <= next < Argc(argv)
    ensures argv[next].Some?
    ensures next == if current + 1 < Argc(argv) then current + 1 else 1
  {
    if argv[current + 1].None? then 1 else current + 1
  }

  /** The index after `k` more tracks have finished. */
  function Advance(argv: seq<Option<string>>, current: nat, k: nat): (index: nat)
    requires CommandLine(argv) && 1 <= current < Argc(argv)
    ensures 1 <= index < Argc(argv)
  {
    if k == 0 then current else NextUri(argv, Advance(argv, current, k - 1))
  }

  lemma MulAtLeast(d: int, n: nat)
    requires d >= 1
    ensures d * n >= n
  {
    if d > 1 { MulAtLeast(d - 1, n); assert d * n == (d - 1) * n + n; }
  }

  /** A quotient and remainder in range are the ones `/` and `%` compute. */
  lemma ModUnique(a: int, q: int, r: int, n: nat)
    requires n > 0 && 0 <= r < n && a == q * n + r
    ensures a % n == r
  {
    var q', r' := a / n, a % n;
    assert (q - q') * n == r' - r;
    if q > q' {
      MulAtLeast(q - q', n);
    } else if q < q' {
      MulAtLeast(q' - q, n);
    }
  }

  lemma ModSucc(a: nat, n: nat)
    requires n > 0
    ensures (a + 1) % n == if a % n + 1 < n then a % n + 1 else 0
  {
    var q, r := a / n, a % n;
    if r + 1 < n {
      ModUnique(a + 1, q, r + 1, n);
    } else {
      assert a + 1 == (q + 1) * n + 0;
      ModUnique(a + 1, q + 1, 0, n);
    }
  }

  /**
   * The playlist cycles: after `k` finished tracks, starting from URI `current`,
   * the player is on URI 1 + (current - 1 + k) mod (argc - 1), so every URI is
   * played in turn and the order repeats forever.
   */
  lemma {:induction false} AdvanceCycles(argv: seq<Option<string>>, current: nat, k: nat)
    requires CommandLine(argv) && 1 <= current < Argc(argv)
    ensures Advance(argv, current, k) == 1 + (current - 1 + k) % (Argc(argv) - 1)
  {
    var n := Argc(argv) - 1;
    if k == 0 {
      ModUnique(current - 1, 0, current - 1, n);
    } else {
      var prev := Advance(argv, current, k - 1);
      assert Advance(argv, current, k) == NextUri(argv, prev);
      AdvanceCycles(argv, current, k - 1);
      var m := (current - 1 + (k - 1)) % n;
      assert prev == 1 + m;
      ModSucc(current - 1 + (k - 1), n);
      assert (current - 1 + k) % n == if m + 1 < n then m + 1 else 0;
    }
  }
}
