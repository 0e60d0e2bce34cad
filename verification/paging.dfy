/**
 * Wrap-around paging of the two card screens' tap zones: the left zone asks
 * the list for the previous card, the right zone for the next one, and both
 * wrap around at the ends. The expressions are written for any index and
 * length, as the screens write them; the lemmas say what they mean on a
 * valid index of a non-empty list.
 */
module Paging {

  /** `index - 1 < 0 ? n - 1 : index - 1` */
  function Prev(index: int, n: int): (r: int)
    ensures 0 <= index < n ==> 0 <= r < n && r == (index - 1) % n
  {
    if index - 1 < 0 then n - 1 else index - 1
  }

  /** `index + 1 > n - 1 ? 0 : index + 1` */
  function Next(index: int, n: int): (r: int)
    ensures 0 <= index < n ==> 0 <= r < n && r == (index + 1) % n
  {
    if index + 1 > n - 1 then 0 else index + 1
  }

  /** The two zones undo each other on every valid index. */
  lemma PrevNextInverse(index: int, n: int)
    requires 0 <= index < n
    ensures Next(Prev(index, n), n) == index
    ensures Prev(Next(index, n), n) == index
  {
  }

  /** `k` taps on the right zone starting from `index`. */
  function NextTimes(index: int, n: int, k: nat): int {
    if k == 0 then index else Next(NextTimes(index, n, k - 1), n)
  }

  /** Before the wrap, `k` taps on the right zone advance the index by `k`. */
  lemma {:induction false} NextTimesAdvance(index: int, n: int, k: nat)
    requires 0 <= index && index + k < n
    ensures NextTimes(index, n, k) == index + k
  {
    if k > 0 {
      NextTimesAdvance(index, n, k - 1);
    }
  }

  /** Tapping `a` times and then `b` times is tapping `a + b` times. */
  lemma {:induction false} NextTimesAdd(index: int, n: int, a: nat, b: nat)
    ensures NextTimes(index, n, a + b) == NextTimes(NextTimes(index, n, a), n, b)
  {
    if b > 0 {
      NextTimesAdd(index, n, a, b - 1);
    }
  }

  /** `n` taps on the right zone come back to the starting card. */
  lemma NextCycle(index: int, n: int)
    requires 0 <= index < n
    ensures NextTimes(index, n, n) == index
  {
    NextTimesAdvance(index, n, n - index - 1);
    assert NextTimes(index, n, n - index) == 0;
    NextTimesAdd(index, n, n - index, index);
    NextTimesAdvance(0, n, index);
  }
}
