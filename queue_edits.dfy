/**
 * The bounds-checked, 1-indexed edits of a guild's queue done by the
 * `remove`, `move` and `swap` commands. Each answers None ("Invalid
 * position(s).") when a position lies outside 1..len(q); the queue then stays
 * as it was.
 */
module QueueEdits {
  import opened Wrappers

  /** A 1-based queue position the commands accept. */
  predicate InRange<T>(q: seq<T>, pos: int)
  {
    1 <= pos <= |q|
  }

  /** s with the element at 0-based index k taken out. */
  function Without<T>(s: seq<T>, k: nat): seq<T>
    requires k < |s|
  {
    s[..k] + s[k + 1..]
  }

  /** Taking an element out leaves the multiset minus that element. */
  lemma WithoutMultiset<T>(s: seq<T>, k: nat)
    requires k < |s|
    ensures multiset(Without(s, k)) + multiset{s[k]} == multiset(s)
  {
    assert s == s[..k] + [s[k]] + s[k + 1..];
  }

  /** The queue after `q.pop(idx - 1)` and the entry it returned. */
  datatype Removal<T> = Removal(rest: seq<T>, removed: T)

  /** `remove idx`. */
  function RemoveAt<T>(q: seq<T>, idx: int): (r: Option<Removal<T>>)
    ensures r.None? <==> !InRange(q, idx)
    ensures r.Some? ==> r.value.removed == q[idx - 1] && |r.value.rest| == |q| - 1
    ensures r.Some? ==> forall i :: 0 <= i < idx - 1 ==> r.value.rest[i] == q[i]
    ensures r.Some? ==> forall i :: idx - 1 <= i < |q| - 1 ==> r.value.rest[i] == q[i + 1]
    ensures r.Some? ==> multiset(r.value.rest) + multiset{r.value.removed} == multiset(q)
  {
    if InRange(q, idx) then
      WithoutMultiset(q, idx - 1);
      Some(Removal(Without(q, idx - 1), q[idx - 1]))
    else None
  }

  /** `move frm to`: pop the entry at frm, then insert it before position to of what is left. */
  function Move<T>(q: seq<T>, frm: int, to: int): (r: Option<seq<T>>)
    ensures r.None? <==> !(InRange(q, frm) && InRange(q, to))
    ensures r.Some? ==> |r.value| == |q| && multiset(r.value) == multiset(q)
    ensures r.Some? ==> r.value[to - 1] == q[frm - 1]
    ensures r.Some? ==> Without(r.value, to - 1) == Without(q, frm - 1)
  {
    if InRange(q, frm) && InRange(q, to) then
      var s := q[frm - 1];
      var rest := Without(q, frm - 1);
      var moved := rest[..to - 1] + [s] + rest[to - 1..];
      assert moved[to - 1] == s;
      assert Without(moved, to - 1) == rest by {
        assert moved[..to - 1] == rest[..to - 1];
        assert moved[to..] == rest[to - 1..];
      }
      WithoutMultiset(q, frm - 1);
      WithoutMultiset(moved, to - 1);
      Some(moved)
    else None
  }

  /** `swap a b`: exchange the entries at a and b. */
  function Swap<T>(q: seq<T>, a: int, b: int): (r: Option<seq<T>>)
    ensures r.None? <==> !(InRange(q, a) && InRange(q, b))
    ensures r.Some? ==> |r.value| == |q| && multiset(r.value) == multiset(q)
    ensures r.Some? ==> r.value[a - 1] == q[b - 1] && r.value[b - 1] == q[a - 1]
    ensures r.Some? ==> forall i :: 0 <= i < |q| && i != a - 1 && i != b - 1 ==> r.value[i] == q[i]
  {
    if InRange(q, a) && InRange(q, b) then
      Some(q[a - 1 := q[b - 1]][b - 1 := q[a - 1]])
    else None
  }
}
