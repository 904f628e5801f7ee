/** The two JavaScript array built-ins the notification queue is managed with:
    `indexOf`, a search by strict (identity) equality, and `splice(start, 1)`,
    which removes at most one element at a position computed from `start`
    (a negative `start` counts back from the end of the array). */
module JsArray {

  /** No element occurs twice. */
  ghost predicate NoDuplicates<T>(s: seq<T>) {
    forall i, j :: 0 <= i < j < |s| ==> s[i] != s[j]
  }

  /** `s.indexOf(x)`: the first index holding `x`, or -1 when there is none. */
  function IndexOf<T(==)>(s: seq<T>, x: T): (i: int)
    ensures -1 <= i < |s|
    ensures i == -1 <==> x !in s
    ensures 0 <= i ==> s[i] == x && x !in s[..i]
  {
    if s == [] then -1
    else if s[0] == x then 0
    else
      var j := IndexOf(s[1..], x);
      if j == -1 then -1
      else
        assert s[..j + 1] == [s[0]] + s[1..][..j];
        j + 1
  }

  /** The position at which `splice(start, ...)` starts on an array of
      length `len`: a negative start is taken from the end and clamped at 0,
      a start past the end is clamped at `len`. */
  function SpliceStart(len: nat, start: int): (k: nat)
    ensures k <= len
    ensures 0 <= start < len ==> k == start
    ensures start == -1 && len > 0 ==> k == len - 1
    ensures len == 0 ==> k == 0
  {
    if start < 0 then (if len + start < 0 then 0 else len + start)
    else if start < len then start
    else len
  }

  /** The array `s.splice(start, 1)` leaves behind: the element at
      SpliceStart is taken out, and nothing when that position is the end. */
  function SpliceOne<T>(s: seq<T>, start: int): (r: seq<T>)
    ensures |r| == if SpliceStart(|s|, start) < |s| then |s| - 1 else |s|
    ensures forall i :: 0 <= i < SpliceStart(|s|, start) ==> r[i] == s[i]
    ensures forall i :: SpliceStart(|s|, start) <= i < |r| ==> r[i] == s[i + 1]
  {
    var k := SpliceStart(|s|, start);
    if k < |s| then s[..k] + s[k + 1..] else s
  }

  /** `q.splice(q.indexOf(x), 1)`, the removal that both the expiry timer and
      the dismiss handler perform. Whether or not `x` is queued, a non-empty
      queue always loses exactly one element. */
  function RemoveByIdentity<T(==)>(q: seq<T>, x: T): (r: seq<T>)
    ensures |r| == if q == [] then 0 else |q| - 1
    ensures multiset(r) <= multiset(q)
  {
    var k := SpliceStart(|q|, IndexOf(q, x));
    assert k < |q| ==> q == q[..k] + [q[k]] + q[k + 1..];
    SpliceOne(q, IndexOf(q, x))
  }

  /** A queued record is removed at its own index: the entries before and
      after it keep their order, and with no duplicates it is gone. */
  lemma RemovePresent<T>(q: seq<T>, x: T)
    requires x in q
    ensures var i := IndexOf(q, x);
      q[i] == x && RemoveByIdentity(q, x) == q[..i] + q[i + 1..]
    ensures multiset(RemoveByIdentity(q, x)) == multiset(q) - multiset{x}
    ensures NoDuplicates(q) ==> x !in RemoveByIdentity(q, x)
  {
    var i := IndexOf(q, x);
    assert q == q[..i] + [x] + q[i + 1..];
    if NoDuplicates(q) {
      var r := RemoveByIdentity(q, x);
      forall j | 0 <= j < |r| ensures r[j] != x {
        if j < i {
          assert r[j] == q[j];
        } else {
          assert r[j] == q[j + 1];
        }
      }
    }
  }

  /** A record that is no longer queued turns `indexOf` into -1, and
      `splice(-1, 1)` removes the LAST entry of a non-empty queue. */
  lemma RemoveAbsent<T>(q: seq<T>, x: T)
    requires x !in q
    ensures RemoveByIdentity(q, x) == if q == [] then [] else q[..|q| - 1]
  {
  }

  /** Removing one entry keeps a queue free of duplicates. */
  lemma RemoveKeepsNoDuplicates<T>(q: seq<T>, x: T)
    requires NoDuplicates(q)
    ensures NoDuplicates(RemoveByIdentity(q, x))
  {
    var r := RemoveByIdentity(q, x);
    var k := SpliceStart(|q|, IndexOf(q, x));
    if k < |q| {
      assert r == q[..k] + q[k + 1..];
      forall i, j | 0 <= i < j < |r| ensures r[i] != r[j] {
        var i' := if i < k then i else i + 1;
        var j' := if j < k then j else j + 1;
        assert r[i] == q[i'] && r[j] == q[j'] && i' < j';
      }
    }
  }

  /** The removal run a second time for the same record (a dismissal followed
      by the record's own timer) takes away a second, different entry. */
  lemma RemoveTwiceDropsAnother<T>(q: seq<T>, x: T)
    requires NoDuplicates(q) && x in q && |q| >= 2
    ensures var once := RemoveByIdentity(q, x);
      x !in once && RemoveByIdentity(once, x) == once[..|once| - 1]
    ensures |RemoveByIdentity(RemoveByIdentity(q, x), x)| == |q| - 2
  {
    RemovePresent(q, x);
    RemoveAbsent(RemoveByIdentity(q, x), x);
  }

  /** The smallest witness: with two distinct records queued, dismissing the
      first and then letting its timer fire leaves the queue empty, although
      the second record was never dismissed and its timer has not fired. */
  lemma StaleTimerEmptiesQueue<T>(a: T, b: T)
    requires a != b
    ensures RemoveByIdentity([a, b], a) == [b]
    ensures RemoveByIdentity([b], a) == []
  {
    assert IndexOf([a, b], a) == 0;
    assert IndexOf([b], a) == -1;
  }

  /** The removal the timer and the dismiss handler evidently intend: take
      the record out when it is queued, and leave the queue alone otherwise. */
  function RemoveIfPresent<T(==)>(q: seq<T>, x: T): (r: seq<T>)
    ensures x !in q ==> r == q
    ensures x in q ==> |r| == |q| - 1 && multiset(r) == multiset(q) - multiset{x}
    ensures x in q ==> r == RemoveByIdentity(q, x)
  {
    var i := IndexOf(q, x);
    if i < 0 then q
    else
      assert q == q[..i] + [x] + q[i + 1..];
      q[..i] + q[i + 1..]
  }

  /** With the intended removal, a dismissal followed by the record's timer
      has the effect of the dismissal alone. */
  lemma {:induction false} RemoveIfPresentIdempotent<T>(q: seq<T>, x: T)
    requires NoDuplicates(q)
    ensures RemoveIfPresent(RemoveIfPresent(q, x), x) == RemoveIfPresent(q, x)
  {
    if x in q {
      MultiplicityOne(q, x);
      assert multiset(RemoveIfPresent(q, x))[x] == 0;
    }
  }

  /** In a sequence without duplicates every member occurs exactly once. */
  lemma {:induction false} MultiplicityOne<T>(q: seq<T>, x: T)
    requires NoDuplicates(q) && x in q
    ensures multiset(q)[x] == 1
  {
    assert q == [q[0]] + q[1..];
    if q[0] == x {
      assert x !in q[1..];
      assert multiset(q[1..])[x] == 0;
    } else {
      assert NoDuplicates(q[1..]) by {
        forall i, j | 0 <= i < j < |q[1..]| ensures q[1..][i] != q[1..][j] {
          assert q[1..][i] == q[i + 1] && q[1..][j] == q[j + 1];
        }
      }
      MultiplicityOne(q[1..], x);
    }
  }
}
