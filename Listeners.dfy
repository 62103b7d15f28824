/** The ordered list of message listeners and what delivering one record to
    them produces. A listener is an opaque callback identity; calling it is
    recorded as a notification. */
module Listeners {
  import opened Protocol

  /** The identity of a registered callback. */
  type ListenerId = nat

  /** One call of a listener with a record. */
  datatype Notification = Notification(listener: ListenerId, event: ServerResponse)

  /** The calls made when `event` is fanned out to `ls`: each entry of the
      list once, in list order (a callback registered twice is called twice). */
  function Broadcast(ls: seq<ListenerId>, event: ServerResponse): (ns: seq<Notification>)
    ensures |ns| == |ls|
    ensures forall i :: 0 <= i < |ls| ==> ns[i] == Notification(ls[i], event)
  {
    if ls == [] then [] else [Notification(ls[0], event)] + Broadcast(ls[1..], event)
  }

  /** How often `x` occurs in `ls`. */
  function Occurrences(ls: seq<ListenerId>, x: ListenerId): nat
  {
    if ls == [] then 0 else (if ls[0] == x then 1 else 0) + Occurrences(ls[1..], x)
  }

  /** The list with every occurrence of `cb` removed, the rest in order. */
  function Without(ls: seq<ListenerId>, cb: ListenerId): (r: seq<ListenerId>)
    ensures forall x :: x in r <==> x in ls && x != cb
    ensures |r| <= |ls|
  {
    if ls == [] then []
    else if ls[0] == cb then Without(ls[1..], cb)
    else [ls[0]] + Without(ls[1..], cb)
  }

  /** Removing a callback drops all of its occurrences and keeps every other
      callback as often as it was registered. */
  lemma {:induction false} WithoutCounts(ls: seq<ListenerId>, cb: ListenerId, x: ListenerId)
    ensures Occurrences(Without(ls, cb), x) == if x == cb then 0 else Occurrences(ls, x)
  {
    if ls != [] {
      WithoutCounts(ls[1..], cb, x);
      if ls[0] != cb {
        assert ([ls[0]] + Without(ls[1..], cb))[1..] == Without(ls[1..], cb);
      }
    }
  }

  /** Removal works piecewise along the list, so the survivors keep their
      relative order. */
  lemma {:induction false} WithoutDistributes(a: seq<ListenerId>, b: seq<ListenerId>, cb: ListenerId)
    ensures Without(a + b, cb) == Without(a, cb) + Without(b, cb)
  {
    if a == [] {
      assert a + b == b;
    } else {
      assert (a + b)[0] == a[0];
      assert (a + b)[1..] == a[1..] + b;
      WithoutDistributes(a[1..], b, cb);
    }
  }

  /** Removing an absent callback is a no-op, and removing twice is removing once. */
  lemma {:induction false} WithoutAbsentAndIdempotent(ls: seq<ListenerId>, cb: ListenerId)
    ensures cb !in ls ==> Without(ls, cb) == ls
    ensures Without(Without(ls, cb), cb) == Without(ls, cb)
  {
    if ls != [] {
      WithoutAbsentAndIdempotent(ls[1..], cb);
      if cb !in ls {
        assert cb !in ls[1..];
        assert ls == [ls[0]] + ls[1..];
      }
      if ls[0] != cb {
        var r := [ls[0]] + Without(ls[1..], cb);
        assert r[0] == ls[0] && r[1..] == Without(ls[1..], cb);
      }
    }
  }
}
