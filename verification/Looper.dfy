/** The message queue every event handler of authentication runs from: a list kept in due-time order. */
module Looper {
  datatype Msg<T> = Msg(time: int, body: T)

  /** Where a message due at `t` goes: in front of the first one that is due strictly later. */
  function Slot<T>(q: seq<Msg<T>>, t: int): (k: nat)
    ensures k <= |q|
    ensures forall i | 0 <= i < k :: q[i].time <= t
    ensures k < |q| ==> t < q[k].time
  {
    if q == [] || q[0].time > t then 0 else 1 + Slot(q[1..], t)
  }

  /** PostMessageAtTime. */
  function Post<T>(q: seq<Msg<T>>, m: Msg<T>): (r: seq<Msg<T>>)
    ensures |r| == |q| + 1
  {
    var k := Slot(q, m.time);
    q[..k] + [m] + q[k..]
  }

  /** RemoveMessageCustom: every message with this body goes. */
  function Without<T(==)>(q: seq<Msg<T>>, x: T): (r: seq<Msg<T>>)
    ensures |r| <= |q|
  {
    if q == [] then []
    else if q[0].body == x then Without(q[1..], x)
    else [q[0]] + Without(q[1..], x)
  }

  function Count<T(==)>(q: seq<Msg<T>>, x: T): nat {
    if q == [] then 0 else (if q[0].body == x then 1 else 0) + Count(q[1..], x)
  }

  ghost predicate Sorted<T>(q: seq<Msg<T>>) {
    forall i, j | 0 <= i < j < |q| :: q[i].time <= q[j].time
  }

  /** The messages a reader is concerned with, in queue order. */
  function Sub<T>(q: seq<Msg<T>>, p: T -> bool): seq<T> {
    if q == [] then [] else (if p(q[0].body) then [q[0].body] else []) + Sub(q[1..], p)
  }

  /** A sorted queue stays sorted, and everything behind the new message is due strictly later, so messages
      with one due time are served in posting order. */
  lemma PostKeepsOrder<T>(q: seq<Msg<T>>, m: Msg<T>)
    requires Sorted(q)
    ensures Sorted(Post(q, m))
    ensures forall i | Slot(q, m.time) <= i < |q| :: m.time < q[i].time
  {
    var k, r := Slot(q, m.time), Post(q, m);
    BehindIsLater(q, m.time);
    PostIndices(q, m);
    hide Slot, Post, Sorted;
    InsertKeepsOrder(q, k, m, r);
  }

  lemma BehindIsLater<T>(q: seq<Msg<T>>, t: int)
    requires Sorted(q)
    ensures forall i | Slot(q, t) <= i < |q| :: t < q[i].time
  {
    hide Slot;
    var k := Slot(q, t);
    forall i | k <= i < |q| ensures t < q[i].time {
      assert q[k].time <= q[i].time;
    }
  }

  lemma PostIndices<T>(q: seq<Msg<T>>, m: Msg<T>)
    ensures var k, r := Slot(q, m.time), Post(q, m);
            && r[k] == m
            && (forall i | 0 <= i < k :: q[i].time <= m.time && r[i] == q[i])
            && (forall i | k <= i < |q| :: r[i + 1] == q[i])
  {
    hide Slot;
    var k, r := Slot(q, m.time), Post(q, m);
    forall i | 0 <= i < k ensures r[i] == q[i] {
      InsertedAt(q, k, m, i);
    }
    forall i | k <= i < |q| ensures r[i + 1] == q[i] {
      InsertedAt(q, k, m, i);
    }
  }

  lemma InsertedAt<T>(q: seq<T>, k: nat, m: T, i: nat)
    requires k <= |q| && i < |q|
    ensures (q[..k] + [m] + q[k..])[if i < k then i else i + 1] == q[i]
  {
  }

  lemma InsertKeepsOrder<T>(q: seq<Msg<T>>, k: nat, m: Msg<T>, r: seq<Msg<T>>)
    requires Sorted(q) && k <= |q| && |r| == |q| + 1
    requires forall i | 0 <= i < k :: q[i].time <= m.time && r[i] == q[i]
    requires forall i | k <= i < |q| :: m.time <= q[i].time && r[i + 1] == q[i]
    requires r[k] == m
    ensures Sorted(r)
  {
    forall i, j | 0 <= i < j < |r| ensures r[i].time <= r[j].time {
      if k < i {
        assert r[i] == q[i - 1] && r[j] == q[j - 1];
      } else if k < j {
        assert r[j] == q[j - 1];
      }
    }
  }

  lemma PostTail<T>(q: seq<Msg<T>>, m: Msg<T>)
    requires q != []
    ensures Post(q, m)[1..] == if q[0].time > m.time then q else Post(q[1..], m)
    ensures Post(q, m)[0] == if q[0].time > m.time then m else q[0]
  {
  }

  lemma TailKeepsOrder<T>(q: seq<Msg<T>>)
    requires Sorted(q) && q != []
    ensures Sorted(q[1..])
  {
  }

  lemma {:induction false} WithoutSubset<T>(q: seq<Msg<T>>, x: T)
    ensures forall m | m in Without(q, x) :: m in q && m.body != x
  {
    if q != [] {
      WithoutSubset(q[1..], x);
    }
  }

  lemma {:induction false} WithoutKeepsOrder<T>(q: seq<Msg<T>>, x: T)
    requires Sorted(q)
    ensures Sorted(Without(q, x))
  {
    if q != [] {
      WithoutKeepsOrder(q[1..], x);
      WithoutSubset(q[1..], x);
    }
  }

  lemma {:induction false} CountPost<T>(q: seq<Msg<T>>, m: Msg<T>, x: T)
    ensures Count(Post(q, m), x) == Count(q, x) + (if m.body == x then 1 else 0)
  {
    if q != [] {
      PostTail(q, m);
      CountPost(q[1..], m, x);
    }
  }

  lemma {:induction false} CountWithout<T>(q: seq<Msg<T>>, x: T, y: T)
    ensures Count(Without(q, x), y) == if x == y then 0 else Count(q, y)
  {
    if q != [] {
      CountWithout(q[1..], x, y);
      if q[0].body != x {
        assert Without(q, x)[1..] == Without(q[1..], x);
      }
    }
  }

  // ---------- one reader's view ----------

  lemma {:induction false} SubConcat<T>(a: seq<Msg<T>>, b: seq<Msg<T>>, p: T -> bool)
    ensures Sub(a + b, p) == Sub(a, p) + Sub(b, p)
  {
    if a == [] {
      assert a + b == b;
    } else {
      var one := if p(a[0].body) then [a[0].body] else [];
      assert (a + b)[1..] == a[1..] + b && (a + b)[0] == a[0];
      SubConcat(a[1..], b, p);
      assert one + (Sub(a[1..], p) + Sub(b, p)) == one + Sub(a[1..], p) + Sub(b, p);
    }
  }

  lemma SubTail<T>(q: seq<Msg<T>>, p: T -> bool)
    requires q != []
    ensures p(q[0].body) ==> |Sub(q, p)| == 1 + |Sub(q[1..], p)| && Sub(q, p)[0] == q[0].body
                             && Sub(q, p)[1..] == Sub(q[1..], p)
    ensures !p(q[0].body) ==> Sub(q, p) == Sub(q[1..], p)
  {
  }

  /** Posting puts the message somewhere into the view of whoever it concerns, and leaves other views alone. */
  lemma SubPost<T>(q: seq<Msg<T>>, m: Msg<T>, p: T -> bool)
    ensures Sub(q, p) == Sub(q[..Slot(q, m.time)], p) + Sub(q[Slot(q, m.time)..], p)
    ensures !p(m.body) ==> Sub(Post(q, m), p) == Sub(q, p)
    ensures p(m.body) ==>
              Sub(Post(q, m), p) == Sub(q[..Slot(q, m.time)], p) + ([m.body] + Sub(q[Slot(q, m.time)..], p))
  {
    hide Slot;
    var k := Slot(q, m.time);
    assert q == q[..k] + q[k..];
    assert Post(q, m) == q[..k] + ([m] + q[k..]);
    SubConcat(q[..k], q[k..], p);
    SubConcat(q[..k], [m] + q[k..], p);
    assert ([m] + q[k..])[1..] == q[k..];
  }

  lemma {:induction false} SubWithout<T>(q: seq<Msg<T>>, x: T, p: T -> bool)
    ensures !p(x) ==> Sub(Without(q, x), p) == Sub(q, p)
    ensures |Sub(q, p)| == 0 ==> |Sub(Without(q, x), p)| == 0
    ensures |Sub(q, p)| == 1 && Sub(q, p)[0] == x ==> |Sub(Without(q, x), p)| == 0
  {
    if q != [] {
      SubTail(q, p);
      SubWithout(q[1..], x, p);
      if q[0].body != x {
        assert Without(q, x)[1..] == Without(q[1..], x);
        SubTail(Without(q, x), p);
      }
    }
  }

  lemma {:induction false} SubAt<T>(q: seq<Msg<T>>, i: nat, p: T -> bool)
    requires i < |q| && p(q[i].body)
    ensures |Sub(q, p)| > 0
  {
    if i > 0 {
      SubAt(q[1..], i - 1, p);
    }
  }

  /** How often a message is queued can be read off the view of anyone it concerns. */
  lemma {:induction false} CountSub<T>(q: seq<Msg<T>>, x: T, p: T -> bool)
    requires p(x)
    ensures |Sub(q, p)| == 0 ==> Count(q, x) == 0
    ensures |Sub(q, p)| == 1 ==> Count(q, x) == if Sub(q, p)[0] == x then 1 else 0
    ensures |Sub(q, p)| == 2 ==>
              Count(q, x) == (if Sub(q, p)[0] == x then 1 else 0) + (if Sub(q, p)[1] == x then 1 else 0)
  {
    if q != [] {
      SubTail(q, p);
      CountSub(q[1..], x, p);
      hide Sub;
    }
  }

  /** A message goes in front of the only one its reader waits for if it is due earlier. */
  lemma SubPostBefore<T>(q: seq<Msg<T>>, m: Msg<T>, i: nat, p: T -> bool)
    requires i < |q| && p(q[i].body) && Sub(q, p) == [q[i].body] && p(m.body) && m.time < q[i].time
    ensures Sub(Post(q, m), p) == [m.body, q[i].body]
  {
    hide Sub, Post, Slot;
    var k := Slot(q, m.time);
    SubPost(q, m, p);
    assert k <= i && q[k..][i - k] == q[i];
    SubAt(q[k..], i - k, p);
    OneIn(Sub(q[..k], p), Sub(q[k..], p), q[i].body);
  }

  lemma OneIn<T>(a: seq<T>, b: seq<T>, y: T)
    requires a + b == [y]
    ensures |b| > 0 ==> a == [] && b == [y]
    ensures |a| > 0 ==> a == [y] && b == []
  {
    assert |a| + |b| == 1;
    if |b| > 0 {
      assert a == [] && a + b == b;
    } else {
      assert b == [] && a + b == a;
    }
  }

  /** In a sorted queue it goes behind that one if it is not. */
  lemma SubPostBehind<T>(q: seq<Msg<T>>, m: Msg<T>, i: nat, p: T -> bool)
    requires i < |q| && p(q[i].body) && Sub(q, p) == [q[i].body] && p(m.body) && q[i].time <= m.time && Sorted(q)
    ensures Sub(Post(q, m), p) == [q[i].body, m.body]
  {
    var k := Slot(q, m.time);
    SubPost(q, m, p);
    BehindIsLater(q, m.time);
    assert i < k && q[..k][i] == q[i];
    SubAt(q[..k], i, p);
    hide Sub, Post, Slot, Sorted;
    OneIn(Sub(q[..k], p), Sub(q[k..], p), q[i].body);
  }

  /** The looper as it runs: a list that posting and removing change in place. */
  class MessageQueue<T(==)> {
    var list: seq<Msg<T>>
    var msgSize: nat

    ghost predicate Valid()
      reads this
    {
      Sorted(list) && msgSize == |list|
    }

    constructor ()
      ensures Valid() && list == []
    {
      list, msgSize := [], 0;
    }

    method PostMessageAtTime(m: Msg<T>)
      requires Valid()
      modifies this
      ensures Valid() && list == Post(old(list), m)
    {
      PostKeepsOrder(list, m);
      var i := 0;
      while i < |list| && list[i].time <= m.time
        invariant 0 <= i <= Slot(list, m.time)
      {
        i := i + 1;
      }
      list := list[..i] + [m] + list[i..];
      msgSize := msgSize + 1;
    }

    method RemoveMessages(x: T)
      requires Valid()
      modifies this
      ensures Valid() && list == Without(old(list), x)
    {
      WithoutKeepsOrder(list, x);
      var kept: seq<Msg<T>> := [];
      var left := list;
      while left != []
        invariant kept + Without(left, x) == Without(list, x)
        invariant list == old(list) && msgSize == |kept| + |left|
        decreases |left|
      {
        if left[0].body == x {
          msgSize := msgSize - 1;
        } else {
          kept := kept + [left[0]];
        }
        left := left[1..];
      }
      assert kept + Without(left, x) == kept;
      list := kept;
    }

    /** One turn of LoopTask: the head, if it is due. */
    method TakeDue(now: int) returns (due: bool, x: seq<T>)
      requires Valid()
      modifies this
      ensures Valid()
      ensures due <==> old(list) != [] && old(list)[0].time <= now
      ensures due ==> x == [old(list)[0].body] && list == old(list)[1..]
                      && forall m | m in list :: old(list)[0].time <= m.time
      ensures !due ==> x == [] && list == old(list) && forall m | m in list :: now < m.time
    {
      due, x := list != [] && list[0].time <= now, [];
      if due {
        x := [list[0].body];
        list := list[1..];
        msgSize := msgSize - 1;
      }
    }
  }
}
