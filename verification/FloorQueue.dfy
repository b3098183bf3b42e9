/** The call queue: an ordered sequence of floor numbers, first call first. */
module FloorQueue {

  /** No floor is queued twice */
  predicate NoDup(q: seq<int>) {
    forall i, j :: 0 <= i < j < |q| ==> q[i] != q[j]
  }

  /** The queue with every occurrence of `f` removed and the order of the
      others kept; the program's `queue.filter(floor => floor !== f)`. */
  function Without(q: seq<int>, f: int): (r: seq<int>)
    ensures forall x :: x in r <==> x in q && x != f
    ensures |r| <= |q|
    ensures NoDup(q) ==> NoDup(r)
  {
    if q == [] then []
    else if q[0] == f then Without(q[1..], f)
    else
      var rest := Without(q[1..], f);
      assert NoDup(q) ==> NoDup(q[1..]) && q[0] !in q[1..] by {
        if NoDup(q) {
          TailNoDup(q);
        }
      }
      [q[0]] + rest
  }

  /** The tail of a duplicate-free queue is duplicate-free and does not hold the head. */
  lemma TailNoDup(q: seq<int>)
    requires NoDup(q) && |q| > 0
    ensures NoDup(q[1..])
    ensures q[0] !in q[1..]
  {
  }

  /** Filtering out a floor that is not queued leaves the queue as it was. */
  lemma {:induction false} WithoutAbsent(q: seq<int>, f: int)
    requires f !in q
    ensures Without(q, f) == q
  {
    if q != [] {
      assert q[0] != f;
      WithoutAbsent(q[1..], f);
      assert q == [q[0]] + q[1..];
    }
  }

  /** In a duplicate-free queue, removing the head floor is dequeuing it. */
  lemma WithoutHead(q: seq<int>)
    requires NoDup(q) && |q| > 0
    ensures Without(q, q[0]) == q[1..]
  {
    TailNoDup(q);
    WithoutAbsent(q[1..], q[0]);
  }

  /** Filtering distributes over concatenation, so the floors that remain
      keep the order they were called in. */
  lemma {:induction false} WithoutAppend(a: seq<int>, b: seq<int>, f: int)
    ensures Without(a + b, f) == Without(a, f) + Without(b, f)
    decreases |a|
  {
    if a == [] {
      assert a + b == b;
    } else {
      assert (a + b)[0] == a[0];
      assert (a + b)[1..] == a[1..] + b;
      WithoutAppend(a[1..], b, f);
    }
  }

  /** In a duplicate-free queue, removing the floor at position i closes the
      gap: the floors before it and after it stay in their order. */
  lemma WithoutSplit(q: seq<int>, i: int)
    requires NoDup(q) && 0 <= i < |q|
    ensures Without(q, q[i]) == q[..i] + q[i + 1..]
  {
    var f := q[i];
    var front, back := q[..i], q[i..];
    assert q == front + back;
    WithoutAppend(front, back, f);
    assert back[1..] == q[i + 1..];
    assert Without(back, f) == Without(back[1..], f);
    WithoutAbsent(front, f);
    WithoutAbsent(back[1..], f);
  }
}
