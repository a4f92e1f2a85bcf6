/** Small things every module uses: optional values and facts about sequences. */
module Wrappers {
  datatype Option<+T> = None | Some(value: T)

  /** The values f finds in xs, in order. */
  function Collect<A, B>(f: A -> Option<B>, xs: seq<A>): seq<B> {
    if xs == [] then []
    else
      var rest := Collect(f, xs[1..]);
      match f(xs[0])
      case Some(b) => [b] + rest
      case None => rest
  }

  lemma Front<T>(a: seq<T>, b: seq<T>)
    requires a != []
    ensures (a + b)[0] == a[0] && (a + b)[1..] == a[1..] + b && a + b != []
  {
  }

  lemma Assoc<T>(a: seq<T>, b: seq<T>, c: seq<T>)
    ensures (a + b) + c == a + (b + c)
  {
  }

  lemma {:induction false} CollectAppend<A, B>(f: A -> Option<B>, a: seq<A>, b: seq<A>)
    ensures Collect(f, a + b) == Collect(f, a) + Collect(f, b)
  {
    if a == [] {
      assert a + b == b;
    } else {
      CollectAppend(f, a[1..], b);
      Front(a, b);
    }
  }

  lemma CollectOne<A, B>(f: A -> Option<B>, x: A)
    ensures Collect(f, [x]) == match f(x) case Some(b) => [b] case None => []
  {
    assert [x][1..] == [];
  }

  lemma CollectSnoc<A, B>(f: A -> Option<B>, xs: seq<A>, x: A)
    ensures Collect(f, xs + [x]) ==
      match f(x) case Some(b) => Collect(f, xs) + [b] case None => Collect(f, xs)
  {
    CollectAppend(f, xs, [x]);
    CollectOne(f, x);
  }
}
