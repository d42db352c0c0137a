/** Counting in sequences: how much the items weigh together, and how that changes. */
module Counting {

  function Total<T>(items: seq<T>, weight: T -> nat): nat {
    if items == [] then 0 else Total(items[..|items| - 1], weight) + weight(items[|items| - 1])
  }

  lemma TotalMore<T>(items: seq<T>, x: T, weight: T -> nat)
    ensures Total(items + [x], weight) == Total(items, weight) + weight(x)
  {
    assert (items + [x])[..|items|] == items;
  }

  lemma {:induction false} TotalConcat<T>(a: seq<T>, b: seq<T>, weight: T -> nat)
    ensures Total(a + b, weight) == Total(a, weight) + Total(b, weight)
  {
    if b == [] {
      assert a + b == a;
    } else {
      TotalConcat(a, b[..|b| - 1], weight);
      assert (a + b)[..|a + b| - 1] == a + b[..|b| - 1];
    }
  }

  lemma {:induction false} TotalMove<T>(items: seq<T>, i: nat, x: T, weight: T -> nat)
    requires i < |items|
    ensures Total(items[i := x], weight) == Total(items, weight) - weight(items[i]) + weight(x)
  {
    var n := |items| - 1;
    if i == n {
      assert items[i := x][..n] == items[..n];
    } else {
      TotalMove(items[..n], i, x, weight);
      assert items[i := x][..n] == items[..n][i := x];
    }
  }

  lemma {:induction false} TotalAtLeast<T>(items: seq<T>, i: nat, weight: T -> nat)
    requires i < |items|
    ensures weight(items[i]) <= Total(items, weight)
  {
    if i < |items| - 1 {
      TotalAtLeast(items[..|items| - 1], i, weight);
    }
  }

  /** Some item weighs something if they do together. */
  lemma {:induction false} TotalFrom<T>(items: seq<T>, weight: T -> nat) returns (i: nat)
    requires Total(items, weight) > 0
    ensures i < |items| && weight(items[i]) > 0
  {
    i := |items| - 1;
    if weight(items[i]) == 0 {
      i := TotalFrom(items[..i], weight);
    }
  }

  function Is<T(==)>(x: T): T -> nat {
    y => if y == x then 1 else 0
  }

  function Count<T(==)>(items: seq<T>, x: T): nat {
    Total(items, Is(x))
  }

  lemma CountMore<T>(items: seq<T>, y: T, x: T)
    ensures Count(items + [y], x) == Count(items, x) + if y == x then 1 else 0
  {
    TotalMore(items, y, Is(x));
  }

  lemma CountMove<T>(items: seq<T>, i: nat, y: T, x: T)
    requires i < |items|
    ensures Count(items[i := y], x)
         == Count(items, x) - (if items[i] == x then 1 else 0) + if y == x then 1 else 0
  {
    TotalMove(items, i, y, Is(x));
  }

  lemma CountPositive<T>(items: seq<T>, x: T)
    ensures Count(items, x) > 0 <==> x in items
  {
    if Count(items, x) > 0 {
      var i := TotalFrom(items, Is(x));
      assert items[i] == x;
    } else if x in items {
      var i :| 0 <= i < |items| && items[i] == x;
      TotalAtLeast(items, i, Is(x));
    }
  }
}
