/** What the stable library sorts of Python and JavaScript do with a given comparison. */
module Sorting {
  type Order<!T> = (T, T) -> bool

  // On this domain, `before` is a strict order in which not being comparable is transitive.
  ghost predicate WeakOrder<T>(before: Order<T>, domain: iset<T>) {
    && (forall a, b | a in domain && b in domain :: before(a, b) ==> !before(b, a))
    && (forall a, b, c | a in domain && b in domain && c in domain :: !before(a, b) && !before(b, c) ==> !before(a, c))
  }

  ghost predicate Sorted<T>(before: Order<T>, xs: seq<T>) {
    forall i, j | 0 <= i < j < |xs| :: !before(xs[j], xs[i])
  }

  // An item goes in front of the first later item that does not come before it.
  function Insert<T>(before: Order<T>, x: T, sorted: seq<T>): seq<T> {
    if sorted == [] then [x]
    else if before(sorted[0], x) then [sorted[0]] + Insert(before, x, sorted[1..])
    else [x] + sorted
  }

  function StableSort<T>(before: Order<T>, xs: seq<T>): seq<T> {
    if xs == [] then [] else Insert(before, xs[0], StableSort(before, xs[1..]))
  }

  predicate Tied<T>(before: Order<T>, k: T, x: T) {
    !before(x, k) && !before(k, x)
  }

  // The items that tie with `k`, in order.
  function Ties<T>(before: Order<T>, k: T, xs: seq<T>): seq<T> {
    if xs == [] then []
    else if Tied(before, k, xs[0]) then [xs[0]] + Ties(before, k, xs[1..])
    else Ties(before, k, xs[1..])
  }

  lemma ConsSorts<T>(before: Order<T>, x: T, rest: seq<T>)
    requires Sorted(before, rest)
    requires forall i | 0 <= i < |rest| :: !before(rest[i], x)
    ensures Sorted(before, [x] + rest) && multiset([x] + rest) == multiset{x} + multiset(rest)
  {
  }

  lemma {:induction false} InsertSorts<T>(before: Order<T>, domain: iset<T>, x: T, sorted: seq<T>)
    requires WeakOrder(before, domain) && x in domain && forall y | y in sorted :: y in domain
    requires Sorted(before, sorted)
    ensures Sorted(before, Insert(before, x, sorted))
    ensures multiset(Insert(before, x, sorted)) == multiset(sorted) + multiset{x}
  {
    if sorted == [] {
    } else if before(sorted[0], x) {
      var rest := Insert(before, x, sorted[1..]);
      InsertSorts(before, domain, x, sorted[1..]);
      assert sorted == [sorted[0]] + sorted[1..];
      forall i | 0 <= i < |rest| ensures !before(rest[i], sorted[0]) {
        assert rest[i] in multiset(rest);
        if rest[i] != x {
          assert rest[i] in multiset(sorted[1..]);
        }
      }
      ConsSorts(before, sorted[0], rest);
    } else {
      forall i | 0 <= i < |sorted| ensures !before(sorted[i], x) {
        assert i > 0 ==> !before(sorted[i], sorted[0]) && !before(sorted[0], x);
      }
      ConsSorts(before, x, sorted);
    }
  }

  lemma TiesOfCons<T>(before: Order<T>, k: T, x: T, rest: seq<T>)
    ensures Ties(before, k, [x] + rest) == if Tied(before, k, x) then [x] + Ties(before, k, rest) else Ties(before, k, rest)
  {
    assert ([x] + rest)[1..] == rest;
  }

  // An item passes only items that it does not tie with.
  lemma PassesNoTie<T>(before: Order<T>, domain: iset<T>, x: T, y: T, k: T)
    requires WeakOrder(before, domain) && x in domain && y in domain && k in domain && before(y, x)
    ensures !Tied(before, k, x) || !Tied(before, k, y)
  {
  }

  lemma {:induction false} InsertKeepsTies<T>(before: Order<T>, domain: iset<T>, x: T, sorted: seq<T>, k: T)
    requires WeakOrder(before, domain) && x in domain && k in domain && forall y | y in sorted :: y in domain
    ensures Ties(before, k, Insert(before, x, sorted))
         == if Tied(before, k, x) then [x] + Ties(before, k, sorted) else Ties(before, k, sorted)
  {
    if sorted != [] && before(sorted[0], x) {
      InsertKeepsTies(before, domain, x, sorted[1..], k);
      TiesOfCons(before, k, sorted[0], Insert(before, x, sorted[1..]));
      PassesNoTie(before, domain, x, sorted[0], k);
    } else {
      TiesOfCons(before, k, x, sorted);
      assert Insert(before, x, sorted) == [x] + sorted;
    }
  }

  // The result is in order and has the same items.
  lemma {:induction false} StableSortSorts<T>(before: Order<T>, domain: iset<T>, xs: seq<T>)
    requires WeakOrder(before, domain) && forall x | x in xs :: x in domain
    ensures Sorted(before, StableSort(before, xs))
    ensures multiset(StableSort(before, xs)) == multiset(xs)
  {
    if xs != [] {
      StableSortSorts(before, domain, xs[1..]);
      var rest := StableSort(before, xs[1..]);
      forall y | y in rest ensures y in domain {
        assert y in multiset(rest);
      }
      InsertSorts(before, domain, xs[0], rest);
      assert xs == [xs[0]] + xs[1..];
    }
  }

  // Items that tie stay in the order in which they came.
  lemma {:induction false} StableSortIsStable<T>(before: Order<T>, domain: iset<T>, xs: seq<T>, k: T)
    requires WeakOrder(before, domain) && k in domain && forall x | x in xs :: x in domain
    ensures Ties(before, k, StableSort(before, xs)) == Ties(before, k, xs)
  {
    if xs != [] {
      StableSortIsStable(before, domain, xs[1..], k);
      StableSortSorts(before, domain, xs[1..]);
      var rest := StableSort(before, xs[1..]);
      forall y | y in rest ensures y in domain {
        assert y in multiset(rest);
      }
      InsertKeepsTies(before, domain, xs[0], rest, k);
    }
  }
}
