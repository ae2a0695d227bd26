/**
  An insertion-ordered collection without duplicates, the behaviour of a
  JavaScript `Set`, represented as a sequence. `Add` is `Set.prototype.add`
  and `Delete` is `Set.prototype.delete`; iterating the set is iterating the
  sequence from the front.
 */
module OrderedSet {

  /** No element occurs twice. */
  ghost predicate NoDup<T>(s: seq<T>) {
    forall i, j | 0 <= i < j < |s| :: s[i] != s[j]
  }

  /** `set.add(x)`: a new element goes to the end, a present one stays where it is. */
  function Add<T(==, !new)>(s: seq<T>, x: T): (r: seq<T>)
    ensures x in r
    ensures forall y :: y in r <==> y in s || y == x
    ensures s <= r && |r| <= |s| + 1
    ensures x in s ==> r == s
    ensures x !in s ==> r[|s|] == x
    ensures NoDup(s) ==> NoDup(r)
  {
    if x in s then s else s + [x]
  }

  /** `set.delete(x)`: drops `x` and keeps the others in their order. */
  function Delete<T(==, !new)>(s: seq<T>, x: T): (r: seq<T>)
    ensures x !in r
    ensures forall y :: y in r <==> y in s && y != x
    ensures |r| <= |s|
    ensures x !in s ==> r == s
    ensures NoDup(s) ==> NoDup(r)
  {
    if s == [] then []
    else if s[0] == x then Delete(s[1..], x)
    else
      var rest := Delete(s[1..], x);
      assert NoDup(s) ==> s[0] !in rest && NoDup(s[1..]);
      [s[0]] + rest
  }

  /** Deleting the element at position `i` of a duplicate-free sequence closes the gap. */
  lemma {:induction false} DeleteAt<T(!new)>(s: seq<T>, i: nat)
    requires NoDup(s) && i < |s|
    ensures Delete(s, s[i]) == s[..i] + s[i + 1..]
  {
    var t := s[1..];
    if i == 0 {
      assert s[0] !in t by {
        forall j | 0 <= j < |t| ensures t[j] != s[0] {
          assert t[j] == s[j + 1];
        }
      }
    } else {
      assert NoDup(t);
      assert t[i - 1] == s[i] && s[0] != s[i];
      DeleteAt(t, i - 1);
      assert t[..i - 1] == s[1..i];
      assert t[i..] == s[i + 1..];
      assert s[..i] == [s[0]] + s[1..i];
    }
  }

  /** Deleting from `a + [x] + b` leaves `a + b`: the remaining order is untouched. */
  lemma DeleteMiddle<T(!new)>(a: seq<T>, x: T, b: seq<T>)
    requires NoDup(a + [x] + b)
    ensures Delete(a + [x] + b, x) == a + b
  {
    var s := a + [x] + b;
    DeleteAt(s, |a|);
    assert s[..|a|] == a;
    assert s[|a| + 1..] == b;
  }

  /** Deleting an element that was just added restores the sequence. */
  lemma DeleteUndoesAdd<T(!new)>(s: seq<T>, x: T)
    requires x !in s
    ensures Delete(Add(s, x), x) == s
  {
    DeleteTail(s, x);
  }

  lemma {:induction false} DeleteTail<T(!new)>(s: seq<T>, x: T)
    requires x !in s
    ensures Delete(s + [x], x) == s
  {
    if s != [] {
      assert (s + [x])[1..] == s[1..] + [x];
      DeleteTail(s[1..], x);
    }
  }
}
