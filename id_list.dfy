/** The small identifier lists every widget context keeps: the keyboard's
    highlighted keys, the gamepad's highlighted buttons, and the mouse's
    highlighted and recorded buttons. Each is a host-library vector changed
    in place by add-if-absent (`push_back` after a linear scan),
    remove-first-match (`erase` inside a scan loop, then `break`) and
    `clear`. The functions below give the value-level meaning of these
    updates; the class `IdList` performs them in place. */
module IdLists {

  /** No identifier occurs twice. */
  predicate NoDuplicates<T(==)>(s: seq<T>)
  {
    forall i, j :: 0 <= i < j < |s| ==> s[i] != s[j]
  }

  /** `s` with its first occurrence of `x` erased; `s` itself when `x` is absent. */
  function RemoveFirst<T(==)>(s: seq<T>, x: T): seq<T>
  {
    if s == [] then []
    else if s[0] == x then s[1..]
    else [s[0]] + RemoveFirst(s[1..], x)
  }

  /** The list after setting the membership of `x` to `on`: append when
      asked to add an absent identifier, erase the first match when asked
      to remove, otherwise leave the list as it is. */
  function Updated<T(==)>(s: seq<T>, x: T, on: bool): seq<T>
  {
    if on then (if x in s then s else s + [x])
    else RemoveFirst(s, x)
  }

  /** Removing an identifier that is absent changes nothing. */
  lemma {:induction false} RemoveFirstAbsent<T>(s: seq<T>, x: T)
    requires x !in s
    ensures RemoveFirst(s, x) == s
  {
    if s != [] {
      assert s[0] != x;
      assert x !in s[1..];
      RemoveFirstAbsent(s[1..], x);
      assert [s[0]] + s[1..] == s;
    }
  }

  /** Removing the identifier whose first occurrence is at `i` splices out
      exactly position `i`: everything before and after keeps its order. */
  lemma {:induction false} RemoveFirstAt<T>(s: seq<T>, x: T, i: nat)
    requires i < |s| && s[i] == x && x !in s[..i]
    ensures RemoveFirst(s, x) == s[..i] + s[i + 1..]
  {
    if i == 0 {
      assert s[..0] + s[1..] == s[1..];
    } else {
      assert s[0] in s[..i];
      assert s[0] != x;
      var t := s[1..];
      assert t[..i - 1] == s[1..i];
      assert x !in t[..i - 1] by {
        assert forall y :: y in t[..i - 1] ==> y in s[..i];
      }
      RemoveFirstAt(t, x, i - 1);
      assert [s[0]] + (t[..i - 1] + t[i..]) == s[..i] + s[i + 1..];
    }
  }

  /** Splicing out one position keeps a list free of duplicates. */
  lemma SpliceNoDuplicates<T>(s: seq<T>, i: nat)
    requires i < |s| && NoDuplicates(s)
    ensures NoDuplicates(s[..i] + s[i + 1..])
  {
    var r := s[..i] + s[i + 1..];
    forall a, b | 0 <= a < b < |r|
      ensures r[a] != r[b]
    {
      var a' := if a < i then a else a + 1;
      var b' := if b < i then b else b + 1;
      assert r[a] == s[a'] && r[b] == s[b'];
    }
  }

  /** Appending an absent identifier keeps a list free of duplicates. */
  lemma AppendAbsentNoDuplicates<T>(s: seq<T>, x: T)
    requires NoDuplicates(s) && x !in s
    ensures NoDuplicates(s + [x])
  {
    var r := s + [x];
    forall a, b | 0 <= a < b < |r|
      ensures r[a] != r[b]
    {
      if b == |s| {
        assert r[a] == s[a];
      } else {
        assert r[a] == s[a] && r[b] == s[b];
      }
    }
  }

  /** The index of the first occurrence of `x` in a list that contains it. */
  function IndexOf<T(==)>(s: seq<T>, x: T): (i: nat)
    requires x in s
    ensures i < |s| && s[i] == x && x !in s[..i]
  {
    if s[0] == x then 0
    else
      var j := IndexOf(s[1..], x);
      assert s[..j + 1] == [s[0]] + s[1..][..j];
      j + 1
  }

  /** What setting the membership of `x` does to a duplicate-free list:
      the list stays duplicate-free, `x` is a member exactly when `on`,
      every other identifier keeps its membership, an add appends at the
      end, a remove splices out the single occurrence keeping the order of
      the rest, and an update that changes no membership changes nothing. */
  lemma UpdatedSpec<T>(s: seq<T>, x: T, on: bool)
    requires NoDuplicates(s)
    ensures NoDuplicates(Updated(s, x, on))
    ensures x in Updated(s, x, on) <==> on
    ensures forall y :: y != x ==> (y in Updated(s, x, on) <==> y in s)
    ensures on && x !in s ==> Updated(s, x, on) == s + [x]
    ensures !on && x in s ==>
      var i := IndexOf(s, x); Updated(s, x, on) == s[..i] + s[i + 1..]
    ensures (x in s) == on ==> Updated(s, x, on) == s
    ensures |Updated(s, x, on)| == |s| + (if on == (x in s) then 0 else if on then 1 else -1)
  {
    if on {
      if x !in s {
        AppendAbsentNoDuplicates(s, x);
      }
    } else if x in s {
      var i := IndexOf(s, x);
      RemoveFirstAt(s, x, i);
      SpliceNoDuplicates(s, i);
      var r := s[..i] + s[i + 1..];
      assert s == s[..i] + [x] + s[i + 1..];
      assert x !in r by {
        forall k | 0 <= k < |r| ensures r[k] != x {
          if k < i { assert r[k] == s[k]; } else { assert r[k] == s[k + 1]; }
        }
      }
    } else {
      RemoveFirstAbsent(s, x);
    }
  }

  /** Setting a membership twice in a row is the same as setting it once. */
  lemma UpdatedIdempotent<T>(s: seq<T>, x: T, on: bool)
    requires NoDuplicates(s)
    ensures Updated(Updated(s, x, on), x, on) == Updated(s, x, on)
  {
    UpdatedSpec(s, x, on);
    UpdatedSpec(Updated(s, x, on), x, on);
  }

  /** The list after setting the membership of `x` to the opposite of
      what it is: the mouse widget's record-on-click. */
  function Toggled<T(==)>(s: seq<T>, x: T): seq<T>
  {
    Updated(s, x, x !in s)
  }

  /** Toggling flips the membership of `x` and of nothing else. */
  lemma ToggleFlips<T>(s: seq<T>, x: T)
    requires NoDuplicates(s)
    ensures NoDuplicates(Toggled(s, x))
    ensures x in Toggled(s, x) <==> x !in s
    ensures forall y :: y != x ==> (y in Toggled(s, x) <==> y in s)
  {
    UpdatedSpec(s, x, x !in s);
  }

  /** A duplicate-free list of identifiers, updated in place. */
  class IdList<T(==)> {
    var items: seq<T>

    ghost predicate Valid()
      reads this
    {
      NoDuplicates(items)
    }

    constructor ()
      ensures Valid() && items == []
    {
      items := [];
    }

    /** Linear membership scan. */
    method Contains(x: T) returns (found: bool)
      ensures found <==> x in items
    {
      var i := 0;
      while i < |items|
        invariant 0 <= i <= |items|
        invariant x !in items[..i]
      {
        if items[i] == x {
          return true;
        }
        assert items[..i + 1] == items[..i] + [items[i]];
        i := i + 1;
      }
      assert items[..i] == items;
      return false;
    }

    /** Add `x` if it is absent (`on`), or erase its first match (`!on`). */
    method Set(x: T, on: bool)
      requires Valid()
      modifies this
      ensures Valid()
      ensures items == Updated(old(items), x, on)
    {
      UpdatedSpec(items, x, on);
      if on {
        var present := Contains(x);
        if !present {
          items := items + [x];
        }
      } else {
        var i := 0;
        while i < |items|
          invariant 0 <= i <= |items|
          invariant items == old(items)
          invariant x !in items[..i]
        {
          if items[i] == x {
            RemoveFirstAt(items, x, i);
            SpliceNoDuplicates(items, i);
            items := items[..i] + items[i + 1..];
            break;
          }
          assert items[..i + 1] == items[..i] + [items[i]];
          i := i + 1;
        }
        if i == |items| {
          assert items[..i] == items;
          RemoveFirstAbsent(items, x);
        }
      }
    }

    /** Empty the list. */
    method Clear()
      modifies this
      ensures Valid() && items == []
    {
      items := [];
    }
  }
}
