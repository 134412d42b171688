// The growing ring buffer of the driver.

module Ring {
  datatype Option<T> = Some(value: T) | None

  // x modulo n, for x less than twice n.
  function Wrap(x: nat, n: nat): nat {
    if x < n then x else x - n
  }

  lemma WrapIsMod(x: nat, n: nat)
    requires x < 2 * n
    ensures x % n == Wrap(x, n)
  {
  }

  function Larger(capacity: nat): nat {
    if capacity == 0 then 8 else if capacity < 1024 then capacity * 2 else capacity + capacity / 4
  }

  // slots holds contents from popi on, going round, and the next push goes to
  // pushi.
  ghost predicate Holds<T>(slots: seq<Option<T>>, popi: nat, pushi: nat, contents: seq<T>) {
    && |contents| <= |slots|
    && (if slots == [] then popi == pushi == 0 else popi < |slots| && pushi == (popi + |contents|) % |slots|)
    && forall k :: 0 <= k < |contents| ==> Slot(slots, popi, k) == Some(contents[k])
  }

  function Slot<T>(slots: seq<Option<T>>, popi: nat, k: nat): Option<T> {
    var i := Wrap(popi + k, |slots|);
    if i < |slots| then slots[i] else None
  }

  lemma Pushes<T>(slots: seq<Option<T>>, popi: nat, pushi: nat, contents: seq<T>, x: T)
    requires Holds(slots, popi, pushi, contents) && |contents| < |slots|
    ensures pushi < |slots| && Holds(slots[pushi := Some(x)], popi, (pushi + 1) % |slots|, contents + [x])
  {
    var n := |slots|;
    WrapIsMod(popi + |contents|, n);
    WrapIsMod(pushi + 1, n);
    if popi + |contents| + 1 < 2 * n { WrapIsMod(popi + |contents| + 1, n); }
    var s := slots[pushi := Some(x)];
    forall k | 0 <= k < |contents| + 1 ensures Slot(s, popi, k) == Some((contents + [x])[k]) {
      if k < |contents| { assert Slot(slots, popi, k) == Some(contents[k]); }
    }
  }

  lemma Pops<T>(slots: seq<Option<T>>, popi: nat, pushi: nat, contents: seq<T>)
    requires Holds(slots, popi, pushi, contents) && contents != []
    ensures popi < |slots| && slots[popi] == Some(contents[0])
    ensures Holds(slots[popi := None], (popi + 1) % |slots|, pushi, contents[1..])
  {
    var n, m := |slots|, |contents|;
    assert Slot(slots, popi, 0) == Some(contents[0]);
    WrapIsMod(popi + 1, n);
    WrapIsMod(popi + m, n);
    WrapIsMod((popi + 1) % n + (m - 1), n);
    var s, next := slots[popi := None], (popi + 1) % n;
    forall k | 0 <= k < m - 1 ensures Slot(s, next, k) == Some(contents[1..][k]) {
      assert Slot(slots, popi, k + 1) == Some(contents[k + 1]);
    }
  }

  // A full buffer that begins at its start is copied as it is.
  lemma GrowsFromStart<T>(slots: seq<Option<T>>, pushi: nat, contents: seq<T>, bigger: seq<Option<T>>)
    requires Holds(slots, 0, pushi, contents) && |contents| == |slots| < |bigger| && slots <= bigger
    ensures Holds(bigger, 0, |slots|, contents)
  {
    forall k | 0 <= k < |contents| ensures Slot(bigger, 0, k) == Some(contents[k]) {
      assert Slot(slots, 0, k) == Some(contents[k]);
    }
  }

  // Otherwise the part from popi on moves to the end.
  lemma GrowsAround<T>(slots: seq<Option<T>>, popi: nat, pushi: nat, contents: seq<T>, bigger: seq<Option<T>>)
    requires Holds(slots, popi, pushi, contents) && |contents| == |slots| < |bigger| && 0 < popi
    requires bigger[..popi] == slots[..popi] && bigger[|bigger| - (|slots| - popi)..] == slots[popi..]
    ensures Holds(bigger, |bigger| - (|slots| - popi), pushi, contents)
  {
    var n, m := |slots|, |bigger|;
    var next := m - (n - popi);
    WrapIsMod(popi + n, n);
    WrapIsMod(next + n, m);
    forall k | 0 <= k < n ensures Slot(bigger, next, k) == Some(contents[k]) {
      assert Slot(slots, popi, k) == Some(contents[k]);
      if popi + k < n { assert bigger[next..][k] == slots[popi..][k]; } else { assert bigger[..popi][popi + k - n] == slots[..popi][popi + k - n]; }
    }
  }

  // What a growth moves is paid for by six times the pushes since the last one.
  ghost predicate Paid(capacity: nat, previous: nat, nelems: nat, moved: nat, pushes: nat) {
    && (capacity == Larger(previous) || capacity == previous == 0)
    && moved + 6 * (if nelems > previous then nelems - previous else 0) <= 6 * pushes
  }

  lemma GrowthPaid(capacity: nat, previous: nat, moved: nat, pushes: nat)
    requires Paid(capacity, previous, capacity, moved, pushes)
    ensures Paid(Larger(capacity), capacity, capacity, moved + capacity, pushes) && Larger(capacity) > capacity
  {
  }

  class Queue<T> {
    var elems: array<Option<T>>
    var nelems: nat
    var popi: nat
    var pushi: nat
    // The elements in the order of their pushes.
    ghost var contents: seq<T>
    // The elements moved and the pushes made so far, and the capacity before
    // the last growth.
    ghost var moved: nat
    ghost var pushes: nat
    ghost var previous: nat

    ghost predicate Valid()
      reads this, elems
    {
      && nelems == |contents| && Holds(elems[..], popi, pushi, contents)
      && Paid(elems.Length, previous, nelems, moved, pushes)
    }

    constructor ()
      ensures Valid() && contents == [] && moved == 0 && pushes == 0 && fresh(elems)
    {
      elems := new Option<T>[0];
      nelems, popi, pushi, contents, moved, pushes, previous := 0, 0, 0, [], 0, 0, 0;
    }

    method Len() returns (n: nat)
      requires Valid()
      ensures n == |contents|
    {
      n := nelems;
    }

    // Over any run from an empty buffer at most six elements are moved a push.
    method Push(elem: T)
      requires Valid()
      modifies this, elems
      ensures Valid() && contents == old(contents) + [elem] && (elems == old(elems) || fresh(elems))
      ensures pushes == old(pushes) + 1 && moved <= 6 * pushes
    {
      if nelems == elems.Length {
        Expand();
      }
      Pushes(elems[..], popi, pushi, contents, elem);
      hide Holds;
      ghost var slots := elems[..];
      elems[pushi] := Some(elem);
      assert elems[..] == slots[pushi := Some(elem)];
      nelems := nelems + 1;
      pushi := (pushi + 1) % elems.Length;
      contents, pushes := contents + [elem], pushes + 1;
    }

    method Pop() returns (elem: Option<T>)
      requires Valid()
      modifies this, elems
      ensures Valid() && elems == old(elems) && pushes == old(pushes) && moved == old(moved)
      ensures if old(contents) == [] then elem == None && contents == [] else elem == Some(old(contents)[0]) && contents == old(contents)[1..]
    {
      if nelems == 0 {
        return None;
      }
      Pops(elems[..], popi, pushi, contents);
      hide Holds;
      ghost var slots := elems[..];
      elem := elems[popi];
      elems[popi] := None;
      assert elems[..] == slots[popi := None];
      nelems := nelems - 1;
      popi := (popi + 1) % elems.Length;
      contents := contents[1..];
    }

    // Moves every element of a full buffer into a larger one.
    method Expand()
      requires Valid() && nelems == elems.Length
      modifies this
      ensures Valid() && contents == old(contents) && pushes == old(pushes) && nelems < elems.Length && fresh(elems)
      ensures moved == old(moved) + nelems && elems.Length == Larger(old(elems.Length))
      ensures old(elems.Length) == 0 ==> elems.Length == 8
      ensures 0 < old(elems.Length) < 1024 ==> elems.Length == 2 * old(elems.Length)
      ensures old(elems.Length) >= 1024 ==> 4 * elems.Length <= 5 * old(elems.Length) < 4 * elems.Length + 4
    {
      var curcap := elems.Length;
      var newcap;
      if curcap == 0 {
        newcap := 8;
      } else if curcap < 1024 {
        newcap := curcap * 2;
      } else {
        newcap := curcap + curcap / 4;
      }
      hide Holds, Paid;
      GrowthPaid(curcap, previous, moved, pushes);
      PopiInside();
      hide Larger;
      if popi == 0 {
        var bigger := CopyStraight(newcap);
        GrowsFromStart(elems[..], pushi, contents, bigger[..]);
        pushi, elems := curcap, bigger;
      } else {
        var newpopi := newcap - (curcap - popi);
        var bigger := CopyAround(newcap, newpopi);
        GrowsAround(elems[..], popi, pushi, contents, bigger[..]);
        popi, elems := newpopi, bigger;
      }
      moved, previous := moved + curcap, curcap;
    }

    method CopyStraight(newcap: nat) returns (bigger: array<Option<T>>)
      requires elems.Length <= newcap
      ensures fresh(bigger) && bigger.Length == newcap && elems[..] <= bigger[..]
    {
      bigger := new Option<T>[newcap](_ => None);
      forall k | 0 <= k < elems.Length {
        bigger[k] := elems[k];
      }
      assert bigger[..][..elems.Length] == elems[..];
    }

    method CopyAround(newcap: nat, newpopi: nat) returns (bigger: array<Option<T>>)
      requires popi <= elems.Length <= newcap && newpopi == newcap - (elems.Length - popi)
      ensures fresh(bigger) && bigger.Length == newcap
      ensures bigger[..][..popi] == elems[..][..popi] && bigger[..][newpopi..] == elems[..][popi..]
    {
      bigger := new Option<T>[newcap](_ => None);
      forall k | 0 <= k < newcap {
        bigger[k] := if k < popi then elems[k] else if k >= newpopi then elems[k - newpopi + popi] else None;
      }
    }

    lemma PopiInside()
      requires Valid()
      ensures popi <= elems.Length && (popi == 0 || popi < elems.Length)
    {
    }
  }
}
