/** The homebase bookkeeping of World.addObject and World.removeObject,
    stated over values: the list of objects as a sequence of items together
    with the homebase counter (`config.homeBaseCounter`). */
module Registry {
  import opened WorldObjects

  /** The object list as items in list order, with the homebase counter. */
  datatype Listing = Listing(items: seq<Item>, counter: int)

  predicate IsHomebase(it: Item) { it.shape.Homebase? }

  /** The number of homebases in a list. */
  function HomebaseCount(s: seq<Item>): nat {
    if s == [] then 0 else HomebaseCount(s[..|s| - 1]) + (if IsHomebase(s[|s| - 1]) then 1 else 0)
  }

  /** The numbers the homebases of a list carry. */
  ghost function HomebaseNumbers(s: seq<Item>): set<int> {
    set i | 0 <= i < |s| && IsHomebase(s[i]) :: s[i].number
  }

  /** 1, 2, ..., n */
  ghost function Range(n: int): (r: set<int>)
    ensures forall k :: k in r <==> 1 <= k <= n
    decreases n
  {
    if n <= 0 then {} else Range(n - 1) + {n}
  }

  /** Each homebase carries its 1-based position among the homebases of the list. */
  ghost predicate NumberedInOrder(s: seq<Item>) {
    forall i :: 0 <= i < |s| && IsHomebase(s[i]) ==> s[i].number == HomebaseCount(s[..i]) + 1
  }

  /** The counter equals the number of homebases. */
  ghost predicate Consistent(r: Listing) {
    r.counter == HomebaseCount(r.items)
  }

  /** A consistent counter, and homebases numbered 1..n in list order. */
  ghost predicate Numbered(r: Listing) {
    Consistent(r) && NumberedInOrder(r.items)
  }

  function RemoveAt(s: seq<Item>, i: nat): seq<Item>
    requires i < |s|
  {
    s[..i] + s[i + 1..]
  }

  /** The renumbering loop of removeObject: every homebase gets its 1-based
      position among the homebases; other items are left as they are. */
  function Renumbered(s: seq<Item>): (r: seq<Item>)
    ensures |r| == |s|
    ensures forall i :: 0 <= i < |s| ==> r[i].shape == s[i].shape
  {
    seq(|s|, i requires 0 <= i < |s| =>
      if IsHomebase(s[i]) then Item(s[i].shape, HomebaseCount(s[..i]) + 1) else s[i])
  }

  /** World.addObject: the object is appended; a homebase first gets the
      incremented counter as its number. An object of another kind keeps
      the number it has. */
  function Add(r: Listing, shape: Shape, number: int): (r': Listing)
    ensures |r'.items| == |r.items| + 1 && r'.items[..|r.items|] == r.items
    ensures r'.items[|r.items|].shape == shape
    ensures shape.Homebase? ==> r'.counter == r.counter + 1 && r'.items[|r.items|].number == r'.counter
    ensures !shape.Homebase? ==> r'.counter == r.counter && r'.items[|r.items|].number == number
  {
    if shape.Homebase? then
      Listing(r.items + [Item(shape, r.counter + 1)], r.counter + 1)
    else
      Listing(r.items + [Item(shape, number)], r.counter)
  }

  /** World.removeObject as written, for an object found at index i: a
      homebase decrements the counter, then every homebase is renumbered
      while the removed one is still in the list, and only then is the
      object spliced out. */
  function RemoveAsWritten(r: Listing, i: nat): (r': Listing)
    requires i < |r.items|
    ensures |r'.items| == |r.items| - 1
    ensures forall k :: 0 <= k < |r'.items| ==> r'.items[k].shape == r.items[if k < i then k else k + 1].shape
    ensures r'.counter == r.counter - (if IsHomebase(r.items[i]) then 1 else 0)
  {
    if IsHomebase(r.items[i]) then
      Listing(RemoveAt(Renumbered(r.items), i), r.counter - 1)
    else
      Listing(RemoveAt(r.items, i), r.counter)
  }

  /** The removal the comment "Renumber remaining homebases" describes:
      splice first, then renumber what remains. */
  function RemoveIntended(r: Listing, i: nat): (r': Listing)
    requires i < |r.items|
    ensures |r'.items| == |r.items| - 1
    ensures forall k :: 0 <= k < |r'.items| ==> r'.items[k].shape == r.items[if k < i then k else k + 1].shape
    ensures r'.counter == r.counter - (if IsHomebase(r.items[i]) then 1 else 0)
  {
    if IsHomebase(r.items[i]) then
      Listing(Renumbered(RemoveAt(r.items, i)), r.counter - 1)
    else
      Listing(RemoveAt(r.items, i), r.counter)
  }

  // ---------------------------------------------------------------------
  // Counting homebases

  lemma {:induction false} CountAppend(s: seq<Item>, t: seq<Item>)
    ensures HomebaseCount(s + t) == HomebaseCount(s) + HomebaseCount(t)
  {
    if t == [] {
      assert s + t == s;
    } else {
      var t' := t[..|t| - 1];
      assert (s + t)[..|s + t| - 1] == s + t';
      CountAppend(s, t');
    }
  }

  lemma CountStep(s: seq<Item>, i: nat)
    requires i < |s|
    ensures HomebaseCount(s[..i + 1]) == HomebaseCount(s[..i]) + (if IsHomebase(s[i]) then 1 else 0)
  {
    assert s[..i + 1][..i] == s[..i];
  }

  lemma CountSingle(it: Item)
    ensures HomebaseCount([it]) == if IsHomebase(it) then 1 else 0
  {
    assert [it][..0] == [];
  }

  lemma {:induction false} CountMonotone(s: seq<Item>, a: nat, b: nat)
    requires a <= b <= |s|
    ensures HomebaseCount(s[..a]) <= HomebaseCount(s[..b])
    decreases b - a
  {
    if a < b {
      CountStep(s, a);
      CountMonotone(s, a + 1, b);
    }
  }

  /** The count depends on the kinds of the items only, not on their numbers. */
  lemma {:induction false} CountSameShapes(s: seq<Item>, t: seq<Item>)
    requires |s| == |t|
    requires forall i :: 0 <= i < |s| ==> s[i].shape == t[i].shape
    ensures HomebaseCount(s) == HomebaseCount(t)
  {
    if s != [] {
      CountSameShapes(s[..|s| - 1], t[..|t| - 1]);
    }
  }

  lemma CountRemoveAt(s: seq<Item>, i: nat)
    requires i < |s|
    ensures HomebaseCount(RemoveAt(s, i)) == HomebaseCount(s) - (if IsHomebase(s[i]) then 1 else 0)
  {
    assert s == s[..i + 1] + s[i + 1..];
    CountAppend(s[..i + 1], s[i + 1..]);
    CountStep(s, i);
    CountAppend(s[..i], s[i + 1..]);
  }

  /** Homebases after position i exist exactly when the homebases up to and
      including i are fewer than all of them. */
  lemma HomebaseAfter(s: seq<Item>, i: nat)
    requires i < |s|
    ensures HomebaseCount(s[..i + 1]) < HomebaseCount(s)
        <==> exists k :: i < k < |s| && IsHomebase(s[k])
  {
    assert s == s[..i + 1] + s[i + 1..];
    CountAppend(s[..i + 1], s[i + 1..]);
    if HomebaseCount(s[i + 1..]) > 0 {
      var k := SomeHomebase(s[i + 1..]);
      assert s[i + 1 + k] == s[i + 1..][k];
    } else {
      forall k | i < k < |s| ensures !IsHomebase(s[k]) {
        assert s[k] == s[i + 1..][k - i - 1];
        NoHomebaseIn(s[i + 1..], k - i - 1);
      }
    }
  }

  lemma {:induction false} SomeHomebase(s: seq<Item>) returns (k: nat)
    requires HomebaseCount(s) > 0
    ensures k < |s| && IsHomebase(s[k])
  {
    if IsHomebase(s[|s| - 1]) {
      k := |s| - 1;
    } else {
      k := SomeHomebase(s[..|s| - 1]);
    }
  }

  lemma {:induction false} NoHomebaseIn(s: seq<Item>, k: nat)
    requires HomebaseCount(s) == 0 && k < |s|
    ensures !IsHomebase(s[k])
  {
    if k < |s| - 1 {
      NoHomebaseIn(s[..|s| - 1], k);
    }
  }

  // ---------------------------------------------------------------------
  // Numbering

  /** After the renumbering loop, every homebase carries its position. */
  lemma RenumberedInOrder(s: seq<Item>)
    ensures NumberedInOrder(Renumbered(s))
  {
    var r := Renumbered(s);
    forall i | 0 <= i < |s| && IsHomebase(r[i])
      ensures r[i].number == HomebaseCount(r[..i]) + 1
    {
      CountSameShapes(r[..i], s[..i]);
    }
  }

  /** Numbering by position leaves the numbers 1..n with no gap, where n is
      the number of homebases. */
  lemma {:induction false} NumberedRange(s: seq<Item>)
    requires NumberedInOrder(s)
    ensures HomebaseNumbers(s) == Range(HomebaseCount(s))
  {
    if s != [] {
      var s' := s[..|s| - 1];
      var last := s[|s| - 1];
      assert NumberedInOrder(s') by {
        forall i | 0 <= i < |s'| && IsHomebase(s'[i])
          ensures s'[i].number == HomebaseCount(s'[..i]) + 1
        {
          assert s'[..i] == s[..i];
        }
      }
      NumberedRange(s');
      assert s[..|s| - 1] == s';
      if IsHomebase(last) {
        assert HomebaseNumbers(s) == HomebaseNumbers(s') + {last.number} by {
          forall n | n in HomebaseNumbers(s) ensures n in HomebaseNumbers(s') + {last.number} {
            var i :| 0 <= i < |s| && IsHomebase(s[i]) && s[i].number == n;
            if i < |s'| { assert s'[i] == s[i]; }
          }
          forall n | n in HomebaseNumbers(s') ensures n in HomebaseNumbers(s) {
            var i :| 0 <= i < |s'| && IsHomebase(s'[i]) && s'[i].number == n;
            assert s[i] == s'[i];
          }
        }
        assert Range(HomebaseCount(s)) == Range(HomebaseCount(s')) + {HomebaseCount(s') + 1};
      } else {
        assert HomebaseNumbers(s) == HomebaseNumbers(s') by {
          forall n | n in HomebaseNumbers(s) ensures n in HomebaseNumbers(s') {
            var i :| 0 <= i < |s| && IsHomebase(s[i]) && s[i].number == n;
            assert i < |s'| && s'[i] == s[i];
          }
          forall n | n in HomebaseNumbers(s') ensures n in HomebaseNumbers(s) {
            var i :| 0 <= i < |s'| && IsHomebase(s'[i]) && s'[i].number == n;
            assert s[i] == s'[i];
          }
        }
      }
    }
  }

  /** Adding keeps the counter equal to the number of homebases. */
  lemma AddConsistent(r: Listing, shape: Shape, number: int)
    requires Consistent(r)
    ensures Consistent(Add(r, shape, number))
  {
    CountAppend(r.items, [Item(shape, if shape.Homebase? then r.counter + 1 else number)]);
    CountSingle(Item(shape, if shape.Homebase? then r.counter + 1 else number));
  }

  /** Adding keeps the homebases numbered 1..n in list order. */
  lemma AddNumbered(r: Listing, shape: Shape, number: int)
    requires Numbered(r)
    ensures Numbered(Add(r, shape, number))
  {
    AddConsistent(r, shape, number);
    var s := Add(r, shape, number).items;
    forall i | 0 <= i < |s| && IsHomebase(s[i])
      ensures s[i].number == HomebaseCount(s[..i]) + 1
    {
      if i < |r.items| {
        assert s[..i] == r.items[..i];
      } else {
        assert s[..i] == r.items;
      }
    }
  }

  /** Either removal keeps the counter equal to the number of homebases. */
  lemma RemoveConsistent(r: Listing, i: nat)
    requires i < |r.items| && Consistent(r)
    ensures Consistent(RemoveAsWritten(r, i))
    ensures Consistent(RemoveIntended(r, i))
  {
    CountRemoveAt(r.items, i);
    CountRemoveAt(Renumbered(r.items), i);
    CountSameShapes(Renumbered(r.items), r.items);
    CountSameShapes(Renumbered(RemoveAt(r.items, i)), RemoveAt(r.items, i));
  }

  /** Removing an object that is not a homebase deletes exactly that item,
      keeps the order of the rest, and changes neither the counter nor any
      number; so it keeps the numbering. */
  lemma RemoveOtherNumbered(r: Listing, i: nat)
    requires i < |r.items| && !IsHomebase(r.items[i]) && Numbered(r)
    ensures RemoveAsWritten(r, i) == RemoveIntended(r, i) == Listing(RemoveAt(r.items, i), r.counter)
    ensures Numbered(RemoveAsWritten(r, i))
  {
    RemoveConsistent(r, i);
    OtherRemovedInOrder(r.items, i);
  }

  /** Splicing out an item that is not a homebase keeps every homebase at
      its position among the homebases. */
  lemma OtherRemovedInOrder(s: seq<Item>, i: nat)
    requires i < |s| && !IsHomebase(s[i]) && NumberedInOrder(s)
    ensures NumberedInOrder(RemoveAt(s, i))
  {
    var t := RemoveAt(s, i);
    forall k | 0 <= k < |t| && IsHomebase(t[k])
      ensures t[k].number == HomebaseCount(t[..k]) + 1
    {
      if k < i {
        assert t[..k] == s[..k];
      } else {
        assert t[k] == s[k + 1];
        assert t[..k] == RemoveAt(s[..k + 1], i);
        CountRemoveAt(s[..k + 1], i);
        CountStep(s, k);
      }
    }
  }

  /** The corrected removal keeps the homebases numbered 1..n. */
  lemma RemoveIntendedNumbered(r: Listing, i: nat)
    requires i < |r.items| && Numbered(r)
    ensures Numbered(RemoveIntended(r, i))
  {
    RemoveConsistent(r, i);
    if IsHomebase(r.items[i]) {
      RenumberedInOrder(RemoveAt(r.items, i));
    } else {
      RemoveOtherNumbered(r, i);
    }
  }

  /** What the as-written removal of a homebase leaves: the homebase at new
      index k carries its position among homebases when it stood before the
      removed one, and one more than its position when it stood after it. */
  lemma RemoveAsWrittenNumbers(r: Listing, i: nat, k: nat)
    requires i < |r.items| && IsHomebase(r.items[i])
    requires k < |RemoveAsWritten(r, i).items| && IsHomebase(RemoveAsWritten(r, i).items[k])
    ensures var t := RemoveAsWritten(r, i).items;
            t[k].number == HomebaseCount(t[..k]) + (if k < i then 1 else 2)
  {
    var s := r.items;
    var u := Renumbered(s);
    var t := RemoveAt(u, i);
    if k < i {
      assert t[k] == u[k] && t[..k] == u[..k];
      CountSameShapes(u[..k], s[..k]);
    } else {
      assert t[k] == u[k + 1];
      assert t[..k] == RemoveAt(u[..k + 1], i);
      CountRemoveAt(u[..k + 1], i);
      CountSameShapes(u[..k + 1], s[..k + 1]);
    }
  }

  /** As written, removing a homebase leaves the homebases numbered in
      order exactly when the removed one was the last homebase. */
  lemma RemoveAsWrittenNumberedIff(r: Listing, i: nat)
    requires i < |r.items| && IsHomebase(r.items[i])
    ensures NumberedInOrder(RemoveAsWritten(r, i).items)
        <==> HomebaseCount(r.items[..i + 1]) == HomebaseCount(r.items)
  {
    var s := r.items;
    var t := RemoveAsWritten(r, i).items;
    HomebaseAfter(s, i);
    CountMonotone(s, i + 1, |s|);
    assert s[..|s|] == s;
    if HomebaseCount(s[..i + 1]) == HomebaseCount(s) {
      forall k | 0 <= k < |t| && IsHomebase(t[k])
        ensures t[k].number == HomebaseCount(t[..k]) + 1
      {
        RemoveAsWrittenNumbers(r, i, k);
        if k >= i {
          assert false;
        }
      }
    } else {
      var k :| i < k < |s| && IsHomebase(s[k]);
      assert t[k - 1].shape == s[k].shape;
      RemoveAsWrittenNumbers(r, i, k - 1);
    }
  }

  /** As written, removing the j-th of n homebases leaves the numbers
      1..n with j missing, while the counter drops to n − 1: a gap whenever
      j < n. */
  lemma RemoveAsWrittenGap(r: Listing, i: nat)
    requires i < |r.items| && IsHomebase(r.items[i]) && Consistent(r)
    ensures var j := HomebaseCount(r.items[..i]) + 1;
            var r' := RemoveAsWritten(r, i);
            HomebaseNumbers(r'.items) == Range(r.counter) - {j} && r'.counter == r.counter - 1
  {
    var s := r.items;
    var u := Renumbered(s);
    assert HomebaseNumbers(u) == Range(r.counter) by {
      RenumberedInOrder(s);
      NumberedRange(u);
      CountSameShapes(u, s);
    }
    GapLeft(s, i);
    GapRight(s, i);
  }

  lemma GapLeft(s: seq<Item>, i: nat)
    requires i < |s| && IsHomebase(s[i])
    ensures HomebaseNumbers(RemoveAt(Renumbered(s), i)) <= HomebaseNumbers(Renumbered(s)) - {HomebaseCount(s[..i]) + 1}
  {
    var u := Renumbered(s);
    var t := RemoveAt(u, i);
    var j := HomebaseCount(s[..i]) + 1;
    forall n | n in HomebaseNumbers(t) ensures n in HomebaseNumbers(u) && n != j {
      var k :| 0 <= k < |t| && IsHomebase(t[k]) && t[k].number == n;
      if k < i {
        assert t[k] == u[k];
        CountMonotone(s, k + 1, i);
        CountStep(s, k);
      } else {
        assert t[k] == u[k + 1];
        CountMonotone(s, i + 1, k + 1);
        CountStep(s, i);
      }
    }
  }

  lemma GapRight(s: seq<Item>, i: nat)
    requires i < |s| && IsHomebase(s[i])
    ensures HomebaseNumbers(Renumbered(s)) - {HomebaseCount(s[..i]) + 1} <= HomebaseNumbers(RemoveAt(Renumbered(s), i))
  {
    var u := Renumbered(s);
    var t := RemoveAt(u, i);
    var j := HomebaseCount(s[..i]) + 1;
    assert u[i].number == j;
    forall n | n in HomebaseNumbers(u) && n != j ensures n in HomebaseNumbers(t) {
      var k :| 0 <= k < |u| && IsHomebase(u[k]) && u[k].number == n;
      assert k != i;
      if k < i {
        assert t[k] == u[k];
      } else {
        assert t[k - 1] == u[k];
      }
    }
  }

  /** The two removals agree on a homebase exactly when it was the last
      homebase of a correctly numbered registry. */
  lemma RemoveAgreesIffLast(r: Listing, i: nat)
    requires i < |r.items| && IsHomebase(r.items[i]) && Numbered(r)
    ensures RemoveAsWritten(r, i) == RemoveIntended(r, i)
        <==> HomebaseCount(r.items[..i + 1]) == HomebaseCount(r.items)
  {
    var s := r.items;
    var a := RemoveAsWritten(r, i).items;
    var b := RemoveIntended(r, i).items;
    RemoveAsWrittenNumberedIff(r, i);
    RemoveIntendedNumbered(r, i);
    if HomebaseCount(s[..i + 1]) == HomebaseCount(s) {
      forall k | 0 <= k < |a| && !IsHomebase(a[k]) ensures a[k] == b[k] {
        var k' := if k < i then k else k + 1;
        assert a[k] == Renumbered(s)[k'] == s[k'];
        assert b[k] == RemoveAt(s, i)[k] == s[k'];
      }
      InOrderUnique(a, b);
    }
  }

  /** Two lists with the same kinds at every index, the same items
      wherever there is no homebase, and both numbered in order, are equal:
      the numbering determines every homebase's number. */
  lemma InOrderUnique(x: seq<Item>, y: seq<Item>)
    requires |x| == |y| && forall k :: 0 <= k < |x| ==> x[k].shape == y[k].shape
    requires forall k :: 0 <= k < |x| && !IsHomebase(x[k]) ==> x[k] == y[k]
    requires NumberedInOrder(x) && NumberedInOrder(y)
    ensures x == y
  {
    forall k | 0 <= k < |x| ensures x[k] == y[k] {
      if IsHomebase(x[k]) {
        CountSameShapes(x[..k], y[..k]);
      }
    }
  }

  /** A concrete instance: three homebases numbered 1, 2, 3; removing the
      first leaves the numbers 2 and 3 with the counter at 2. */
  lemma RemoveFirstOfThree(h1: Shape, h2: Shape, h3: Shape)
    requires h1.Homebase? && h2.Homebase? && h3.Homebase?
    ensures var r := Listing([Item(h1, 1), Item(h2, 2), Item(h3, 3)], 3);
            RemoveAsWritten(r, 0) == Listing([Item(h2, 2), Item(h3, 3)], 2)
  {
    var s := [Item(h1, 1), Item(h2, 2), Item(h3, 3)];
    assert s[..0] == [];
    assert s[..1] == [Item(h1, 1)];
    assert s[..2] == [Item(h1, 1), Item(h2, 2)];
    CountSingle(Item(h1, 1));
    CountStep(s, 1);
  }
}
