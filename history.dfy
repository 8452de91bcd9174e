/** The history of the main window's editable comboboxes: a bounded deque
    rebuilt on every send, with the entry just used moved to the front. */
module History {
  import opened Text

  /** COMBO_HISTORY: how many entries a combobox remembers. */
  const ComboHistory: nat := 10

  /** The last n elements of s (all of them when there are at most n). */
  function LastN<T>(s: seq<T>, n: nat): (r: seq<T>)
    ensures |r| == (if |s| <= n then |s| else n)
    ensures r == s[|s| - |r|..]
    ensures |s| <= n ==> r == s
  {
    if |s| <= n then s else s[|s| - n..]
  }

  /** s with its element at position k taken out. */
  function RemoveAt<T>(s: seq<T>, k: nat): (r: seq<T>)
    requires k < |s|
    ensures |r| == |s| - 1
    ensures forall y :: y in r ==> y in s
  {
    s[..k] + s[k + 1..]
  }

  /** A deque of at most n elements after appending x on the right: when
      it is full the leftmost element falls off. */
  function PushBack<T>(s: seq<T>, x: T, n: nat): seq<T>
    requires |s| <= n
  {
    if n == 0 then []
    else if |s| == n then s[1..] + [x]
    else s + [x]
  }

  /** A deque of at most n elements after appending x on the left: when it
      is full the rightmost element falls off. */
  function PushFront<T>(s: seq<T>, x: T, n: nat): (r: seq<T>)
    requires |s| <= n
    ensures |r| <= n
    ensures n > 0 ==> |r| == (if |s| < n then |s| + 1 else n)
    ensures n > 0 ==> r[0] == x && r[1..] == s[..|r| - 1]
  {
    if n == 0 then []
    else if |s| == n then [x] + s[..n - 1]
    else [x] + s
  }

  /** Appending to a bounded deque keeps the last n of everything appended. */
  lemma PushBackKeepsLastN<T>(s: seq<T>, x: T, n: nat)
    ensures PushBack(LastN(s, n), x, n) == LastN(s + [x], n)
  {
    var t := s + [x];
    if n > 0 && |s| >= n {
      assert LastN(s, n)[1..] + [x] == t[|t| - n..];
    }
  }

  /** One more item appended keeps the last n of one more item. */
  lemma AppendedPrefix<T>(items: seq<T>, i: nat, n: nat)
    requires i < |items|
    ensures PushBack(LastN(items[..i], n), items[i], n) == LastN(items[..i + 1], n)
  {
    PushBackKeepsLastN(items[..i], items[i], n);
    assert items[..i + 1] == items[..i] + [items[i]];
  }

  /** collections.deque with a maxlen. */
  class BoundedDeque {
    var elems: seq<string>
    const maxlen: nat

    ghost predicate Valid()
      reads this
    {
      |elems| <= maxlen
    }

    /** deque(items, maxlen): the items appended one by one. */
    constructor (items: seq<string>, maxlen: nat)
      ensures Valid() && this.maxlen == maxlen
      ensures elems == LastN(items, maxlen)
    {
      this.maxlen := maxlen;
      elems := [];
      new;
      for i := 0 to |items|
        invariant this.maxlen == maxlen && Valid()
        invariant elems == LastN(items[..i], maxlen)
      {
        AppendedPrefix(items, i, maxlen);
        Append(items[i]);
      }
      assert items[..|items|] == items;
    }

    /** d.append(x) */
    method Append(x: string)
      requires Valid()
      modifies this
      ensures Valid()
      ensures elems == PushBack(old(elems), x, maxlen)
    {
      if maxlen == 0 {
        elems := [];
      } else if |elems| == maxlen {
        elems := elems[1..] + [x];
      } else {
        elems := elems + [x];
      }
    }

    /** d.appendleft(x) */
    method AppendLeft(x: string)
      requires Valid()
      modifies this
      ensures Valid()
      ensures elems == PushFront(old(elems), x, maxlen)
    {
      if maxlen == 0 {
        elems := [];
      } else if |elems| == maxlen {
        elems := [x] + elems[..maxlen - 1];
      } else {
        elems := [x] + elems;
      }
    }

    /** d.remove(x): the first occurrence of x is taken out (deque raises
        when there is none, so x must be present). */
    method Remove(x: string)
      requires Valid() && x in elems
      modifies this
      ensures Valid()
      ensures elems == RemoveAt(old(elems), IndexOf(x, old(elems)))
    {
      var i := 0;
      assert elems[i..] == elems;
      while elems[i] != x
        invariant 0 <= i < |elems| && x in elems[i..] && x !in elems[..i]
        decreases |elems| - i
      {
        assert elems[..i + 1] == elems[..i] + [elems[i]];
        assert elems[i..] == [elems[i]] + elems[i + 1..];
        i := i + 1;
      }
      IndexOfUnique(x, elems, i);
      elems := elems[..i] + elems[i + 1..];
    }
  }

  /** The combobox's item list and the text in its edit field. */
  class ComboBox {
    var items: seq<string>
    var currentText: string

    constructor (items: seq<string>, currentText: string)
      ensures this.items == items && this.currentText == currentText
    {
      this.items := items;
      this.currentText := currentText;
    }
  }

  /** The history a combobox holds after the entry `current` was used. */
  function Updated(items: seq<string>, current: string): seq<string> {
    if current == "" then items
    else
      var kept := LastN(items, ComboHistory);
      var rest := if current in kept then RemoveAt(kept, IndexOf(current, kept)) else kept;
      PushFront(rest, current, ComboHistory)
  }

  /** combobox_history_add: the combobox's items are copied into a deque of
      at most ten entries, an earlier copy of the current text is removed,
      the current text is put in front, and the combobox is refilled from
      the deque. The configuration write is not part of this model. */
  method HistoryAdd(box: ComboBox)
    modifies box
    ensures box.items == Updated(old(box.items), old(box.currentText))
    ensures box.currentText == old(box.currentText)
  {
    var current := box.currentText;
    if current == "" {
      return;
    }
    var items: seq<string> := [];
    for i := 0 to |box.items|
      invariant items == box.items[..i]
    {
      items := items + [box.items[i]];
    }
    assert items == box.items;
    var history := new BoundedDeque(items, ComboHistory);
    if current in history.elems {
      history.Remove(current);
    }
    history.AppendLeft(current);
    box.items := history.elems;
  }

  /** No entry occurs twice. */
  ghost predicate NoDuplicates(s: seq<string>) {
    forall i, j :: 0 <= i < j < |s| ==> s[i] != s[j]
  }

  /** s with every occurrence of x left out, order kept. */
  function Without(s: seq<string>, x: string): (r: seq<string>)
    ensures x !in r
    ensures forall y :: y in r <==> y in s && y != x
  {
    if s == [] then []
    else if s[0] == x then Without(s[1..], x)
    else [s[0]] + Without(s[1..], x)
  }

  /** A used entry is put in front and the history never grows past ten;
      an empty text changes nothing; every entry afterwards is the text or
      was there before. */
  lemma UpdatedPutsCurrentFirst(items: seq<string>, current: string)
    ensures current == "" ==> Updated(items, current) == items
    ensures current != "" ==>
      var u := Updated(items, current);
      1 <= |u| <= ComboHistory && u[0] == current
    ensures forall y :: y in Updated(items, current) ==> y == current || y in items
  {
    if current != "" {
      var kept := LastN(items, ComboHistory);
      var rest := if current in kept then RemoveAt(kept, IndexOf(current, kept)) else kept;
      var u := Updated(items, current);
      forall y | y in u ensures y == current || y in items {
        if y != current {
          assert y in u[1..];
          assert y in rest;
          assert y in kept;
        }
      }
    }
  }

  /** Using the front entry again changes nothing. */
  lemma UpdatedIdempotent(items: seq<string>, current: string)
    ensures Updated(Updated(items, current), current) == Updated(items, current)
  {
    if current != "" {
      var u := Updated(items, current);
      UpdatedPutsCurrentFirst(items, current);
      assert LastN(u, ComboHistory) == u;
      assert current in u;
      IndexOfUnique(current, u, 0);
      assert RemoveAt(u, 0) == u[1..];
    }
  }

  /** The first n elements of s (all of them when there are at most n). */
  function Take<T>(s: seq<T>, n: nat): seq<T> {
    if |s| <= n then s else s[..n]
  }

  /** Leaving out an element that is not there changes nothing. */
  lemma {:induction false} WithoutAbsent(s: seq<string>, x: string)
    requires x !in s
    ensures Without(s, x) == s
  {
    if s != [] {
      assert s[1..] + [] == s[1..];
      assert x !in s[1..] by { assert forall y :: y in s[1..] ==> y in s; }
      WithoutAbsent(s[1..], x);
      assert s == [s[0]] + s[1..];
    }
  }

  /** In a list without duplicates, removing the first occurrence removes
      every occurrence. */
  lemma {:induction false} RemoveFirstIsWithout(s: seq<string>, x: string)
    requires NoDuplicates(s) && x in s
    ensures RemoveAt(s, IndexOf(x, s)) == Without(s, x)
  {
    if s[0] == x {
      assert x !in s[1..] by {
        forall j | 0 <= j < |s[1..]| ensures s[1..][j] != x {
          assert s[1..][j] == s[j + 1];
        }
      }
      WithoutAbsent(s[1..], x);
      assert RemoveAt(s, 0) == s[1..];
    } else {
      var k := IndexOf(x, s);
      assert x in s[1..] by { assert s[k] == s[1..][k - 1]; }
      assert NoDuplicates(s[1..]) by {
        forall i, j | 0 <= i < j < |s[1..]| ensures s[1..][i] != s[1..][j] {
          assert s[1..][i] == s[i + 1] && s[1..][j] == s[j + 1];
        }
      }
      RemoveFirstIsWithout(s[1..], x);
      assert RemoveAt(s, k) == [s[0]] + RemoveAt(s[1..], k - 1);
    }
  }

  /** With a duplicate-free history the update is move-to-front: the entry
      goes first, every other copy of it is gone, the others keep their
      order, and only the first ten are kept. */
  lemma UpdatedIsMoveToFront(items: seq<string>, current: string)
    requires current != "" && NoDuplicates(items)
    ensures Updated(items, current) ==
      Take([current] + Without(LastN(items, ComboHistory), current), ComboHistory)
  {
    var kept := LastN(items, ComboHistory);
    LastNKeepsNoDuplicates(items, ComboHistory);
    var rest := if current in kept then RemoveAt(kept, IndexOf(current, kept)) else kept;
    if current in kept {
      RemoveFirstIsWithout(kept, current);
    } else {
      WithoutAbsent(kept, current);
    }
    assert rest == Without(kept, current);
    var full := [current] + rest;
    if |rest| == ComboHistory {
      assert full[..ComboHistory] == [current] + rest[..ComboHistory - 1];
    }
  }

  /** Leaving out an element keeps a list free of duplicates. */
  lemma {:induction false} WithoutKeepsNoDuplicates(s: seq<string>, x: string)
    requires NoDuplicates(s)
    ensures NoDuplicates(Without(s, x))
  {
    if s != [] {
      assert NoDuplicates(s[1..]) by {
        forall i, j | 0 <= i < j < |s[1..]| ensures s[1..][i] != s[1..][j] {
          assert s[1..][i] == s[i + 1] && s[1..][j] == s[j + 1];
        }
      }
      WithoutKeepsNoDuplicates(s[1..], x);
      if s[0] != x {
        var w := Without(s[1..], x);
        assert s[0] !in s[1..] by {
          forall j | 0 <= j < |s[1..]| ensures s[1..][j] != s[0] {
            assert s[1..][j] == s[j + 1];
          }
        }
        assert s[0] !in w;
        forall i, j | 0 <= i < j < |[s[0]] + w| ensures ([s[0]] + w)[i] != ([s[0]] + w)[j] {
          if i == 0 {
            assert ([s[0]] + w)[j] == w[j - 1];
          }
        }
      }
    }
  }

  /** A history without duplicates stays without duplicates. */
  lemma UpdatedKeepsNoDuplicates(items: seq<string>, current: string)
    requires NoDuplicates(items)
    ensures NoDuplicates(Updated(items, current))
  {
    if current != "" {
      var kept := LastN(items, ComboHistory);
      LastNKeepsNoDuplicates(items, ComboHistory);
      UpdatedIsMoveToFront(items, current);
      WithoutKeepsNoDuplicates(kept, current);
      var w := Without(kept, current);
      PrependAbsentKeepsNoDuplicates(current, w);
      TakeKeepsNoDuplicates([current] + w, ComboHistory);
    }
  }

  /** The last n entries of a duplicate-free list are duplicate-free. */
  lemma LastNKeepsNoDuplicates(items: seq<string>, n: nat)
    requires NoDuplicates(items)
    ensures NoDuplicates(LastN(items, n))
  {
    var kept := LastN(items, n);
    forall i, j | 0 <= i < j < |kept| ensures kept[i] != kept[j] {
      assert kept[i] == items[|items| - |kept| + i];
      assert kept[j] == items[|items| - |kept| + j];
    }
  }

  /** Putting an absent entry in front keeps a list duplicate-free. */
  lemma PrependAbsentKeepsNoDuplicates(x: string, s: seq<string>)
    requires NoDuplicates(s) && x !in s
    ensures NoDuplicates([x] + s)
  {
    var full := [x] + s;
    forall i, j | 0 <= i < j < |full| ensures full[i] != full[j] {
      if i == 0 {
        assert full[j] == s[j - 1];
      } else {
        assert full[i] == s[i - 1] && full[j] == s[j - 1];
      }
    }
  }

  /** The first n entries of a duplicate-free list are duplicate-free. */
  lemma TakeKeepsNoDuplicates(s: seq<string>, n: nat)
    requires NoDuplicates(s)
    ensures NoDuplicates(Take(s, n))
  {
    var u := Take(s, n);
    forall i, j | 0 <= i < j < |u| ensures u[i] != u[j] {
      assert u[i] == s[i] && u[j] == s[j];
    }
  }
}
