/** The order in which words are offered to the layout: a stable sort by descending value,
    and the subsequence relation that ties the laid-out words back to that order. */
module Ordering {
  import opened Geometry

  /** Values never increase along the sequence. */
  predicate SortedByValueDesc(ws: seq<Word>)
  {
    forall i, j :: 0 <= i < j < |ws| ==> ws[i].value >= ws[j].value
  }

  /** A word at least as large as the head of a sorted sequence can go in front of it. */
  lemma ConsSorted(x: Word, ws: seq<Word>)
    requires SortedByValueDesc(ws) && (ws != [] ==> x.value >= ws[0].value)
    ensures SortedByValueDesc([x] + ws)
  {
    var r := [x] + ws;
    forall i, j | 0 <= i < j < |r|
      ensures r[i].value >= r[j].value
    {
      if i == 0 {
        assert r[j] == ws[j - 1];
        assert ws[0].value >= ws[j - 1].value;
      } else {
        assert r[i] == ws[i - 1] && r[j] == ws[j - 1];
      }
    }
  }

  /** Inserts w in front of the first word whose value is not larger than its own. */
  function InsertByValue(w: Word, sorted: seq<Word>): (r: seq<Word>)
    requires SortedByValueDesc(sorted)
    ensures SortedByValueDesc(r)
    ensures |r| == |sorted| + 1
    ensures r[0] == w || (sorted != [] && r[0] == sorted[0])
  {
    if sorted == [] || sorted[0].value <= w.value then
      ConsSorted(w, sorted);
      [w] + sorted
    else
      var rest := InsertByValue(w, sorted[1..]);
      ConsSorted(sorted[0], rest);
      [sorted[0]] + rest
  }

  /** Insertion adds the word and keeps every other one. */
  lemma {:induction false} InsertAddsOne(w: Word, sorted: seq<Word>)
    requires SortedByValueDesc(sorted)
    ensures multiset(InsertByValue(w, sorted)) == multiset(sorted) + multiset{w}
  {
    if !(sorted == [] || sorted[0].value <= w.value) {
      InsertAddsOne(w, sorted[1..]);
      assert sorted == [sorted[0]] + sorted[1..];
      assert InsertByValue(w, sorted) == [sorted[0]] + InsertByValue(w, sorted[1..]);
    }
  }

  /** `[...words].sort((a, b) => b.value - a.value)`: a stable sort by descending value. */
  function SortByValueDesc(ws: seq<Word>): (r: seq<Word>)
    ensures SortedByValueDesc(r)
    ensures multiset(r) == multiset(ws)
    ensures |r| == |ws|
  {
    if ws == [] then []
    else
      assert ws == [ws[0]] + ws[1..];
      InsertAddsOne(ws[0], SortByValueDesc(ws[1..]));
      InsertByValue(ws[0], SortByValueDesc(ws[1..]))
  }

  /** The words of a given value, in their order. */
  function WithValue(ws: seq<Word>, v: real): (r: seq<Word>)
    ensures |r| <= |ws|
    ensures forall i :: 0 <= i < |r| ==> r[i].value == v
  {
    if ws == [] then []
    else if ws[0].value == v then [ws[0]] + WithValue(ws[1..], v)
    else WithValue(ws[1..], v)
  }

  lemma {:induction false} WithValueAppend(a: seq<Word>, b: seq<Word>, v: real)
    ensures WithValue(a + b, v) == WithValue(a, v) + WithValue(b, v)
  {
    if a == [] {
      assert a + b == b;
    } else {
      assert (a + b)[1..] == a[1..] + b;
      WithValueAppend(a[1..], b, v);
    }
  }

  /** In a sorted sequence the words of value v sit behind every larger word, so a word of value
      v inserted in front of its equals comes first among them. */
  lemma {:induction false} InsertWithValue(w: Word, sorted: seq<Word>, v: real)
    requires SortedByValueDesc(sorted)
    ensures WithValue(InsertByValue(w, sorted), v) ==
            (if w.value == v then [w] else []) + WithValue(sorted, v)
  {
    if sorted == [] || sorted[0].value <= w.value {
      assert ([w] + sorted)[1..] == sorted;
    } else {
      InsertWithValue(w, sorted[1..], v);
      assert ([sorted[0]] + InsertByValue(w, sorted[1..]))[1..] == InsertByValue(w, sorted[1..]);
      if w.value == v {
        assert sorted[0].value != v;
      }
    }
  }

  /** The sort is stable: words of equal value keep their input order. */
  lemma {:induction false} SortIsStable(ws: seq<Word>, v: real)
    ensures WithValue(SortByValueDesc(ws), v) == WithValue(ws, v)
  {
    if ws != [] {
      SortIsStable(ws[1..], v);
      InsertWithValue(ws[0], SortByValueDesc(ws[1..]), v);
    }
  }

  /** a is obtained from b by deleting elements (matched greedily from the end). */
  predicate IsSubsequence<T(==)>(a: seq<T>, b: seq<T>)
    decreases |b|
  {
    if a == [] then true
    else if b == [] then false
    else if a[|a| - 1] == b[|b| - 1] then IsSubsequence(a[..|a| - 1], b[..|b| - 1])
    else IsSubsequence(a, b[..|b| - 1])
  }

  /** Keeping the next element of b extends the subsequence. */
  lemma SubsequenceKeep<T>(a: seq<T>, b: seq<T>, x: T)
    requires IsSubsequence(a, b)
    ensures IsSubsequence(a + [x], b + [x])
  {
    assert (a + [x])[..|a|] == a;
    assert (b + [x])[..|b|] == b;
  }

  /** Skipping the next element of b keeps the subsequence. */
  lemma {:induction false} SubsequenceSkip<T>(a: seq<T>, b: seq<T>, x: T)
    requires IsSubsequence(a, b)
    ensures IsSubsequence(a, b + [x])
    decreases |b|, 1
  {
    assert (b + [x])[..|b|] == b;
    if a != [] && a[|a| - 1] == x {
      SubsequenceDropLast(a, b);
    }
  }

  /** Dropping the last element of a keeps it a subsequence of b. */
  lemma {:induction false} SubsequenceDropLast<T>(a: seq<T>, b: seq<T>)
    requires a != [] && IsSubsequence(a, b)
    ensures IsSubsequence(a[..|a| - 1], b)
    decreases |b|, 0
  {
    var b' := b[..|b| - 1];
    assert b == b' + [b[|b| - 1]];
    if a[|a| - 1] == b[|b| - 1] {
      SubsequenceSkip(a[..|a| - 1], b', b[|b| - 1]);
    } else {
      SubsequenceDropLast(a, b');
      SubsequenceSkip(a[..|a| - 1], b', b[|b| - 1]);
    }
  }

  /** A subsequence takes each element of b at most once. */
  lemma {:induction false} SubsequenceMultiset<T>(a: seq<T>, b: seq<T>)
    requires IsSubsequence(a, b)
    ensures multiset(a) <= multiset(b)
    decreases |b|
  {
    if a != [] {
      var b' := b[..|b| - 1];
      assert b == b' + [b[|b| - 1]];
      if a[|a| - 1] == b[|b| - 1] {
        var a' := a[..|a| - 1];
        assert a == a' + [a[|a| - 1]];
        SubsequenceMultiset(a', b');
      } else {
        SubsequenceMultiset(a, b');
      }
    }
  }

  /** A subsequence of a sorted sequence is sorted. */
  lemma {:induction false} SubsequenceSorted(a: seq<Word>, b: seq<Word>)
    requires IsSubsequence(a, b) && SortedByValueDesc(b)
    ensures SortedByValueDesc(a)
    decreases |b|
  {
    if a != [] {
      var b' := b[..|b| - 1];
      assert SortedByValueDesc(b');
      if a[|a| - 1] == b[|b| - 1] {
        var a' := a[..|a| - 1];
        SubsequenceSorted(a', b');
        SubsequenceMultiset(a', b');
        forall i | 0 <= i < |a'|
          ensures a'[i].value >= b[|b| - 1].value
        {
          assert a'[i] in multiset(b');
          var k :| 0 <= k < |b'| && b'[k] == a'[i];
          assert b[k] == a'[i];
        }
        assert a == a' + [b[|b| - 1]];
      } else {
        SubsequenceSorted(a, b');
      }
    }
  }

  /** Deleting elements keeps the relative order of the words of each value. */
  lemma {:induction false} SubsequenceWithValue(a: seq<Word>, b: seq<Word>, v: real)
    requires IsSubsequence(a, b)
    ensures IsSubsequence(WithValue(a, v), WithValue(b, v))
    decreases |b|
  {
    if a != [] {
      var b' := b[..|b| - 1];
      var y := b[|b| - 1];
      assert b == b' + [y];
      WithValueAppend(b', [y], v);
      assert WithValue([y], v) == if y.value == v then [y] else [];
      if a[|a| - 1] == y {
        var a' := a[..|a| - 1];
        assert a == a' + [y];
        WithValueAppend(a', [y], v);
        SubsequenceWithValue(a', b', v);
        if y.value == v {
          SubsequenceKeep(WithValue(a', v), WithValue(b', v), y);
        } else {
          assert WithValue(a', v) + [] == WithValue(a', v);
          assert WithValue(b', v) + [] == WithValue(b', v);
        }
      } else {
        SubsequenceWithValue(a, b', v);
        if y.value == v {
          SubsequenceSkip(WithValue(a, v), WithValue(b', v), y);
        } else {
          assert WithValue(b', v) + [] == WithValue(b', v);
        }
      }
    }
  }
}
