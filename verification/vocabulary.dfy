/** The `Dictionary` of data.py: the word list indexed by id, the reverse
    map, a per-id occurrence counter and the number of words ever added. */
module Vocabulary {

  datatype Dictionary = Dictionary(
    idx2word: seq<string>,
    word2idx: map<string, nat>,
    counter: map<nat, nat>,
    total: nat)

  /** A `Counter` lookup: an id never counted reads as 0. */
  function CountOf(counter: map<nat, nat>, id: nat): nat {
    if id in counter then counter[id] else 0
  }

  /** The sum of the counts of the ids 0 .. n-1. */
  function SumCounts(counter: map<nat, nat>, n: nat): nat {
    if n == 0 then 0 else SumCounts(counter, n - 1) + CountOf(counter, n - 1)
  }

  /** The invariant every dictionary built by `add_word` keeps: the map and
      the list are inverse to each other over the ids 0 .. len-1, every id
      has been counted at least once and no other id has, and `total` is the
      sum of all counts. */
  ghost predicate Valid(d: Dictionary) {
    && (forall w :: w in d.word2idx ==>
          d.word2idx[w] < |d.idx2word| && d.idx2word[d.word2idx[w]] == w)
    && (forall i :: 0 <= i < |d.idx2word| ==>
          d.idx2word[i] in d.word2idx && d.word2idx[d.idx2word[i]] == i)
    && (forall i :: i in d.counter ==> i < |d.idx2word| && d.counter[i] >= 1)
    && (forall i :: 0 <= i < |d.idx2word| ==> i in d.counter)
    && d.total == SumCounts(d.counter, |d.idx2word|)
  }

  /** `Dictionary()`: no words, no counts. */
  function Empty(): (d: Dictionary)
    ensures Valid(d)
    ensures |d.idx2word| == 0 && |d.word2idx| == 0 && d.total == 0
  {
    Dictionary([], map[], map[], 0)
  }

  /** `add_word`: the new dictionary and the id of `w` in it. */
  function AddWord(d: Dictionary, w: string): (r: (Dictionary, nat))
    ensures w in r.0.word2idx && r.1 == r.0.word2idx[w]
    ensures w in d.word2idx ==>
      && r.0.idx2word == d.idx2word
      && r.0.word2idx == d.word2idx
      && r.1 == d.word2idx[w]
    ensures w !in d.word2idx ==>
      && r.0.idx2word == d.idx2word + [w]
      && r.0.word2idx == d.word2idx[w := |d.idx2word|]
      && r.1 == |d.idx2word|
    ensures r.0.total == d.total + 1
    ensures CountOf(r.0.counter, r.1) == CountOf(d.counter, r.1) + 1
    ensures forall i :: i != r.1 ==> CountOf(r.0.counter, i) == CountOf(d.counter, i)
  {
    var d1 :=
      if w in d.word2idx then d
      else d.(idx2word := d.idx2word + [w], word2idx := d.word2idx[w := |d.idx2word|]);
    var id := d1.word2idx[w];
    (d1.(counter := d1.counter[id := CountOf(d1.counter, id) + 1], total := d1.total + 1), id)
  }

  /** `__len__`: for a valid dictionary, the number of distinct words. */
  function Len(d: Dictionary): (n: nat)
    ensures Valid(d) ==> n == |d.word2idx|
  {
    LenIsDistinctWords(d);
    |d.idx2word|
  }

  /** `add_word` applied to each word of `ws` in order. */
  function AddWords(d: Dictionary, ws: seq<string>): (r: Dictionary)
    ensures d.word2idx.Keys <= r.word2idx.Keys
    ensures forall w :: w in ws ==> w in r.word2idx
    ensures r.total == d.total + |ws|
    decreases |ws|
  {
    if |ws| == 0 then d else AddWords(AddWord(d, ws[0]).0, ws[1..])
  }

  /** `b` grew from `a`: the list only got longer and every id already handed
      out still names the same word. */
  ghost predicate Extends(a: Dictionary, b: Dictionary) {
    && |a.idx2word| <= |b.idx2word|
    && b.idx2word[..|a.idx2word|] == a.idx2word
    && forall w :: w in a.word2idx ==> w in b.word2idx && b.word2idx[w] == a.word2idx[w]
  }

  /** How often `w` has been added, read through its id. */
  function Frequency(d: Dictionary, w: string): nat {
    if w in d.word2idx then CountOf(d.counter, d.word2idx[w]) else 0
  }

  /** The words of `ws` not in `seen`, each once, in order of first
      occurrence: the words `add_word` appends to the list. */
  function FirstSeen(ws: seq<string>, seen: set<string>): seq<string>
    decreases |ws|
  {
    if |ws| == 0 then []
    else if ws[0] in seen then FirstSeen(ws[1..], seen)
    else [ws[0]] + FirstSeen(ws[1..], seen + {ws[0]})
  }

  // ---------------------------------------------------------------------
  // Counter bookkeeping

  lemma {:induction false} SumCountsAbove(counter: map<nat, nat>, n: nat, i: nat, v: nat)
    requires n <= i
    ensures SumCounts(counter[i := v], n) == SumCounts(counter, n)
  {
    if n > 0 {
      SumCountsAbove(counter, n - 1, i, v);
    }
  }

  /** Counting one more occurrence of an id below `n` raises the sum by 1. */
  lemma {:induction false} SumCountsBump(counter: map<nat, nat>, n: nat, i: nat)
    requires i < n
    ensures SumCounts(counter[i := CountOf(counter, i) + 1], n) == SumCounts(counter, n) + 1
  {
    var c' := counter[i := CountOf(counter, i) + 1];
    if i == n - 1 {
      SumCountsAbove(counter, n - 1, i, CountOf(counter, i) + 1);
    } else {
      SumCountsBump(counter, n - 1, i);
      assert CountOf(c', n - 1) == CountOf(counter, n - 1);
    }
  }

  // ---------------------------------------------------------------------
  // The invariant

  lemma AddKnownWordKeepsValid(d: Dictionary, w: string)
    requires Valid(d) && w in d.word2idx
    ensures Valid(AddWord(d, w).0)
  {
    SumCountsBump(d.counter, |d.idx2word|, d.word2idx[w]);
  }

  lemma AddNewWordKeepsValid(d: Dictionary, w: string)
    requires Valid(d) && w !in d.word2idx
    ensures Valid(AddWord(d, w).0)
  {
    var d' := AddWord(d, w).0;
    var n := |d.idx2word|;
    assert n !in d.counter;
    assert d'.counter == d.counter[n := 1];
    assert SumCounts(d'.counter, n + 1) == d.total + 1 by {
      SumCountsBump(d.counter, n + 1, n);
      SumCountsAbove(d.counter, n, n, 0);
      assert d.counter[n := 0][n := 1] == d.counter[n := 1];
      assert SumCounts(d.counter[n := 0], n + 1) == SumCounts(d.counter, n);
    }
    forall i | 0 <= i < |d'.idx2word|
      ensures d'.idx2word[i] in d'.word2idx && d'.word2idx[d'.idx2word[i]] == i
    {
      if i < n {
        assert d'.idx2word[i] == d.idx2word[i];
      }
    }
  }

  /** `add_word` keeps the inverse invariant, the dense ids and the
      agreement of `total` with the sum of the counters. */
  lemma AddWordKeepsValid(d: Dictionary, w: string)
    requires Valid(d)
    ensures Valid(AddWord(d, w).0)
  {
    if w in d.word2idx {
      AddKnownWordKeepsValid(d, w);
    } else {
      AddNewWordKeepsValid(d, w);
    }
  }

  lemma {:induction false} AddWordsKeepsValid(d: Dictionary, ws: seq<string>)
    requires Valid(d)
    ensures Valid(AddWords(d, ws))
    decreases |ws|
  {
    if |ws| > 0 {
      AddWordKeepsValid(d, ws[0]);
      AddWordsKeepsValid(AddWord(d, ws[0]).0, ws[1..]);
    }
  }

  /** The ids handed out are exactly 0 .. len-1, and no word is listed
      twice. */
  lemma IdsDense(d: Dictionary)
    requires Valid(d)
    ensures forall i: nat :: i in d.word2idx.Values <==> i < |d.idx2word|
    ensures forall i, j :: 0 <= i < j < |d.idx2word| ==> d.idx2word[i] != d.idx2word[j]
  {
    forall i: nat | i < |d.idx2word|
      ensures i in d.word2idx.Values
    {
      assert d.word2idx[d.idx2word[i]] == i;
    }
  }

  lemma {:induction false} DistinctCard(s: seq<string>)
    requires forall i, j :: 0 <= i < j < |s| ==> s[i] != s[j]
    ensures |set x | x in s| == |s|
  {
    if |s| > 0 {
      var init := s[..|s| - 1];
      DistinctCard(init);
      assert (set x | x in s) == (set x | x in init) + {s[|s| - 1]};
      assert s[|s| - 1] !in init;
    }
  }

  lemma LenIsDistinctWords(d: Dictionary)
    ensures Valid(d) ==> |d.idx2word| == |d.word2idx|
  {
    if Valid(d) {
      IdsDense(d);
      DistinctCard(d.idx2word);
      assert d.word2idx.Keys == set x | x in d.idx2word;
    }
  }

  // ---------------------------------------------------------------------
  // Growth: ids are stable, the vocabulary only grows

  lemma ExtendsTransitive(a: Dictionary, b: Dictionary, c: Dictionary)
    requires Extends(a, b) && Extends(b, c)
    ensures Extends(a, c)
  {
    assert c.idx2word[..|a.idx2word|] == c.idx2word[..|b.idx2word|][..|a.idx2word|];
  }

  lemma AddWordExtends(d: Dictionary, w: string)
    ensures Extends(d, AddWord(d, w).0)
  {
    var d' := AddWord(d, w).0;
    if w !in d.word2idx {
      assert d'.idx2word[..|d.idx2word|] == d.idx2word;
    }
  }

  /** Adding words never moves an id already handed out: `b` extends `a`
      for every dictionary obtained by adding words to `a`. */
  lemma {:induction false} AddWordsExtends(d: Dictionary, ws: seq<string>)
    ensures Extends(d, AddWords(d, ws))
    decreases |ws|
  {
    if |ws| > 0 {
      var d1 := AddWord(d, ws[0]).0;
      AddWordExtends(d, ws[0]);
      AddWordsExtends(d1, ws[1..]);
      ExtendsTransitive(d, d1, AddWords(d1, ws[1..]));
    }
  }

  /** Adding `a + b` is adding `a`, then `b`. */
  lemma {:induction false} AddWordsAppend(d: Dictionary, a: seq<string>, b: seq<string>)
    ensures AddWords(d, a + b) == AddWords(AddWords(d, a), b)
    decreases |a|
  {
    if |a| == 0 {
      assert a + b == b;
    } else {
      assert (a + b)[0] == a[0] && (a + b)[1..] == a[1..] + b;
      AddWordsAppend(AddWord(d, a[0]).0, a[1..], b);
    }
  }

  /** The known words after adding `ws` are the earlier ones and those of
      `ws`. */
  lemma {:induction false} AddWordsKeys(d: Dictionary, ws: seq<string>)
    ensures AddWords(d, ws).word2idx.Keys == d.word2idx.Keys + (set w | w in ws)
    decreases |ws|
  {
    if |ws| == 0 {
    } else {
      var d1 := AddWord(d, ws[0]).0;
      AddWordsKeys(d1, ws[1..]);
      assert d1.word2idx.Keys == d.word2idx.Keys + {ws[0]};
      assert (set w | w in ws) == {ws[0]} + (set w | w in ws[1..]);
    }
  }

  /** Dense ids in first-seen order: the list grows by the unseen words of
      `ws`, each once, in the order they first occur. */
  lemma {:induction false} AddWordsFirstSeen(d: Dictionary, ws: seq<string>)
    ensures AddWords(d, ws).idx2word == d.idx2word + FirstSeen(ws, d.word2idx.Keys)
    decreases |ws|
  {
    if |ws| == 0 {
      assert d.idx2word + [] == d.idx2word;
    } else {
      var d1 := AddWord(d, ws[0]).0;
      assert AddWords(d, ws) == AddWords(d1, ws[1..]);
      AddWordsFirstSeen(d1, ws[1..]);
      FirstSeenStep(d.idx2word, d.word2idx.Keys, d1.idx2word, d1.word2idx.Keys, ws);
    }
  }

  /** One step of `AddWordsFirstSeen`: the list and key set after adding
      `ws[0]` continue the first-seen order of `ws`. */
  lemma FirstSeenStep(list: seq<string>, keys: set<string>,
                      list1: seq<string>, keys1: set<string>, ws: seq<string>)
    requires |ws| > 0
    requires ws[0] in keys ==> list1 == list && keys1 == keys
    requires ws[0] !in keys ==> list1 == list + [ws[0]] && keys1 == keys + {ws[0]}
    ensures list1 + FirstSeen(ws[1..], keys1) == list + FirstSeen(ws, keys)
  {
    if ws[0] !in keys {
      var rest := FirstSeen(ws[1..], keys + {ws[0]});
      assert list + [ws[0]] + rest == list + ([ws[0]] + rest);
    }
  }

  /** `__len__` of a vocabulary built from scratch is the number of distinct
      words added. */
  lemma LenCountsDistinctWords(ws: seq<string>)
    ensures Len(AddWords(Empty(), ws)) == |set w | w in ws|
  {
    AddWordsKeepsValid(Empty(), ws);
    AddWordsKeys(Empty(), ws);
    assert Empty().word2idx.Keys + (set w | w in ws) == (set w | w in ws);
  }

  // ---------------------------------------------------------------------
  // Frequencies

  /** One `add_word` counts one more occurrence of its word and of no other. */
  lemma AddWordFrequency(d: Dictionary, v: string, w: string)
    requires Valid(d)
    ensures Frequency(AddWord(d, v).0, w) == Frequency(d, w) + (if w == v then 1 else 0)
  {
    var (d', id) := AddWord(d, v);
    var n := |d.idx2word|;
    if w == v {
      if v !in d.word2idx {
        assert n !in d.counter;
      }
    } else if w in d.word2idx {
      assert d'.word2idx[w] == d.word2idx[w];
      assert d'.idx2word[d'.word2idx[w]] == w;
      if v in d.word2idx {
        assert d'.idx2word[id] == v;
      } else {
        assert d.word2idx[w] < n;
      }
    }
  }

  /** After adding `ws`, the frequency of every word is its earlier
      frequency plus its number of occurrences in `ws`. */
  lemma {:induction false} AddWordsFrequency(d: Dictionary, ws: seq<string>, w: string)
    requires Valid(d)
    ensures Frequency(AddWords(d, ws), w) == Frequency(d, w) + multiset(ws)[w]
    decreases |ws|
  {
    if |ws| > 0 {
      var d1 := AddWord(d, ws[0]).0;
      AddWordFrequency(d, ws[0], w);
      AddWordKeepsValid(d, ws[0]);
      AddWordsFrequency(d1, ws[1..], w);
      assert ws == [ws[0]] + ws[1..];
      assert multiset(ws) == multiset{ws[0]} + multiset(ws[1..]);
    }
  }
}
