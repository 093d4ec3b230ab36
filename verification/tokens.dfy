/** Line tokenization as performed by `Corpus.tokenize`: the line terminator is
    removed, the line is split on whitespace (Python's argument-less
    `str.split()`), and the end-of-sequence marker is appended. */
module Tokens {

  /** The marker appended to every line. */
  const EOS: string := "<eos>"

  /** The characters Python's `str.isspace()` accepts, which are the separators
      of an argument-less `str.split()`. */
  predicate IsSpace(c: char) {
    || c == ' ' || c == '\t' || c == '\n' || c == '\r'
    || c == '\U{000B}' || c == '\U{000C}'
    || ('\U{001C}' <= c <= '\U{001F}')
    || c == '\U{0085}' || c == '\U{00A0}' || c == '\U{1680}'
    || ('\U{2000}' <= c <= '\U{200A}')
    || c == '\U{2028}' || c == '\U{2029}' || c == '\U{202F}'
    || c == '\U{205F}' || c == '\U{3000}'
  }

  /** A word: a non-empty run of non-whitespace characters. */
  predicate IsWord(w: string) {
    |w| > 0 && forall i :: 0 <= i < |w| ==> !IsSpace(w[i])
  }

  /** `line.replace("\n", "")`: every newline character removed. */
  function RemoveNewlines(s: string): (r: string)
    ensures '\n' !in r
    ensures |r| <= |s|
    ensures '\n' !in s ==> r == s
  {
    if |s| == 0 then []
    else (if s[0] == '\n' then [] else [s[0]]) + RemoveNewlines(s[1..])
  }

  /** The characters of `s` that are not whitespace, in order. */
  function NonSpace(s: string): string {
    if |s| == 0 then []
    else (if IsSpace(s[0]) then [] else [s[0]]) + NonSpace(s[1..])
  }

  /** The word under construction, emitted only when it is non-empty. */
  function Emit(cur: string): seq<string> {
    if |cur| == 0 then [] else [cur]
  }

  /** The fields of `s`, given that `cur` holds the characters of the word
      being read when `s` starts. */
  function Fields(s: string, cur: string): (r: seq<string>)
    requires forall i :: 0 <= i < |cur| ==> !IsSpace(cur[i])
    ensures forall k :: 0 <= k < |r| ==> IsWord(r[k])
    decreases |s|
  {
    if |s| == 0 then Emit(cur)
    else if IsSpace(s[0]) then Emit(cur) + Fields(s[1..], [])
    else Fields(s[1..], cur + [s[0]])
  }

  /** Python's `s.split()`: the maximal runs of non-whitespace characters;
      leading, trailing and repeated whitespace produce no empty fields. */
  function Split(s: string): (r: seq<string>)
    ensures forall k :: 0 <= k < |r| ==> IsWord(r[k])
  {
    Fields(s, [])
  }

  /** The tokens of one line: `line.split() + ['<eos>']` after the newline
      characters are removed. */
  function LineTokens(line: string): (r: seq<string>)
    ensures |r| >= 1 && r[|r| - 1] == EOS
    ensures r[..|r| - 1] == Split(RemoveNewlines(line))
  {
    Split(RemoveNewlines(line)) + [EOS]
  }

  /** The words of `ws` separated by single spaces (the inverse of `Split`). */
  function JoinWords(ws: seq<string>): string {
    if |ws| == 0 then []
    else if |ws| == 1 then ws[0]
    else ws[0] + " " + JoinWords(ws[1..])
  }

  /** Concatenation of a sequence of strings. */
  function Concat(ws: seq<string>): string {
    if |ws| == 0 then [] else ws[0] + Concat(ws[1..])
  }

  lemma ConcatAppend(a: seq<string>, b: seq<string>)
    ensures Concat(a + b) == Concat(a) + Concat(b)
  {
    if |a| > 0 {
      assert (a + b)[1..] == a[1..] + b;
      ConcatAppend(a[1..], b);
    } else {
      assert a + b == b;
    }
  }

  lemma RemoveNewlinesAppend(a: string, b: string)
    ensures RemoveNewlines(a + b) == RemoveNewlines(a) + RemoveNewlines(b)
  {
    if |a| > 0 {
      assert (a + b)[1..] == a[1..] + b;
      RemoveNewlinesAppend(a[1..], b);
    } else {
      assert a + b == b;
    }
  }

  /** Splitting loses exactly the whitespace: the fields, concatenated, are
      the non-whitespace characters of the input in order. */
  lemma {:induction false} FieldsConcat(s: string, cur: string)
    requires forall i :: 0 <= i < |cur| ==> !IsSpace(cur[i])
    ensures Concat(Fields(s, cur)) == cur + NonSpace(s)
    decreases |s|
  {
    if |s| == 0 {
      assert Concat(Emit(cur)) == cur;
    } else if IsSpace(s[0]) {
      FieldsConcat(s[1..], []);
      ConcatAppend(Emit(cur), Fields(s[1..], []));
      assert Concat(Emit(cur)) == cur;
    } else {
      var next := cur + [s[0]];
      assert forall i :: 0 <= i < |next| ==> !IsSpace(next[i]);
      FieldsConcat(s[1..], next);
      assert Fields(s, cur) == Fields(s[1..], next);
      assert NonSpace(s) == [s[0]] + NonSpace(s[1..]);
      assert next + NonSpace(s[1..]) == cur + NonSpace(s);
    }
  }

  lemma SplitConcat(s: string)
    ensures Concat(Split(s)) == NonSpace(s)
  {
    FieldsConcat(s, []);
  }

  /** A whitespace character separates: what is before it and what is after
      it are split independently. */
  lemma {:induction false} FieldsAtSpace(a: string, c: char, b: string, cur: string)
    requires IsSpace(c)
    requires forall i :: 0 <= i < |cur| ==> !IsSpace(cur[i])
    ensures Fields(a + [c] + b, cur) == Fields(a, cur) + Fields(b, [])
    decreases |a|
  {
    var s := a + [c] + b;
    if |a| == 0 {
      assert s[0] == c && s[1..] == b;
    } else {
      assert s[0] == a[0] && s[1..] == a[1..] + [c] + b;
      if IsSpace(a[0]) {
        FieldsAtSpace(a[1..], c, b, []);
      } else {
        FieldsAtSpace(a[1..], c, b, cur + [a[0]]);
      }
    }
  }

  lemma SplitAtSpace(a: string, c: char, b: string)
    requires IsSpace(c)
    ensures Split(a + [c] + b) == Split(a) + Split(b)
  {
    FieldsAtSpace(a, c, b, []);
  }

  /** Text without whitespace continues the word being read. */
  lemma {:induction false} FieldsOfWordChars(w: string, cur: string)
    requires forall i :: 0 <= i < |w| ==> !IsSpace(w[i])
    requires forall i :: 0 <= i < |cur| ==> !IsSpace(cur[i])
    ensures Fields(w, cur) == Emit(cur + w)
    decreases |w|
  {
    if |w| == 0 {
      assert cur + w == cur;
    } else {
      FieldsOfWordChars(w[1..], cur + [w[0]]);
      assert cur + [w[0]] + w[1..] == cur + w;
    }
  }

  lemma SplitWord(w: string)
    requires IsWord(w)
    ensures Split(w) == [w]
  {
    FieldsOfWordChars(w, []);
    assert [] + w == w;
  }

  /** Round trip: joining words with single spaces and splitting again gives
      the words back. */
  lemma {:induction false} SplitJoinWords(ws: seq<string>)
    requires forall k :: 0 <= k < |ws| ==> IsWord(ws[k])
    ensures Split(JoinWords(ws)) == ws
  {
    if |ws| == 0 {
    } else if |ws| == 1 {
      SplitWord(ws[0]);
    } else {
      SplitAtSpace(ws[0], ' ', JoinWords(ws[1..]));
      assert ws[0] + " " + JoinWords(ws[1..]) == ws[0] + [' '] + JoinWords(ws[1..]);
      SplitWord(ws[0]);
      SplitJoinWords(ws[1..]);
      assert ws == [ws[0]] + ws[1..];
    }
  }

  /** A line made only of whitespace (in particular the empty line) has no
      words. */
  lemma {:induction false} FieldsOfBlank(s: string)
    requires forall i :: 0 <= i < |s| ==> IsSpace(s[i])
    ensures Fields(s, []) == []
    decreases |s|
  {
    if |s| > 0 {
      FieldsOfBlank(s[1..]);
    }
  }

  /** An empty or blank line still yields exactly the marker: it is never
      skipped. */
  lemma BlankLineTokens(line: string)
    requires forall i :: 0 <= i < |line| ==> IsSpace(line[i])
    ensures LineTokens(line) == [EOS]
  {
    var s := RemoveNewlines(line);
    BlankRemoveNewlines(line);
    FieldsOfBlank(s);
  }

  lemma {:induction false} BlankRemoveNewlines(s: string)
    requires forall i :: 0 <= i < |s| ==> IsSpace(s[i])
    ensures forall i :: 0 <= i < |RemoveNewlines(s)| ==> IsSpace(RemoveNewlines(s)[i])
  {
    if |s| > 0 {
      BlankRemoveNewlines(s[1..]);
    }
  }

  /** The terminator a file iterator leaves on a line does not change the
      line's tokens. */
  lemma TerminatorIgnored(line: string)
    ensures LineTokens(line + "\n") == LineTokens(line)
  {
    RemoveNewlinesAppend(line, "\n");
    assert "\n"[1..] == [];
    assert RemoveNewlines("\n") == [];
    assert RemoveNewlines(line) + [] == RemoveNewlines(line);
  }

  /** The tokens of a line are its words, joined by single spaces, followed by
      the marker. */
  lemma LineOfWords(ws: seq<string>)
    requires forall k :: 0 <= k < |ws| ==> IsWord(ws[k])
    ensures LineTokens(JoinWords(ws)) == ws + [EOS]
  {
    JoinWordsNoNewline(ws);
    SplitJoinWords(ws);
  }

  lemma {:induction false} JoinWordsNoNewline(ws: seq<string>)
    requires forall k :: 0 <= k < |ws| ==> IsWord(ws[k])
    ensures '\n' !in JoinWords(ws)
  {
    if |ws| > 1 {
      JoinWordsNoNewline(ws[1..]);
    }
  }
}
