/** Worked instances of the loader on small directories. */
module Scenarios {
  import opened Tokens
  import opened Vocabulary
  import opened Corpus

  /** A plain word of text: non-empty, no whitespace, not the marker. */
  ghost predicate PlainWord(w: string) {
    IsWord(w) && w != EOS
  }

  lemma EmptyLineStream(lines: seq<string>)
    requires lines == [""]
    ensures Stream(lines) == [EOS]
  {
    BlankLineTokens("");
    assert lines[1..] == [];
  }

  /** The token stream of a two-line file. */
  lemma TwoLineStream(l0: string, l1: string, lines: seq<string>)
    requires lines == [l0, l1]
    ensures Stream(lines) == LineTokens(l0) + LineTokens(l1)
  {
    assert lines[1..] == [l1];
    assert lines[1..][1..] == [];
    assert Stream(lines[1..]) == LineTokens(l1) + [];
  }

  lemma SmallTrainStream(a: string, b: string, c: string, lines: seq<string>)
    requires PlainWord(a) && PlainWord(b) && PlainWord(c)
    requires lines == [JoinWords([a, b]), JoinWords([c])]
    ensures Stream(lines) == [a, b, EOS, c, EOS]
  {
    TwoLineStream(JoinWords([a, b]), JoinWords([c]), lines);
    LineOfWords([a, b]);
    LineOfWords([c]);
    assert [a, b] + [EOS] + ([c] + [EOS]) == [a, b, EOS, c, EOS];
  }

  lemma FirstSeenOfSmallTrain(a: string, b: string, c: string, ws: seq<string>)
    requires PlainWord(a) && PlainWord(b) && PlainWord(c)
    requires a != b && b != c && a != c
    requires ws == [a, b, EOS, c, EOS]
    ensures FirstSeen(ws, {}) == [a, b, EOS, c]
  {
    assert ws[4..][1..] == [];
    assert FirstSeen(ws[4..], {a, b, EOS, c}) == [];
    assert ws[3..][1..] == ws[4..];
    assert {a, b, EOS} + {c} == {a, b, EOS, c};
    assert FirstSeen(ws[3..], {a, b, EOS}) == [c];
    assert ws[2..][1..] == ws[3..];
    assert {a, b} + {EOS} == {a, b, EOS};
    assert FirstSeen(ws[2..], {a, b}) == [EOS, c];
    assert ws[1..][1..] == ws[2..];
    assert {a} + {b} == {a, b};
    assert FirstSeen(ws[1..], {a}) == [b, EOS, c];
    assert {} + {a} == {a};
  }

  /** The dictionary after the train file: a=0, b=1, <eos>=2, c=3. */
  lemma SmallTrainDictionary(a: string, b: string, c: string, ws: seq<string>)
    requires PlainWord(a) && PlainWord(b) && PlainWord(c)
    requires a != b && b != c && a != c
    requires ws == [a, b, EOS, c, EOS]
    ensures var d := AddWords(Empty(), ws);
      && d.idx2word == [a, b, EOS, c]
      && a in d.word2idx && d.word2idx[a] == 0
      && b in d.word2idx && d.word2idx[b] == 1
      && EOS in d.word2idx && d.word2idx[EOS] == 2
      && c in d.word2idx && d.word2idx[c] == 3
  {
    var d := AddWords(Empty(), ws);
    AddWordsFirstSeen(Empty(), ws);
    FirstSeenOfSmallTrain(a, b, c, ws);
    AddWordsKeepsValid(Empty(), ws);
    assert d.idx2word[0] == a && d.idx2word[1] == b;
    assert d.idx2word[2] == EOS && d.idx2word[3] == c;
  }

  lemma FiveIds(d: Dictionary, ids: seq<nat>, ws: seq<string>)
    requires |ws| == 5
    requires EncodesWith(d, ids, ws)
    ensures ids == [d.word2idx[ws[0]], d.word2idx[ws[1]], d.word2idx[ws[2]],
                    d.word2idx[ws[3]], d.word2idx[ws[4]]]
  {
  }

  lemma SmallTrainIds(a: string, b: string, c: string, lines: seq<string>)
    requires PlainWord(a) && PlainWord(b) && PlainWord(c)
    requires a != b && b != c && a != c
    requires lines == [JoinWords([a, b]), JoinWords([c])]
    ensures TokenizeFlat(Empty(), lines).0 == AddWords(Empty(), [a, b, EOS, c, EOS])
    ensures TokenizeFlat(Empty(), lines).1 == [0, 1, 2, 3, 2]
  {
    var ws := [a, b, EOS, c, EOS];
    SmallTrainStream(a, b, c, lines);
    var r := TokenizeFlat(Empty(), lines);
    assert EncodesWith(r.0, r.1, ws) by {
      TokenizeFlatStep(Empty(), lines);
    }
    SmallTrainDictionary(a, b, c, ws);
    FiveIds(r.0, r.1, ws);
  }

  lemma AddWordsSingle(d: Dictionary, w: string)
    ensures AddWords(d, [w]) == AddWord(d, w).0
  {
    assert [w][0] == w && [w][1..] == [];
  }

  /** A file of one empty line encodes as the id of the marker and adds
      nothing new to a dictionary that knows the marker. */
  lemma EmptyLineFile(d: Dictionary, lines: seq<string>)
    requires lines == [""]
    requires EOS in d.word2idx
    ensures TokenizeFlat(d, lines).1 == [d.word2idx[EOS]]
    ensures TokenizeFlat(d, lines).0.word2idx == d.word2idx
  {
    EmptyLineStream(lines);
    var r := TokenizeFlat(d, lines);
    AddWordsSingle(d, EOS);
    assert |r.1| == 1 && r.1[0] == r.0.word2idx[EOS];
  }

  /** train.src holds the lines "a b" and "c", valid.src and test.src one
      empty line each: the ids are a=0, b=1, <eos>=2, c=3, train encodes as
      [0, 1, 2, 3, 2] and valid and test as [2]. */
  lemma SmallDirectory(a: string, b: string, c: string, files: map<string, seq<string>>)
    requires PlainWord(a) && PlainWord(b) && PlainWord(c)
    requires a != b && b != c && a != c
    requires files == map[TrainFile := [JoinWords([a, b]), JoinWords([c])],
                          ValidFile := [""], TestFile := [""]]
    ensures Load(files).Ok?
    ensures Load(files).value.dictionary.idx2word == [a, b, EOS, c]
    ensures Load(files).value.train == [0, 1, 2, 3, 2]
    ensures Load(files).value.valid == [2]
    ensures Load(files).value.test == [2]
  {
    var ws := [a, b, EOS, c, EOS];
    SmallTrainIds(a, b, c, files[TrainFile]);
    SmallTrainDictionary(a, b, c, ws);
    var d1 := TokenizeFlat(Empty(), files[TrainFile]).0;
    EmptyLineFile(d1, files[ValidFile]);
    var d2 := TokenizeFlat(d1, files[ValidFile]).0;
    EmptyLineFile(d2, files[TestFile]);
    var d3 := TokenizeFlat(d2, files[TestFile]).0;
    EmptyLineStream(files[ValidFile]);
    EmptyLineStream(files[TestFile]);
    AddWordsFirstSeen(d1, [EOS]);
    AddWordsFirstSeen(d2, [EOS]);
    assert FirstSeen([EOS], d1.word2idx.Keys) == [] by {
      assert [EOS][1..] == [];
    }
  }

  /** A missing test.src aborts the load even when the other two files are
      present. */
  lemma MissingTestFile(files: map<string, seq<string>>)
    requires TrainFile in files && ValidFile in files && TestFile !in files
    ensures Load(files) == Err(MissingFile(TestFile))
  {
  }

  /** A line holding the word `<eos>` yields the marker in the middle of the
      line: the marker is not a reserved word. */
  lemma MarkerInsideLine(a: string)
    requires PlainWord(a)
    ensures LineTokens(JoinWords([EOS, a])) == [EOS, a, EOS]
  {
    assert forall k :: 0 <= k < |EOS| ==> !IsSpace(EOS[k]);
    LineOfWords([EOS, a]);
  }

  lemma PaddingLines(a: string, b: string, c: string, d: string, lines: seq<string>)
    requires PlainWord(a) && PlainWord(b) && PlainWord(c) && PlainWord(d)
    requires lines == [JoinWords([a, b]), JoinWords([a, b, c, d]), JoinWords([c])]
    ensures |LineTokens(lines[0])| == 3
    ensures |LineTokens(lines[1])| == 5
    ensures |LineTokens(lines[2])| == 2
    ensures MaxTokens(lines) == 5
  {
    LineOfWords([a, b]);
    LineOfWords([a, b, c, d]);
    LineOfWords([c]);
    assert lines[1..][1..] == [JoinWords([c])];
    assert lines[1..][1..][1..] == [];
    assert MaxTokens(lines[1..][1..]) == 2;
    assert MaxTokens(lines[1..]) == 5;
  }

  /** Lines of 3, 5 and 2 tokens in padded mode: a 3 x 5 result whose first
      row ends in two zeros, whose second row is unpadded, and whose third
      row ends in three zeros. */
  lemma PaddingShape(a: string, b: string, c: string, d: string, lines: seq<string>)
    requires PlainWord(a) && PlainWord(b) && PlainWord(c) && PlainWord(d)
    requires lines == [JoinWords([a, b]), JoinWords([a, b, c, d]), JoinWords([c])]
    ensures TokenizePadded(Empty(), lines).1.Ok?
    ensures |TokenizePadded(Empty(), lines).1.value| == 3
    ensures forall i :: 0 <= i < 3 ==> |TokenizePadded(Empty(), lines).1.value[i]| == 5
    ensures TokenizePadded(Empty(), lines).1.value[0][3..] == [0, 0]
    ensures TokenizePadded(Empty(), lines).1.value[2][2..] == [0, 0, 0]
  {
    PaddingLines(a, b, c, d, lines);
    var r := TokenizePadded(Empty(), lines).1.value;
    assert r[0][3] == 0 && r[0][4] == 0;
    assert r[2][2] == 0 && r[2][3] == 0 && r[2][4] == 0;
  }
}
