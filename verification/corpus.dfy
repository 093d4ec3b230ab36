/** `Corpus` of data.py: the two passes `tokenize` makes over a file, its two
    encodings, and the loading of the train, valid and test files against one
    shared dictionary. A file is the sequence of its lines. */
module Corpus {
  import opened Tokens
  import opened Vocabulary

  const TrainFile: string := "train.src"
  const ValidFile: string := "valid.src"
  const TestFile: string := "test.src"

  datatype LoadError =
    | MissingFile(name: string)  // the existence assertion on a file failed
    | EmptyStack                 // stacking the rows of a file with no lines
    | ShapeMismatch              // stacking rows of different lengths

  datatype Result<T> = Ok(value: T) | Err(error: LoadError)

  /** The output of `tokenize` in either mode. */
  datatype Encoded = Flat(ids: seq<nat>) | Padded(rows: seq<seq<nat>>)

  /** The dictionary after `tokenize`, and its output. */
  datatype Tokenized = Tokenized(dict: Dictionary, ids: Result<Encoded>)

  /** The three encoded files and the dictionary they share. */
  datatype Loaded = Loaded(dictionary: Dictionary, train: seq<nat>, valid: seq<nat>, test: seq<nat>)

  function Max(a: nat, b: nat): nat {
    if a < b then b else a
  }

  /** The token stream of a file: the tokens of its lines, in order. */
  function Stream(lines: seq<string>): seq<string> {
    if |lines| == 0 then [] else LineTokens(lines[0]) + Stream(lines[1..])
  }

  /** The number of tokens of a file counted line by line: each line
      contributes its word count plus one for the marker. */
  function LineCounts(lines: seq<string>): nat {
    if |lines| == 0 then 0
    else |Split(RemoveNewlines(lines[0]))| + 1 + LineCounts(lines[1..])
  }

  /** The largest token count of a line of the file, 0 for a file with no
      lines. */
  function MaxTokens(lines: seq<string>): (m: nat)
    ensures forall i :: 0 <= i < |lines| ==> |LineTokens(lines[i])| <= m
    ensures |lines| == 0 ==> m == 0
  {
    if |lines| == 0 then 0
    else
      var rest := MaxTokens(lines[1..]);
      assert forall i :: 1 <= i < |lines| ==> lines[i] == lines[1..][i - 1];
      Max(|LineTokens(lines[0])|, rest)
  }

  /** The maximum is attained: in a non-empty file some line has exactly
      `MaxTokens` tokens. */
  lemma {:induction false} MaxTokensAttained(lines: seq<string>)
    requires |lines| > 0
    ensures exists i :: 0 <= i < |lines| && |LineTokens(lines[i])| == MaxTokens(lines)
  {
    if |lines| > 1 && |LineTokens(lines[0])| < MaxTokens(lines[1..]) {
      MaxTokensAttained(lines[1..]);
      var j :| 0 <= j < |lines[1..]| && |LineTokens(lines[1..][j])| == MaxTokens(lines[1..]);
      assert lines[1..][j] == lines[j + 1];
    } else {
      assert |LineTokens(lines[0])| == MaxTokens(lines);
    }
  }

  /** Every token of every line has an id in `d`. */
  ghost predicate Registered(d: Dictionary, lines: seq<string>) {
    forall i, w :: 0 <= i < |lines| && w in LineTokens(lines[i]) ==> w in d.word2idx
  }

  /** A registered file's first line and remaining lines are registered. */
  lemma RegisteredSplit(d: Dictionary, lines: seq<string>)
    requires |lines| > 0 && Registered(d, lines)
    ensures forall w :: w in LineTokens(lines[0]) ==> w in d.word2idx
    ensures Registered(d, lines[1..])
  {
    forall i, w | 0 <= i < |lines| - 1 && w in LineTokens(lines[1..][i])
      ensures w in d.word2idx
    {
      assert lines[1..][i] == lines[i + 1];
    }
  }

  // ---------------------------------------------------------------------
  // Pass 1: growing the dictionary

  /** The state pass 1 carries from line to line. */
  datatype Pass1State = Pass1State(dict: Dictionary, tokens: nat, maxLength: nat)

  /** The loop of pass 1 from state `acc` over the remaining `lines`: each
      line's tokens are added to the dictionary, counted, and compared with
      the longest line so far. */
  function Pass1Loop(acc: Pass1State, lines: seq<string>): (r: Pass1State)
    ensures r.dict == AddWords(acc.dict, Stream(lines))
    ensures r.tokens == acc.tokens + |Stream(lines)|
    ensures r.maxLength == Max(acc.maxLength, MaxTokens(lines))
    decreases |lines|
  {
    if |lines| == 0 then acc
    else
      var words := LineTokens(lines[0]);
      var next := Pass1State(
        AddWords(acc.dict, words),
        acc.tokens + |words|,
        if |words| > acc.maxLength then |words| else acc.maxLength);
      AddWordsAppend(acc.dict, words, Stream(lines[1..]));
      Pass1Loop(next, lines[1..])
  }

  /** Pass 1 over a file, starting from dictionary `d` with `tokens` and
      `Max_Length` at 0. */
  function Pass1(d: Dictionary, lines: seq<string>): (r: Pass1State)
    ensures r.dict == AddWords(d, Stream(lines))
    ensures r.tokens == |Stream(lines)| == LineCounts(lines)
    ensures r.maxLength == MaxTokens(lines)
    ensures Registered(r.dict, lines)
  {
    StreamLength(lines);
    StreamHasLineTokens(lines);
    Pass1Loop(Pass1State(d, 0, 0), lines)
  }

  // ---------------------------------------------------------------------
  // Pass 2: emitting ids

  /** The ids of the words `ws`: the `word2idx` lookup of each. */
  function Ids(d: Dictionary, ws: seq<string>): (r: seq<nat>)
    requires forall w :: w in ws ==> w in d.word2idx
    ensures |r| == |ws|
    ensures forall k :: 0 <= k < |r| ==> r[k] == d.word2idx[ws[k]]
  {
    if |ws| == 0 then [] else [d.word2idx[ws[0]]] + Ids(d, ws[1..])
  }

  /** The words the ids `ids` stand for, read through `idx2word`. */
  function Decode(d: Dictionary, ids: seq<nat>): (r: seq<string>)
    requires forall k :: 0 <= k < |ids| ==> ids[k] < |d.idx2word|
    ensures |r| == |ids|
    ensures forall k :: 0 <= k < |r| ==> r[k] == d.idx2word[ids[k]]
  {
    if |ids| == 0 then [] else [d.idx2word[ids[0]]] + Decode(d, ids[1..])
  }

  /** Flat mode, pass 2: the ids of every line, concatenated in file order. */
  function EncodeFlat(d: Dictionary, lines: seq<string>): (r: seq<nat>)
    requires Registered(d, lines)
    ensures |r| == |Stream(lines)|
    decreases |lines|
  {
    if |lines| == 0 then []
    else
      RegisteredSplit(d, lines);
      Ids(d, LineTokens(lines[0])) + EncodeFlat(d, lines[1..])
  }

  /** `n` zeros. */
  function Zeros(n: nat): (r: seq<nat>)
    ensures |r| == n
    ensures forall k :: 0 <= k < n ==> r[k] == 0
  {
    seq(n, k => 0)
  }

  /** `functional.pad(row, (0, width - len(row)))` when that amount is
      positive; the row itself otherwise. */
  function PadRow(row: seq<nat>, width: nat): (r: seq<nat>)
    ensures |r| == Max(|row|, width)
    ensures r[..|row|] == row
    ensures forall k :: |row| <= k < |r| ==> r[k] == 0
    ensures |row| >= width ==> r == row
  {
    if width - |row| > 0 then row + Zeros(width - |row|) else row
  }

  /** Padded mode, pass 2: one row per line, each padded to `width`. */
  function EncodeRows(d: Dictionary, lines: seq<string>, width: nat): (r: seq<seq<nat>>)
    requires Registered(d, lines)
    ensures |r| == |lines|
    ensures forall i :: 0 <= i < |lines| ==> r[i] == PadRow(Ids(d, LineTokens(lines[i])), width)
    decreases |lines|
  {
    if |lines| == 0 then []
    else
      RegisteredSplit(d, lines);
      [PadRow(Ids(d, LineTokens(lines[0])), width)] + EncodeRows(d, lines[1..], width)
  }

  /** `torch.stack`: refuses an empty list and rows of unequal lengths. */
  function Stack(rows: seq<seq<nat>>): (r: Result<seq<seq<nat>>>)
    ensures r.Ok? <==> |rows| > 0 && forall i :: 0 <= i < |rows| ==> |rows[i]| == |rows[0]|
    ensures r.Ok? ==> r.value == rows
    ensures r.Err? && |rows| == 0 ==> r.error == EmptyStack
  {
    if |rows| == 0 then Err(EmptyStack)
    else if forall i :: 0 <= i < |rows| ==> |rows[i]| == |rows[0]| then Ok(rows)
    else Err(ShapeMismatch)
  }

  // ---------------------------------------------------------------------
  // tokenize

  /** `tokenize(path)` in flat mode: pass 1, then the concatenated ids. The
      result has exactly the `tokens` entries pass 1 counted, and position k
      holds the id of the k-th token of the file. */
  function TokenizeFlat(d: Dictionary, lines: seq<string>): (r: (Dictionary, seq<nat>))
    ensures r.0 == AddWords(d, Stream(lines))
    ensures forall w :: w in Stream(lines) ==> w in r.0.word2idx
    ensures |r.1| == Pass1(d, lines).tokens == LineCounts(lines)
    ensures |r.1| == |Stream(lines)|
    ensures forall k :: 0 <= k < |r.1| ==> r.1[k] == r.0.word2idx[Stream(lines)[k]]
  {
    var p := Pass1(d, lines);
    var ids := EncodeFlat(p.dict, lines);
    EncodeFlatIsStreamIds(p.dict, lines);
    (p.dict, ids)
  }

  /** `tokenize(path, keep_sentence_boundaries=True)`: pass 1, then one row
      per line padded with 0 to the longest line, stacked. A file with no
      lines leaves nothing to stack. */
  function TokenizePadded(d: Dictionary, lines: seq<string>): (r: (Dictionary, Result<seq<seq<nat>>>))
    ensures r.0 == AddWords(d, Stream(lines))
    ensures Registered(r.0, lines)
    ensures r.1.Ok? <==> |lines| > 0
    ensures r.1.Err? ==> r.1.error == EmptyStack
    ensures r.1.Ok? ==> |r.1.value| == |lines|
    ensures r.1.Ok? ==> forall i :: 0 <= i < |lines| ==>
      var n := |LineTokens(lines[i])|;
      && |r.1.value[i]| == MaxTokens(lines)
      && r.1.value[i][..n] == Ids(r.0, LineTokens(lines[i]))
      && (forall k :: n <= k < MaxTokens(lines) ==> r.1.value[i][k] == 0)
      && (n == MaxTokens(lines) ==> r.1.value[i] == Ids(r.0, LineTokens(lines[i])))
  {
    var p := Pass1(d, lines);
    var rows := EncodeRows(p.dict, lines, p.maxLength);
    (p.dict, Stack(rows))
  }

  /** `tokenize(path, keep_sentence_boundaries)`. */
  function Tokenize(d: Dictionary, lines: seq<string>, keepSentenceBoundaries: bool): (r: Tokenized)
    ensures r.dict == AddWords(d, Stream(lines))
    ensures Registered(r.dict, lines)
    ensures !keepSentenceBoundaries ==>
      && r.ids.Ok? && r.ids.value.Flat?
      && |r.ids.value.ids| == |Stream(lines)|
      && forall k :: 0 <= k < |r.ids.value.ids| ==>
           Stream(lines)[k] in r.dict.word2idx && r.ids.value.ids[k] == r.dict.word2idx[Stream(lines)[k]]
    ensures keepSentenceBoundaries ==> (r.ids.Ok? <==> |lines| > 0)
    ensures keepSentenceBoundaries && r.ids.Err? ==> r.ids.error == EmptyStack
    ensures keepSentenceBoundaries && r.ids.Ok? ==>
      && r.ids.value.Padded? && |r.ids.value.rows| == |lines|
      && forall i :: 0 <= i < |lines| ==>
           var n := |LineTokens(lines[i])|;
           && |r.ids.value.rows[i]| == MaxTokens(lines)
           && r.ids.value.rows[i][..n] == Ids(r.dict, LineTokens(lines[i]))
           && (forall k :: n <= k < MaxTokens(lines) ==> r.ids.value.rows[i][k] == 0)
  {
    if !keepSentenceBoundaries then
      var (d', ids) := TokenizeFlat(d, lines);
      Tokenized(d', Ok(Flat(ids)))
    else
      var (d', rows) := TokenizePadded(d, lines);
      match rows
      case Ok(rs) => Tokenized(d', Ok(Padded(rs)))
      case Err(e) => Tokenized(d', Err(e))
  }

  // ---------------------------------------------------------------------
  // Corpus.__init__

  /** `Corpus(path)`: the train, valid and test files tokenized in flat mode,
      in that order, against one dictionary that starts empty. `files` maps
      the file names of the directory to their lines; the first of the three
      that is missing aborts the load. */
  function Load(files: map<string, seq<string>>): (r: Result<Loaded>)
    ensures r.Err? <==> TrainFile !in files || ValidFile !in files || TestFile !in files
    ensures r.Err? ==> r.error == MissingFile(
      if TrainFile !in files then TrainFile
      else if ValidFile !in files then ValidFile
      else TestFile)
    ensures r.Ok? ==> r.value.dictionary == AddWords(Empty(),
      Stream(files[TrainFile]) + Stream(files[ValidFile]) + Stream(files[TestFile]))
  {
    if TrainFile !in files then Err(MissingFile(TrainFile))
    else
      var (d1, train) := TokenizeFlat(Empty(), files[TrainFile]);
      if ValidFile !in files then Err(MissingFile(ValidFile))
      else
        var (d2, valid) := TokenizeFlat(d1, files[ValidFile]);
        if TestFile !in files then Err(MissingFile(TestFile))
        else
          var (d3, test) := TokenizeFlat(d2, files[TestFile]);
          AddWordsAppend(Empty(), Stream(files[TrainFile]), Stream(files[ValidFile]));
          AddWordsAppend(Empty(), Stream(files[TrainFile]) + Stream(files[ValidFile]), Stream(files[TestFile]));
          Ok(Loaded(d3, train, valid, test))
  }

  // ---------------------------------------------------------------------
  // Lemmas

  lemma {:induction false} StreamLength(lines: seq<string>)
    ensures |Stream(lines)| == LineCounts(lines)
  {
    if |lines| > 0 {
      StreamLength(lines[1..]);
    }
  }

  /** Every token of every line occurs in the token stream. */
  lemma {:induction false} StreamHasLineTokens(lines: seq<string>)
    ensures forall i, w :: 0 <= i < |lines| && w in LineTokens(lines[i]) ==> w in Stream(lines)
  {
    if |lines| > 0 {
      StreamHasLineTokens(lines[1..]);
      forall i, w | 0 <= i < |lines| && w in LineTokens(lines[i])
        ensures w in Stream(lines)
      {
        if i > 0 {
          assert lines[i] == lines[1..][i - 1];
        }
      }
    }
  }

  /** The words of a registered file's token stream all have ids. */
  lemma {:induction false} StreamRegistered(d: Dictionary, lines: seq<string>)
    requires Registered(d, lines)
    ensures forall w :: w in Stream(lines) ==> w in d.word2idx
    decreases |lines|
  {
    if |lines| > 0 {
      RegisteredSplit(d, lines);
      StreamRegistered(d, lines[1..]);
    }
  }

  /** Looking up a concatenation is concatenating the lookups. */
  lemma IdsAppend(d: Dictionary, a: seq<string>, b: seq<string>)
    requires forall w :: w in a ==> w in d.word2idx
    requires forall w :: w in b ==> w in d.word2idx
    ensures Ids(d, a + b) == Ids(d, a) + Ids(d, b)
  {
    var l := Ids(d, a + b);
    var rr := Ids(d, a) + Ids(d, b);
    forall k | 0 <= k < |l|
      ensures l[k] == rr[k]
    {
      if k < |a| {
        assert (a + b)[k] == a[k];
      } else {
        assert (a + b)[k] == b[k - |a|];
      }
    }
  }

  /** Flat mode emits, token by token, the id of the token stream. */
  lemma {:induction false} EncodeFlatIsStreamIds(d: Dictionary, lines: seq<string>)
    requires Registered(d, lines)
    ensures forall w :: w in Stream(lines) ==> w in d.word2idx
    ensures EncodeFlat(d, lines) == Ids(d, Stream(lines))
    decreases |lines|
  {
    StreamRegistered(d, lines);
    if |lines| > 0 {
      RegisteredSplit(d, lines);
      StreamRegistered(d, lines[1..]);
      EncodeFlatIsStreamIds(d, lines[1..]);
      IdsAppend(d, LineTokens(lines[0]), Stream(lines[1..]));
    }
  }

  /** `ids` is the encoding of `ws` in `d`, position by position. */
  ghost predicate EncodesWith(d: Dictionary, ids: seq<nat>, ws: seq<string>) {
    && |ids| == |ws|
    && forall k :: 0 <= k < |ids| ==> ws[k] in d.word2idx && ids[k] == d.word2idx[ws[k]]
  }

  /** Ids stay valid as the dictionary grows: an encoding made with an
      earlier dictionary reads the same in every later one. */
  lemma EncodingStable(a: Dictionary, b: Dictionary, ids: seq<nat>, ws: seq<string>)
    requires Extends(a, b)
    requires EncodesWith(a, ids, ws)
    ensures EncodesWith(b, ids, ws)
  {
  }

  /** Every id of `ids` is in range and, read back through `idx2word`,
      the ids spell `ws`. */
  ghost predicate DecodesTo(d: Dictionary, ids: seq<nat>, ws: seq<string>) {
    && (forall k :: 0 <= k < |ids| ==> ids[k] < |d.idx2word|)
    && Decode(d, ids) == ws
  }

  /** Round trip: reading an encoding back through `idx2word` gives the
      words it encodes. */
  lemma DecodeEncoding(d: Dictionary, ids: seq<nat>, ws: seq<string>)
    requires Valid(d)
    requires EncodesWith(d, ids, ws)
    ensures DecodesTo(d, ids, ws)
  {
  }

  /** One flat `tokenize` call keeps the dictionary invariant, only extends
      the dictionary, and encodes the file's token stream. */
  lemma TokenizeFlatStep(d: Dictionary, lines: seq<string>)
    requires Valid(d)
    ensures Valid(TokenizeFlat(d, lines).0)
    ensures Extends(d, TokenizeFlat(d, lines).0)
    ensures EncodesWith(TokenizeFlat(d, lines).0, TokenizeFlat(d, lines).1, Stream(lines))
  {
    AddWordsKeepsValid(d, Stream(lines));
    AddWordsExtends(d, Stream(lines));
  }

  /** Flat-mode round trip: the output read back through `idx2word` is the
      token stream of the file, every line ending in the marker. */
  lemma FlatRoundTrip(d: Dictionary, lines: seq<string>)
    requires Valid(d)
    ensures DecodesTo(TokenizeFlat(d, lines).0, TokenizeFlat(d, lines).1, Stream(lines))
  {
    TokenizeFlatStep(d, lines);
    var r := TokenizeFlat(d, lines);
    DecodeEncoding(r.0, r.1, Stream(lines));
  }

  /** One padded `tokenize` call keeps the dictionary invariant. */
  lemma TokenizePaddedKeepsValid(d: Dictionary, lines: seq<string>)
    requires Valid(d)
    ensures Valid(TokenizePadded(d, lines).0)
  {
    AddWordsKeepsValid(d, Stream(lines));
  }

  /** A row that starts with the ids of `ws` reads back as `ws`. */
  lemma DecodeIds(d: Dictionary, row: seq<nat>, ws: seq<string>)
    requires Valid(d)
    requires forall w :: w in ws ==> w in d.word2idx
    requires |ws| <= |row| && row[..|ws|] == Ids(d, ws)
    ensures DecodesTo(d, row[..|ws|], ws)
  {
    DecodeEncoding(d, Ids(d, ws), ws);
  }

  /** Padded-mode round trip: the leading entries of each row read back
      through `idx2word` give that line's tokens. */
  lemma PaddedRoundTrip(d: Dictionary, lines: seq<string>, i: nat)
    requires Valid(d)
    requires i < |lines|
    ensures var (d', rows) := TokenizePadded(d, lines);
      && rows.Ok?
      && |LineTokens(lines[i])| <= |rows.value[i]|
      && DecodesTo(d', rows.value[i][..|LineTokens(lines[i])|], LineTokens(lines[i]))
  {
    TokenizePaddedKeepsValid(d, lines);
    var r := TokenizePadded(d, lines);
    DecodeIds(r.0, r.1.value[i], LineTokens(lines[i]));
  }

  /** The three outputs of a load are encodings of their files' token
      streams in the final shared dictionary: the ids handed out while
      tokenizing train are unchanged after valid and test extend the
      vocabulary. */
  lemma LoadEncodes(files: map<string, seq<string>>)
    requires Load(files).Ok?
    ensures Valid(Load(files).value.dictionary)
    ensures EncodesWith(Load(files).value.dictionary, Load(files).value.train, Stream(files[TrainFile]))
    ensures EncodesWith(Load(files).value.dictionary, Load(files).value.valid, Stream(files[ValidFile]))
    ensures EncodesWith(Load(files).value.dictionary, Load(files).value.test, Stream(files[TestFile]))
  {
    var (d1, train) := TokenizeFlat(Empty(), files[TrainFile]);
    var (d2, valid) := TokenizeFlat(d1, files[ValidFile]);
    var (d3, test) := TokenizeFlat(d2, files[TestFile]);
    TokenizeFlatStep(Empty(), files[TrainFile]);
    TokenizeFlatStep(d1, files[ValidFile]);
    TokenizeFlatStep(d2, files[TestFile]);
    ExtendsTransitive(d1, d2, d3);
    EncodingStable(d1, d3, train, Stream(files[TrainFile]));
    EncodingStable(d2, d3, valid, Stream(files[ValidFile]));
  }

  /** Load round trip: each output read back through the final shared
      dictionary is its file's token stream. */
  lemma LoadRoundTrip(files: map<string, seq<string>>)
    requires Load(files).Ok?
    ensures var c := Load(files).value;
      && DecodesTo(c.dictionary, c.train, Stream(files[TrainFile]))
      && DecodesTo(c.dictionary, c.valid, Stream(files[ValidFile]))
      && DecodesTo(c.dictionary, c.test, Stream(files[TestFile]))
  {
    LoadEncodes(files);
    var c := Load(files).value;
    DecodeEncoding(c.dictionary, c.train, Stream(files[TrainFile]));
    DecodeEncoding(c.dictionary, c.valid, Stream(files[ValidFile]));
    DecodeEncoding(c.dictionary, c.test, Stream(files[TestFile]));
  }
}
