# Vocabulary and corpus tokenization of awd-lstm-lm `data.py`, in Dafny

This project models `data.py`, the data loader of the language-model trainer.

- `Dictionary` is a vocabulary. It has a `word2idx` map, an `idx2word` list, a per-id `counter` and a running `total`. `add_word` hands out ids densely, in the order words are first seen.
- `Corpus.tokenize` makes two passes over a text file.
  - Pass 1 splits each line on whitespace, appends the marker `<eos>`, and adds every token to the dictionary. It also counts the tokens and tracks the longest line.
  - Pass 2 emits the ids. In flat mode the result is one concatenated id sequence. With `keep_sentence_boundaries` the result is one row per line, right-padded with 0 to the longest line.
- `Corpus.__init__` tokenizes `train.src`, `valid.src` and `test.src`, in that order, against one shared dictionary.

Modules, one per concept:

- `Tokens` (`tokens.dfy`) covers line tokenization: newline removal, Python's argument-less `str.split()`, and the marker.
- `Vocabulary` (`vocabulary.dfy`) holds the `Dictionary` datatype, `add_word`, `__len__` and the dictionary invariant.
- `Corpus` (`corpus.dfy`) covers the two passes, the two encodings, the stacking of rows, and the loading of the three files.
- `Scenarios` (`scenarios.dfy`) works small directories through the model.

Modelling choices:

- A file is the sequence of its lines, as iterating over the open file yields them.
- A directory is a map from file name to lines.
- Tensors are `seq<nat>` and `seq<seq<nat>>`.
- `Dictionary` is an immutable datatype. `add_word` returns the new dictionary together with the id.
- The `Counter` is a `map<nat, nat>` read with a default of 0.
- The worked examples in `Scenarios` hold for any plain words: non-empty runs of non-whitespace characters other than `<eos>`.
- The marker is not reserved. Nothing in `data.py` reserves `<eos>`, so a line containing that word yields the marker id mid-line (`Scenarios.MarkerInsideLine`).

## Model

| member | source | states |
|---|---|---|
| Vocabulary.Empty | data.py:8-12 | a new dictionary has no words and no counts, and satisfies the dictionary invariant |
| Vocabulary.AddWord | data.py:14-21 | an unseen word is appended to `idx2word` and mapped to the old length; a known word leaves `word2idx` and `idx2word` unchanged and gets its existing id back; the returned id is the word's id; `total` grows by 1 and the count of that id by 1, every other count is unchanged |
| Vocabulary.AddWordKeepsValid | data.py:14-20 | `add_word` preserves the invariant: `idx2word[word2idx[w]] == w` for every key, the ids are 0..len-1, every id has count at least 1, and `total` is the sum of all counts |
| Vocabulary.AddWordsKeepsValid | data.py:14-20 | the invariant holds after any sequence of `add_word` calls |
| Vocabulary.IdsDense | data.py:15-17 | in a valid dictionary the set of ids is exactly 0..len-1 and no word appears twice in `idx2word` |
| Vocabulary.Len | data.py:23-24 | `__len__` of a valid dictionary is the number of distinct words in `word2idx` |
| Vocabulary.LenCountsDistinctWords | data.py:23-24 | the length of a vocabulary built from scratch is the number of distinct words added |
| Vocabulary.AddWords | data.py:50-51 | adding a word sequence keeps every earlier word, registers every added word, and raises `total` by the number of words |
| Vocabulary.AddWordFrequency | data.py:18-20 | one `add_word` adds one occurrence to its word's count and to no other word's count |
| Vocabulary.AddWordsFrequency | data.py:18-20 | after adding a word sequence, every word's count is its earlier count plus its number of occurrences in the sequence |
| Vocabulary.AddWordsFirstSeen | data.py:15-17 | `idx2word` grows by exactly the previously unseen words, each once, in order of first occurrence |
| Vocabulary.AddWordsKeys | data.py:15-17 | the known words afterwards are the earlier ones plus the added ones |
| Vocabulary.AddWordsExtends | data.py:15-17 | the vocabulary only grows: `idx2word` keeps its prefix and every id already handed out still names the same word |
| Vocabulary.AddWordsAppend | data.py:42-51 | adding the tokens of several lines one line at a time is the same as adding their concatenation |
| Tokens.LineTokens | data.py:43-46 | the tokens of a line are the whitespace fields of the line with its newlines removed, followed by one `<eos>`, which is always the last token |
| Tokens.RemoveNewlines | data.py:43 | the replace leaves no newline, never lengthens the line, and leaves a line without newlines unchanged |
| Tokens.TerminatorIgnored | data.py:43 | a line and the same line with its terminator give the same tokens |
| Tokens.Split | data.py:46 | every field of the whitespace split is a non-empty run of non-whitespace characters |
| Tokens.SplitConcat | data.py:46 | the fields, concatenated, are exactly the non-whitespace characters of the line, in order |
| Tokens.SplitAtSpace | data.py:46 | a whitespace character separates: the text before and after it split independently |
| Tokens.SplitWord | data.py:46 | a single word splits into itself |
| Tokens.SplitJoinWords | data.py:46 | round trip: words joined by single spaces split back into the same words |
| Tokens.LineOfWords | data.py:46 | the tokens of a line of words are those words followed by `<eos>` |
| Tokens.BlankLineTokens | data.py:43-46 | an empty or all-whitespace line gives exactly `['<eos>']`, so it is never skipped |
| Corpus.MaxTokens | data.py:47-48 | `Max_Length` bounds the token count of every line and is 0 for a file without lines |
| Corpus.MaxTokensAttained | data.py:47-48 | in a non-empty file some line has exactly `Max_Length` tokens |
| Corpus.Pass1Loop | data.py:42-51 | the pass-1 loop adds the remaining token stream to the dictionary, adds its length to `tokens`, and raises `Max_Length` to the longest remaining line |
| Corpus.Pass1 | data.py:39-51 | pass 1 leaves the dictionary extended by the file's token stream; `tokens` is the sum over lines of word count + 1; `Max_Length` is the longest line; every token of every line is registered, so every pass-2 lookup succeeds |
| Corpus.StreamLength | data.py:46-49 | the token stream of a file has one entry per word plus one marker per line |
| Corpus.StreamHasLineTokens | data.py:46-51 | every token of every line occurs in the file's token stream |
| Corpus.Ids | data.py:63-64 | the lookups of a word list have its length, and position k holds the id of word k |
| Corpus.EncodeFlat | data.py:55-65 | flat pass 2 emits exactly as many ids as the file has tokens |
| Corpus.IdsAppend | data.py:63-64 | looking up the tokens of two lines one after the other gives the concatenation of their lookups |
| Corpus.StreamRegistered | data.py:46-64 | when every line's tokens are registered, every token of the file's stream has an id |
| Corpus.EncodeFlatIsStreamIds | data.py:55-65 | flat pass 2, line by line, equals the lookup of the whole token stream |
| Corpus.PadRow | data.py:78-82 | a padded row has length max(len, `Max_Length`), begins with the row, and continues with zeros; a row already at the width is left unpadded |
| Corpus.EncodeRows | data.py:67-84 | padded pass 2 gives one row per line, each the line's ids padded to the width |
| Corpus.Stack | data.py:85 | stacking succeeds exactly for a non-empty list of equal-length rows and returns them unchanged; an empty list is refused |
| Corpus.TokenizeFlat | data.py:34-65 | flat `tokenize`: the output has exactly the `tokens` entries pass 1 counted, and position k holds `word2idx` of the k-th token of the file's token stream |
| Corpus.TokenizePadded | data.py:34-86 | padded `tokenize`: it fails exactly when the file has no lines; otherwise it gives one row per line, every row of length `Max_Length`, each the line's ids followed by `Max_Length - len` zeros, and a line at maximum length is left unpadded |
| Corpus.Tokenize | data.py:34-86 | `tokenize` in either mode extends the dictionary by the file's token stream and registers every token of every line; flat mode never fails and position k holds `word2idx` of the k-th token of the stream; padded mode fails exactly when the file has no lines, and then only with the empty-stack error; otherwise it gives one row per line of width `Max_Length`, holding the line's ids followed by zeros |
| Corpus.Load | data.py:28-36 | loading fails exactly when one of the three files is missing, naming the first in train/valid/test order; otherwise the shared dictionary is the empty one extended by train's, then valid's, then test's token streams |
| Corpus.TokenizeFlatStep | data.py:34-65 | one flat `tokenize` keeps the dictionary invariant, only extends the dictionary, and encodes the file's token stream |
| Corpus.FlatRoundTrip | data.py:46-64 | flat-mode round trip: every output id is in range, and mapping the ids through `idx2word` gives back the concatenated tokenized lines, each ending in `<eos>` |
| Corpus.TokenizePaddedKeepsValid | data.py:34-51 | padded `tokenize` keeps the dictionary invariant |
| Corpus.PaddedRoundTrip | data.py:67-84 | padded-mode round trip: the leading entries of each row, mapped through `idx2word`, give that line's tokens |
| Corpus.LoadEncodes | data.py:28-32 | after loading, the train, valid and test outputs are encodings of their files in the final shared dictionary: ids handed out for train stay valid after valid and test extend it |
| Corpus.LoadRoundTrip | data.py:28-32 | each of the three outputs, mapped through the final dictionary's `idx2word`, is its file's token stream |
| Scenarios.SmallDirectory | data.py:28-32 | for any three distinct plain words a, b, c: train lines "a b" and "c", with one empty line each in valid and test: `idx2word` is a, b, `<eos>`, c; train encodes as [0, 1, 2, 3, 2]; valid and test as [2] |
| Scenarios.MissingTestFile | data.py:28-36 | a missing `test.src` aborts the load with a missing-file error |
| Scenarios.MarkerInsideLine | data.py:46 | a line holding the word `<eos>` followed by any plain word w tokenizes to `<eos>`, w, `<eos>`, so the marker can occur mid-line |
| Scenarios.PaddingShape | data.py:70-85 | lines "a b", "a b c d" and "c" (3, 5 and 2 tokens) in padded mode give a 3 x 5 result; row 1 ends in two zeros, row 3 ends in three zeros |

## Left out

- File I/O is not modelled: `open`, iterating over a file, `os.path.join` and the `os.path.exists` assertion. A directory is a map from file name to lines. A missing file becomes the `MissingFile` error.
- Both passes see the same lines. A file that changes between the two reads is not modelled.
- Text decoding and its errors are not modelled. Lines are given as strings after decoding.
- Text mode's universal-newline translation is not modelled either, for the same reason.
- The `print(line)` debug output is left out. It has no functional effect.
- The always-true `line is not None` test is not modelled as a branch.
- torch is not modelled: `LongTensor`, `functional.pad` and `stack`.
  - Ids are unbounded naturals. The 64-bit element type of `LongTensor` is not modelled, because ids never come near its range.
  - Flat mode's preallocated `LongTensor(tokens)` is modelled by the proved equality of the output length with `tokens`.
  - `stack` is modelled by `Corpus.Stack`. It refuses an empty list and rows of unequal length.
- Corpus.Ids: a `word2idx` lookup of an unregistered word would raise `KeyError`. The model states this as a precondition (`Registered`) instead of an error path. `Corpus.Pass1` proves the precondition at every call that `tokenize` makes.
- Corpus.EncodeFlat: same precondition as `Corpus.Ids`, for the same reason.
- Corpus.EncodeRows: same precondition as `Corpus.Ids`, for the same reason.
- Determinism of loading is not stated as a lemma. Every operation is a pure function, so equal inputs give equal outputs by construction.
