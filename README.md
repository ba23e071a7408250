# WiFiNE to CoNLL conversion, modelled in Dafny

The repository converts the WiFiNE corpus into a CoNLL-2003-like text format. The corpus has three parts:

- an annotation file per shard: blocks of `ID <art_id>` followed by `<sen_idx> <begin> <end_exclusive> <men_type> <figer index>` lines;
- document shards: blocks of `ID <art_id>` followed by one line of token indices per sentence;
- two vocabularies.

For every article the converter writes a `-DOCSTART-` line. It then writes each sentence, one token per line, with the word padded to column 20 and followed by its entity labels, or `O` when there are none.

Three versions of the converter are modelled:

- `src/conllize.py` (class `WiFiNECoNLLizer`). It indexes all shards once into `art2doc`, then converts a whole annotation file article by article, appending to the output file. Its model is module `Conllizer`.
- `generate.py` and `conllize.py` (class `WiFiNEProcessor`, two drafts). Each converts only the first article of a file into a truncated output file, in two passes over the annotation file, after a first-match search for the document shard. They are modelled by one class, `Drafts.Processor`, whose `script` selects between them:
  - `generate.py` raises on a malformed annotation line, and its debug prints raise IndexError when `segments` or `sentences` has fewer than two entries;
  - `conllize.py` skips malformed lines in its second pass and has no such prints.

Modules, each built on the ones before it:

- `PyText`: the Python pieces everything relies on:
  - lines as lists of fields from `str.split()`;
  - `int()` as a partial function;
  - list indexing, including negative indices;
  - `str.join`.
- `Vocab`: the vocabulary loader.
- `Shards`: the shard directory and what a scan of one shard learns.
- `Spans`: annotation records and the label resolver.
- `Segments`: the per-sentence span lists.
- `Documents`: reading and windowing an article's sentences.
- `Conll`: the output format and the writer. The output file is the class `TextFile`.
- `Annotations`: the span collection and the grouping loop of `src/conllize.py`.
- `Conllizer`: the class `Conllizer` with its fields `documentVocab`, `figerVocab` and `art2doc`.
- `Drafts`: the class `Processor` with the fields of `WiFiNEProcessor`.

How the model treats Python:

- **Exceptions.** An exception that escapes is a failure outcome: `Option.None`, `Emitted(text, false)` or `Run.Raised`. It carries the text already written to the output file, because that text survives the crash.
- **`except: pass` and `except: continue`.** These become "this shard or this line yields nothing".
- **Loops.** Every loop of the source is a method with a `while` loop. Its loop invariant ties the loop to a tail-recursive function that mirrors it (`DocScan`, `CollectSpans`, `Group`, `Pass1`, `Pass2`, `Body`). Lemmas then split each mirror into a selection (`ArticleLines`, `AnnotationBlock`, `Select`) followed by an application (`WindowFrom`, `ApplyAll`), and state what the result holds.
- **Files.** A file is the sequence of its lines, already split into fields. The document directory is a sequence indexed by shard number; an entry is `None` when the shard cannot be opened.

Two behaviours of the code worth noting:

- A token line is `sep.join([word] + labels)`. The separator stands between the word and the first label and between every two labels, and it is empty for a word of 20 or more characters.
- The resolver keeps every containing span before the first span that starts after the token, so one token can get several labels.

## Model

| member | source | states |
|---|---|---|
| Vocab.Readable | src/conllize.py:26-29 | the loader gets through the lines before the first line without fields; every such line has a field; when it stops short, the line it stops at has none |
| Vocab.VocabEntries | src/conllize.py:26-29 | the keys of the loaded dictionary are exactly `0 .. n-1` and entry `i` is the first field of line `i` |
| Vocab.ReadVocab | src/conllize.py:25-29 | the loop builds the dictionary of the readable prefix; it succeeds exactly when every line has a field |
| Conllizer.Conllizer.constructor | src/conllize.py:6-13 | both vocabularies and `art2doc` start empty |
| Conllizer.Conllizer.LoadDocumentVocab | src/conllize.py:22-29 | `document_vocab` gains entry `i` = first word of line `i` for the readable lines; the other fields are unchanged; failure exactly on a line without fields |
| Conllizer.Conllizer.LoadFigerVocab | src/conllize.py:36-43 | the same for `figer_vocab` |
| Conllizer.Conllizer.IndexShard | src/conllize.py:76-83 | scanning one shard stores its number for every article id met before the first line that raises; the vocabularies are unchanged |
| Conllizer.Conllizer.LoadDocumentPaths | src/conllize.py:70-84 | `art2doc` is the scan of shards `0 .. NUM_FILES` inclusive over the old map; a shard that cannot be opened changes nothing |
| Shards.ScanLastWins | src/conllize.py:73-84 | an article has an entry exactly when it had one or some scanned shard contains it; the entry is then the highest-numbered such shard; an article no shard contains keeps its old entry |
| PyText.ParseIntShow | src/conllize.py:80 | `int(str(n)) == n` for every integer |
| PyText.PyIndex | src/conllize.py:126 | an index that Python accepts lies inside the list |
| PyText.Spaces | src/conllize.py:168 | `''.join([' '] * n)` is `n` spaces, or none when `n <= 0` |
| Segments.Empties | src/conllize.py:103-105 | `max(n, 0)` lists, each empty |
| Segments.NewSegments | src/conllize.py:103-105 | the allocation loop yields exactly those lists |
| Segments.ApplyAllBuckets | src/conllize.py:117-126 | applying a block fails exactly when one of its lines does not fit; otherwise the number of lists is kept and list `j` gains, in file order, the spans of the named-entity records for that list |
| Annotations.CollectSplits | src/conllize.py:107-126 | the annotation loop of `conllize_article` is the selection of the article's block followed by applying its lines with skipping and offset `sen_idx_min` |
| Annotations.ArticleSpans | src/conllize.py:103-126 | collection into `max - min + 1` empty lists succeeds exactly when the block is selected and each of its lines fits; list `j` then holds, in file order, the spans of the block's well-formed `men_type == 0` records with `sen_idx - sen_idx_min` selecting `j`; malformed lines add nothing |
| Conllizer.ReadArticleSpans | src/conllize.py:107-126 | the loop with `found` and `break` computes the collection function, and fails exactly when it does |
| Spans.Stop | src/conllize.py:159-165 | the stopping index: every span before it starts at or before `p`, and the one at it starts after `p` |
| Spans.ScannedIsCoveringPrefix | src/conllize.py:157-165 | the resolver returns the labels of all containing spans among those before the first span that starts after `p`, in stored order; no span after that point is seen |
| Spans.SortedScanSeesAll | src/conllize.py:157-165 | for spans sorted by start, the early exit loses no containing span |
| Spans.UncoveredIsO | src/conllize.py:158-167 | a token no span contains is labelled exactly `O` |
| Spans.CoveredByOne | src/conllize.py:157-167 | with sorted non-overlapping spans, a token inside span `k` is labelled with that span's type only |
| Spans.ResolveLabels | src/conllize.py:156-167 | the loop with `have_ne` and `break` produces the resolver's labels |
| Conll.LabelAtColumn20 | src/conllize.py:168-169 | for a word shorter than 20 characters, the label starts at column 20 and blanks fill the gap |
| Conll.LongWordTouchesLabel | src/conllize.py:168-169 | a word of 20 or more characters is followed by its label with nothing between |
| Conll.EveryLabelPadded | src/conllize.py:168-169 | with several labels, each one is preceded by the same padding |
| Conll.DocStartIsTokenLine | src/conllize.py:152 | the `-DOCSTART-` line is the token line of `-DOCSTART-` labelled `O` |
| Conll.BodyCompletes | src/conllize.py:153-157 | when every sentence has a list of spans, the writer does not raise |
| Conll.BodyStep | src/conllize.py:153-169 | each sentence is written as a newline and then its token lines; a non-empty sentence without a span list raises right after its newline |
| Conll.TextFile.constructor | src/conllize.py:151 | the file starts with its earlier content |
| Conll.TextFile.Write | src/conllize.py:151-152 | writing appends, and earlier content is kept |
| Conll.TextFile.Truncate | generate.py:143 | opening with `'w'` empties the file |
| Conll.WriteSentence | src/conllize.py:155-169 | the token loop appends the sentence's token lines |
| Conll.WriteBlock | src/conllize.py:154-169 | one pass of the sentence loop writes that sentence's part of the output, or its newline and then raises |
| Conll.WriteSentences | src/conllize.py:153-169 | the sentence loop appends the writer's output and raises exactly when the writer does |
| Documents.DocScanSplits | src/conllize.py:131-147 | the document loop is the selection of the target article's sentence lines followed by windowing them |
| Documents.WindowCount | src/conllize.py:142-147 | every article line whose running number lies in `[min, max]` adds exactly one entry |
| Documents.KeepAppends | src/conllize.py:144-147 | with offset `max(min, 0)`, each kept line's words go to the entry just appended |
| Documents.WindowSucceeds | src/conllize.py:144-147 | windowing fails exactly when a kept line has a token missing from the vocabulary |
| Documents.WindowContents | src/conllize.py:142-147 | the earlier entries are untouched and each new entry is the vocabulary image of its article line |
| Documents.DocumentSentences | src/conllize.py:131-147 | the sentences read are the article's lines numbered from `max(min, 0)`, in order, with sentence `k` the vocabulary image of line `max(min, 0) + k`, and at most `max - min + 1` of them |
| Documents.DocumentSentenceCount | src/conllize.py:143-145 | whatever offset the entries are stored at, there are at most `max - min + 1` sentences |
| Documents.AppendWords | src/conllize.py:146-147 | the token loop appends the line's words to entry `j`, and fails exactly when a token has no word |
| Documents.ScanDocument | src/conllize.py:131-147 | the loop with `right_article`, the running `sen_idx` and `break` computes the document function |
| Annotations.GroupData | src/conllize.py:187-191 | once a block's minimum is recorded, its data lines only move the maximum, to the last `sen_idx` |
| Annotations.GroupBlock | src/conllize.py:184-191 | a block's data lines record its first `sen_idx` as the minimum and its last as the maximum |
| Annotations.GroupStep | src/conllize.py:179-191 | one line of the grouping loop: an empty line, a bad `sen_idx` or a data line before any `ID` raises; an `ID` line passes on the previous block |
| Annotations.GroupHeader | src/conllize.py:181-186 | an `ID` line passes on the block before it, if there is one, and starts a new block with no minimum |
| Annotations.GroupFrom | src/conllize.py:178-192 | from inside a block, well-formed blocks yield the pending call followed by one call per block |
| Annotations.GroupBlocks | src/conllize.py:178-192 | on well-formed blocks, `conllize_article` is called once per block, in file order, including the last block at the end of the file, each with the block's id and its first and last `sen_idx`, and the loop ends normally |
| Annotations.NoDataNoBounds | src/conllize.py:184-192 | a block without data lines reaches the next call with no minimum, and an empty file raises at the final call |
| Conllizer.ArticleWriterCompletes | src/conllize.py:151-169 | once spans are collected and the document read, writing the article does not raise |
| Conllizer.ArticleOutput | src/conllize.py:93-169 | a completed article is a blank line, the `-DOCSTART-` line and the sentences; there are no more sentences than span lists; sentence `k` is the vocabulary image of article line `min + k` |
| Conllizer.RunCallsStop | src/conllize.py:183 | after an article raises, nothing more is written |
| Conllizer.FileOfBlocks | src/conllize.py:174-192 | a file of well-formed blocks is converted article by article in file order, one call per block |
| Conllizer.Conllizer.ConllizeArticle | src/conllize.py:93-169 | the output file gains exactly the article's text; the result is false exactly when the article raised |
| Conllizer.Conllizer.PassOn | src/conllize.py:182-183 | a call made after earlier calls appends its text after theirs |
| Conllizer.Conllizer.CloseBlock | src/conllize.py:181-186 | at an `ID` line, the pending block is converted and the grouping continues from that line |
| Conllizer.Conllizer.ConllizeFile | src/conllize.py:174-192 | the output file gains the text of the file's articles, in order, and the result is false exactly when the conversion raised |
| Drafts.Processor.constructor | generate.py:2-14 | the fields start unset: no id, no bounds, no spans, no sentences, no path |
| Drafts.Processor.LoadDocumentVocab | generate.py:20-30 | `document_vocab` gains entry `i` = first word of line `i`; the other fields are unchanged |
| Drafts.Processor.LoadFigerVocab | conllize.py:38-48 | the same for `figer_vocab` |
| Drafts.Pass1Data | generate.py:89-92 | in the first block, data lines set the minimum once and move the maximum |
| Drafts.FirstBlockBounds | generate.py:79-92 | the first pass sets `art_id` to the first `ID`, `sen_idx_min` to the first data line's `sen_idx` and `sen_idx_max` to the last one before the second `ID` line |
| Drafts.MinIsFirstSeen | generate.py:91-94 | the minimum is the first `sen_idx` seen, not the least: with `5` before `2`, `segments` gets no list |
| Drafts.Processor.ReadBounds | generate.py:79-92 | the first-pass loop computes the first-pass function and fails exactly when it does |
| Drafts.Processor.AllocateSegments | generate.py:94-96 | `segments` becomes `max - min + 1` empty lists; it fails exactly when a bound is unset |
| Drafts.Pass2Splits | generate.py:98-111 | the second pass is the selection of the first block followed by applying its lines with no offset |
| Drafts.DraftSpans | generate.py:94-111 | the second pass succeeds exactly when every selected line fits; list `j` then holds the spans of the records whose raw `sen_idx` selects `j`, in file order |
| Drafts.Processor.ReadSegments | conllize.py:101-117 | the second-pass loop computes the second-pass function; `conllize.py` skips malformed lines in this pass and `generate.py` raises on them |
| Drafts.StrictPassSkipsNothing | conllize.py:110-114 | when the strict second pass succeeds, the skipping pass gives the same result |
| Drafts.ScriptsAgree | conllize.py:74-159 | whenever `generate.py` completes, `conllize.py` completes with the same fields and output, and both debug-printed lists have at least two entries |
| Drafts.Processor.ReadAnnotations | generate.py:79-116 | the annotation part of `generate()` (both passes, the allocation and the debug prints of `segments`) sets the fields to the stage function's result, and fails exactly when that raises; both bounds are then set |
| Drafts.Processor.ProbeSegments | generate.py:115-116 | the debug prints succeed exactly when `segments` has at least two entries (`generate.py` only) |
| Drafts.Processor.ProbeSentences | generate.py:141-142 | the same for `sentences` |
| Drafts.Mentions | generate.py:57-66 | a shard matches exactly when its scan meets `ID art_id` before a line that raises |
| Drafts.FirstShardIsLeast | generate.py:54-67 | the search finds the lowest-numbered shard containing the article, and finds none exactly when no shard contains it |
| Drafts.Processor.LoadDocumentPath | conllize.py:52-70 | `document_path` becomes the lowest-numbered matching shard; a failed search leaves it unchanged and stands for the endless loop |
| Drafts.Processor.ReadSentences | generate.py:120-136 | the document loop's sentences, stored at the raw running `sen_idx`; it fails when no path is set or a line raises |
| Drafts.Processor.WriteOutput | generate.py:143-161 | the output file is truncated and becomes the `-DOCSTART-` line, with no blank line before it, followed by the sentences |
| Drafts.Processor.Generate | generate.py:71-161 | the run behaves as the functional model of `generate()`: new fields and output when it completes; partial output or an untouched file when it raises; no change when the search never ends |
| Drafts.DraftCompleted | generate.py:71-161 | from the initial fields, with a first block starting at sentence 0, a completed run gives: output beginning with `-DOCSTART-`; sentence `k` the vocabulary image of article line `k`; span list `j` holding the spans for sentence `j`; and the lowest-numbered shard containing the article |
| Drafts.RawSentenceIndexRaises | generate.py:133-136 | with bounds `1..1`, storing at the raw running index raises, while storing at `sen_idx - sen_idx_min` succeeds |
| Drafts.RawSegmentIndexRaises | generate.py:110-111 | with bounds `1..1`, the span of sentence 1 at the raw index raises, while with offset `sen_idx_min` it lands in the single list |

## Left out

- Real file I/O. Files are given as their split lines; the output file is a string (`TextFile`). Opening a shard that fails is a `None` entry of the directory.
- Path strings (`PREFIX`, `search_path + str(i)`). `art2doc` and `document_path` hold shard numbers instead of paths.
- Timing (`time.time()`) and console output. This includes `print('malformed...')`, and, in `generate.py`, `print(line[1])` inside the shard search. That print raises only inside the `try` and so has the same effect as the failed `int(line[1])` it precedes.
- The command-line handling of `conllize.py` (where `getopt` is never imported) and the module-level driver calls of all three files.
- `conllize_all`, with its fixed range of annotation files 82..99.
- Commented-out code.
- `int()` accepting underscores between digits, or non-ASCII digits. The model accepts an optional sign and ASCII digits only.
- The exception types. Every escaping exception is one failure outcome.
- Conllizer.Conllizer.constructor: the source's constructor calls both vocabulary loaders on fixed paths; in the model the loaders are separate calls that take the files' lines.
- Drafts.Processor.constructor: the same.
- Drafts.Processor.ReadBounds: after a failed pass the fields it updates are left unspecified, because the program has stopped.
- Drafts.Processor.ReadSegments: the same for `art_id` and `segments`.
- Drafts.Processor.Generate: after a `Raised` or `Diverges` outcome the fields are left unspecified; only the output file is stated.
- Drafts.Processor.ReadSentences: it requires both bounds to be set. `generate` reaches it only after `segments` was allocated from them, which needs both.
- Drafts.Processor.LoadDocumentPath: the outcome `found == false` stands for the `while True` search that never ends. The model searches the finite directory and stops.
- Python's `None == None` in `int(line[1]) == self.art_id` can never hold, since `int()` gives an integer. `Documents.Window.artId` and `Drafts.FirstShard` therefore treat an unset id as matching nothing.
- The `sen_ind_max` misspelling in `conllize_file`. It is modelled as written: an `ID` line resets only the minimum. It has no visible effect, because a block without data lines raises at the call whatever the maximum holds (`Annotations.NoDataNoBounds`).

## Findings

| source | as written | input that shows it | evidently intended | confidence | as-written member | corrected member |
|---|---|---|---|---|---|---|
| generate.py:133-136 | `self.sentences[sen_idx].append(...)` uses the raw running index (also conllize.py:135-138) | first block with `sen_idx` 1 only; article lines `0` and `0`; vocabulary `{0: "a"}` | store at `sen_idx - sen_idx_min`, as src/conllize.py:147 does | not executed | Drafts.RawSentenceIndexRaises | Documents.DocumentSentences |
| generate.py:110-111 | `self.segments[sen_idx].append(...)` uses the raw index (also conllize.py:116-117) | first block with the single record `1 0 1 0 0` and bounds `1..1` | store at `sen_idx - sen_idx_min`, as src/conllize.py:126 does | not executed | Drafts.RawSegmentIndexRaises | Annotations.ArticleSpans |
