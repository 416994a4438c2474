# exciton text-to-entity pipeline, modelled in Dafny

This project models the sequential core of the exciton NLP toolkit:

- **Word/label alignment.** Each word's label is spread over its subwords.
- **Batch building.** The three `_build_batch` variants turn records into padded id grids: tagging/NER, classification, and the trainer's label grid.
- **Tag decoding.** `_get_raw_results` and `predict` of the two NER recognizers.
- **BIO decoding.** The BIO state machine `collect_named_entities`.
- **Span reconstruction.** The cursor-based `clean_result`, which turns tags into character spans.
- **Chunkers.** `create_batch` and the batching and result routing of the M2M100 translation service.
- **Sentence splitting.** The regular-expression splitter and the short-sentence merge.
- **Language detection.** The vote with threshold pruning.
- **Text matching.** Token-multiset overlap scoring.

There is one module per source file. Two shared modules sit alongside them:

- `Text` holds Python's list and string built-ins as the code uses them: slicing, `[1:-1]`, `split`/`join`, `strip`, `list.index`, loops that stop at the first exception.
- `Padding` holds the START…PAD…END rows and the tensor-assignment masks.

Operations that change state step by step are methods with loops. Each method is proved equal to a specification function, and the source's promises are proved as lemmas about that function. Objects whose `batch_data` the code writes are classes.

Python exceptions are values of a `Result` type. They include `AssertionError`, `IndexError`, `KeyError`, `TypeError`, `AttributeError`, `ValueError` and `ZeroDivisionError`. Each one is modelled where the code would raise it.

The neural parts are parameters:

- the tokenizer, as `encode` and `idToToken`;
- the tagger, as a per-position ranking of label indices with their probabilities (what `topk` over all classes returns, in its own tie order);
- the translator, the regular expression's match ends, the sentence-splitter workers and the language detector.

Four behaviours of the code are worth stating outright, because a reader might expect otherwise:

- **`pad_mask`.** It is 1 at every id that is not the padding id and 0 at the padding id (exciton/ml/tagging/bert/model.py:177-180).
- **No empty-batch error.** An empty batch raises nothing: `max_length` stays 0 and the grid is empty (exciton/ml/tagging/bert/model.py:152-164).
- **No cursor-overrun error.** `clean_result` raises nothing when its cursor runs past the text, because Python's slices clamp (exciton/nlp/named_entity_recognition/utils.py:73-89).
- **No zero-subword compensation.** A word that encodes to no subword contributes neither ids nor labels, and the two lists stay aligned (exciton/ml/tagging/bert/model.py:127-140).

## Model

| member | source | states |
|---|---|---|
| NerUtils.NamedEntities | exciton/nlp/named_entity_recognition/utils.py:4-47 | every decoded interval has `0 <= start <= end <= len(tags)-1` |
| NerUtils.NamedEntitiesDecoded | exciton/nlp/named_entity_recognition/utils.py:17-46 | the intervals are increasing and pairwise disjoint maximal runs, each labelled by its first tag's type; they cover exactly the indices whose tag is not "O" and start exactly where the state machine opens an entity (after nothing, "O", another type, or at a `B` tag) |
| NerUtils.StepKeepsInv | exciton/nlp/named_entity_recognition/utils.py:17-40 | one pass of the loop keeps the closed intervals ordered maximal runs and the open entity a run reaching the current index |
| NerUtils.FinalClose | exciton/nlp/named_entity_recognition/utils.py:42-46 | an entity still open after the last tag closes at `len(tags)-1` |
| NerUtils.BeginOpensEntity | exciton/nlp/named_entity_recognition/utils.py:30-40 | a `B` tag opens a new interval at its own index, even right after an entity of the same type |
| NerUtils.InsideExtends | exciton/nlp/named_entity_recognition/utils.py:30-40 | an `I-x` tag right after a tag of type x lies in the same interval; a change of type closes the entity at the index before |
| NerUtils.CoveringRun | exciton/nlp/named_entity_recognition/utils.py:18-40 | every non-"O" index lies in a decoded interval |
| NerUtils.RepeatedBeginGivesTwoEntities | exciton/nlp/named_entity_recognition/utils.py:30-40 | `B-PER`, `B-PER` decode to two entities |
| NerUtils.CollectNamedEntities | exciton/nlp/named_entity_recognition/utils.py:13-47 | the loop returns `NamedEntities(tags)`, whose meaning `NamedEntitiesDecoded` gives |
| NerUtils.Width | exciton/nlp/named_entity_recognition/utils.py:68-72 | a token's visible width is never negative and at most its length, for a one-character marker not starting with '#' |
| NerUtils.WidthBySlices | exciton/nlp/named_entity_recognition/utils.py:68-72 | the width is `len(wd)`, minus 2 when `wd[:2] == "##"`, minus 1 when `wd[:1]` is the marker |
| NerUtils.SkipSpacesBlanks | exciton/nlp/named_entity_recognition/utils.py:73-77 | skipping moves the cursor forward over blanks only, and stops at the end or at a non-blank |
| NerUtils.SkipBlanks | exciton/nlp/named_entity_recognition/utils.py:73-77 | the `while` loop leaves the cursor where `SkipSpaces` says |
| NerUtils.TokenSpanShape | exciton/nlp/named_entity_recognition/utils.py:73-80 | token k's span has the token's width, starts at or after the previous span's end, and only blanks lie between them |
| NerUtils.CursorMonotone | exciton/nlp/named_entity_recognition/utils.py:73-79 | the cursor never moves back |
| NerUtils.SpansOrdered | exciton/nlp/named_entity_recognition/utils.py:73-79 | an earlier token's span ends at or before a later token's span starts |
| NerUtils.EntityShape | exciton/nlp/named_entity_recognition/utils.py:81-89 | an entity's span is well formed, it carries its interval's label, and its text is the slice of the text over its span, clamped at the end |
| NerUtils.EntitiesOrdered | exciton/nlp/named_entity_recognition/utils.py:81-89 | entity spans are well formed, ordered and disjoint |
| NerUtils.ClassifyTokens | exciton/nlp/named_entity_recognition/utils.py:65-80 | one token class per token, in order, with the token's label and the span the cursor gives |
| NerUtils.CollectEntities | exciton/nlp/named_entity_recognition/utils.py:81-89 | one entity per decoded interval, in order |
| NerUtils.CleanResult | exciton/nlp/named_entity_recognition/utils.py:59-95 | AssertionError exactly when token and label counts differ; otherwise the text, the tokens, the entities and the token classes |
| NerUtils.FirstTokenEntity | exciton/nlp/named_entity_recognition/utils.py:59-95 | two tokens over a text starting with a non-blank, the first labelled a location, give one entity spanning the first token's width |
| NerUtils.AsWrittenMarkerNeverMatches | exciton/nlp/named_entity_recognition/utils.py:71-72 | with the three-character literal written at line 71, a one-character slice never matches, so no width loses the marker |
| NerUtils.WordStartWidth | exciton/nlp/named_entity_recognition/utils.py:71-72 | with the marker U+2581, a word-start subword is one character narrower than its string |
| NerUtils.MarkerCounterexample | exciton/nlp/named_entity_recognition/utils.py:71-72 | on "New York" with subwords "▁New", "▁York", the entity as written is "New " and corrected is "New" |
| TaggingModel.SentinelsOf | exciton/ml/tagging/bert/model.py:59-70 | bert-base-cased uses START 101, END 102, PAD 0; xlm-roberta-base uses 0, 2, 1; START and END differ from PAD |
| TaggingModel.TokenizeErrors | exciton/ml/tagging/bert/model.py:121-144 | AssertionError exactly when words and labels differ in number; IndexError exactly when some word has an empty label and two or more subwords; KeyError exactly when there are no words and labels and no text |
| TaggingModel.TokenizeAligned | exciton/ml/tagging/bert/model.py:127-140 | in word mode there is exactly one label per subword id, including for words with no subword |
| TaggingModel.TokenizeWordLabels | exciton/ml/tagging/bert/model.py:127-140 | word k's subwords sit after those of the earlier words; its first subword keeps the label verbatim, and later ones get `I…` for a `B…` label and the label unchanged otherwise |
| TaggingModel.BeginSpreadsAsInside | exciton/ml/tagging/bert/model.py:131-138 | a two-subword word labelled `B-PER` gives `B-PER`, `I-PER` |
| TaggingModel.TokenizeFreeText | exciton/ml/tagging/bert/model.py:143-144 | free-text mode gives the encoding without its first and last id, and nothing for encodings shorter than 3 |
| TaggingModel.LabelSubwords | exciton/ml/tagging/bert/model.py:129-138 | the inner loop fails with IndexError exactly for an empty label and two or more subwords; otherwise it gives the spread labels |
| TaggingModel.TaggingModel.TokenizeText | exciton/ml/tagging/bert/model.py:112-144 | the method returns `TokenizeOf(encode, record)`, whose meaning `TokenizeErrors`, `TokenizeAligned` and `TokenizeWordLabels` give |
| TaggingModel.TaggingModel.TokenizeWords | exciton/ml/tagging/bert/model.py:121-141 | the word loop returns `TokenizeWordsOf` |
| TaggingModel.TaggingModel.TokenizeBatch | exciton/ml/tagging/bert/model.py:152-163 | the first loop tokenizes every record, stopping at the first exception, and tracks the longest id list |
| TaggingModel.TruncateItems | exciton/ml/tagging/bert/model.py:165-168 | each record's `etokens` and `elabels` are cut to `max_length` |
| TaggingModel.BatchErrors | exciton/ml/tagging/bert/model.py:146-163 | the batch is built exactly when every record tokenizes; otherwise it fails with the first failing record's exception |
| TaggingModel.BatchMaxLength | exciton/ml/tagging/bert/model.py:154-164 | `max_length` is at most 500, bounds every record unless it is 500, equals `min(500, n)` for some record's length `n`, and is 0 for an empty batch |
| TaggingModel.BatchRows | exciton/ml/tagging/bert/model.py:169-180 | row k is `[START] + first max_length ids + PAD fill + [END]`; its `pad_mask` row is 0 exactly at the padding id and 1 elsewhere |
| TaggingModel.BatchItems | exciton/ml/tagging/bert/model.py:155-168 | record k keeps its place, with its subword strings and labels cut to `max_length` |
| TaggingModel.BatchShape | exciton/ml/tagging/bert/model.py:155-174 | one id row per record, of length `max_length+2`; the stored record is its input record with at most `max_length` subword strings |
| TaggingModel.TruncationPerRecord | exciton/ml/tagging/bert/model.py:160-166 | a record's stored subword strings are the first `min(500, n)` of its own |
| TaggingModel.BatchLabelsAligned | exciton/ml/tagging/bert/model.py:161-168 | in word mode the truncated labels stay as many as the truncated subword strings |
| TaggingModel.PadMaskEnds | exciton/ml/tagging/bert/model.py:177-180 | `pad_mask` is 1 at START and END of every row |
| TaggingModel.TaggingModel.BuildBatch | exciton/ml/tagging/bert/model.py:146-185 | `_build_batch` returns `BatchOf` for the model's sentinels and stores it in `batch_data` |
| Padding.PadRow | exciton/ml/tagging/bert/model.py:170-174 | a padded row has length `ml+2`, START first, END last, and the id or PAD at each position in between |
| Padding.PadRowFill | exciton/ml/tagging/bert/model.py:172 | past the ids, up to the END id, a row holds only PAD |
| Padding.PadRows | exciton/ml/tagging/bert/model.py:169-174 | one padded row per id list, in order |
| Padding.Longest | exciton/ml/tagging/bert/model.py:154-159 | the longest length bounds every list and is reached by one, 0 for no lists |
| Padding.BuildPadMask | exciton/ml/tagging/bert/model.py:177-180 | the three tensor statements give `PadMaskOf`: 1 off the padding id, 0 at it |
| Padding.BuildAttnMask | exciton/ml/classification/xlm_roberta/model.py:119-124 | the five tensor statements give `AttnMaskOf`: 0 at START, END and PAD, 1 elsewhere |
| Padding.AttnMaskOfIds | exciton/ml/classification/xlm_roberta/model.py:119-124 | for token ids, never negative, the attention mask is 0 exactly at the three sentinel ids and 1 exactly elsewhere |
| TaggingTrainer.LabelIndicesMeaning | extools/ml/tagging/bert/trainer.py:50-55 | each index is that of the label's first occurrence in `label_mapping`; KeyError without labels or mapping; ValueError for a label missing from the mapping |
| TaggingTrainer.LabelRowMeaning | extools/ml/tagging/bert/trainer.py:59-63 | a label row is -1 at both ends, the label index at `j+1`, and -1 after the labels |
| TaggingTrainer.LabelGridShape | extools/ml/tagging/bert/trainer.py:57-65 | the label grid has the id grid's shape, one row per record of length `max_length+2` |
| TaggingTrainer.IgnoreExactlyOffLabels | extools/ml/tagging/bert/trainer.py:60-62 | -1 sits exactly at position 0 and past the record's labels |
| TaggingTrainer.TrainBatchValue | extools/ml/tagging/bert/trainer.py:46-65 | a built batch is the model's batch plus one label row per record built from its indices |
| TaggingTrainer.TrainBatchErrors | extools/ml/tagging/bert/trainer.py:46-55 | the trainer fails with the model's exception, or with that of the first record whose labels cannot be indexed |
| TaggingTrainer.UnknownLabelRaises | extools/ml/tagging/bert/trainer.py:53 | a label outside its mapping makes the batch raise ValueError |
| TaggingTrainer.LabelIndices | extools/ml/tagging/bert/trainer.py:51-55 | the label loop of one record returns `LabelIndicesOf` |
| TaggingTrainer.IndexLabels | extools/ml/tagging/bert/trainer.py:50-55 | the loop over records stops at the first failing record |
| TaggingTrainer.TaggingTrainer.BuildBatch | extools/ml/tagging/bert/trainer.py:40-65 | `_build_batch` returns `TrainBatchOf` and stores the model's batch and the label grid |
| ClassificationModel.AsWrittenRejectsEveryRecord | exciton/ml/classification/xlm_roberta/model.py:100-104 | as written, a batch is built exactly when it is empty; a first record with a text raises TypeError |
| ClassificationModel.AsWrittenCounterexample | exciton/ml/classification/xlm_roberta/model.py:101-102 | the one-record batch "good" raises TypeError as written, while the corrected batch has one row |
| ClassificationModel.ClsBatchErrors | exciton/ml/classification/xlm_roberta/model.py:100-105 | the corrected batch fails exactly when some record has no text, with KeyError |
| ClassificationModel.ClsBatchValue | exciton/ml/classification/xlm_roberta/model.py:97-130 | the corrected batch holds the longest length, the padded rows and both masks of the records' inner encodings |
| ClassificationModel.ClsBatchRows | exciton/ml/classification/xlm_roberta/model.py:100-111 | no truncation: `max_length` is the longest record; each row is START, all its ids, PAD, END, of length `max_length+2` |
| ClassificationModel.ClsMasks | exciton/ml/classification/xlm_roberta/model.py:114-124 | `attn_mask` is 0 exactly at ids 0, 1, 2; `pad_mask` is 0 exactly at 1; attention implies padding mask 1 |
| ClassificationModel.ClsAttnEnds | exciton/ml/classification/xlm_roberta/model.py:119-124 | the attention mask ignores both ends of every row, which the padding mask keeps |
| ClassificationModel.ClassificationModel.BuildBatchAsWritten | exciton/ml/classification/xlm_roberta/model.py:91-130 | the code as written returns `BatchAsWrittenOf` |
| ClassificationModel.ClassificationModel.EncodeBatch | exciton/ml/classification/xlm_roberta/model.py:100-105 | the corrected first loop gives each record's ids and the longest length |
| ClassificationModel.ClassificationModel.BuildBatch | exciton/ml/classification/xlm_roberta/model.py:91-130 | the corrected `_build_batch` returns `ClsBatchOf` and stores it |
| NerPipeline.CandOfMeaning | exciton/nlp/named_entity_recognition/xlm_hrl.py:167-171 | a position's candidates are the names of its first `top_n` labels, `min(top_n, n)` of them; IndexError for an index naming no label |
| NerPipeline.DecodeRecordErrors | exciton/nlp/named_entity_recognition/xlm_hrl.py:163-176 | a record decodes exactly when its labels and candidates name labels, it has a text, and the tagger gave a position per subword; which exception otherwise |
| NerPipeline.DecodeRecordLabels | exciton/nlp/named_entity_recognition/xlm_hrl.py:164-165 | label j is the name of the top label at position `j+1`, and there are `len(etokens)` of them |
| NerPipeline.DecodeRecordCands | exciton/nlp/named_entity_recognition/xlm_hrl.py:166-175 | candidate list j names position `j+1`'s first `top_n` labels, starts with label j, and `cand_prob` is cut the same way |
| NerPipeline.DecodeRecordBest | exciton/nlp/named_entity_recognition/xlm_hrl.py:164-176 | a decoded record has one label per subword, each the name of the top label one position further on, and its result is `clean_result` of those labels |
| NerPipeline.DecodeRecordResult | exciton/nlp/named_entity_recognition/xlm_hrl.py:176 | `clean_result` keeps the record's text and its subword strings |
| NerPipeline.BatchForErrors | exciton/nlp/named_entity_recognition/xlm_hrl.py:146-152 | the batch is built exactly when every item prepares and tokenizes; preparation errors come first |
| NerPipeline.RawResultsValues | exciton/nlp/named_entity_recognition/xlm_hrl.py:152-178 | there is one result per input item, in input order, and result k carries item k's prepared text and its subword strings cut to `max_length` |
| NerPipeline.RawResultsLabels | exciton/nlp/named_entity_recognition/xlm_hrl.py:152-178 | result k is `clean_result` of its text, its subword strings and labels whose j-th entry names the tagger's most probable label at row k, position `j+1` |
| NerPipeline.RawResultsOk | exciton/nlp/named_entity_recognition/xlm_hrl.py:144-178 | with a tagger that fits the batch, `_get_raw_results` succeeds exactly when the batch is built and every prepared record has a text |
| NerPipeline.PredictMeaning | exciton/nlp/named_entity_recognition/xlm_hrl.py:189-199 | `predict` gives one prediction per item, in order, carrying its text; `[]` for no items; with a fitting tagger it fails exactly when some item fails |
| NerPipeline.CandidateLabels | exciton/nlp/named_entity_recognition/xlm_hrl.py:166-171 | the nested candidate loop gives `CandOf` for each position |
| NerPipeline.DecodeRecord | exciton/nlp/named_entity_recognition/xlm_hrl.py:164-176 | one pass of the decoding loop returns `DecodeRecordOf` |
| NerPipeline.DecodeBatch | exciton/nlp/named_entity_recognition/xlm_hrl.py:163-176 | the decoding loop returns `DecodeAll` |
| NerPipeline.KeepTextAndEntities | exciton/nlp/named_entity_recognition/xlm_hrl.py:195-197 | one `{text, named_entities}` per result, in order |
| NerXlmHrl.NormaliseMeaning | exciton/nlp/named_entity_recognition/xlm_hrl.py:147-150 | the normalised text has the same words, single blanks and no other whitespace; it is "" for a missing or non-string text; normalising twice changes nothing |
| NerXlmHrl.NormaliseErrors | exciton/nlp/named_entity_recognition/xlm_hrl.py:146-151 | the normalisation loop fails exactly at an item that is not a dictionary, with TypeError |
| NerXlmHrl.XlmPrepared | exciton/nlp/named_entity_recognition/xlm_hrl.py:74-79 | every dictionary tokenizes to its normalised text's encoding without the first and last id |
| NerXlmHrl.XlmRawResults | exciton/nlp/named_entity_recognition/xlm_hrl.py:132-178 | each result holds the item's normalised text and its subword strings cut to `max_length` |
| NerXlmHrl.XlmRawResultsOk | exciton/nlp/named_entity_recognition/xlm_hrl.py:144-178 | with a fitting tagger, `_get_raw_results` fails exactly when some item is not a dictionary |
| NerXlmHrl.XlmPredictMeaning | exciton/nlp/named_entity_recognition/xlm_hrl.py:180-199 | one prediction per item, in order, with its normalised text; `[]` for no items; failure exactly at a non-dictionary |
| NerXlmHrl.NormaliseBatch | exciton/nlp/named_entity_recognition/xlm_hrl.py:145-151 | the normalisation loop returns `MapResult(XlmRecordOf, input)` |
| NerXlmHrl.NerModel.GetRawResults | exciton/nlp/named_entity_recognition/xlm_hrl.py:132-178 | returns `RawResultsOf` for the xlm preparation and stores the batch |
| NerXlmHrl.NerModel.Predict | exciton/nlp/named_entity_recognition/xlm_hrl.py:180-199 | the `while` loop over chunks of `min(20, n)` returns `PredictOf` |
| NerBert.BertRecordMeaning | exciton/nlp/named_entity_recognition/bert.py:62-66 | a string or a dictionary with a string text passes; a non-string raises AttributeError and a missing text KeyError; a passing item keeps its words and labels, and its text has the same words with single blanks |
| NerBert.InputItems | exciton/nlp/named_entity_recognition/bert.py:105-106 | a single item becomes a list of one, and a list stays as it is |
| NerBert.BertText | exciton/nlp/named_entity_recognition/bert.py:63-65 | every prepared item carries its normalised text for `clean_result` |
| NerBert.BertPrepared | exciton/nlp/named_entity_recognition/bert.py:62-67 | a string, or a dictionary without "tokens" or "labels", tokenizes as free text; in word mode words and labels must agree in number |
| NerBert.BertRawResults | exciton/nlp/named_entity_recognition/bert.py:48-92 | each result holds the item's normalised text and its subword strings cut to `max_length` |
| NerBert.BertRawResultsOk | exciton/nlp/named_entity_recognition/bert.py:60-92 | with a fitting tagger, `_get_raw_results` fails exactly when some item does not prepare or tokenize |
| NerBert.BertPredictMeaning | exciton/nlp/named_entity_recognition/bert.py:94-117 | a single item counts as a list of one; one prediction per item, in order, with its normalised text; `[]` for no items |
| NerBert.NormaliseBatch | exciton/nlp/named_entity_recognition/bert.py:61-66 | the first loop returns `MapResult(BertRecordOf, items)` |
| NerBert.BertNerModel.GetRawResults | exciton/nlp/named_entity_recognition/bert.py:48-92 | returns `RawResultsOf` for the bert preparation |
| NerBert.BertNerModel.Predict | exciton/nlp/named_entity_recognition/bert.py:94-117 | wraps a single item, then the chunk loop returns `PredictOf` |
| EngineUtils.BatchesMeaning | exciton/ml/engine/utils.py:24-34 | the batches concatenate to the input; none is empty; no input gives none; all but the last hold `batch_size` and the last at most that; there are `ceil(n / batch_size)` of them |
| EngineUtils.SplitBatches | exciton/ml/engine/utils.py:24-34 | the accumulator loop returns `BatchesOf` |
| EngineUtils.ShuffledPermutes | exciton/ml/engine/utils.py:21-22 | the shuffle is a permutation of the input |
| EngineUtils.ShuffledIdentity | exciton/ml/engine/utils.py:21-22 | drawing each position itself leaves the list unchanged |
| EngineUtils.Shuffle | exciton/ml/engine/utils.py:21-22 | the array is reordered in place into `Shuffled` of its old content |
| EngineUtils.CreateBatch | exciton/ml/engine/utils.py:5-34 | the corpus is shuffled in place when asked, then split into `BatchesOf` its new content |
| M2M100.MtBatch | extools/nlp/translation/m2m100/service.py:53-75 | `_batch` returns the batches of the enumerated items |
| M2M100.MtBatchMeaning | extools/nlp/translation/m2m100/service.py:65-75 | the batches give back the items in order, each tagged with its index; all but the last hold 10; none for no items |
| M2M100.RouteSplits | extools/nlp/translation/m2m100/service.py:100-117 | every item of a batch is either routed or given "", never both |
| M2M100.RouteUnrouted | extools/nlp/translation/m2m100/service.py:103-117 | the items given "" are exactly those whose languages are unsupported or whose source is not a string |
| M2M100.RouteRequests | extools/nlp/translation/m2m100/service.py:103-111 | routed items come with their requests, in order, with the mapped language codes |
| M2M100.RouteBatch | extools/nlp/translation/m2m100/service.py:98-117 | the routing loop gives the requests of `Route`, and the unrouted items get "" and go to the output |
| M2M100.WriteResults | extools/nlp/translation/m2m100/service.py:125-130 | result k is written to receiver k, which goes to the output |
| M2M100.SortIdsMeaning | extools/nlp/translation/m2m100/service.py:131 | the sort gives a sorted permutation of the `sent_id`s |
| M2M100.SortedUnique | extools/nlp/translation/m2m100/service.py:131 | two sorted lists with the same elements are equal |
| M2M100.Predict | extools/nlp/translation/m2m100/service.py:77-132 | the method returns `PredictOf` for the chosen pairing |
| M2M100.PredictMeaning | extools/nlp/translation/m2m100/service.py:77-132 | with the corrected pairing, every item appears once, in input order, tagged with its index, with its translation when routed and "" otherwise |
| M2M100.AsWrittenAgrees | extools/nlp/translation/m2m100/service.py:125-130 | when every item is routed, the code as written gives the corrected output |
| M2M100.PairingCounterexample | extools/nlp/translation/m2m100/service.py:125-130 | an unsupported item then a supported one: as written, the translation goes to the first, which appears twice, and the second is lost |
| Sbd.CutsMeaning | exciton/nlp/sentence_tokenizer/exciton_sbd.py:47-51 | the cuts are exactly the matches ending the text or followed by a blank |
| Sbd.SplitMeaning | exciton/nlp/sentence_tokenizer/exciton_sbd.py:45-58 | `split` gives the stripped slices between consecutive cuts, then the stripped rest when the last cut is before the end |
| Sbd.SplitNoMatch | exciton/nlp/sentence_tokenizer/exciton_sbd.py:45-58 | with no match, a non-empty text gives one piece, the stripped text |
| Sbd.PiecesCover | exciton/nlp/sentence_tokenizer/exciton_sbd.py:47-57 | with ascending match ends, the pieces before stripping concatenate to the text |
| Sbd.Split | exciton/nlp/sentence_tokenizer/exciton_sbd.py:36-58 | the loop returns `SplitOf` |
| Sbd.MergeMeaning | exciton/nlp/sentence_tokenizer/exciton_sbd.py:147-152 | every merged piece but the last has at least 10 characters, and joined with blanks the merged pieces equal the stripped pieces joined with blanks |
| Sbd.MergeSegment | exciton/nlp/sentence_tokenizer/exciton_sbd.py:147-152 | the loop that extends `out[-1]` in place returns `Merge` |
| Sbd.ResolveMeaning | exciton/nlp/sentence_tokenizer/exciton_sbd.py:138-144 | a splitter code is used directly, a language key is mapped, and anything else resolves exactly when detection succeeds with a mapped code |
| Sbd.PredictMeaning | exciton/nlp/sentence_tokenizer/exciton_sbd.py:128-154 | `predict` fails exactly when the language does not resolve or has no splitter; a text without line break gives its merged pieces |
| Sbd.PredictLines | exciton/nlp/sentence_tokenizer/exciton_sbd.py:146-153 | each line is merged on its own, and the lines' results are concatenated in order |
| Sbd.Predict | exciton/nlp/sentence_tokenizer/exciton_sbd.py:128-154 | the method returns `PredictOf` |
| Sbd.SplitLines | exciton/nlp/sentence_tokenizer/exciton_sbd.py:145-153 | the loop over the lines returns `LinesOf` |
| LangDetection.RunExact | exciton/nlp/lang_detection/exciton_detection.py:57-71 | every surviving language is one of the model's, with its vocabulary, and its count is its hits among the processed tokens, at most their number |
| LangDetection.RunEarly | exciton/nlp/lang_detection/exciton_detection.py:58-62 | with at most nine tokens nothing is pruned: every language is there, in order |
| LangDetection.PruneMeaning | exciton/nlp/lang_detection/exciton_detection.py:63-71 | pruning keeps exactly the languages meeting the highest threshold some language meets, so a non-empty candidate set never empties |
| LangDetection.RunShrinks | exciton/nlp/lang_detection/exciton_detection.py:58-71 | a non-empty model never runs out of candidates, and a pruned language never comes back |
| LangDetection.Best | exciton/nlp/lang_detection/exciton_detection.py:72-75 | the chosen entry has the largest count, and every later entry a smaller one, so ties go to the last |
| LangDetection.PredictMeaning | exciton/nlp/lang_detection/exciton_detection.py:53-77 | a dictionary's text is used; an empty model raises IndexError; otherwise the answer is a language of the model with the most hits among survivors, the last among equals, named from the language table |
| LangDetection.CountToken | exciton/nlp/lang_detection/exciton_detection.py:59-61 | the inner loop returns `Hit` |
| LangDetection.Prune | exciton/nlp/lang_detection/exciton_detection.py:63-71 | the threshold loop with its `break` returns `PruneFrom` |
| LangDetection.Count | exciton/nlp/lang_detection/exciton_detection.py:57-71 | the outer loop returns `Run` |
| LangDetection.Predict | exciton/nlp/lang_detection/exciton_detection.py:44-78 | the method returns `PredictOf` |
| TextMatching.CounterCounts | extools/nlp/text_matching/exciton_matching.py:31-37 | the counter's keys are the distinct tokens, each once, and each count is that token's multiplicity |
| TextMatching.CounterTotal | extools/nlp/text_matching/exciton_matching.py:31-37 | the counts add up to the number of tokens |
| TextMatching.MatchIntersection | extools/nlp/text_matching/exciton_matching.py:76-79 | the `match` sum over A's keys is the size of the multiset intersection |
| TextMatching.Overlap | extools/nlp/text_matching/exciton_matching.py:74-79 | `match` is the multiset intersection of the token lists, at most either length |
| TextMatching.PredictEmpty | extools/nlp/text_matching/exciton_matching.py:50-63 | if either normalised text is empty, the result has empty token lists and zero scores |
| TextMatching.TokensFallback | extools/nlp/text_matching/exciton_matching.py:65-70 | when the tokenizer raises on either text, both fall back to their characters |
| TextMatching.ScoresMeaning | extools/nlp/text_matching/exciton_matching.py:80-84 | the ratios are the overlap over each length, in (0, 1], and the score their harmonic mean in (0, 1]; ZeroDivisionError exactly for an empty list or no overlap |
| TextMatching.HarmonicBounds | extools/nlp/text_matching/exciton_matching.py:84 | the harmonic mean of two values in (0, 1] lies in (0, 1] |
| TextMatching.PredictMeaning | extools/nlp/text_matching/exciton_matching.py:39-85 | with both texts non-empty, the result reports them and their tokens, with ratios and score as in `ScoresMeaning` |
| TextMatching.PredictSwap | extools/nlp/text_matching/exciton_matching.py:80-84 | swapping the texts swaps tokens and ratios and leaves the score unchanged |
| TextMatching.CountTokens | extools/nlp/text_matching/exciton_matching.py:31-37 | the loop returns `CounterOf` |
| TextMatching.MatchCount | extools/nlp/text_matching/exciton_matching.py:76-79 | the accumulator loop returns the overlap |
| TextMatching.Predict | extools/nlp/text_matching/exciton_matching.py:39-85 | the method returns `PredictOf` |

## Left out

- Neural networks. The embedding models, encoders, classifiers, `softmax` and `topk` are left out. The tagger is a parameter returning each position's ranked label indices with their probabilities, in the tie order `topk` gives.
- Tokenizers and other foreign libraries are parameters: `encode`, `convert_ids_to_tokens` and `tokenize`, the regular expression's `finditer` (given as match end positions), the pysbd and SentenceSplitter workers, the language detector used by the sentence tokenizer, and ctranslate2's `translate_batch`.
- Constructors' I/O is not modelled. They load JSON, weights and tokenizers, and build `lang_map`, `languages` and `lang_sbd`. The model's constructors take the loaded values.
- `predict_many` is not modelled, because it runs `predict` in a multiprocessing `Pool`.
- `get_support_languages` is not modelled, because it only reshapes the loaded JSON.
- `torch.cuda.empty_cache`, devices, logging and `json.dump` of the label mapping are left out, because they are side effects outside the data.
- Floating point. Text matching's ratios are exact `real`s. The language detector's threshold `count / k >= p / 10` is the exact integer test `10 * count >= p * k`.
- The `squeeze(2)` calls are modelled as the identity. With a single class, `squeeze` would drop the ranking dimension.
- `top_n` is a natural number. A negative `top_n` would slice from the end.
- The `assert isinstance(..., List)` of both recognizers' `_get_raw_results` is not modelled: the input is a list by its type.
- "tokens" and "labels" are taken to be lists of strings, and label-mapping entries strings.
- M2M100.PredictMeaning: it assumes every item has "source_lang" and "target_lang", and the KeyError for a missing one is not modelled. Likewise, when both languages are supported and "source" is missing, the code raises KeyError (extools/nlp/translation/m2m100/service.py:104), but the model treats a missing "source" like a non-string one and gives that item "".
- M2M100.Predict: the translator is modelled one sentence at a time, and `tokenizer.src_lang` is not modelled as shared state.
- Whitespace is limited to ASCII. `strip`, `split` and the blank tests use every ASCII character Python treats as whitespace (space, \t, \n, \r, \v, \f and U+001C to U+001F). Unicode whitespace such as U+0085, U+00A0 and U+2000 to U+200A is not modelled.
- Unicode `lower()` is a parameter.
- LangDetection.PredictMeaning: the order of `list(set(tokens))` is a parameter `uniqueTokens`, a list of distinct tokens. Python's set order is not modelled.
- EngineUtils.Shuffle: `random.shuffle`'s random draws are a parameter sequence. Any valid sequence of draws is allowed.
- M2M100.Predict: items are identified by `sent_id`, and their in-place updates are a map from `sent_id` to current content. Aliasing is modelled only for the items, which the output lists by reference.
- NER utils, tagging model, trainer and classification: the item dictionaries the code updates in place (`etokens`, `elabels`, `labels`, `cand_labels`) are returned as new values. The caller's dictionaries are not shown changing.

## Findings

| source | as written | input that shows it | evidently intended | confidence | as-written member | corrected member |
|---|---|---|---|---|---|---|
| exciton/ml/classification/xlm_roberta/model.py:101-104 | `out` is the list of ids from `encode(...)[1:-1]`, then indexed as `out["tokens"]`, which raises TypeError | one record with text "good" | use the id list itself: `tokens_arr.append(out)`, `len(out)` | high (not executed) | ClassificationModel.AsWrittenCounterexample | ClassificationModel.ClsBatchRows |
| exciton/nlp/named_entity_recognition/utils.py:71 | the word-start marker is a three-character mis-decoded string, so the one-character slice `wd[:1]` never equals it and the marker is never discounted | text "New York", subwords "▁New", "▁York", labels B-LOC, O: the entity is "New " | the marker U+2581, one character, discounted from the width | high (not executed) | NerUtils.MarkerCounterexample | NerUtils.WordStartWidth |
| extools/nlp/translation/m2m100/service.py:125-130 | translation k is written to `batch[k]`, but the requests skipped the unsupported items | an item with an unsupported language followed by a supported one | write translation k to the k-th routed item | high (not executed) | M2M100.PairingCounterexample | M2M100.PredictMeaning |
