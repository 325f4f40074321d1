# Japanese dictionary import and view-model core, in Dafny

This project models the core of an Android Japanese–English dictionary app
and proves properties of that model. The core has four parts.

- **The importer** (`XmlToRoomImporter.kt`). It reads two dictionary
  documents, a JMdict-style word dictionary and a KANJIDIC-style kanji
  dictionary. Each document is read through a byte-buffer input stream and
  a pull parser. Two event loops turn the parser's events into records; a
  record is handed to a batcher once its closing tag arrives. The batch
  size follows the heap size. Each batch is then written to the database in
  one transaction: entry, kanji, reading, sense, example, field,
  cross-reference and full-text rows.
- **The kana helpers** (`CharacterExtensions.kt`, `StringExtensions.kt`):
  character-class tests, the katakana→hiragana shift and symbol removal.
- **The dictionary screen's view model** (`DictionaryViewModel.kt`): merging
  exact and related search results, query normalisation, the search history
  capped at 50 items, the selection of history items and kanji extraction.
- **The quiz view model** (`QuizViewModel.kt`): building a true/false or a
  multiple-choice question and grading the answer.

Files, one module each:

- `common.dfy` (`Common`): sequence helpers and their lemmas. It also
  models Kotlin's `trim`, `toIntOrNull` and `joinToString`.
- `kana.dfy` (`Kana`): the two extension files.
- `bytestream.dfy` (`ByteStream`): `ByteBufferBackedInputStream`, a class
  whose position advances, reading into a caller's `array`.
- `batching.dfy` (`Batching`): `getDynamicBatchSize`, plus the class
  `Batcher`, which holds the `entries`/`totalParsed`/`onBatchReady` code
  both loops share.
- `events.dfy` (`Xml`): the parser's events and facts about positions in
  an event sequence.
- `word_parser.dfy` (`WordParser`) and `kanji_parser.dfy` (`KanjiParser`):
  the two loops, built the same way.
  - A function runs one step of the loop on a snapshot of its variables.
  - A class holds the same variables as fields. Its methods are the loop's
    branches, and each is proved to match that step.
  - The loop methods `ParseWords` and `ParseKanji` are proved to compute
    the step function run over the events.
  - Lemmas then say what the records are in terms of the document alone.
- `writer.dfy` (`Writer`): the database as a class. Each table is a
  sequence that only grows, and the DAO calls are its methods.
  - The row building of `insertEntriesToDatabase` is split into functions.
    Its `forEach` loops become methods proved against those functions.
  - The field-id memo (`fieldsMap.getOrPut`) is a fold, with lemmas on
    deduplication and linkage.
  - The inserter loops and the already-imported guard of the two import
    flows are here too.
- `dictionary_vm.dfy` (`DictionaryVM`) and `quiz_vm.dfy` (`QuizVM`): each
  view model is a class whose fields are its state cells. The decisions
  they make are functions, with lemmas about them.

How external inputs are modelled:

- The pull parser's output is a parameter: a sequence of events.
- The DAO queries the search uses, Kuromoji's `tokenizeJapaneseText` and
  `romajiToHiragana` are function parameters the model does not interpret.
- The quiz's random draws are parameters. Each `random()` takes a number
  and uses it modulo the list length. `shuffled()` takes a permutation.
- The history kept in the shared preferences is a field: the list of
  strings its JSON array holds.

## Model

| member | source | states |
|---|---|---|
| Common.ParseInt | app/src/main/java/com/example/japanesedictionary/utils/XmlToRoomImporter.kt:417-419 | `toIntOrNull` gives a 32-bit value or null; the empty text gives null. |
| Common.ParseIntRoundTrip | app/src/main/java/com/example/japanesedictionary/utils/XmlToRoomImporter.kt:417-419 | Every 32-bit integer written in decimal is read back as itself. |
| Common.TrimEnds | app/src/main/java/com/example/japanesedictionary/utils/XmlToRoomImporter.kt:258 | `trim` leaves no whitespace at either end; the result is empty exactly when the text is all whitespace. |
| Common.TrimIdempotent | app/src/main/java/com/example/japanesedictionary/utils/XmlToRoomImporter.kt:258 | Trimming twice is trimming once. |
| Common.JoinToStringConcat | app/src/main/java/com/example/japanesedictionary/utils/XmlToRoomImporter.kt:536-544 | Joining two non-empty lists puts one separator between their two joins. |
| Kana.HiraganaKatakanaDisjoint | app/src/main/java/com/example/japanesedictionary/utils/CharacterExtensions.kt:15-21 | No character is both hiragana (U+3040..U+309F) and katakana (U+30A0..U+30FF). |
| Kana.KanjiIsNotKana | app/src/main/java/com/example/japanesedictionary/utils/CharacterExtensions.kt:3-13 | A character `isKanji` accepts is neither hiragana nor katakana. |
| Kana.NotKanji | app/src/main/java/com/example/japanesedictionary/utils/CharacterExtensions.kt:7-12 | ASCII, full-width digits and Latin letters, half-width katakana and half-width Hangul are never kanji. |
| Kana.KanjiExamples | app/src/main/java/com/example/japanesedictionary/utils/CharacterExtensions.kt:3-13 | The test is a blacklist: U+4E00 and U+5B66 are kanji, and so are the ideographic comma and full stop; 'a', あ and ア are not. |
| Kana.KatakanaToHiraganaChar | app/src/main/java/com/example/japanesedictionary/utils/StringExtensions.kt:3-11 | A character in U+30A1..U+30F6 moves down by 0x60 and lands on hiragana; every other character is unchanged. |
| Kana.ConvertPointwise | app/src/main/java/com/example/japanesedictionary/utils/StringExtensions.kt:3-11 | `convertKatakanaToHiragana` keeps the length and maps each position on its own. |
| Kana.ConvertedHasNoConvertibleKatakana | app/src/main/java/com/example/japanesedictionary/utils/StringExtensions.kt:5-6 | After conversion no character of U+30A1..U+30F6 is left. |
| Kana.ConvertIdempotent | app/src/main/java/com/example/japanesedictionary/utils/StringExtensions.kt:3-11 | Converting twice is converting once. |
| Kana.LongVowelMarkStaysKatakana | app/src/main/java/com/example/japanesedictionary/utils/StringExtensions.kt:3-17 | A converted string can still be katakana: the long vowel mark U+30FC is outside the shifted range. |
| Kana.RemoveSymbols | app/src/main/java/com/example/japanesedictionary/utils/StringExtensions.kt:13-15 | The result has no '-' and no '.', and holds exactly the other characters of the input. |
| Kana.RemoveSymbolsKeeps | app/src/main/java/com/example/japanesedictionary/utils/StringExtensions.kt:13-15 | A string without either symbol comes back unchanged. |
| Kana.RemoveSymbolsIdempotent | app/src/main/java/com/example/japanesedictionary/utils/StringExtensions.kt:13-15 | Removing the symbols twice is removing them once. |
| Kana.RemoveSymbolsConcat | app/src/main/java/com/example/japanesedictionary/utils/StringExtensions.kt:13-15 | Removal works piece by piece, so the remaining characters keep their order. |
| Kana.KatakanaIsJapanese | app/src/main/java/com/example/japanesedictionary/utils/StringExtensions.kt:17-23 | `isKatakana` implies `isJapanese`; both are false for the empty string. |
| ByteStream.Unsigned | app/src/main/java/com/example/japanesedictionary/utils/XmlToRoomImporter.kt:40 | `and 0xff` gives 0..255, and it agrees with the signed byte as two's complement. |
| ByteStream.UnsignedInjective | app/src/main/java/com/example/japanesedictionary/utils/XmlToRoomImporter.kt:40 | Different bytes give different unsigned values. |
| ByteStream.ByteBufferBackedInputStream.Read | app/src/main/java/com/example/japanesedictionary/utils/XmlToRoomImporter.kt:39-41 | -1 exactly when nothing remains, with the position kept; otherwise the next byte as 0..255, and the position moves by one. |
| ByteStream.ByteBufferBackedInputStream.ReadInto | app/src/main/java/com/example/japanesedictionary/utils/XmlToRoomImporter.kt:43-48 | -1 when nothing remains. Otherwise, with `n = min(len, remaining)`: an index error when `off`, `n` or `off + n` is out of range, with nothing changed; else exactly `bytes[off..off+n)` is overwritten by the next `n` bytes, the position moves by `n` and `n` is returned. |
| Batching.BatchSizeForHeap | app/src/main/java/com/example/japanesedictionary/utils/XmlToRoomImporter.kt:58-71 | The size is one of the six tiers: 500 exactly below 64 MiB, 16000 exactly from 1024 MiB. |
| Batching.DynamicBatchSize | app/src/main/java/com/example/japanesedictionary/utils/XmlToRoomImporter.kt:58-71 | Whatever the heap, the size lies in 500..16000. |
| Batching.BatchSizeMonotone | app/src/main/java/com/example/japanesedictionary/utils/XmlToRoomImporter.kt:58-71 | More heap never gives a smaller batch. |
| Batching.BatchSizeDoublesPerTier | app/src/main/java/com/example/japanesedictionary/utils/XmlToRoomImporter.kt:58-71 | Between 64 and 1024 MiB, doubling the heap doubles the batch. |
| Batching.DynamicBatchSizeMonotone | app/src/main/java/com/example/japanesedictionary/utils/XmlToRoomImporter.kt:58-71 | Monotone in the heap size in bytes as well. |
| Batching.Capacity | app/src/main/java/com/example/japanesedictionary/utils/XmlToRoomImporter.kt:306 | The emit test `entries.size >= batchSize` makes a size below 1 behave like 1. |
| Batching.ReportedAppend | app/src/main/java/com/example/japanesedictionary/utils/XmlToRoomImporter.kt:304-307 | Each emitted batch comes with the cumulative count as both `current` and `total`. |
| Batching.WellBatchedIsChunks | app/src/main/java/com/example/japanesedictionary/utils/XmlToRoomImporter.kt:304-319 | Batches that are non-empty, full but for the last, and concatenate to the items are exactly the items cut into consecutive chunks. |
| Batching.ChunksExample | app/src/main/java/com/example/japanesedictionary/utils/XmlToRoomImporter.kt:304-319 | Three entries with batch size 2 give [[1, 2], [3]]: the remainder is flushed. |
| Batching.Batcher.Add | app/src/main/java/com/example/japanesedictionary/utils/XmlToRoomImporter.kt:303-310 | The entry is appended. Either nothing is emitted, or the pending entries plus the new one form the next batch. The batcher invariant is kept. |
| Batching.Batcher.Finish | app/src/main/java/com/example/japanesedictionary/utils/XmlToRoomImporter.kt:317-319 | After the flush the batches concatenate to every entry added, in order. No batch is empty, all but the last are full, and each carries the cumulative count from the starting total. |
| Xml.TextStartFacts | app/src/main/java/com/example/japanesedictionary/utils/XmlToRoomImporter.kt:232-255 | No tag lies between the text start and the current event, and the event just before it is a tag. |
| Xml.BufferStep | app/src/main/java/com/example/japanesedictionary/utils/XmlToRoomImporter.kt:232-255 | A tag clears the text buffer, character data is appended to it, and any other event leaves it alone. |
| Xml.AfterLastStartFacts | app/src/main/java/com/example/japanesedictionary/utils/XmlToRoomImporter.kt:236-241 | No start of the element lies after this position, and the event just before it is such a start. |
| WordParser.WordTagOf | app/src/main/java/com/example/japanesedictionary/utils/XmlToRoomImporter.kt:232-314 | A name is classified as a tag only when it is that tag's name. |
| WordParser.WordTagOfIff | app/src/main/java/com/example/japanesedictionary/utils/XmlToRoomImporter.kt:232-314 | A name selects a `when` branch exactly when it equals that branch's element name. |
| WordParser.WordRecordBuilder.OnStart | app/src/main/java/com/example/japanesedictionary/utils/XmlToRoomImporter.kt:232-251 | The START_ELEMENT branch changes the accumulators exactly as the loop step does. |
| WordParser.WordRecordBuilder.OnCharacters | app/src/main/java/com/example/japanesedictionary/utils/XmlToRoomImporter.kt:253-255 | CHARACTERS appends the text to the buffer. |
| WordParser.WordRecordBuilder.ApplyEnd | app/src/main/java/com/example/japanesedictionary/utils/XmlToRoomImporter.kt:257-294 | An end other than `entry` changes the accumulators exactly as the loop step does. |
| WordParser.WordRecordBuilder.OnEnd | app/src/main/java/com/example/japanesedictionary/utils/XmlToRoomImporter.kt:257-314 | The END_ELEMENT branch follows the loop step; an `entry` end hands exactly its record to the batcher. |
| WordParser.WordRecordBuilder.OnEvent | app/src/main/java/com/example/japanesedictionary/utils/XmlToRoomImporter.kt:230-316 | One turn of the loop follows the loop step and hands on a record exactly at an `entry` end. |
| WordParser.ParseWords | app/src/main/java/com/example/japanesedictionary/utils/XmlToRoomImporter.kt:219-319 | The emitted batches concatenate to the records of the document in order. They are well batched, and each is reported with the cumulative count starting from the checkpoint. |
| WordParser.TextBufferIsCharsSinceLastTag | app/src/main/java/com/example/japanesedictionary/utils/XmlToRoomImporter.kt:232-258 | The buffer holds the character data since the last tag. |
| WordParser.StartEntryFields | app/src/main/java/com/example/japanesedictionary/utils/XmlToRoomImporter.kt:236-241 | Of all start tags, only `entry` clears the id and both lists. |
| WordParser.EndEntryFields | app/src/main/java/com/example/japanesedictionary/utils/XmlToRoomImporter.kt:258-262 | `ent_seq` sets the id; `keb` and `reb` append their trimmed text when it is non-empty. |
| WordParser.EntryIdStep | app/src/main/java/com/example/japanesedictionary/utils/XmlToRoomImporter.kt:236-260 | One loop step on the id: an `entry` start clears it, an `ent_seq` end sets it, and nothing else touches it. |
| WordParser.KanjiStep | app/src/main/java/com/example/japanesedictionary/utils/XmlToRoomImporter.kt:236-261 | One loop step on the kanji list. |
| WordParser.ReadingStep | app/src/main/java/com/example/japanesedictionary/utils/XmlToRoomImporter.kt:236-262 | One loop step on the reading list. |
| WordParser.KanjiSinceEntryStart | app/src/main/java/com/example/japanesedictionary/utils/XmlToRoomImporter.kt:236-261 | The kanji list is the trimmed, non-empty `keb` texts since the last `entry` start, in document order. |
| WordParser.ReadingsSinceEntryStart | app/src/main/java/com/example/japanesedictionary/utils/XmlToRoomImporter.kt:236-262 | The reading list is the trimmed, non-empty `reb` texts since the last `entry` start, in document order. |
| WordParser.EntryIdSinceEntryStart | app/src/main/java/com/example/japanesedictionary/utils/XmlToRoomImporter.kt:236-260 | The id is the text of the last `ent_seq` since the last `entry` start, or empty. |
| WordParser.SenseStep | app/src/main/java/com/example/japanesedictionary/utils/XmlToRoomImporter.kt:236-292 | Apart from an `entry` start, a step adds a sense only at a `sense` end with a sense open, and that sense is the open builder, built. |
| WordParser.SensesSinceEntryStart | app/src/main/java/com/example/japanesedictionary/utils/XmlToRoomImporter.kt:236-292 | The senses are one built sense per `sense` end since the last `entry` start, in document order; a `sense` end with no sense open adds none. |
| WordParser.EmittedEntry | app/src/main/java/com/example/japanesedictionary/utils/XmlToRoomImporter.kt:296-311 | An `entry` end adds exactly one record. Its id, two lists and senses are those of the current entry's own elements. |
| WordParser.OneEntryPerEntryEnd | app/src/main/java/com/example/japanesedictionary/utils/XmlToRoomImporter.kt:296-311 | There are as many records as `entry` ends. |
| WordParser.EntryStartClears | app/src/main/java/com/example/japanesedictionary/utils/XmlToRoomImporter.kt:236-241 | An `entry` start forgets the previous entry's id, lists and senses and keeps the open sense. |
| WordParser.ExSentIsPositional | app/src/main/java/com/example/japanesedictionary/utils/XmlToRoomImporter.kt:273-278 | `ex_sent` fills the Japanese sentence while that is empty, and the English one otherwise. |
| WordParser.ExampleEndAlwaysAppends | app/src/main/java/com/example/japanesedictionary/utils/XmlToRoomImporter.kt:280-285 | An `example` end appends the pending example even when all of it is empty, and resets it. |
| WordParser.SenseEndKeepsOnlyNonEmptyExample | app/src/main/java/com/example/japanesedictionary/utils/XmlToRoomImporter.kt:287-294 | A `sense` end appends the pending example only when one of its fields is non-empty. It then appends `build()` of the sense, which carries each of the builder's nine lists unchanged, keeps the earlier senses, the id and the entry's lists, and closes the sense. |
| WordParser.SenseChildWithoutSenseIgnored | app/src/main/java/com/example/japanesedictionary/utils/XmlToRoomImporter.kt:263-285 | With no sense open, a sense child's end only clears the buffer. |
| WordParser.StartKeepsNoExamples | app/src/main/java/com/example/japanesedictionary/utils/XmlToRoomImporter.kt:232-251 | A start tag leaves the open sense alone. |
| WordParser.EndKeepsNoExamples | app/src/main/java/com/example/japanesedictionary/utils/XmlToRoomImporter.kt:263-285 | An end tag other than the example elements keeps an open sense without examples. |
| WordParser.NoExampleStep | app/src/main/java/com/example/japanesedictionary/utils/XmlToRoomImporter.kt:230-316 | One step without example events keeps an open sense without examples. |
| WordParser.OpenSenseWithoutExamples | app/src/main/java/com/example/japanesedictionary/utils/XmlToRoomImporter.kt:263-294 | Between a `sense` start and any example element, the open sense has no examples and an empty pending example. |
| WordParser.SenseWithoutExampleElements | app/src/main/java/com/example/japanesedictionary/utils/XmlToRoomImporter.kt:287-294 | A sense with no example elements is built with no examples. |
| KanjiParser.KanjiTagOf | app/src/main/java/com/example/japanesedictionary/utils/XmlToRoomImporter.kt:373-452 | A name is classified as a tag only when it is that tag's name. |
| KanjiParser.KanjiTagOfIff | app/src/main/java/com/example/japanesedictionary/utils/XmlToRoomImporter.kt:373-452 | A name selects a branch exactly when it equals that branch's element name. |
| KanjiParser.NewReadingsAreFiltered | app/src/main/java/com/example/japanesedictionary/utils/XmlToRoomImporter.kt:377-392 | A `reading` start adds one empty-text reading per `r_type` attribute whose value is `ja_on` or `ja_kun`, in attribute order. |
| KanjiParser.LastValueFacts | app/src/main/java/com/example/japanesedictionary/utils/XmlToRoomImporter.kt:393-406 | The attribute loop keeps the old value when no attribute has the name. Otherwise the value is that of one such attribute that no later one follows. |
| KanjiParser.KanjiRecordBuilder.AddReadings | app/src/main/java/com/example/japanesedictionary/utils/XmlToRoomImporter.kt:377-392 | The attribute loop appends exactly the readings of `NewReadings`. |
| KanjiParser.LastAttributeValue | app/src/main/java/com/example/japanesedictionary/utils/XmlToRoomImporter.kt:393-406 | The `m_lang`/`cp_type` attribute loop computes `LastValue`. |
| KanjiParser.KanjiRecordBuilder.OnStart | app/src/main/java/com/example/japanesedictionary/utils/XmlToRoomImporter.kt:373-408 | The START_ELEMENT branch changes the accumulators exactly as the loop step does. |
| KanjiParser.KanjiRecordBuilder.OnCharacters | app/src/main/java/com/example/japanesedictionary/utils/XmlToRoomImporter.kt:409-411 | CHARACTERS appends the text to the buffer. |
| KanjiParser.KanjiRecordBuilder.ApplyEnd | app/src/main/java/com/example/japanesedictionary/utils/XmlToRoomImporter.kt:414-430 | An end other than `character` changes the accumulators exactly as the loop step does. |
| KanjiParser.KanjiRecordBuilder.OnEnd | app/src/main/java/com/example/japanesedictionary/utils/XmlToRoomImporter.kt:412-455 | The END_ELEMENT branch follows the loop step; a `character` end hands the record, built before any reset, to the batcher. |
| KanjiParser.KanjiRecordBuilder.OnEvent | app/src/main/java/com/example/japanesedictionary/utils/XmlToRoomImporter.kt:371-457 | One turn of the loop follows the loop step and hands on a record exactly at a `character` end. |
| KanjiParser.ParseKanji | app/src/main/java/com/example/japanesedictionary/utils/XmlToRoomImporter.kt:357-460 | The emitted batches concatenate to the records of the document in order. They are well batched, and each is reported with the cumulative count starting from 0. |
| KanjiParser.KanjiTextBuffer | app/src/main/java/com/example/japanesedictionary/utils/XmlToRoomImporter.kt:371-414 | The buffer holds the character data since the last tag. |
| KanjiParser.NewReadingsAreJapanese | app/src/main/java/com/example/japanesedictionary/utils/XmlToRoomImporter.kt:377-392 | A `reading` start adds only on and kun readings. |
| KanjiParser.ReadingTypesStep | app/src/main/java/com/example/japanesedictionary/utils/XmlToRoomImporter.kt:377-446 | No step records a reading of another type. |
| KanjiParser.ReadingsAreJapanese | app/src/main/java/com/example/japanesedictionary/utils/XmlToRoomImporter.kt:377-446 | At every point only on and kun readings are recorded. |
| KanjiParser.ReadingEndFillsOnce | app/src/main/java/com/example/japanesedictionary/utils/XmlToRoomImporter.kt:425-430 | A `reading` end fills the last reading's text only while that text is empty; otherwise the readings are unchanged. |
| KanjiParser.ReadingsOnlyGrow | app/src/main/java/com/example/japanesedictionary/utils/XmlToRoomImporter.kt:377-430 | Until the character ends, readings are only added at the back, and earlier readings keep their type. |
| KanjiParser.MeaningEndStep | app/src/main/java/com/example/japanesedictionary/utils/XmlToRoomImporter.kt:421-423 | A `meaning` end keeps its text exactly when no `m_lang` has been seen. |
| KanjiParser.MeaningLangSticky | app/src/main/java/com/example/japanesedictionary/utils/XmlToRoomImporter.kt:393-446 | Once set, the meaning language stays set until the character ends. |
| KanjiParser.ForeignMeaningStep | app/src/main/java/com/example/japanesedictionary/utils/XmlToRoomImporter.kt:421-446 | Once the language is set, a step other than a character end keeps the meanings. |
| KanjiParser.FrozenStep | app/src/main/java/com/example/japanesedictionary/utils/XmlToRoomImporter.kt:421-446 | Once the language is set, the step to the next position keeps the meanings and the language, unless it is a character end. |
| KanjiParser.ForeignMeaningStart | app/src/main/java/com/example/japanesedictionary/utils/XmlToRoomImporter.kt:393-399 | A `meaning` start with an `m_lang` attribute sets the language. |
| KanjiParser.MeaningStep | app/src/main/java/com/example/japanesedictionary/utils/XmlToRoomImporter.kt:393-443 | With no meaning language set, a step other than a character end or a foreign meaning start keeps the language unset and adds a meaning only at a `meaning` end, its trimmed text. |
| KanjiParser.MeaningsSinceCharacterEnd | app/src/main/java/com/example/japanesedictionary/utils/XmlToRoomImporter.kt:364-443 | While no `meaning` of the current character carried `m_lang`, its meanings are the trimmed texts of all its `meaning` elements, empty ones included, in document order. |
| KanjiParser.MeaningsFrozen | app/src/main/java/com/example/japanesedictionary/utils/XmlToRoomImporter.kt:393-446 | Once the language is set, no meaning is added before the character ends. |
| KanjiParser.NoMeaningAfterForeign | app/src/main/java/com/example/japanesedictionary/utils/XmlToRoomImporter.kt:393-446 | After one meaning with `m_lang`, no later meaning of the same character is kept. |
| KanjiParser.StrokeCountStep | app/src/main/java/com/example/japanesedictionary/utils/XmlToRoomImporter.kt:417 | `stroke_count` takes the parsed value, or 0 when the text is not an integer. |
| KanjiParser.StrokeCountRoundTrip | app/src/main/java/com/example/japanesedictionary/utils/XmlToRoomImporter.kt:417 | A stroke count written in decimal is read back as itself. |
| KanjiParser.IntToStringTrimmed | app/src/main/java/com/example/japanesedictionary/utils/XmlToRoomImporter.kt:414 | A decimal numeral has nothing for `trim` to remove. |
| KanjiParser.CpValueStep | app/src/main/java/com/example/japanesedictionary/utils/XmlToRoomImporter.kt:420 | The SVG name becomes `0<text>.svg` only when the code point type is `ucs`; otherwise it is kept. |
| KanjiParser.CharacterEndStep | app/src/main/java/com/example/japanesedictionary/utils/XmlToRoomImporter.kt:432-452 | A `character` end resets only the meanings, readings, meaning language and code point type. The literal, stroke count, frequency, JLPT level and SVG name carry over. |
| KanjiParser.LiteralStep | app/src/main/java/com/example/japanesedictionary/utils/XmlToRoomImporter.kt:416 | Only a `literal` end sets the literal. |
| KanjiParser.LiteralAt | app/src/main/java/com/example/japanesedictionary/utils/XmlToRoomImporter.kt:416 | After each event, the literal is the trimmed text of that event when it is a `literal` end, and unchanged otherwise. |
| KanjiParser.LiteralIsLastLiteral | app/src/main/java/com/example/japanesedictionary/utils/XmlToRoomImporter.kt:416-452 | The literal is the text of the last `literal` of the whole document so far, not just of the current character. |
| KanjiParser.OneEntryPerCharacterEnd | app/src/main/java/com/example/japanesedictionary/utils/XmlToRoomImporter.kt:432-452 | There are as many records as `character` ends. |
| Writer.SenseIds | app/src/main/java/com/example/japanesedictionary/utils/XmlToRoomImporter.kt:510 | `insertSenseList` hands out one id per sense, in input order, after the rows already stored. |
| Writer.FieldIdOf | app/src/main/java/com/example/japanesedictionary/utils/XmlToRoomImporter.kt:527 | `getFieldId` is 0 exactly when no field row has the name; otherwise it is the id of the first row with that name. |
| Writer.Database.HasEntries | app/src/main/java/com/example/japanesedictionary/utils/XmlToRoomImporter.kt:90 | The word table counts as filled exactly when a row was ever inserted. |
| Writer.Database.HasKanjiEntries | app/src/main/java/com/example/japanesedictionary/utils/XmlToRoomImporter.kt:148 | The kanji table counts as filled exactly when a row was ever inserted. |
| Writer.Database.InsertSenseList | app/src/main/java/com/example/japanesedictionary/utils/XmlToRoomImporter.kt:510 | The rows are appended, and the ids returned are one per row, in order. |
| Writer.Database.GetFieldId | app/src/main/java/com/example/japanesedictionary/utils/XmlToRoomImporter.kt:527 | The lookup returns `FieldIdOf` the table and is logged. |
| Writer.Database.InsertField | app/src/main/java/com/example/japanesedictionary/utils/XmlToRoomImporter.kt:528 | The row is appended and its id is returned. |
| Writer.EntryRowsAreIds | app/src/main/java/com/example/japanesedictionary/utils/XmlToRoomImporter.kt:478-479 | There is one entry row per entry, carrying its id, in batch order. |
| Writer.KanjiRowsMember | app/src/main/java/com/example/japanesedictionary/utils/XmlToRoomImporter.kt:480-483 | A kanji row exists exactly for each kanji spelling of each entry, under that entry's id. |
| Writer.ReadingRowsMember | app/src/main/java/com/example/japanesedictionary/utils/XmlToRoomImporter.kt:484-487 | A reading row exists exactly for each reading of each entry, under that entry's id. |
| Writer.FieldPairsMember | app/src/main/java/com/example/japanesedictionary/utils/XmlToRoomImporter.kt:489-509 | A pair is in `allFields` exactly when its name is a field of the sense at its position in the batch-wide sense list. |
| Writer.FieldPairsAppend | app/src/main/java/com/example/japanesedictionary/utils/XmlToRoomImporter.kt:505-507 | A sense's fields are paired with its own position. |
| Writer.AddSense | app/src/main/java/com/example/japanesedictionary/utils/XmlToRoomImporter.kt:493-507 | One turn of the inner loop adds the sense with its examples, and pairs each of its fields with its position. |
| Writer.CollectSenses | app/src/main/java/com/example/japanesedictionary/utils/XmlToRoomImporter.kt:489-509 | The nested loops fill `sensesWithExamples` and `allFields` in visiting order. |
| Writer.ExampleRowsLinked | app/src/main/java/com/example/japanesedictionary/utils/XmlToRoomImporter.kt:511-521 | An example row exists exactly for each example of each sense. It carries `senseIds[i]`, where `i` is its sense's position. |
| Writer.CrossRefRows | app/src/main/java/com/example/japanesedictionary/utils/XmlToRoomImporter.kt:524-531 | There is one cross reference per field occurrence. |
| Writer.GetOrPutAdds | app/src/main/java/com/example/japanesedictionary/utils/XmlToRoomImporter.kt:526-529 | A lookup queries the table only for a name the map does not hold. It inserts a row only when the table does not have the name either. |
| Writer.GetOrPutMatches | app/src/main/java/com/example/japanesedictionary/utils/XmlToRoomImporter.kt:526-529 | The map stays in agreement with the table: an inserted row is the first of its name, and existing rows keep their ids. |
| Writer.LinkFoldMap | app/src/main/java/com/example/japanesedictionary/utils/XmlToRoomImporter.kt:522-531 | Over a batch, the map holds exactly the names met so far, each with the id of its first row. |
| Writer.LinkFoldFields | app/src/main/java/com/example/japanesedictionary/utils/XmlToRoomImporter.kt:522-531 | The fields table gains, in first-occurrence order, each name of the batch it did not already hold. |
| Writer.LinkFoldQueries | app/src/main/java/com/example/japanesedictionary/utils/XmlToRoomImporter.kt:522-531 | Each distinct field name is looked up once per batch, the first time it is met. |
| Writer.LinkFoldCrossRefs | app/src/main/java/com/example/japanesedictionary/utils/XmlToRoomImporter.kt:522-531 | Each cross reference links its sense's id with the first field row of its name in the final table. |
| Writer.GetOrPutField | app/src/main/java/com/example/japanesedictionary/utils/XmlToRoomImporter.kt:526-529 | `getOrPut` against the tables: the lookup and the insert happen only for a name the map does not hold. |
| Writer.LinkFields | app/src/main/java/com/example/japanesedictionary/utils/XmlToRoomImporter.kt:522-531 | The `allFields` loop computes the fold: its tables, its lookups and its cross references. |
| Writer.LinkFieldsMeaning | app/src/main/java/com/example/japanesedictionary/utils/XmlToRoomImporter.kt:522-531 | In terms of the batch alone: new names in first-occurrence order, one lookup per distinct name, and cross references to their sense and field. |
| Writer.FtsRows | app/src/main/java/com/example/japanesedictionary/utils/XmlToRoomImporter.kt:535-552 | There is one full-text row per entry, carrying its id, in batch order. |
| Writer.FtsRowsConcat | app/src/main/java/com/example/japanesedictionary/utils/XmlToRoomImporter.kt:535-553 | The rows of consecutive batches are the rows of the whole. |
| Writer.FtsHiraganaOfConverted | app/src/main/java/com/example/japanesedictionary/utils/XmlToRoomImporter.kt:539-541 | The hiragana column is the reading column computed on the converted readings, and converting again changes nothing. |
| Writer.FtsHiraganaWithoutKatakana | app/src/main/java/com/example/japanesedictionary/utils/XmlToRoomImporter.kt:537-541 | With no convertible katakana in any reading, both reading columns agree. |
| Writer.FtsGlossesSplit | app/src/main/java/com/example/japanesedictionary/utils/XmlToRoomImporter.kt:542-544 | The gloss column joins all senses' glosses with single spaces: two groups of senses give their two columns joined by one space. |
| Writer.InsertEntryRows | app/src/main/java/com/example/japanesedictionary/utils/XmlToRoomImporter.kt:478-487 | Appends exactly the entry, kanji and reading rows of the batch. |
| Writer.InsertSenseRows | app/src/main/java/com/example/japanesedictionary/utils/XmlToRoomImporter.kt:489-532 | The sense, example, field and cross-reference tables afterwards are as `SenseTablesAfter` describes. |
| Writer.InsertEntries | app/src/main/java/com/example/japanesedictionary/utils/XmlToRoomImporter.kt:472-555 | One batch appends its rows to every word table and leaves the kanji tables alone. |
| Writer.ExampleSenseLinkage | app/src/main/java/com/example/japanesedictionary/utils/XmlToRoomImporter.kt:510-521 | Each example row of a batch names the stored sense that holds that example. |
| Writer.CrossRefLinkage | app/src/main/java/com/example/japanesedictionary/utils/XmlToRoomImporter.kt:510-531 | Each cross reference links the stored sense at its field's position with a field row of the field's name. |
| Writer.KanjiReadingRowsMember | app/src/main/java/com/example/japanesedictionary/utils/XmlToRoomImporter.kt:568 | A kanji reading row exists exactly for the readings of the batch's records. |
| Writer.InsertKanjiEntries | app/src/main/java/com/example/japanesedictionary/utils/XmlToRoomImporter.kt:560-571 | One batch appends its kanji records and their readings, in order. |
| Writer.InsertingReports | app/src/main/java/com/example/japanesedictionary/utils/XmlToRoomImporter.kt:128 | There is one `Inserting` report per batch. |
| Writer.InsertingReportsAppend | app/src/main/java/com/example/japanesedictionary/utils/XmlToRoomImporter.kt:124-129 | Writing one more batch adds one report, with the new running count. |
| Writer.InsertingReportsAt | app/src/main/java/com/example/japanesedictionary/utils/XmlToRoomImporter.kt:124-129 | Report `k` counts the entries of the first `k + 1` batches. |
| Writer.InsertWordBatch | app/src/main/java/com/example/japanesedictionary/utils/XmlToRoomImporter.kt:124-129 | One turn of the inserter's loop appends the batch's rows after those of earlier batches, updates both counters and adds one report; by its frame the kanji tables are untouched. |
| Writer.InsertWordBatches | app/src/main/java/com/example/japanesedictionary/utils/XmlToRoomImporter.kt:120-135 | The rows of all batches are appended in emission order, and the count is the number of entries written; by its frame the kanji tables are untouched. |
| Writer.ToParsing | app/src/main/java/com/example/japanesedictionary/utils/XmlToRoomImporter.kt:112-114 | A parsing report keeps the running count and total of the batcher's report, under the given phase, one for one. |
| Writer.ParsingReports | app/src/main/java/com/example/japanesedictionary/utils/XmlToRoomImporter.kt:112-117 | There is one `Parsing` report per emitted batch. |
| Writer.ReportedAsParsing | app/src/main/java/com/example/japanesedictionary/utils/XmlToRoomImporter.kt:112-114 | The batcher's reports, sent as `Parsing`, are exactly one per batch with the running count from the starting total. |
| Writer.ParsingReportsAt | app/src/main/java/com/example/japanesedictionary/utils/XmlToRoomImporter.kt:112-114 | Parsing report `k` counts the starting total plus the entries of the first `k + 1` batches. |
| Writer.ImportWords | app/src/main/java/com/example/japanesedictionary/utils/XmlToRoomImporter.kt:87-135 | When the dictionary is already filled: no parsing report, only `Completed(0)`, and nothing changes. Otherwise one `Parsing` report per emitted batch counting on from the checkpoint, every record of the document written in order with one `Inserting` report per batch, the kanji tables untouched, and `Completed` of the total at the end. |
| Writer.InsertKanjiBatch | app/src/main/java/com/example/japanesedictionary/utils/XmlToRoomImporter.kt:175-180 | One turn of the kanji inserter's loop appends the batch's rows, updates both counters and adds one report. |
| Writer.InsertKanjiBatches | app/src/main/java/com/example/japanesedictionary/utils/XmlToRoomImporter.kt:172-185 | The kanji rows of all batches are appended in emission order, and the count is the number of records written. |
| Writer.ImportKanji | app/src/main/java/com/example/japanesedictionary/utils/XmlToRoomImporter.kt:145-185 | When the kanji table is already filled: no parsing report, only `Completed(0)`, and nothing changes. Otherwise one `Parsing` report per emitted batch counting from 0, every record written in order with one `Inserting` report per batch, and `Completed` of the total at the end. |
| DictionaryVM.RelatedAreFirstOccurrences | app/src/main/java/com/example/japanesedictionary/viewmodel/DictionaryViewModel.kt:94 | The related part is the first occurrence of each result that is not an exact match, in the order the two queries returned them. |
| DictionaryVM.MergeOrder | app/src/main/java/com/example/japanesedictionary/viewmodel/DictionaryViewModel.kt:87-97 | The exact matches come first, filtered from the exact query in its order. Then come results that are not exact matches, each once. |
| DictionaryVM.MergeMembers | app/src/main/java/com/example/japanesedictionary/viewmodel/DictionaryViewModel.kt:94-97 | The merged list holds exactly the elements the two queries returned. |
| DictionaryVM.MergeNoDuplicates | app/src/main/java/com/example/japanesedictionary/viewmodel/DictionaryViewModel.kt:87-97 | The merged list is free of duplicates exactly when the exact matches are. |
| DictionaryVM.NormalizeQueryCases | app/src/main/java/com/example/japanesedictionary/viewmodel/DictionaryViewModel.kt:75-79 | Only ASCII letters: the query goes to `romajiToHiragana`. Else, with katakana: the katakana are converted. Else: unchanged. |
| DictionaryVM.NormalizeQueryIdempotent | app/src/main/java/com/example/japanesedictionary/viewmodel/DictionaryViewModel.kt:75-79 | Normalising a query that is not pure romaji a second time changes nothing. |
| DictionaryVM.SearchOutcomeFacts | app/src/main/java/com/example/japanesedictionary/viewmodel/DictionaryViewModel.kt:51-121 | An empty query empties the results. In each mode the results are exactly what the mode's two queries returned, led by its exact matches. Any other mode keeps the results. |
| DictionaryVM.HistoryWithFacts | app/src/main/java/com/example/japanesedictionary/viewmodel/DictionaryViewModel.kt:282-292 | The new query leads, followed by the first 49 stored items in order; the history holds 1 to 50 items. |
| DictionaryVM.RemoveFirstFacts | app/src/main/java/com/example/japanesedictionary/viewmodel/DictionaryViewModel.kt:444 | `remove` drops exactly one copy of a present element and keeps the rest in order. |
| DictionaryVM.ToggledFacts | app/src/main/java/com/example/japanesedictionary/viewmodel/DictionaryViewModel.kt:442-449 | Toggling keeps the selection free of duplicates and flips the item's membership; toggling an unselected item twice restores the selection. |
| DictionaryVM.KanjiIn | app/src/main/java/com/example/japanesedictionary/viewmodel/DictionaryViewModel.kt:345 | The set holds exactly the characters of the text that `isKanji` accepts. |
| DictionaryVM.DictionaryViewModel.SearchWord | app/src/main/java/com/example/japanesedictionary/viewmodel/DictionaryViewModel.kt:51-66 | The query is stored, and the results are the search outcome for the current mode. |
| DictionaryVM.DictionaryViewModel.SaveSearchMode | app/src/main/java/com/example/japanesedictionary/viewmodel/DictionaryViewModel.kt:334-336 | The mode becomes the given one. |
| DictionaryVM.DictionaryViewModel.HistoryFromStorage | app/src/main/java/com/example/japanesedictionary/viewmodel/DictionaryViewModel.kt:314-322 | The copy loop, then the cap: the first 50 stored items. |
| DictionaryVM.DictionaryViewModel.SaveHistoryToStorage | app/src/main/java/com/example/japanesedictionary/viewmodel/DictionaryViewModel.kt:325-329 | The first 50 items are stored. |
| DictionaryVM.DictionaryViewModel.LoadSearchHistory | app/src/main/java/com/example/japanesedictionary/viewmodel/DictionaryViewModel.kt:296-301 | The shown history becomes the capped stored history. |
| DictionaryVM.DictionaryViewModel.AddSearchHistory | app/src/main/java/com/example/japanesedictionary/viewmodel/DictionaryViewModel.kt:282-292 | Nothing changes for an empty query or one already shown. Otherwise the query is put in front of the capped stored history, the result is stored capped, and the shown history is reloaded. |
| DictionaryVM.DictionaryViewModel.ClearSearchHistory | app/src/main/java/com/example/japanesedictionary/viewmodel/DictionaryViewModel.kt:304-311 | The stored and shown histories become empty. |
| DictionaryVM.DictionaryViewModel.ExtractKanjiCharacters | app/src/main/java/com/example/japanesedictionary/viewmodel/DictionaryViewModel.kt:344-346 | `kanjiSet` holds exactly the characters of the text that `isKanji` accepts. |
| DictionaryVM.DictionaryViewModel.ToggleSelection | app/src/main/java/com/example/japanesedictionary/viewmodel/DictionaryViewModel.kt:442-449 | A selected item is removed and the mode kept; an unselected item is added and the mode turned on. |
| DictionaryVM.DictionaryViewModel.SelectAll | app/src/main/java/com/example/japanesedictionary/viewmodel/DictionaryViewModel.kt:452-456 | The selection becomes the history and the mode is on. |
| DictionaryVM.DictionaryViewModel.DeselectAll | app/src/main/java/com/example/japanesedictionary/viewmodel/DictionaryViewModel.kt:459-461 | The selection is emptied and the mode kept. |
| DictionaryVM.DictionaryViewModel.ClearSelection | app/src/main/java/com/example/japanesedictionary/viewmodel/DictionaryViewModel.kt:464-467 | The selection is emptied and the mode turned off. |
| DictionaryVM.DictionaryViewModel.DeleteSelectedItems | app/src/main/java/com/example/japanesedictionary/viewmodel/DictionaryViewModel.kt:470-481 | Each occurrence of each selected item leaves the capped history, and the others keep their order. The selection is cleared, the mode turned off and the history reloaded. |
| DictionaryVM.DeleteKeepsOrder | app/src/main/java/com/example/japanesedictionary/viewmodel/DictionaryViewModel.kt:470-481 | Deleting works piece by piece on any split of the history, so the survivors keep their relative order. |
| QuizVM.Pick | app/src/main/java/com/example/japanesedictionary/viewmodel/QuizViewModel.kt:73-74 | `random()` fails exactly on an empty list; otherwise it returns an element of the list. |
| QuizVM.RandomGloss | app/src/main/java/com/example/japanesedictionary/viewmodel/QuizViewModel.kt:154-156 | There is no gloss exactly when the entry's senses have none; otherwise one of its glosses is returned. |
| QuizVM.OtherEntries | app/src/main/java/com/example/japanesedictionary/viewmodel/QuizViewModel.kt:79-80 | The other entries are exactly those unequal to the correct one; there are none exactly when every entry equals it. |
| QuizVM.Meanings | app/src/main/java/com/example/japanesedictionary/viewmodel/QuizViewModel.kt:93-94 | There is one choice per entry: the correct meaning for the correct entry, and a gloss of each other entry. It fails exactly when some other entry has no gloss. |
| QuizVM.Positions | app/src/main/java/com/example/japanesedictionary/viewmodel/QuizViewModel.kt:95 | The positions 0..n-1 in order. |
| QuizVM.Permute | app/src/main/java/com/example/japanesedictionary/viewmodel/QuizViewModel.kt:95 | `shuffled()` keeps the length. |
| QuizVM.PermutationInRange | app/src/main/java/com/example/japanesedictionary/viewmodel/QuizViewModel.kt:95 | Every index of the drawn permutation is a valid position. |
| QuizVM.PermuteMembers | app/src/main/java/com/example/japanesedictionary/viewmodel/QuizViewModel.kt:95 | Shuffling neither loses nor invents an element. |
| QuizVM.NewTrueFalseQuizFacts | app/src/main/java/com/example/japanesedictionary/viewmodel/QuizViewModel.kt:77-90 | A new true/false question is unanswered. Its `isCorrect` is the coin, and it shows the correct meaning on heads and another entry's gloss on tails. |
| QuizVM.NewMultipleChoiceQuizFacts | app/src/main/java/com/example/japanesedictionary/viewmodel/QuizViewModel.kt:91-104 | A new multiple-choice question has one choice per entry, contains the correct meaning, and its correct answer is the first position holding it. Every other choice is a gloss of an entry other than the correct one. It is unanswered, with no selection. |
| QuizVM.NewQuizErrors | app/src/main/java/com/example/japanesedictionary/viewmodel/QuizViewModel.kt:36-106 | The question fails with no entries; for a true/false question, whatever the coin, exactly when the chosen entry has no gloss, there is no other entry, or the drawn other entry has no gloss; for multiple choice exactly when some entry has no gloss. The message is always that of the empty collection. |
| QuizVM.AnsweredTrueFalseFacts | app/src/main/java/com/example/japanesedictionary/viewmodel/QuizViewModel.kt:108-124 | On a true/false question: answered, and correct exactly when the answer equals the stored `isCorrect`; nothing else changes. Any other state is left as it is. |
| QuizVM.AnsweredMultipleChoiceFacts | app/src/main/java/com/example/japanesedictionary/viewmodel/QuizViewModel.kt:126-144 | On a multiple-choice question: answered, the index recorded, and correct exactly when it is the correct answer; entry and choices unchanged. Any other state is left as it is. |
| QuizVM.GradingFreshQuiz | app/src/main/java/com/example/japanesedictionary/viewmodel/QuizViewModel.kt:77-144 | On a fresh true/false question, an answer is graded right exactly when it equals the coin. On a fresh multiple-choice question, a choice is graded right exactly when it holds the correct gloss and no earlier choice has the same text. |
| QuizVM.QuizViewModel.LoadNewQuiz | app/src/main/java/com/example/japanesedictionary/viewmodel/QuizViewModel.kt:36-70 | The entries are stored and the state is the new question built from them; correct entry and type are drawn when there are entries. |
| QuizVM.QuizViewModel.GenerateNewQuiz | app/src/main/java/com/example/japanesedictionary/viewmodel/QuizViewModel.kt:72-106 | The state is the new question built from the current entries, the correct entry and type being set first. |
| QuizVM.QuizViewModel.CheckTrueFalseAnswer | app/src/main/java/com/example/japanesedictionary/viewmodel/QuizViewModel.kt:108-124 | The state becomes the graded true/false state. |
| QuizVM.QuizViewModel.CheckMultipleChoiceAnswer | app/src/main/java/com/example/japanesedictionary/viewmodel/QuizViewModel.kt:126-144 | The state becomes the graded multiple-choice state. |

## Left out

- Concurrency in the import flows: the parser and the inserter run as
  coroutines joined by a channel. The model runs them one after the other,
  with the batches written in the order they were emitted, and returns the
  `Parsing` and the `Inserting` reports as two separate sequences. So the
  interleaving of the two kinds in the flow is not modelled, and neither
  are `Failed` reports or `yield()`.
- `importData` and `importKanjiData` are not modelled. They collect the
  progress flow and poll it every 100 ms.
- The checkpoints are not modelled: `saveCheckpoint` is not, and
  `loadCheckpoint` only appears as a parameter, the count the word parser
  starts from.
- Reading the raw resources into byte arrays is not modelled, nor is the
  `XMLInputFactory` set-up with its resolver. The parser's output is an
  event sequence. Events other than start, end and character data are one
  `Other` event that the loops ignore.
- Room and SQLite are not modelled as such: transactions, conflict
  strategies (`REPLACE`/`IGNORE`), FTS4 indexing and SQL. Tables are logs of
  the rows inserted, and a row's id is its 1-based position in its table.
- Writer.SenseIds: ids handed out as `Long` are narrowed to `Int` by
  `toInt()`. The model does not capture what the narrowing would do to ids
  beyond 2^31.
- Writer.InsertWordBatches: the contract states the entry, kanji, reading
  and full-text tables across all batches. For the sense-side tables, each
  batch's effect is stated by `InsertEntries`, not the whole run's.
- Writer.ImportWords: states the same four tables as `InsertWordBatches`.
- Common.ParseInt: recognises ASCII digits only, with an optional sign and
  the 32-bit range. Kotlin's `toIntOrNull` also accepts other Unicode decimal
  digits.
- Common.Trim: whitespace is a fixed list of characters, taken as Kotlin's
  `isWhitespace` for the Basic Multilingual Plane.
- Strings are sequences of `char`. Unpaired surrogate code units, which a
  JVM string can hold, cannot be written down.
- DictionaryVM.DictionaryViewModel.SearchWord: the DAO results are a
  parameter (`SearchBackend`). The `Dispatchers.IO` switch is not modelled,
  nor is the search running inside a coroutine.
- Not in the model: suggestions, `searchWordById`, related-word fetching,
  grouping, `getSearchMode` and the other view-model functions that drive
  only the UI.
- JSON encoding and decoding of the stored history is not modelled.
- DictionaryVM.DictionaryViewModel.AddSearchHistory and DeleteSelectedItems
  run in coroutines in the source. The model runs them to completion before
  the next call.
- QuizVM.QuizViewModel.LoadNewQuiz: the DAO fetch of random entries is a
  parameter, and so is its `entry!!`. A failed fetch is not modelled.
- QuizVM.QuizViewModel.CheckTrueFalseAnswer and CheckMultipleChoiceAnswer do
  not model the delayed `loadNewQuiz()` the source schedules after an answer
  (`delay` is timing).
- QuizVM.Permute: the permutation `shuffled()` draws is a parameter, which
  must be a permutation of the positions (a precondition). Its randomness
  is not modelled.
- QuizVM.QuizState: the multiple-choice form's field `isCorrect` is named
  `isCorrectChoice`. Dafny requires a field shared by two constructors to
  have one type, and here one is `Boolean` and the other `Boolean?`.
- The UI, text-to-speech, SVG stroke loading, dependency injection and the
  build files are outside the core.
