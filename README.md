# PolymorphPreprocessor in Dafny

This project models the caching and normalisation pipeline of the biomed
`PolymorphPreprocessor`. The pipeline takes a corpus of documents (a pmid
column and a text column) and a flag string. It returns one normalised text
per document. It uses two cache tiers:

- the **corpus cache** (`AlreadyProcessed`) is keyed by the hex MD5 digest of
  the sorted pmids and the sorted flags, and holds whole result lists;
- the **document cache** (`SharedMemory`) is keyed by the decimal pmid
  followed by the sorted flags, and holds single normalised texts.

On a miss, a document is split into sentences. Each sentence goes through
the Complex normaliser (when a Complex flag is present) and then the Simple
normaliser (when a Simple flag is present). The sentences are joined again
with single spaces.

Layout:

- `sorting.dfy` (`Sorting`): an insertion sort over any total order. It is
  proved sorted and a permutation, and it is proved to be the only sorted
  permutation, so two permutations of one list sort alike.
- `strings.dfy` (`Strings`): Python's `str(int)` written out, with its
  injectivity, and `sep.join(parts)` with its layout.
- `keys.dfy` (`Keys`): `__toSortedString` and the two cache keys, with what
  they depend on and what they do not.
- `flags.dfy` (`FlagRules`): the flag tests behind `__useSimple` and
  `__useComplex`, plus the factory's flag lists.
- `cache.dfy` (`Caching`): the `has`/`get`/`set` store both tiers use, as a
  class holding a map.
- `pipeline.dfy` (`Pipeline`): the same computation as value functions:
  - normalising one sentence and one document;
  - one document-cache lookup (`Lookup`);
  - the in-order pass over a corpus (`Extract`);
  - the lemmas about the pass: keys added, results stored, cache
    transparency.
- `preprocessor.dfy` (`Preprocessor`): the class `PolymorphPreprocessor`.
  Its two caches are objects it updates. The text column is an `array` that
  `ExtractText` overwrites in place. Each method is proved to compute what
  the `Pipeline`/`Keys` functions describe.

The libraries the class calls are constructor arguments. The model's
statements hold for any choice of them:

- `hashlib.md5(...).hexdigest()` is `hexDigest: string -> string`.
  `__computeSetId` feeds it two updates, which digest like their
  concatenation.
- `nltk.sent_tokenize` is `sentTokenize: string -> seq<string>`.
- `Simple.apply` and `Complex.apply` are `Normalizer = (string, string) -> string`.

## Behaviour to note

- **Stored order wins on a corpus hit.** On a corpus-cache hit the stored
  list comes back in the order of the call that stored it, not in the
  caller's order. A second call with the same pmids in another order gets the
  same key, by `CorpusKeyPermutationInvariant`, and so the first call's list.
- **Flags are used as given.** Repeated flag characters are not collapsed.
  They change the document key and the text the corpus key digests
  (`RepeatedFlagChangesKeys`).
- **Document keys can collide across flag strings.** The pmid and the flags
  are concatenated with no separator. The key is unique for one flag string
  (`DocumentKeyInjective`). Across flag strings it is not:
  `DocumentKeyAmbiguousAcrossFlags` shows pmid 1 with flags "2l" colliding
  with pmid 12 with flags "l". Such a collision needs a digit in the flags:
  with non-negative pmids and flag strings made only of the factory's flag
  characters, a key splits uniquely at its first non-digit
  (`DocumentKeyUniqueWithoutDigitFlags`, `FactoryCharactersHaveNoDigits`).
  The factory does not stop a caller from passing a digit: "2l" switches
  Simple on, and its keys collide with those of "l"
  (`FactoryGateAdmitsDigitFlags`), so a pass under "l" can serve pmid 12 the
  text cached for pmid 1 under "2l".
- **Normalisers see the sorted flags.** `__useCacheOrNormalizer` replaces
  the flags with their sorted form before it calls the normalisers.

## Model

| member | source | states |
|---|---|---|
| Keys.ToSortedString | biomed/preprocessor/polymorph_preprocessor.py:87-90 | the result holds the same characters as the input, with the same multiplicities, and has the same length |
| Keys.ToSortedStringSorted | biomed/preprocessor/polymorph_preprocessor.py:87-90 | the sorted flag string is in ascending character order |
| Keys.ToSortedStringPermutationInvariant | biomed/preprocessor/polymorph_preprocessor.py:87-90 | two flag strings that are permutations of each other have the same sorted string |
| Sorting.SortPermutationInvariant | biomed/preprocessor/polymorph_preprocessor.py:55-56 | sorting by a total order gives the same list for any two permutations of the input |
| Sorting.SortSorted | biomed/preprocessor/polymorph_preprocessor.py:56 | the sorted list is ordered by the total order |
| Sorting.SortedUnique | biomed/preprocessor/polymorph_preprocessor.py:56 | two sorted lists with the same elements are equal, so a sort has one possible result |
| Sorting.SortedSameHead | biomed/preprocessor/polymorph_preprocessor.py:56 | two non-empty sorted lists with the same elements have the same length and the same first element |
| Keys.StringifyInjective | biomed/preprocessor/polymorph_preprocessor.py:57 | two pmid lists that render as the same list of decimal strings are the same list |
| Strings.IntToString | biomed/preprocessor/polymorph_preprocessor.py:57 | `str(int)` is non-empty and starts with '-' exactly for negative numbers |
| Strings.IntToStringInjective | biomed/preprocessor/polymorph_preprocessor.py:57 | different integers have different decimal strings |
| Strings.JoinLayout | biomed/preprocessor/polymorph_preprocessor.py:136-137 | from the offset of part i, the joined string reads part i, the separator, and the join of the remaining parts |
| Strings.JoinLength | biomed/preprocessor/polymorph_preprocessor.py:136-137 | the joined string's length is the parts' lengths plus one separator between each pair of neighbours |
| Keys.CorpusKeyPermutationInvariant | biomed/preprocessor/polymorph_preprocessor.py:54-62 | the corpus key, and the text it digests, are the same for any reordering of the pmids and of the flags |
| Keys.DocumentKeyPermutationInvariant | biomed/preprocessor/polymorph_preprocessor.py:80-81 | reordering the flags leaves a document key unchanged |
| Keys.DocumentKeyInjective | biomed/preprocessor/polymorph_preprocessor.py:80-81 | for one flag string, equal document keys mean equal pmids |
| Keys.DocumentKeyAmbiguousAcrossFlags | biomed/preprocessor/polymorph_preprocessor.py:81 | pmid 1 with flags "2l" and pmid 12 with flags "l" share a document key |
| Keys.DocumentKeyUniqueWithoutDigitFlags | biomed/preprocessor/polymorph_preprocessor.py:80-81 | with non-negative pmids and flags without digits, equal document keys mean equal pmids and equal sorted flags, even across flag strings |
| Keys.SortedNoDigits | biomed/preprocessor/polymorph_preprocessor.py:87-90 | sorting a digit-free flag string yields a digit-free string |
| Keys.FactoryCharactersHaveNoDigits | biomed/preprocessor/polymorph_preprocessor.py:141-143 | a flag string made only of the factory's flag characters contains no digit |
| Keys.FactoryGateAdmitsDigitFlags | biomed/preprocessor/polymorph_preprocessor.py:119-127 | with the factory's Simple list, the flag string "2l" passes the gate, and pmid 1 under "2l" shares its document key with pmid 12 under "l" |
| Keys.RepeatedFlagChangesKeys | biomed/preprocessor/polymorph_preprocessor.py:58-61 | appending a flag character, even a repeated one, changes the document key and the digested corpus text |
| FlagRules.ScanFlags | biomed/preprocessor/polymorph_preprocessor.py:122-134 | the early-return scan answers true exactly when some flag is in the list |
| FlagRules.EmptyFlagsSelectNothing | biomed/preprocessor/polymorph_preprocessor.py:123-127 | an empty flag string selects no normaliser |
| FlagRules.SelectsDependsOnCharactersOnly | biomed/preprocessor/polymorph_preprocessor.py:122-134 | flag strings with the same set of characters select the same normalisers, whatever their order and repetitions |
| FlagRules.SelectsPermutationInvariant | biomed/preprocessor/polymorph_preprocessor.py:122-134 | a permutation of the flags selects the same normalisers |
| FlagRules.FactoryFlagExamples | biomed/preprocessor/polymorph_preprocessor.py:141-143 | with the factory's lists, "l" selects Simple only, "nl" selects both, "" selects neither |
| Pipeline.NotApplicableKeepsSentences | biomed/preprocessor/polymorph_preprocessor.py:109-117 | with no selecting flag, every sentence is kept as is and a document becomes its sentences rejoined |
| Pipeline.NormalizeDocumentLayout | biomed/preprocessor/polymorph_preprocessor.py:97-117 | the normalised document holds the normalisation of each tokenizer sentence, in order, one space apart |
| Pipeline.SortedFlagsGateAlike | biomed/preprocessor/polymorph_preprocessor.py:80 | sorting the flags before normalising does not change which normalisers run |
| Pipeline.Lookup | biomed/preprocessor/polymorph_preprocessor.py:79-85 | a hit returns the cached text and leaves the cache alone; a miss returns the normalised text and stores it; the key maps to the returned text; only that key is added; nothing already cached is overwritten |
| Pipeline.DocumentKeyListSameKey | biomed/preprocessor/polymorph_preprocessor.py:80-81 | within one call, two documents get the same document key exactly when they have the same pmid |
| Pipeline.Extract | biomed/preprocessor/polymorph_preprocessor.py:68-77 | the pass returns one text per document and never overwrites an entry already in the document cache |
| Pipeline.ExtractStep | biomed/preprocessor/polymorph_preprocessor.py:69-75 | extending the pass by one document performs one lookup on the cache the shorter pass left, and appends its text |
| Pipeline.ExtractKeys | biomed/preprocessor/polymorph_preprocessor.py:68-77 | after the pass, the cache holds exactly the old keys plus the keys of the corpus's documents |
| Pipeline.ExtractStoresResult | biomed/preprocessor/polymorph_preprocessor.py:68-77 | after the pass, each document's key maps to the text returned at that document's position |
| Pipeline.SharedKeyMeansSharedText | biomed/preprocessor/polymorph_preprocessor.py:80-81 | when a pmid always names the same text, documents sharing a key share their text |
| Pipeline.LookupCoherent | biomed/preprocessor/polymorph_preprocessor.py:79-95 | on a cache that agrees with normalisation, a lookup serves the normalised text and keeps the cache in agreement |
| Pipeline.ExtractPrefixTransparent | biomed/preprocessor/polymorph_preprocessor.py:68-77 | on such a cache, every prefix of the pass returns the normalised input texts and keeps the cache in agreement |
| Pipeline.ExtractIsCacheTransparent | biomed/preprocessor/polymorph_preprocessor.py:68-95 | given a cache in agreement, and each pmid naming one text, every output is the normalised input text at the same position, as if there were no cache |
| Pipeline.ColdCacheExtract | biomed/preprocessor/polymorph_preprocessor.py:68-95 | from an empty document cache, when each pmid names one text, each output is the normalisation of the input at its position |
| Pipeline.RepeatedPmidReusesFirstText | biomed/preprocessor/polymorph_preprocessor.py:79-83 | pmids [7, 7] with texts ["A", "B"] both come back as the normalisation of "A" |
| Caching.Cache.Has | biomed/preprocessor/polymorph_preprocessor.py:46 | answers whether the key is stored |
| Caching.Cache.Get | biomed/preprocessor/polymorph_preprocessor.py:47 | returns the stored value of a stored key |
| Caching.Cache.Set | biomed/preprocessor/polymorph_preprocessor.py:65 | stores the value under the key, overwriting it, and changes nothing else |
| Preprocessor.PolymorphPreprocessor.constructor | biomed/preprocessor/polymorph_preprocessor.py:15-29 | keeps the two caches, both normalisers and their flag lists |
| Preprocessor.FactoryGetInstance | biomed/preprocessor/polymorph_preprocessor.py:139-157 | a new preprocessor on the given caches, with Simple on "s", "l", "w" and Complex on "n", "v", "a" |
| Preprocessor.PolymorphPreprocessor.PreprocessTextCorpus | biomed/preprocessor/polymorph_preprocessor.py:31-36 | runs `__reflectOrExtract` on a copy of the text column; gives the same results and cache updates as that method, and the caller's column is left as it was |
| Preprocessor.PolymorphPreprocessor.ReflectOrExtract | biomed/preprocessor/polymorph_preprocessor.py:38-42 | with no selecting flag, the texts come back untouched and no cache or text changes; otherwise it is `__getCachedListOrCompute` |
| Preprocessor.PolymorphPreprocessor.GetCachedListOrCompute | biomed/preprocessor/polymorph_preprocessor.py:44-52 | on a corpus hit, returns the stored list and changes nothing; on a miss, the texts and document cache are as `Extract` describes and the list is stored under the corpus key; afterwards the key maps to the returned list |
| Preprocessor.PolymorphPreprocessor.ComputeSetId | biomed/preprocessor/polymorph_preprocessor.py:54-62 | the key is the digest of the sorted decimal pmids joined by '-', then '-' and the sorted flags, so it inherits `CorpusKeyPermutationInvariant` |
| Preprocessor.PolymorphPreprocessor.CacheAndReturn | biomed/preprocessor/polymorph_preprocessor.py:64-66 | stores the list under the key and returns that list |
| Preprocessor.PolymorphPreprocessor.ExtractText | biomed/preprocessor/polymorph_preprocessor.py:68-77 | the array is overwritten in place with the results of `Extract`, in index order, and the document cache ends as `Extract` leaves it |
| Preprocessor.PolymorphPreprocessor.UseCacheOrNormalizer | biomed/preprocessor/polymorph_preprocessor.py:79-85 | the returned text and the new document cache are those of `Lookup`, under the document key, with the normaliser called on the sorted flags |
| Preprocessor.PolymorphPreprocessor.ApplyTextNormalizerAndCache | biomed/preprocessor/polymorph_preprocessor.py:92-95 | returns the normalised document and stores it under the key, changing nothing else |
| Preprocessor.PolymorphPreprocessor.ApplyTextNormalizer | biomed/preprocessor/polymorph_preprocessor.py:97-100 | returns the tokenizer's sentences, each normalised, joined with single spaces |
| Preprocessor.PolymorphPreprocessor.Normalize | biomed/preprocessor/polymorph_preprocessor.py:102-107 | one normalised sentence per input sentence, at the same position |
| Preprocessor.PolymorphPreprocessor.NormalizePerSentence | biomed/preprocessor/polymorph_preprocessor.py:109-117 | covers all four flag cases; when both apply, Simple runs on Complex's output |
| Preprocessor.PolymorphPreprocessor.IsApplicable | biomed/preprocessor/polymorph_preprocessor.py:119-120 | true exactly when a flag selects Simple or Complex |
| Preprocessor.PolymorphPreprocessor.UseSimple | biomed/preprocessor/polymorph_preprocessor.py:122-127 | true exactly when some flag is in the Simple list |
| Preprocessor.PolymorphPreprocessor.UseComplex | biomed/preprocessor/polymorph_preprocessor.py:129-134 | true exactly when some flag is in the Complex list |

## Left out

- The DataFrame is reduced to its two columns, as two equal-length sequences. A missing column is not modelled.
- The progress `print` in `__extractText` (polymorph_preprocessor.py:70) is console output and is not modelled.
- MD5, sentence splitting and the two normalisers are parameters. Their internals are not modelled, including `lowerFilter.py` and the other filters.
- The cache backends, shared memory and NumPy array files, are replaced by an in-object map. Persistence across runs and processes is not modelled, and neither are concurrent writers.
- `__cacheAndReturn` hands the corpus cache the same list it returns. The model stores the value, so a backend that keeps the reference, and later changes to that list, are not captured.
- Failures of sentence splitting, the normalisers, the digest or the cache backends are not modelled: they are total here. In the source such an exception stops the pass, leaving the earlier documents overwritten and cached and no corpus entry.
- `Factory`'s singleton instances of the normalisers and the shared cache are not modelled. `FactoryGetInstance` takes them as arguments.
- Pmids are modelled as integers. Other pmid types, whose `str` would differ, are not modelled.
