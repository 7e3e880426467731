/**
  What the preprocessor computes, stated as functions on values: the
  flag-gated per-sentence normalisation, the normalised document, one
  document-cache lookup, and the in-order pass over a corpus that threads the
  document cache from one document to the next. The class in
  `preprocessor.dfy` is proved to do exactly this.
*/
module Pipeline {
  import opened Strings
  import opened Keys
  import opened FlagRules

  /** `Normalizer.apply(text, flags)`: an opaque text transform. */
  type Normalizer = (string, string) -> string

  /** The two normaliser slots with the flag lists that switch them on. */
  datatype Normalizers = Normalizers(
    simple: Normalizer, simpleFlags: seq<char>,
    complex: Normalizer, complexFlags: seq<char>)

  predicate SimpleApplies(n: Normalizers, flags: string) { Selects(n.simpleFlags, flags) }

  predicate ComplexApplies(n: Normalizers, flags: string) { Selects(n.complexFlags, flags) }

  /** `__isApplicable`: some flag switches on some normaliser. */
  predicate AnyApplies(n: Normalizers, flags: string) { SimpleApplies(n, flags) || ComplexApplies(n, flags) }

  /** `__normalizePerSentence`: Complex first when its flags ask for it, then
      Simple on what Complex produced when its flags ask for it. */
  function NormalizeSentence(n: Normalizers, sentence: string, flags: string): (r: string)
  {
    var afterComplex := if ComplexApplies(n, flags) then n.complex(sentence, flags) else sentence;
    if SimpleApplies(n, flags) then n.simple(afterComplex, flags) else afterComplex
  }

  function NormalizeSentences(n: Normalizers, sentences: seq<string>, flags: string): (r: seq<string>)
  {
    seq(|sentences|, i requires 0 <= i < |sentences| => NormalizeSentence(n, sentences[i], flags))
  }

  /** `__applyTextNormalizer`: split into sentences, normalise each, rejoin
      with single spaces. */
  function NormalizeDocument(n: Normalizers, sentTokenize: string -> seq<string>,
                             text: string, flags: string): (r: string)
  {
    Join(" ", NormalizeSentences(n, sentTokenize(text), flags))
  }

  /** A flag string that selects no normaliser leaves every sentence alone,
      so a document comes back as its sentences rejoined. */
  lemma NotApplicableKeepsSentences(n: Normalizers, sentTokenize: string -> seq<string>,
                                    text: string, flags: string)
    requires !AnyApplies(n, flags)
    ensures NormalizeSentences(n, sentTokenize(text), flags) == sentTokenize(text)
    ensures NormalizeDocument(n, sentTokenize, text, flags) == Join(" ", sentTokenize(text))
  {
  }

  /** The normalised document has the tokenizer's sentences, each
      normalised, in their order, with one space between neighbours. */
  lemma {:induction false} NormalizeDocumentLayout(n: Normalizers, sentTokenize: string -> seq<string>,
                                                  text: string, flags: string, i: nat)
    requires i < |sentTokenize(text)|
    ensures var parts := NormalizeSentences(n, sentTokenize(text), flags);
      |parts| == |sentTokenize(text)| &&
      Offset(" ", parts, i) <= |NormalizeDocument(n, sentTokenize, text, flags)| &&
      NormalizeDocument(n, sentTokenize, text, flags)[Offset(" ", parts, i)..] ==
        if i + 1 < |parts|
        then NormalizeSentence(n, sentTokenize(text)[i], flags) + " " + Join(" ", parts[i + 1..])
        else NormalizeSentence(n, sentTokenize(text)[i], flags)
  {
    JoinLayout(" ", NormalizeSentences(n, sentTokenize(text), flags), i);
  }

  /** Sorting the flags first, as the document path does, never changes which
      normalisers run. */
  lemma SortedFlagsGateAlike(n: Normalizers, flags: string)
    ensures SimpleApplies(n, ToSortedString(flags)) <==> SimpleApplies(n, flags)
    ensures ComplexApplies(n, ToSortedString(flags)) <==> ComplexApplies(n, flags)
  {
    SelectsPermutationInvariant(n.simpleFlags, ToSortedString(flags), flags);
    SelectsPermutationInvariant(n.complexFlags, ToSortedString(flags), flags);
  }

  /** The document normaliser under one flag string: the transforms see
      the sorted flags, as the document path passes them on. */
  function DocumentNormalizer(n: Normalizers, sentTokenize: string -> seq<string>,
                              flags: string): (normalize: string -> string)
  {
    text => NormalizeDocument(n, sentTokenize, text, ToSortedString(flags))
  }

  /** The result of one `__useCacheOrNormalizer` call and the document cache after it. */
  datatype Served = Served(text: string, cache: map<string, string>)

  /** `__useCacheOrNormalizer` on a document cache given as a map: a hit
      returns the stored text and leaves the cache alone; a miss normalises
      and stores the result under the key. */
  function Lookup(cache: map<string, string>, key: string, text: string,
                  normalize: string -> string): (s: Served)
    ensures key in s.cache && s.cache[key] == s.text
    ensures key in cache ==> s == Served(cache[key], cache)
    ensures key !in cache ==> s.text == normalize(text)
    ensures s.cache.Keys == cache.Keys + {key}
    ensures forall k :: k in cache ==> s.cache[k] == cache[k]
  {
    if key in cache then Served(cache[key], cache)
    else Served(normalize(text), cache[key := normalize(text)])
  }

  /** The document key of every pmid, in corpus order. */
  function DocumentKeyList(pmid: seq<int>, flags: string): (keys: seq<string>)
    ensures |keys| == |pmid|
    ensures forall i :: 0 <= i < |pmid| ==> keys[i] == DocumentKey(pmid[i], flags)
  {
    seq(|pmid|, i requires 0 <= i < |pmid| => DocumentKey(pmid[i], flags))
  }

  /** Two documents of one call share a document key exactly when they
      share a pmid. */
  lemma DocumentKeyListSameKey(pmid: seq<int>, flags: string, i: nat, j: nat)
    requires i < |pmid| && j < |pmid|
    ensures DocumentKeyList(pmid, flags)[i] == DocumentKeyList(pmid, flags)[j] <==> pmid[i] == pmid[j]
  {
    if DocumentKeyList(pmid, flags)[i] == DocumentKeyList(pmid, flags)[j] {
      DocumentKeyInjective(pmid[i], pmid[j], flags);
    }
  }

  /** The texts `__extractText` produces and the document cache after it. */
  datatype Extraction = Extraction(texts: seq<string>, cache: map<string, string>)

  /** `__extractText`: the documents in input order, each looked up under its
      key in the document cache as the earlier documents left it. */
  function Extract(cache: map<string, string>, keys: seq<string>, texts: seq<string>,
                   normalize: string -> string): (e: Extraction)
    requires |keys| == |texts|
    ensures |e.texts| == |texts|
    ensures forall k :: k in cache ==> k in e.cache && e.cache[k] == cache[k]
    decreases |keys|
  {
    if |keys| == 0 then Extraction([], cache)
    else
      var last := |keys| - 1;
      var before := Extract(cache, keys[..last], texts[..last], normalize);
      var step := Lookup(before.cache, keys[last], texts[last], normalize);
      Extraction(before.texts + [step.text], step.cache)
  }

  /** Extending the pass by one document is one more lookup on the cache
      the shorter pass left: the step the loop of `__extractText` takes. */
  lemma ExtractStep(cache: map<string, string>, keys: seq<string>, texts: seq<string>,
                    normalize: string -> string, i: nat,
                    done: seq<string>, current: map<string, string>, served: Served)
    requires |keys| == |texts| && i < |keys|
    requires Extract(cache, keys[..i], texts[..i], normalize) == Extraction(done, current)
    requires served == Lookup(current, keys[i], texts[i], normalize)
    ensures Extract(cache, keys[..i + 1], texts[..i + 1], normalize)
         == Extraction(done + [served.text], served.cache)
  {
    assert keys[..i + 1][..i] == keys[..i];
    assert texts[..i + 1][..i] == texts[..i];
  }

  /** The pass adds to the document cache the keys of this corpus's
      documents and no others. */
  lemma {:induction false} ExtractKeys(cache: map<string, string>, keys: seq<string>,
                                      texts: seq<string>, normalize: string -> string)
    requires |keys| == |texts|
    ensures forall k :: k in Extract(cache, keys, texts, normalize).cache <==> k in cache || k in keys
  {
    if |keys| > 0 {
      var last := |keys| - 1;
      ExtractKeys(cache, keys[..last], texts[..last], normalize);
      assert keys == keys[..last] + [keys[last]];
    }
  }

  /** After the pass, the document cache holds the text returned at
      position `i` under that document's key. */
  lemma {:induction false} ExtractStoresResult(cache: map<string, string>, keys: seq<string>,
                                              texts: seq<string>, normalize: string -> string, i: nat)
    requires |keys| == |texts| && i < |keys|
    ensures var e := Extract(cache, keys, texts, normalize);
      keys[i] in e.cache && e.cache[keys[i]] == e.texts[i]
  {
    var last := |keys| - 1;
    var before := Extract(cache, keys[..last], texts[..last], normalize);
    var step := Lookup(before.cache, keys[last], texts[last], normalize);
    assert Extract(cache, keys, texts, normalize) == Extraction(before.texts + [step.text], step.cache);
    if i < last {
      ExtractStoresResult(cache, keys[..last], texts[..last], normalize, i);
      assert keys[..last][i] == keys[i];
      assert (before.texts + [step.text])[i] == before.texts[i];
    }
  }

  /** Within one corpus a pmid always names the same text. */
  ghost predicate SameIdSameText(pmid: seq<int>, texts: seq<string>)
    requires |pmid| == |texts|
  {
    forall i, j :: 0 <= i < |pmid| && 0 <= j < |pmid| && pmid[i] == pmid[j] ==> texts[i] == texts[j]
  }

  /** Documents that share a cache key share their text. */
  ghost predicate SameKeySameText(keys: seq<string>, texts: seq<string>)
    requires |keys| == |texts|
  {
    forall i, j :: 0 <= i < |keys| && 0 <= j < |keys| && keys[i] == keys[j] ==> texts[i] == texts[j]
  }

  /** Because document keys are injective for one flag string, documents
      that share a key share their pmid, hence their text. */
  lemma SharedKeyMeansSharedText(pmid: seq<int>, texts: seq<string>, flags: string)
    requires |pmid| == |texts|
    requires SameIdSameText(pmid, texts)
    ensures SameKeySameText(DocumentKeyList(pmid, flags), texts)
  {
    var keys := DocumentKeyList(pmid, flags);
    forall i, j | 0 <= i < |keys| && 0 <= j < |keys| && keys[i] == keys[j]
      ensures texts[i] == texts[j]
    {
      DocumentKeyInjective(pmid[i], pmid[j], flags);
    }
  }

  /** Every entry the document cache holds for a document of this corpus is
      that document's normalised text. */
  ghost predicate Coherent(cache: map<string, string>, keys: seq<string>, texts: seq<string>,
                           normalize: string -> string)
    requires |keys| == |texts|
  {
    forall i :: 0 <= i < |keys| && keys[i] in cache ==> cache[keys[i]] == normalize(texts[i])
  }

  /** One lookup on a coherent cache serves the document's normalised text
      and leaves the cache coherent. */
  lemma LookupCoherent(cache: map<string, string>, keys: seq<string>, texts: seq<string>,
                       normalize: string -> string, j: nat)
    requires |keys| == |texts| && j < |keys|
    requires SameKeySameText(keys, texts)
    requires Coherent(cache, keys, texts, normalize)
    ensures var s := Lookup(cache, keys[j], texts[j], normalize);
      && s.text == normalize(texts[j])
      && Coherent(s.cache, keys, texts, normalize)
  {
  }

  lemma {:induction false} ExtractPrefixTransparent(cache: map<string, string>, keys: seq<string>,
                                                   texts: seq<string>, normalize: string -> string, k: nat)
    requires |keys| == |texts| && k <= |keys|
    requires SameKeySameText(keys, texts)
    requires Coherent(cache, keys, texts, normalize)
    ensures var e := Extract(cache, keys[..k], texts[..k], normalize);
      && (forall i :: 0 <= i < k ==> e.texts[i] == normalize(texts[i]))
      && Coherent(e.cache, keys, texts, normalize)
  {
    if k > 0 {
      ExtractPrefixTransparent(cache, keys, texts, normalize, k - 1);
      var before := Extract(cache, keys[..k - 1], texts[..k - 1], normalize);
      LookupCoherent(before.cache, keys, texts, normalize, k - 1);
      var step := Lookup(before.cache, keys[k - 1], texts[k - 1], normalize);
      ExtractStep(cache, keys, texts, normalize, k - 1, before.texts, before.cache, step);
      var e := Extract(cache, keys[..k], texts[..k], normalize);
      forall i | 0 <= i < k
        ensures e.texts[i] == normalize(texts[i])
      {
        if i < k - 1 {
          assert e.texts[i] == before.texts[i];
        }
      }
    }
  }

  /** Cache transparency of the document tier: when the incoming document
      cache agrees with normalisation on this corpus's documents, every
      returned text is exactly the normalised input text at the same
      position, as if no cache existed, and the cache still agrees after. */
  lemma ExtractIsCacheTransparent(cache: map<string, string>, pmid: seq<int>, texts: seq<string>,
                                  flags: string, normalize: string -> string)
    requires |pmid| == |texts|
    requires SameIdSameText(pmid, texts)
    requires Coherent(cache, DocumentKeyList(pmid, flags), texts, normalize)
    ensures var e := Extract(cache, DocumentKeyList(pmid, flags), texts, normalize);
      && (forall i :: 0 <= i < |texts| ==> e.texts[i] == normalize(texts[i]))
      && Coherent(e.cache, DocumentKeyList(pmid, flags), texts, normalize)
  {
    var keys := DocumentKeyList(pmid, flags);
    SharedKeyMeansSharedText(pmid, texts, flags);
    ExtractPrefixTransparent(cache, keys, texts, normalize, |keys|);
    assert keys[..|keys|] == keys && texts[..|texts|] == texts;
  }

  /** With an empty document cache, element i of the result depends only on
      pmid[i]'s text and the flags. */
  lemma ColdCacheExtract(pmid: seq<int>, texts: seq<string>, flags: string, normalize: string -> string)
    requires |pmid| == |texts|
    requires SameIdSameText(pmid, texts)
    ensures forall i :: 0 <= i < |texts| ==>
      Extract(map[], DocumentKeyList(pmid, flags), texts, normalize).texts[i] == normalize(texts[i])
  {
    ExtractIsCacheTransparent(map[], pmid, texts, flags, normalize);
  }

  /** A pmid repeated with a different text gets the text cached for its
      first occurrence: pmids [7, 7] with texts ["A", "B"] both come back as
      the normalisation of "A". */
  lemma RepeatedPmidReusesFirstText(flags: string, normalize: string -> string)
    ensures var e := Extract(map[], DocumentKeyList([7, 7], flags), ["A", "B"], normalize);
      e.texts[1] == e.texts[0] == normalize("A")
  {
    var keys := DocumentKeyList([7, 7], flags);
    assert keys[0] == keys[1];
    var e1 := Extract(map[], keys[..1], ["A"], normalize);
    assert ["A", "B"][..1] == ["A"];
    assert keys[..1][..0] == [] && ["A"][..0] == [];
    assert Extract(map[], keys[..1][..0], ["A"][..0], normalize) == Extraction([], map[]);
    assert e1.texts[0] == normalize("A");
    ExtractStoresResult(map[], keys[..1], ["A"], normalize, 0);
    var step := Lookup(e1.cache, keys[1], "B", normalize);
    assert Extract(map[], keys, ["A", "B"], normalize) == Extraction(e1.texts + [step.text], step.cache);
  }
}
