/**
  The `PolymorphPreprocessor` object: two caches it updates in place, the
  two normalisers with their flag lists, and the two library routines it
  calls (sentence splitting and the hex MD5 digest), which enter as
  constructor arguments. Each method is proved to compute what the value
  functions of `Pipeline` and `Keys` describe.
*/
module Preprocessor {
  import opened Strings
  import opened Sorting
  import opened Keys
  import opened FlagRules
  import opened Caching
  import opened Pipeline

  class PolymorphPreprocessor {
    /** The persistent corpus cache, keyed by corpus key. */
    const alreadyProcessed: Cache<seq<string>>
    /** The shared document cache, keyed by document key. */
    const sharedMemory: Cache<string>
    const normalizers: Normalizers
    const sentTokenize: string -> seq<string>
    const hexDigest: string -> string

    constructor (alreadyProcessed: Cache<seq<string>>, shared: Cache<string>,
                 simple: Normalizer, simpleFlags: seq<char>,
                 complex: Normalizer, complexFlags: seq<char>,
                 sentTokenize: string -> seq<string>, hexDigest: string -> string)
      ensures this.alreadyProcessed == alreadyProcessed && sharedMemory == shared
      ensures normalizers == Normalizers(simple, simpleFlags, complex, complexFlags)
      ensures this.sentTokenize == sentTokenize && this.hexDigest == hexDigest
    {
      this.alreadyProcessed := alreadyProcessed;
      sharedMemory := shared;
      normalizers := Normalizers(simple, simpleFlags, complex, complexFlags);
      this.sentTokenize := sentTokenize;
      this.hexDigest := hexDigest;
    }

    /** What a call that passes the flag gate promises about the corpus
        cache: afterwards the corpus key maps to the returned list; on a hit
        that list is the stored one and neither cache changes; on a miss it
        is the per-document pass over `texts`, whose document cache is kept,
        and the list is stored under the key. */
    twostate predicate CorpusServed(pmid: seq<int>, texts: seq<string>, flags: string, r: seq<string>)
      requires |pmid| == |texts|
      reads this, alreadyProcessed, sharedMemory
    {
      var key := CorpusKey(hexDigest, pmid, flags);
      && key in alreadyProcessed.entries && alreadyProcessed.entries[key] == r
      && (key in old(alreadyProcessed.entries) ==>
            r == old(alreadyProcessed.entries[key]) && unchanged(alreadyProcessed, sharedMemory))
      && (key !in old(alreadyProcessed.entries) ==>
            var e := Extract(old(sharedMemory.entries), DocumentKeyList(pmid, flags), texts,
                             DocumentNormalizer(normalizers, sentTokenize, flags));
            && r == e.texts
            && sharedMemory.entries == e.cache
            && alreadyProcessed.entries == old(alreadyProcessed.entries)[key := r])
    }

    /** `preprocess_text_corpus` on the frame's pmid and text columns. The
        text column is copied into a fresh list first, so the caller's column
        is never overwritten. */
    method PreprocessTextCorpus(pmid: seq<int>, textColumn: seq<string>, flags: string)
      returns (r: seq<string>)
      requires |pmid| == |textColumn|
      modifies alreadyProcessed, sharedMemory
      ensures !AnyApplies(normalizers, flags) ==>
        r == textColumn && unchanged(alreadyProcessed, sharedMemory)
      ensures AnyApplies(normalizers, flags) ==> CorpusServed(pmid, textColumn, flags, r)
    {
      var text := new string[|textColumn|](i requires 0 <= i < |textColumn| => textColumn[i]);
      assert text[..] == textColumn;
      r := ReflectOrExtract(pmid, text, flags);
    }

    /** `__reflectOrExtract`: when no flag selects a normaliser the texts come
        back untouched and neither cache changes; otherwise the corpus cache
        answers, or the corpus is computed and stored. */
    method ReflectOrExtract(pmid: seq<int>, text: array<string>, flags: string)
      returns (r: seq<string>)
      requires |pmid| == text.Length
      modifies text, alreadyProcessed, sharedMemory
      ensures !AnyApplies(normalizers, flags) ==>
        r == text[..] && unchanged(text, alreadyProcessed, sharedMemory)
      ensures AnyApplies(normalizers, flags) ==>
        && CorpusServed(pmid, old(text[..]), flags, r)
        && (CorpusKey(hexDigest, pmid, flags) in old(alreadyProcessed.entries) ==> unchanged(text))
        && (CorpusKey(hexDigest, pmid, flags) !in old(alreadyProcessed.entries) ==> text[..] == r)
    {
      var applicable := IsApplicable(flags);
      if !applicable {
        r := text[..];
      } else {
        r := GetCachedListOrCompute(pmid, text, flags);
      }
    }

    /** `__getCachedListOrCompute`: a hit returns the list stored by the
        first call for this key, as stored (so in that call's order); a
        miss runs the per-document pass and stores its result. Either way
        the corpus cache then maps the key to the returned list. */
    method GetCachedListOrCompute(pmid: seq<int>, text: array<string>, flags: string)
      returns (r: seq<string>)
      requires |pmid| == text.Length
      modifies text, alreadyProcessed, sharedMemory
      ensures CorpusServed(pmid, old(text[..]), flags, r)
      ensures CorpusKey(hexDigest, pmid, flags) in old(alreadyProcessed.entries) ==> unchanged(text)
      ensures CorpusKey(hexDigest, pmid, flags) !in old(alreadyProcessed.entries) ==> text[..] == r
    {
      var setId := ComputeSetId(pmid, flags);
      var present := alreadyProcessed.Has(setId);
      if present {
        r := alreadyProcessed.Get(setId);
      } else {
        var processed := ExtractText(pmid, text, flags);
        r := CacheAndReturn(setId, processed);
      }
    }

    /** `__computeSetId`: sort a copy of the pmids, render them in decimal,
        join them with '-', append '-' and the sorted flags, digest. */
    method ComputeSetId(pmid: seq<int>, flags: string) returns (setId: string)
      ensures setId == CorpusKey(hexDigest, pmid, flags)
    {
      var ids := Sort(pmid, IntLe);
      var names := Stringify(ids);
      var sortedFlags := ToSortedString(flags);
      var digested := Join("-", names);
      digested := digested + "-" + sortedFlags;
      setId := hexDigest(digested);
    }

    /** `__cacheAndReturn`. */
    method CacheAndReturn(setId: string, processedText: seq<string>) returns (r: seq<string>)
      modifies alreadyProcessed
      ensures r == processedText
      ensures alreadyProcessed.entries == old(alreadyProcessed.entries)[setId := processedText]
    {
      alreadyProcessed.Set(setId, processedText);
      r := processedText;
    }

    /** `__extractText`: overwrite each text, in index order, with what the
        document cache or the normalisers give for it. */
    method ExtractText(pmid: seq<int>, text: array<string>, flags: string) returns (r: seq<string>)
      requires |pmid| == text.Length
      modifies text, sharedMemory
      ensures var e := Extract(old(sharedMemory.entries), DocumentKeyList(pmid, flags), old(text[..]),
                               DocumentNormalizer(normalizers, sentTokenize, flags));
        && r == e.texts && text[..] == r
        && sharedMemory.entries == e.cache
    {
      ghost var keys := DocumentKeyList(pmid, flags);
      ghost var texts := text[..];
      ghost var normalize := DocumentNormalizer(normalizers, sentTokenize, flags);
      ghost var cache := sharedMemory.entries;
      ghost var done: seq<string> := [];
      var index := 0;
      while index < text.Length
        invariant 0 <= index <= text.Length && |done| == index
        invariant text[..] == done + texts[index..]
        invariant Extract(cache, keys[..index], texts[..index], normalize)
               == Extraction(done, sharedMemory.entries)
      {
        ghost var current := sharedMemory.entries;
        var served := UseCacheOrNormalizer(pmid[index], text[index], flags);
        ExtractStep(cache, keys, texts, normalize, index,
                    done, current, Served(served, sharedMemory.entries));
        text[index] := served;
        ReplaceNext(done, texts, index, served);
        done := done + [served];
        index := index + 1;
      }
      assert keys[..index] == keys && texts[..index] == texts;
      r := text[..];
    }

    /** Overwriting the first unprocessed position moves it to the processed part. */
    static lemma ReplaceNext(done: seq<string>, texts: seq<string>, index: nat, served: string)
      requires |done| == index < |texts|
      ensures (done + texts[index..])[index := served] == done + [served] + texts[index + 1..]
    {
    }

    /** `__useCacheOrNormalizer`: the document key is the decimal pmid and the
        sorted flags; a hit returns the cached text unchanged, a miss
        normalises under the sorted flags and stores the result. */
    method UseCacheOrNormalizer(pmid: int, text: string, flags: string) returns (r: string)
      modifies sharedMemory
      ensures Served(r, sharedMemory.entries)
           == Lookup(old(sharedMemory.entries), DocumentKey(pmid, flags), text,
                     DocumentNormalizer(normalizers, sentTokenize, flags))
    {
      var sortedFlags := ToSortedString(flags);
      var cacheKey := IntToString(pmid) + sortedFlags;
      var present := sharedMemory.Has(cacheKey);
      if present {
        r := sharedMemory.Get(cacheKey);
      } else {
        r := ApplyTextNormalizerAndCache(cacheKey, text, sortedFlags);
      }
    }

    /** `__applyTextNormalizerAndCache`. */
    method ApplyTextNormalizerAndCache(cacheKey: string, text: string, flags: string) returns (r: string)
      modifies sharedMemory
      ensures r == NormalizeDocument(normalizers, sentTokenize, text, flags)
      ensures sharedMemory.entries == old(sharedMemory.entries)[cacheKey := r]
    {
      r := ApplyTextNormalizer(text, flags);
      sharedMemory.Set(cacheKey, r);
    }

    /** `__applyTextNormalizer` with `__reassemble`: split into sentences,
        normalise them, join the results with single spaces. */
    method ApplyTextNormalizer(text: string, flags: string) returns (r: string)
      ensures r == NormalizeDocument(normalizers, sentTokenize, text, flags)
    {
      var parsedSentences := Normalize(sentTokenize(text), flags);
      assert parsedSentences == NormalizeSentences(normalizers, sentTokenize(text), flags);
      r := Join(" ", parsedSentences);
    }

    /** `__normalize`: one normalised sentence per input sentence, in order. */
    method Normalize(sentences: seq<string>, flags: string) returns (parsedSentences: seq<string>)
      ensures |parsedSentences| == |sentences|
      ensures forall i :: 0 <= i < |sentences| ==>
        parsedSentences[i] == NormalizeSentence(normalizers, sentences[i], flags)
    {
      parsedSentences := [];
      var i := 0;
      while i < |sentences|
        invariant 0 <= i <= |sentences|
        invariant |parsedSentences| == i
        invariant forall k :: 0 <= k < i ==>
          parsedSentences[k] == NormalizeSentence(normalizers, sentences[k], flags)
      {
        var parsed := NormalizePerSentence(sentences[i], flags);
        parsedSentences := parsedSentences + [parsed];
        i := i + 1;
      }
    }

    /** `__normalizePerSentence`: Complex runs only when a Complex flag is
        present, Simple only when a Simple flag is, and Simple works on
        Complex's output. */
    method NormalizePerSentence(text: string, flags: string) returns (parsed: string)
      ensures !ComplexApplies(normalizers, flags) && !SimpleApplies(normalizers, flags) ==>
        parsed == text
      ensures ComplexApplies(normalizers, flags) && !SimpleApplies(normalizers, flags) ==>
        parsed == normalizers.complex(text, flags)
      ensures !ComplexApplies(normalizers, flags) && SimpleApplies(normalizers, flags) ==>
        parsed == normalizers.simple(text, flags)
      ensures ComplexApplies(normalizers, flags) && SimpleApplies(normalizers, flags) ==>
        parsed == normalizers.simple(normalizers.complex(text, flags), flags)
    {
      parsed := text;
      var complex := UseComplex(flags);
      if complex {
        parsed := normalizers.complex(parsed, flags);
      }
      var simple := UseSimple(flags);
      if simple {
        parsed := normalizers.simple(parsed, flags);
      }
    }

    /** `__isApplicable`. */
    method IsApplicable(flags: string) returns (applicable: bool)
      ensures applicable <==> AnyApplies(normalizers, flags)
    {
      applicable := UseSimple(flags);
      if !applicable {
        applicable := UseComplex(flags);
      }
    }

    /** `__useSimple`. */
    method UseSimple(flags: string) returns (uses: bool)
      ensures uses <==> SimpleApplies(normalizers, flags)
    {
      uses := ScanFlags(flags, normalizers.simpleFlags);
    }

    /** `__useComplex`. */
    method UseComplex(flags: string) returns (uses: bool)
      ensures uses <==> ComplexApplies(normalizers, flags)
    {
      uses := ScanFlags(flags, normalizers.complexFlags);
    }
  }

  /** `Factory.getInstance`: a preprocessor wired with the factory's flag
      lists, Simple on "s", "l", "w" and Complex on "n", "v", "a". */
  method FactoryGetInstance(alreadyProcessed: Cache<seq<string>>, shared: Cache<string>,
                            simple: Normalizer, complex: Normalizer,
                            sentTokenize: string -> seq<string>, hexDigest: string -> string)
    returns (p: PolymorphPreprocessor)
    ensures fresh(p)
    ensures p.alreadyProcessed == alreadyProcessed && p.sharedMemory == shared
    ensures p.normalizers == Normalizers(simple, SimpleFlags, complex, ComplexFlags)
    ensures p.sentTokenize == sentTokenize && p.hexDigest == hexDigest
  {
    p := new PolymorphPreprocessor(alreadyProcessed, shared, simple, SimpleFlags,
                                   complex, ComplexFlags, sentTokenize, hexDigest);
  }
}
