/**
  Cache keys of the preprocessor. A document is cached under the decimal
  pmid followed by the sorted flag string; a whole corpus under the hex MD5
  digest of the sorted pmids joined by '-', then '-', then the sorted flag
  string. The digest itself is a library routine and enters as a parameter:
  every property below holds for whatever digest function is supplied.
*/
module Keys {
  import opened Sorting
  import opened Strings
  import opened FlagRules

  function IntLe(x: int, y: int): (r: bool) { x <= y }

  /** Python compares one-character strings by code point, as `<=` on `char` does. */
  function CharLe(x: char, y: char): (r: bool) { x <= y }

  lemma IntLeIsTotalOrder()
    ensures TotalOrder(IntLe)
  {
  }

  lemma CharLeIsTotalOrder()
    ensures TotalOrder(CharLe)
  {
  }

  /** `__toSortedString`: the characters of `s` in ascending order, each kept
      as often as it occurs (nothing is deduplicated). */
  function ToSortedString(s: string): (r: string)
    ensures multiset(r) == multiset(s)
    ensures |r| == |s|
  {
    Sort(s, CharLe)
  }

  /** The characters of the sorted flag string are in ascending order. */
  lemma ToSortedStringSorted(s: string)
    ensures Sorted(ToSortedString(s), CharLe)
  {
    CharLeIsTotalOrder();
    SortSorted(s, CharLe);
  }

  /** Reordering the flags does not change their sorted string. */
  lemma ToSortedStringPermutationInvariant(f1: string, f2: string)
    requires multiset(f1) == multiset(f2)
    ensures ToSortedString(f1) == ToSortedString(f2)
  {
    CharLeIsTotalOrder();
    SortPermutationInvariant(f1, f2, CharLe);
  }

  /** `[str(id) for id in ids]`. */
  function Stringify(ids: seq<int>): (r: seq<string>)
    ensures |r| == |ids|
    ensures forall i :: 0 <= i < |ids| ==> r[i] == IntToString(ids[i])
  {
    seq(|ids|, i requires 0 <= i < |ids| => IntToString(ids[i]))
  }

  /** Different pmid lists render as different string lists. */
  lemma StringifyInjective(a: seq<int>, b: seq<int>)
    requires Stringify(a) == Stringify(b)
    ensures a == b
  {
    forall i | 0 <= i < |a|
      ensures a[i] == b[i]
    {
      IntToStringInjective(a[i], b[i]);
    }
  }

  /** The text fed to the digest by `__computeSetId`: the two updates of the
      digest, one after the other, digest their concatenation. */
  function CorpusDigestInput(pmid: seq<int>, flags: string): (r: string)
  {
    Join("-", Stringify(Sort(pmid, IntLe))) + "-" + ToSortedString(flags)
  }

  /** The corpus key for the given digest function. */
  function CorpusKey(hexDigest: string -> string, pmid: seq<int>, flags: string): (r: string)
  {
    hexDigest(CorpusDigestInput(pmid, flags))
  }

  /** The corpus key depends only on the multiset of pmids and the multiset of
      flag characters: any reordering of either gives the same key. */
  lemma CorpusKeyPermutationInvariant(hexDigest: string -> string,
                                      p1: seq<int>, p2: seq<int>, f1: string, f2: string)
    requires multiset(p1) == multiset(p2)
    requires multiset(f1) == multiset(f2)
    ensures CorpusDigestInput(p1, f1) == CorpusDigestInput(p2, f2)
    ensures CorpusKey(hexDigest, p1, f1) == CorpusKey(hexDigest, p2, f2)
  {
    IntLeIsTotalOrder();
    SortPermutationInvariant(p1, p2, IntLe);
    ToSortedStringPermutationInvariant(f1, f2);
  }

  /** The document key `"{}{}".format(pmid, sortedFlags)`. */
  function DocumentKey(pmid: int, flags: string): (r: string)
  {
    IntToString(pmid) + ToSortedString(flags)
  }

  /** Reordering the flags does not change a document key. */
  lemma DocumentKeyPermutationInvariant(pmid: int, f1: string, f2: string)
    requires multiset(f1) == multiset(f2)
    ensures DocumentKey(pmid, f1) == DocumentKey(pmid, f2)
  {
    ToSortedStringPermutationInvariant(f1, f2);
  }

  /** For one flag string, distinct pmids have distinct document keys. */
  lemma DocumentKeyInjective(a: int, b: int, flags: string)
    requires DocumentKey(a, flags) == DocumentKey(b, flags)
    ensures a == b
  {
    var sa, sb, tail := IntToString(a), IntToString(b), ToSortedString(flags);
    assert |sa| == |sb|;
    assert sa == (sa + tail)[..|sa|] == (sb + tail)[..|sb|] == sb;
    IntToStringInjective(a, b);
  }

  /** Across different flag strings the document key is ambiguous: pmid 1
      with flags "2l" and pmid 12 with flags "l" share a key. */
  lemma DocumentKeyAmbiguousAcrossFlags()
    ensures DocumentKey(1, "2l") == DocumentKey(12, "l")
  {
    assert ToSortedString("l") == "l";
    assert Sort("2l", CharLe) == Insert('2', Sort("l", CharLe), CharLe);
    assert ToSortedString("2l") == "2l";
    assert IntToString(12) == NatToString(1) + [DigitChar(2)] == "12";
  }

  /** No character of `s` is a decimal digit. */
  predicate NoDigits(s: string)
  {
    forall i :: 0 <= i < |s| ==> !('0' <= s[i] <= '9')
  }

  /** For flag strings without digits (for instance strings made only of
      the factory's flag characters) and non-negative pmids, a document key
      splits uniquely at its first non-digit: equal keys mean equal pmids and
      equal sorted flags. Nothing stops a caller from passing a digit. */
  lemma DocumentKeyUniqueWithoutDigitFlags(a: int, b: int, f1: string, f2: string)
    requires a >= 0 && b >= 0
    requires NoDigits(f1) && NoDigits(f2)
    requires DocumentKey(a, f1) == DocumentKey(b, f2)
    ensures a == b && ToSortedString(f1) == ToSortedString(f2)
  {
    var sa, sb := IntToString(a), IntToString(b);
    var t1, t2 := ToSortedString(f1), ToSortedString(f2);
    SortedNoDigits(f1);
    SortedNoDigits(f2);
    var k := DocumentKey(a, f1);
    LeadingDigitsOfKey(sa, t1);
    LeadingDigitsOfKey(sb, t2);
    assert sa == k[..|sa|] == sb;
    assert t1 == k[|sa|..] == t2;
    IntToStringInjective(a, b);
  }

  /** How many decimal digits `s` starts with. */
  function LeadingDigits(s: string): (n: nat)
    ensures n <= |s|
  {
    if |s| > 0 && '0' <= s[0] <= '9' then 1 + LeadingDigits(s[1..]) else 0
  }

  /** A digit string followed by a string that does not start with a digit
      starts with exactly that many digits. */
  lemma {:induction false} LeadingDigitsOfKey(d: string, t: string)
    requires forall i :: 0 <= i < |d| ==> '0' <= d[i] <= '9'
    requires NoDigits(t)
    ensures LeadingDigits(d + t) == |d|
  {
    if |d| > 0 {
      LeadingDigitsOfKey(d[1..], t);
      assert (d + t)[1..] == d[1..] + t;
    }
  }

  /** Sorting the flags brings in no digit. */
  lemma SortedNoDigits(f: string)
    requires NoDigits(f)
    ensures NoDigits(ToSortedString(f))
  {
    var t := ToSortedString(f);
    forall i | 0 <= i < |t|
      ensures !('0' <= t[i] <= '9')
    {
      assert t[i] in multiset(t);
      assert t[i] in multiset(f);
      var j :| 0 <= j < |f| && f[j] == t[i];
    }
  }

  /** A flag string made only of the factory's flag characters has no
      digit, so `DocumentKeyUniqueWithoutDigitFlags` applies to it. */
  lemma FactoryCharactersHaveNoDigits(flags: string)
    requires forall i :: 0 <= i < |flags| ==> flags[i] in SimpleFlags || flags[i] in ComplexFlags
    ensures NoDigits(flags)
  {
  }

  /** The factory's lists do not limit the flag string a caller passes:
      "2l" switches Simple on, and its document keys collide with those of
      "l" (pmid 1 under "2l" and pmid 12 under "l"). */
  lemma FactoryGateAdmitsDigitFlags()
    ensures Selects(SimpleFlags, "2l")
    ensures DocumentKey(1, "2l") == DocumentKey(12, "l")
  {
    assert "2l"[1] in SimpleFlags;
    DocumentKeyAmbiguousAcrossFlags();
  }

  /** Repeated flags are not collapsed: adding a flag character, even one
      already present, changes both the document key and the digested text. */
  lemma RepeatedFlagChangesKeys(pmid: seq<int>, id: int, flags: string, c: char)
    ensures DocumentKey(id, flags + [c]) != DocumentKey(id, flags)
    ensures CorpusDigestInput(pmid, flags + [c]) != CorpusDigestInput(pmid, flags)
  {
    assert |DocumentKey(id, flags + [c])| == |DocumentKey(id, flags)| + 1;
    assert |CorpusDigestInput(pmid, flags + [c])| == |CorpusDigestInput(pmid, flags)| + 1;
  }
}
