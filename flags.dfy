/**
  The flag tests `__useSimple` and `__useComplex`: a flag string selects a
  normaliser when one of its characters is in that normaliser's flag list.
*/
module FlagRules {

  /** The flag lists the preprocessor's factory configures. */
  const SimpleFlags: seq<char> := ['s', 'l', 'w']
  const ComplexFlags: seq<char> := ['n', 'v', 'a']

  /** Some character of `flags` is in `trigger`. */
  predicate Selects(trigger: seq<char>, flags: string)
  {
    exists i :: 0 <= i < |flags| && flags[i] in trigger
  }

  /** The early-return loop shared by `__useSimple` and `__useComplex`:
      stop at the first flag in the list, report false when none is. */
  method ScanFlags(flags: string, trigger: seq<char>) returns (found: bool)
    ensures found <==> Selects(trigger, flags)
  {
    var i := 0;
    while i < |flags|
      invariant 0 <= i <= |flags|
      invariant forall k :: 0 <= k < i ==> flags[k] !in trigger
    {
      if flags[i] in trigger {
        return true;
      }
      i := i + 1;
    }
    return false;
  }

  /** An empty flag string selects nothing. */
  lemma EmptyFlagsSelectNothing(trigger: seq<char>)
    ensures !Selects(trigger, "")
  {
  }

  /** The test depends only on which characters occur in the flags: neither
      their order nor how often they repeat matters. */
  lemma {:induction false} SelectsDependsOnCharactersOnly(trigger: seq<char>, f1: string, f2: string)
    requires forall c :: c in f1 <==> c in f2
    ensures Selects(trigger, f1) <==> Selects(trigger, f2)
  {
    if Selects(trigger, f1) {
      var i :| 0 <= i < |f1| && f1[i] in trigger;
      assert f1[i] in f2;
      var j :| 0 <= j < |f2| && f2[j] == f1[i];
    }
    if Selects(trigger, f2) {
      var j :| 0 <= j < |f2| && f2[j] in trigger;
      assert f2[j] in f1;
      var i :| 0 <= i < |f1| && f1[i] == f2[j];
    }
  }

  /** In particular a permutation of the flags selects the same normalisers. */
  lemma SelectsPermutationInvariant(trigger: seq<char>, f1: string, f2: string)
    requires multiset(f1) == multiset(f2)
    ensures Selects(trigger, f1) <==> Selects(trigger, f2)
  {
    forall c
      ensures c in f1 <==> c in f2
    {
      assert c in f1 <==> c in multiset(f1);
      assert c in f2 <==> c in multiset(f2);
    }
    SelectsDependsOnCharactersOnly(trigger, f1, f2);
  }

  /** With the factory's lists, "l" selects Simple only and "" neither. */
  lemma FactoryFlagExamples()
    ensures Selects(SimpleFlags, "l") && !Selects(ComplexFlags, "l")
    ensures Selects(ComplexFlags, "nl") && Selects(SimpleFlags, "nl")
    ensures !Selects(SimpleFlags, "") && !Selects(ComplexFlags, "")
  {
    assert "l"[0] in SimpleFlags;
    assert "nl"[0] in ComplexFlags;
    assert "nl"[1] in SimpleFlags;
  }
}
