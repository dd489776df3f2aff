/**
 * The prompt builder: substitution of the desired positions into the fixed
 * placeholder phrase of the bundled prompt (ResumeGPT/prompt.py).
 * Reading the bundled prompt resource is I/O and is not part of this model.
 */
module Prompt {
  import opened Strings

  /** The words inside the placeholder. */
  const DefaultPhrase: string := "suitable position for the candidate"

  /** The placeholder "(suitable position for the candidate)", which is also the default filler. */
  const Placeholder: string := "(" + DefaultPhrase + ")"

  /** Separator used between positions. */
  const Separator: string := ", "

  /**
   * The positions actually used: every entry stripped, blank entries dropped,
   * the original order kept.
   */
  function DesiredPositions(desired: seq<string>): (positions: seq<string>)
    ensures |positions| <= |desired|
    decreases |desired|
  {
    if desired == [] then []
    else
      var p := Strip(desired[0]);
      (if p == [] then [] else [p]) + DesiredPositions(desired[1..])
  }

  /** The positions are non-empty, trimmed texts. */
  predicate Trimmed(p: string) {
    p != [] && !IsSpace(p[0]) && !IsSpace(p[|p| - 1])
  }

  /** The text that replaces the placeholder: always in parentheses, like the placeholder. */
  function Rendering(positions: seq<string>): (r: string)
    ensures |r| >= 2 && r[0] == '(' && r[|r| - 1] == ')'
  {
    if positions != [] then "(" + Join(Separator, positions) + ")" else Placeholder
  }

  /** `substitute_desired_positions`. */
  function SubstituteDesiredPositions(basePrompt: string, desired: seq<string>): string {
    Replace(basePrompt, Placeholder, Rendering(DesiredPositions(desired)))
  }

  /** Selecting positions commutes with concatenating the input lists. */
  lemma {:induction false} DesiredPositionsAppend(a: seq<string>, b: seq<string>)
    ensures DesiredPositions(a + b) == DesiredPositions(a) + DesiredPositions(b)
    decreases |a|
  {
    if a != [] {
      assert (a + b)[0] == a[0] && (a + b)[1..] == a[1..] + b;
      DesiredPositionsAppend(a[1..], b);
    } else {
      assert a + b == b;
    }
  }

  /** Every selected position is non-empty and carries no surrounding whitespace. */
  lemma {:induction false} DesiredPositionsTrimmed(desired: seq<string>)
    ensures forall i :: 0 <= i < |DesiredPositions(desired)| ==> Trimmed(DesiredPositions(desired)[i])
    decreases |desired|
  {
    if desired != [] {
      DesiredPositionsTrimmed(desired[1..]);
      StripEnds(desired[0]);
    }
  }

  /** A single entry contributes its stripped text, or nothing when it is blank. */
  lemma DesiredPositionsSingle(p: string)
    ensures DesiredPositions([p]) == if AllSpace(p) then [] else [Strip(p)]
  {
    StripEmptyIffBlank(p);
    assert [p][1..] == [];
  }

  /** Only whitespace entries: nothing is selected. */
  lemma {:induction false} DesiredPositionsOfBlanks(w: seq<string>)
    requires forall i :: 0 <= i < |w| ==> AllSpace(w[i])
    ensures DesiredPositions(w) == []
    decreases |w|
  {
    if w != [] {
      StripEmptyIffBlank(w[0]);
      DesiredPositionsOfBlanks(w[1..]);
    }
  }

  /** Inserting (or removing) whitespace-only entries anywhere selects the same positions. */
  lemma BlankEntriesIgnored(a: seq<string>, w: seq<string>, b: seq<string>)
    requires forall i :: 0 <= i < |w| ==> AllSpace(w[i])
    ensures DesiredPositions(a + w + b) == DesiredPositions(a + b)
  {
    calc {
      DesiredPositions(a + w + b);
      { DesiredPositionsAppend(a + w, b); }
      DesiredPositions(a + w) + DesiredPositions(b);
      { DesiredPositionsAppend(a, w); DesiredPositionsOfBlanks(w); }
      DesiredPositions(a) + DesiredPositions(b);
      { DesiredPositionsAppend(a, b); }
      DesiredPositions(a + b);
    }
  }

  /** ... and therefore yields the same prompt. */
  lemma SubstituteIgnoresBlankEntries(basePrompt: string, a: seq<string>, w: seq<string>, b: seq<string>)
    requires forall i :: 0 <= i < |w| ==> AllSpace(w[i])
    ensures SubstituteDesiredPositions(basePrompt, a + w + b) == SubstituteDesiredPositions(basePrompt, a + b)
  {
    BlankEntriesIgnored(a, w, b);
  }

  /** With no usable position the placeholder is replaced by itself: the prompt is unchanged. */
  lemma SubstituteWithoutPositions(basePrompt: string, desired: seq<string>)
    requires DesiredPositions(desired) == []
    ensures SubstituteDesiredPositions(basePrompt, desired) == basePrompt
  {
    ReplaceBySelf(basePrompt, Placeholder);
  }

  /** A prompt without the placeholder is returned unchanged, whatever the positions. */
  lemma SubstituteWithoutPlaceholder(basePrompt: string, desired: seq<string>)
    requires !Contains(basePrompt, Placeholder)
    ensures SubstituteDesiredPositions(basePrompt, desired) == basePrompt
  {
    ReplaceAbsent(basePrompt, Placeholder, Rendering(DesiredPositions(desired)));
  }

  /**
   * Left to right and non-overlapping: the first placeholder becomes
   * "(p1, ..., pk)", the text before it is kept verbatim and the rest of the
   * prompt is processed the same way.
   */
  lemma SubstituteAtFirstPlaceholder(basePrompt: string, desired: seq<string>, i: nat)
    requires DesiredPositions(desired) != []
    requires OccursAt(basePrompt, Placeholder, i)
    requires forall j :: 0 <= j < i ==> !OccursAt(basePrompt, Placeholder, j)
    ensures SubstituteDesiredPositions(basePrompt, desired)
         == basePrompt[..i] + "(" + Join(Separator, DesiredPositions(desired)) + ")"
            + SubstituteDesiredPositions(basePrompt[i + |Placeholder|..], desired)
  {
    var q := Rendering(DesiredPositions(desired));
    assert q == "(" + Join(Separator, DesiredPositions(desired)) + ")";
    ReplaceAtFirst(basePrompt, Placeholder, q, i);
  }

  /**
   * A prompt with exactly one placeholder becomes prefix + "(p1, ..., pk)" +
   * suffix, of length |base| - |placeholder| + 2 + (|p1| + ... + |pk|) + 2(k - 1).
   */
  lemma SubstituteSinglePlaceholder(prefix: string, suffix: string, desired: seq<string>)
    requires DesiredPositions(desired) != []
    requires forall j :: OccursAt(prefix + Placeholder + suffix, Placeholder, j) ==> j == |prefix|
    ensures var positions := DesiredPositions(desired);
      var r := SubstituteDesiredPositions(prefix + Placeholder + suffix, desired);
      && r == prefix + "(" + Join(Separator, positions) + ")" + suffix
      && |r| == |prefix + Placeholder + suffix| - |Placeholder| + 2 + SumLengths(positions) + 2 * (|positions| - 1)
  {
    var base := prefix + Placeholder + suffix;
    var positions := DesiredPositions(desired);
    var m := |prefix| + |Placeholder|;
    assert base[|prefix|..m] == Placeholder;
    assert base[m..] == suffix;
    if Contains(suffix, Placeholder) {
      var j :| 0 <= j <= |suffix| && OccursAt(suffix, Placeholder, j);
      OccursAtSuffix(base, Placeholder, m, j);
      assert false;
    }
    SubstituteAtFirstPlaceholder(base, desired, |prefix|);
    SubstituteWithoutPlaceholder(suffix, desired);
    assert base[..|prefix|] == prefix;
    JoinLength(Separator, positions);
  }

  /**
   * The placeholder can survive substitution even with a non-empty position
   * list: a position whose text is the placeholder's inner phrase renders as
   * the placeholder itself.
   */
  lemma PlaceholderCanSurvive()
    ensures SubstituteDesiredPositions(Placeholder, [DefaultPhrase]) == Placeholder
  {
    var p := DefaultPhrase;
    assert Strip(p) == p by {
      assert TrimStart(p) == p;
      assert TrimEnd(p) == p;
    }
    assert DesiredPositions([p]) == [p] by {
      assert [p][1..] == [];
    }
    assert Join(Separator, [p]) == p;
    ReplaceBySelf(Placeholder, Placeholder);
  }
}
