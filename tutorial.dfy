/**
 * The tutorial content: its steps, the fixed welcome text, the names of
 * the three steps, and how one step is marked completed.
 *
 * Ruby's `String#sub!` with a string pattern replaces the FIRST literal
 * occurrence of the pattern and leaves the text alone when there is none;
 * `Sub` models it, with `FindFrom` as the search and `IsFirst` as the
 * declarative meaning of "first occurrence".
 */
module Tutorial {
  import opened Wrappers

  /** One tutorial attachment, `{text, color}`. */
  datatype Step = Step(text: string, color: string)

  const WelcomeText: string :=
    "Welcome to Slack! We're so glad you're here.\nGet started by completing the steps below."

  /** The icon of a step still to do, and of a completed one. */
  const PendingMarker: string := ":white_large_square:"
  const DoneMarker: string := ":white_check_mark:"

  /** The border colour of a completed step. */
  const DoneColor: string := "#439FE0"

  /** Number of steps in the tutorial template. */
  const StepCount: nat := 3

  /** The symbolic step names of `SlackTutorial.items`. */
  datatype StepName = Reaction | Pin | Share

  /** Position of a named step in the template. */
  function Index(name: StepName): (i: nat)
    ensures i < StepCount
    ensures name == Reaction <==> i == 0
    ensures name == Pin <==> i == 1
    ensures name == Share <==> i == 2
  {
    match name
    case Reaction => 0
    case Pin => 1
    case Share => 2
  }

  // ---------------------------------------------------------------------
  // Literal substring search and replacement
  // ---------------------------------------------------------------------

  /** `pat` occurs in `s` starting at position `k`. */
  predicate OccursAt(s: string, pat: string, k: int)
  {
    0 <= k && k + |pat| <= |s| && s[k..k + |pat|] == pat
  }

  /** `k` is the leftmost occurrence of `pat` in `s`. */
  predicate IsFirst(s: string, pat: string, k: int)
  {
    OccursAt(s, pat, k) && forall j :: 0 <= j < k ==> !OccursAt(s, pat, j)
  }

  ghost predicate Contains(s: string, pat: string)
  {
    exists k :: OccursAt(s, pat, k)
  }

  /** `pat` occurs at most once in `s`. */
  ghost predicate AtMostOnce(s: string, pat: string)
  {
    forall i, j :: OccursAt(s, pat, i) && OccursAt(s, pat, j) ==> i == j
  }

  /** The leftmost occurrence of `pat` in `s` at or after position `k`. */
  function FindFrom(s: string, pat: string, k: nat): (r: Option<nat>)
    decreases |s| - k
    ensures r.Some? ==> k <= r.value && OccursAt(s, pat, r.value)
    ensures r.Some? ==> forall j :: k <= j < r.value ==> !OccursAt(s, pat, j)
    ensures r.None? ==> forall j :: k <= j ==> !OccursAt(s, pat, j)
  {
    if |s| < k + |pat| then None
    else if s[k..k + |pat|] == pat then Some(k)
    else FindFrom(s, pat, k + 1)
  }

  /** Ruby's `s.sub(pat, rep)` for a literal pattern. */
  function Sub(s: string, pat: string, rep: string): (r: string)
    ensures !Contains(s, pat) ==> r == s
    ensures forall k :: IsFirst(s, pat, k) ==> r == s[..k] + rep + s[k + |pat|..]
  {
    match FindFrom(s, pat, 0)
    case None => s
    case Some(k) =>
      FirstIsUnique(s, pat, k);
      s[..k] + rep + s[k + |pat|..]
  }

  lemma FirstIsUnique(s: string, pat: string, k: int)
    requires IsFirst(s, pat, k)
    ensures forall j :: IsFirst(s, pat, j) ==> j == k
  {
  }

  /** `SlackTutorial.update_item` on one step: tick the icon, colour the border. */
  function Complete(step: Step): (r: Step)
    ensures r.color == DoneColor
    ensures !Contains(step.text, PendingMarker) ==> r.text == step.text
    ensures forall k :: IsFirst(step.text, PendingMarker, k) ==>
      r.text == step.text[..k] + DoneMarker + step.text[k + |PendingMarker|..]
  {
    Step(Sub(step.text, PendingMarker, DoneMarker), DoneColor)
  }

  // ---------------------------------------------------------------------
  // Completing a step that shows the pending icon once removes the icon
  // ---------------------------------------------------------------------

  lemma PendingColons(m: int)
    requires 0 <= m < |PendingMarker| && PendingMarker[m] == ':'
    ensures m == 0 || m == |PendingMarker| - 1
  {
  }

  lemma DoneColons(m: int)
    requires 0 <= m < |DoneMarker| && DoneMarker[m] == ':'
    ensures m == 0 || m == |DoneMarker| - 1
  {
  }

  lemma OccursAtElements(s: string, pat: string, k: int)
    requires 0 <= k && k + |pat| <= |s|
    ensures OccursAt(s, pat, k) <==> forall m :: 0 <= m < |pat| ==> s[k + m] == pat[m]
  {
  }

  /** The text `Sub` builds when the pending icon it replaces starts at `i`. */
  function Splice(s: string, i: nat): (r: string)
    requires i + |PendingMarker| <= |s|
    ensures |r| == |s| - 2
  {
    s[..i] + DoneMarker + s[i + |PendingMarker|..]
  }

  lemma SplicedAt(s: string, i: nat)
    requires i + |PendingMarker| <= |s|
    ensures forall x :: 0 <= x < i ==> Splice(s, i)[x] == s[x]
    ensures forall x :: i <= x < i + |DoneMarker| ==> Splice(s, i)[x] == DoneMarker[x - i]
    ensures forall x :: i + |DoneMarker| <= x < |s| - 2 ==> Splice(s, i)[x] == s[x + 2]
  {
  }

  /** An occurrence wholly left of the splice was already in `s`. */
  lemma OccursLeft(s: string, i: nat, k: int)
    requires i + |PendingMarker| <= |s|
    requires OccursAt(Splice(s, i), PendingMarker, k) && k + |PendingMarker| <= i
    ensures OccursAt(s, PendingMarker, k)
  {
  }

  /** An occurrence wholly right of the splice was in `s`, two places later. */
  lemma OccursRight(s: string, i: nat, k: int)
    requires i + |PendingMarker| <= |s|
    requires OccursAt(Splice(s, i), PendingMarker, k) && i + |DoneMarker| <= k
    ensures OccursAt(s, PendingMarker, k + 2)
  {
  }

  /** No occurrence starts exactly at the inserted completed icon. */
  lemma NotAtSplice(s: string, i: nat)
    requires i + |PendingMarker| <= |s|
    ensures !OccursAt(Splice(s, i), PendingMarker, i)
  {
    if i + |PendingMarker| <= |Splice(s, i)| {
      SplicedAt(s, i);
      assert Splice(s, i)[i + 7] == DoneMarker[7];
      assert DoneMarker[7] != PendingMarker[7];
      OccursAtElements(Splice(s, i), PendingMarker, i);
    }
  }

  /** An occurrence ending on the first colon of the inserted icon was
      already in `s`, ending on the first colon of the replaced one. */
  lemma OccursEndingAtSplice(s: string, i: nat)
    requires OccursAt(s, PendingMarker, i) && 19 <= i
    requires OccursAt(Splice(s, i), PendingMarker, i - 19)
    ensures OccursAt(s, PendingMarker, i - 19)
  {
    SplicedAt(s, i);
    OccursAtElements(Splice(s, i), PendingMarker, i - 19);
    OccursAtElements(s, PendingMarker, i);
    assert s[i] == PendingMarker[19] by {
      assert s[i] == PendingMarker[0];
    }
    OccursAtElements(s, PendingMarker, i - 19);
  }

  /** An occurrence starting on the last colon of the inserted icon means
      a second, overlapping occurrence in `s`. */
  lemma OccursStartingAtSpliceEnd(s: string, i: nat)
    requires OccursAt(s, PendingMarker, i)
    requires i + 17 + |PendingMarker| <= |s| - 2
    requires OccursAt(Splice(s, i), PendingMarker, i + 17)
    ensures OccursAt(s, PendingMarker, i + 19)
  {
    var r := Splice(s, i);
    SplicedAt(s, i);
    OccursAtElements(r, PendingMarker, i + 17);
    OccursAtElements(s, PendingMarker, i);
    forall m | 0 <= m < |PendingMarker|
      ensures s[i + 19 + m] == PendingMarker[m]
    {
      if m == 0 {
        assert s[i + 19] == PendingMarker[19];
      } else {
        assert s[i + 19 + m] == r[i + 17 + m];
      }
    }
    OccursAtElements(s, PendingMarker, i + 19);
  }

  /** Replacing the first of at most one pending icon leaves no occurrence
      at any position `k`. */
  lemma NoneAfterSplice(s: string, i: nat, k: int)
    requires IsFirst(s, PendingMarker, i) && AtMostOnce(s, PendingMarker)
    ensures !OccursAt(Splice(s, i), PendingMarker, k)
  {
    if OccursAt(Splice(s, i), PendingMarker, k) {
      if k + |PendingMarker| <= i {
        OccursLeft(s, i, k);
      } else if i + |DoneMarker| <= k {
        OccursRight(s, i, k);
      } else if k <= i {
        SplicedAt(s, i);
        OccursAtElements(Splice(s, i), PendingMarker, k);
        PendingColons(i - k);
        if k == i {
          NotAtSplice(s, i);
        } else {
          OccursEndingAtSplice(s, i);
        }
      } else {
        SplicedAt(s, i);
        OccursAtElements(Splice(s, i), PendingMarker, k);
        assert Splice(s, i)[k] == PendingMarker[0];
        assert Splice(s, i)[k] == DoneMarker[k - i];
        DoneColons(k - i);
        OccursStartingAtSpliceEnd(s, i);
      }
    }
  }

  /** After replacing the only pending icon, none is left. */
  lemma SubRemovesSoleMarker(s: string)
    requires AtMostOnce(s, PendingMarker)
    ensures !Contains(Sub(s, PendingMarker, DoneMarker), PendingMarker)
  {
    match FindFrom(s, PendingMarker, 0)
    case None =>
    case Some(i) =>
      assert IsFirst(s, PendingMarker, i);
      assert Sub(s, PendingMarker, DoneMarker) == Splice(s, i);
      forall k ensures !OccursAt(Splice(s, i), PendingMarker, k) {
        NoneAfterSplice(s, i, k);
      }
  }

  /** Completing a step twice is completing it once, when its text shows
      the pending icon at most once. */
  lemma CompleteIdempotent(step: Step)
    requires AtMostOnce(step.text, PendingMarker)
    ensures Complete(Complete(step)) == Complete(step)
  {
    SubRemovesSoleMarker(step.text);
  }
}
