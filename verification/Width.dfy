/** Display-width arithmetic over grapheme clusters.

    A label is the sequence of its grapheme clusters, each with its text and its display
    width.  Concatenating and reversing labels is assumed not to merge clusters, and a
    leading or trailing space is assumed to be a cluster of its own. */
module Width {

  datatype Cluster = Cluster(text: string, width: nat)

  type Label = seq<Cluster>

  const ELLIPSIS := Cluster("…", 1)
  const SPACE := Cluster(" ", 1)

  /** The display width of a label. */
  function Width(s: Label): nat {
    if s == [] then 0 else s[0].width + Width(s[1..])
  }

  /** The longest prefix within the budget: drop clusters from the right until it fits. */
  function FittingPrefix(s: Label, budget: int): Label {
    if s == [] || Width(s) <= budget then s else FittingPrefix(s[..|s| - 1], budget)
  }

  /** The longest suffix within the budget: drop clusters from the left until it fits. */
  function FittingSuffix(s: Label, budget: int): Label {
    if s == [] || Width(s) <= budget then s else FittingSuffix(s[1..], budget)
  }

  function Reversed(s: Label): Label {
    if s == [] then [] else Reversed(s[1..]) + [s[0]]
  }

  function Truncate(value: Label, maxWidth: int): Label {
    if maxWidth <= 0 then []
    else if Width(value) <= maxWidth then value
    else if maxWidth == 1 then [ELLIPSIS]
    else FittingPrefix(value, maxWidth - Width([ELLIPSIS])) + [ELLIPSIS]
  }

  function TruncateMiddle(value: Label, maxWidth: int): Label {
    if maxWidth <= 0 then []
    else if Width(value) <= maxWidth then value
    else if maxWidth == 1 then [ELLIPSIS]
    else
      var budget := maxWidth - Width([ELLIPSIS]);
      FittingPrefix(value, (budget + 1) / 2) + [ELLIPSIS] + FittingSuffix(value, budget / 2)
  }

  predicate Padded(title: Label) {
    |title| > 0 && title[0] == SPACE && title[|title| - 1] == SPACE
  }

  /** The width ceiling of a rendered label; outer padding survives the truncation.
      The slice is always in range: a title wider than one cell that starts and ends with a
      space has at least two clusters. */
  function ApplyMaxWidth(title: Label, maxWidth: int): Label {
    if maxWidth <= 0 || Width(title) <= maxWidth then title
    else if maxWidth >= 3 && Padded(title) then
      assert |title| >= 2 by { SingleSpace(title); }
      [SPACE] + Truncate(title[1..|title| - 1], maxWidth - 2) + [SPACE]
    else Truncate(title, maxWidth)
  }

  // ----- widths of concatenations

  lemma SingleSpace(s: Label)
    requires Padded(s)
    ensures |s| == 1 ==> Width(s) == 1
  {
    if |s| == 1 {
      assert s[1..] == [] && Width(s[1..]) == 0;
      assert Width(s) == s[0].width + Width(s[1..]);
    }
  }

  lemma WidthOne(c: Cluster)
    ensures Width([c]) == c.width
  {
    assert [c][1..] == [];
  }

  lemma {:induction false} WidthConcat(a: Label, b: Label)
    ensures Width(a + b) == Width(a) + Width(b)
  {
    if a == [] {
      assert a + b == b;
    } else {
      WidthConcat(a[1..], b);
      assert (a + b)[1..] == a[1..] + b;
    }
  }

  lemma WidthSplit(s: Label, k: nat)
    requires k <= |s|
    ensures Width(s) == Width(s[..k]) + Width(s[k..])
  {
    WidthConcat(s[..k], s[k..]);
    assert s[..k] + s[k..] == s;
  }

  lemma WidthMonotone(s: Label, j: nat, k: nat)
    requires j <= k <= |s|
    ensures Width(s[..j]) <= Width(s[..k]) && Width(s[k..]) <= Width(s[j..])
  {
    WidthSplit(s[..k], j);
    assert s[..k][..j] == s[..j];
    WidthSplit(s[j..], k - j);
    assert s[j..][k - j..] == s[k..];
  }

  lemma WidthSnoc(s: Label, k: nat)
    requires k < |s|
    ensures Width(s[..k + 1]) == Width(s[..k]) + s[k].width
  {
    WidthConcat(s[..k], [s[k]]);
    assert s[..k + 1] == s[..k] + [s[k]];
  }

  lemma {:induction false} ReversedConcat(a: Label, b: Label)
    ensures Reversed(a + b) == Reversed(b) + Reversed(a)
  {
    if a == [] {
      assert a + b == b;
    } else {
      ReversedConcat(a[1..], b);
      assert (a + b)[1..] == a[1..] + b;
    }
  }

  lemma {:induction false} ReversedTwice(s: Label)
    ensures Reversed(Reversed(s)) == s
  {
    if s != [] {
      ReversedTwice(s[1..]);
      ReversedConcat(Reversed(s[1..]), [s[0]]);
    }
  }

  // ----- what the two cuts are

  /** `FittingPrefix` cuts at the last position at which the prefix fits. */
  lemma {:induction false} FittingPrefixIsLongest(s: Label, budget: int)
    ensures var p := FittingPrefix(s, budget);
            && p <= s
            && (p == [] || Width(p) <= budget)
            && (forall k | |p| < k <= |s| :: Width(s[..k]) > budget)
  {
    if s != [] && Width(s) > budget {
      var s' := s[..|s| - 1];
      FittingPrefixIsLongest(s', budget);
      var p := FittingPrefix(s, budget);
      forall k | |p| < k <= |s| ensures Width(s[..k]) > budget {
        if k < |s| {
          assert s[..k] == s'[..k];
        } else {
          assert s[..k] == s;
        }
      }
    } else {
      assert s[..|s|] == s;
    }
  }

  lemma {:induction false} FittingSuffixIsLongest(s: Label, budget: int)
    ensures var q := FittingSuffix(s, budget);
            && |q| <= |s| && q == s[|s| - |q|..]
            && (q == [] || Width(q) <= budget)
            && (forall k | 0 <= k < |s| - |q| :: Width(s[k..]) > budget)
  {
    if s != [] && Width(s) > budget {
      var s' := s[1..];
      FittingSuffixIsLongest(s', budget);
      var q := FittingSuffix(s, budget);
      forall k | 0 <= k < |s| - |q| ensures Width(s[k..]) > budget {
        if k == 0 {
          assert s[0..] == s;
        } else {
          assert s[k..] == s'[k - 1..];
        }
      }
    }
  }

  /** Any position with the defining property of the prefix cut is the prefix cut. */
  lemma PrefixCutUnique(s: Label, budget: int, i: nat)
    requires i <= |s|
    requires i == 0 || Width(s[..i]) <= budget
    requires i == |s| || Width(s[..i + 1]) > budget
    ensures FittingPrefix(s, budget) == s[..i]
  {
    FittingPrefixIsLongest(s, budget);
    var p := FittingPrefix(s, budget);
    assert p == s[..|p|];
    if i < |p| {
      WidthMonotone(s, i + 1, |p|);
    }
  }

  lemma {:induction false} SuffixCutUnique(s: Label, budget: int, j: nat)
    requires j <= |s|
    requires j == |s| || Width(s[j..]) <= budget
    requires j == 0 || Width(s[j - 1..]) > budget
    ensures FittingSuffix(s, budget) == s[j..]
  {
    assert s[0..] == s;
    if j > 0 {
      WidthMonotone(s, 0, j - 1);
      assert s[1..][j - 1..] == s[j..];
      assert j > 1 ==> s[1..][j - 2..] == s[j - 1..];
      SuffixCutUnique(s[1..], budget, j - 1);
    }
  }

  // ----- the accumulator loops

  method DisplayWidth(value: Label) returns (width: nat)
    ensures width == Width(value)
  {
    width := 0;
    for i := 0 to |value|
      invariant width == Width(value[..i])
    {
      WidthSnoc(value, i);
      width := width + value[i].width;
    }
    assert value[..|value|] == value;
  }

  method TakePrefix(value: Label, maxWidth: int) returns (result: Label)
    ensures result == FittingPrefix(value, maxWidth)
  {
    result := [];
    var width := 0;
    var i := 0;
    while i < |value|
      invariant 0 <= i <= |value|
      invariant result == value[..i] && width == Width(result)
      invariant i == 0 || width <= maxWidth
    {
      WidthSnoc(value, i);
      if width + value[i].width > maxWidth {
        break;
      }
      result := result + [value[i]];
      width := width + value[i].width;
      i := i + 1;
    }
    PrefixCutUnique(value, maxWidth, i);
  }

  method ReverseGraphemes(value: Label) returns (result: Label)
    ensures result == Reversed(value)
  {
    result := [];
    var i := |value|;
    while i > 0
      invariant 0 <= i <= |value|
      invariant result == Reversed(value[i..])
    {
      i := i - 1;
      assert value[i..][1..] == value[i + 1..];
      result := result + [value[i]];
    }
    assert value[0..] == value;
  }

  /** Collects clusters from the right, so reversed, and then reverses the collected label. */
  method TakeSuffix(value: Label, maxWidth: int) returns (result: Label)
    ensures result == FittingSuffix(value, maxWidth)
  {
    var collected: Label := [];
    var width := 0;
    var i := |value|;
    while i > 0
      invariant 0 <= i <= |value|
      invariant collected == Reversed(value[i..]) && width == Width(value[i..])
      invariant i == |value| || width <= maxWidth
    {
      assert value[i - 1..][1..] == value[i..];
      if width + value[i - 1].width > maxWidth {
        break;
      }
      collected := collected + [value[i - 1]];
      width := width + value[i - 1].width;
      i := i - 1;
    }
    SuffixCutUnique(value, maxWidth, i);
    ReversedTwice(value[i..]);
    result := ReverseGraphemes(collected);
  }

  // ----- main results

  /** Nothing is left of any label by a limit that is not positive, and a label that fits is
      kept, wherever else it would have been cut. */
  lemma TruncationKeepsWhatFits(value: Label, maxWidth: int)
    ensures maxWidth <= 0 ==> Truncate(value, maxWidth) == [] && TruncateMiddle(value, maxWidth) == []
    ensures 0 < maxWidth && Width(value) <= maxWidth ==>
              Truncate(value, maxWidth) == value && TruncateMiddle(value, maxWidth) == value
  {
  }

  /** A truncated label fits, one that fits is kept, and an over-wide one is its longest
      fitting prefix before an ellipsis: one more cluster would not have fitted.  A limit of
      one cell leaves the ellipsis alone. */
  lemma TruncateFits(value: Label, maxWidth: int)
    requires maxWidth > 0
    ensures Width(Truncate(value, maxWidth)) <= maxWidth
    ensures Width(value) <= maxWidth ==> Truncate(value, maxWidth) == value
    ensures Width(value) > maxWidth ==> exists i :: EndCut(value, maxWidth, i)
  {
    if Width(value) > maxWidth {
      FittingPrefixIsLongest(value, maxWidth - 1);
      var p := if maxWidth == 1 then [] else FittingPrefix(value, maxWidth - 1);
      WidthConcat(p, [ELLIPSIS]);
      assert value[..|p|] == p && value[..|value|] == value;
      assert EndCut(value, maxWidth, |p|);
    }
  }

  /** `i` is where the truncated label stops copying the original one. */
  ghost predicate EndCut(value: Label, maxWidth: int, i: int) {
    && 0 <= i < |value|
    && Truncate(value, maxWidth) == value[..i] + [ELLIPSIS]
    && (if maxWidth == 1 then i == 0 else Width(value[..i + 1]) + 1 > maxWidth)
  }

  /** Whether every cluster of the label is at most `w` cells wide. */
  predicate ClustersWithin(value: Label, w: nat) {
    forall k | 0 <= k < |value| :: value[k].width <= w
  }

  /** The left part ends at `i` and the right part starts at `j`; they do not meet, and
      neither can take another cluster within its budget. */
  ghost predicate Cuts(value: Label, left: int, right: int, i: int, j: int) {
    && 0 <= i < j <= |value|
    && Width(value[..i]) <= left < Width(value[..i + 1])
    && Width(value[j..]) <= right < Width(value[j - 1..])
  }

  /** What middle truncation keeps: on the left as much as half of the limit allows, on the
      right as much as half of the rest allows. */
  ghost predicate MiddleCut(value: Label, maxWidth: int, i: int, j: int) {
    && 0 <= i < j <= |value|
    && TruncateMiddle(value, maxWidth) == value[..i] + [ELLIPSIS] + value[j..]
    && (if maxWidth == 1 then i == 0 && j == |value| else Cuts(value, maxWidth / 2, (maxWidth - 1) / 2, i, j))
  }

  lemma AroundEllipsis(p: Label, q: Label)
    ensures Width([ELLIPSIS]) == 1 && Width(p + [ELLIPSIS] + q) == Width(p) + 1 + Width(q)
  {
    WidthOne(ELLIPSIS);
    WidthConcat(p, [ELLIPSIS]);
    WidthConcat(p + [ELLIPSIS], q);
  }

  /** An over-wide label is cut to an original prefix, the ellipsis and an original suffix.
      The two parts never meet, so at least one cluster is dropped; the result fits; and with
      clusters at most `w` cells wide it wastes at most 2(w - 1) cells. */
  lemma TruncateMiddleFits(value: Label, maxWidth: int, w: nat)
    requires 0 < maxWidth < Width(value)
    requires ClustersWithin(value, w)
    ensures exists i, j :: MiddleCut(value, maxWidth, i, j)
    ensures maxWidth - 2 * (w - 1) <= Width(TruncateMiddle(value, maxWidth)) <= maxWidth
  {
    if maxWidth == 1 {
      SomeClusterIsWide(value, w);
      WidthOne(ELLIPSIS);
      assert MiddleCut(value, maxWidth, 0, |value|);
    } else {
      MiddleParts(value, maxWidth);
      TwoCutsFit(value, maxWidth / 2, (maxWidth - 1) / 2, w);
      var p, q := FittingPrefix(value, maxWidth / 2), FittingSuffix(value, (maxWidth - 1) / 2);
      assert MiddleCut(value, maxWidth, |p|, |value| - |q|);
    }
  }

  lemma TwoCutsFit(value: Label, left: int, right: int, w: nat)
    requires 0 <= left && 0 <= right && left + right < Width(value)
    requires ClustersWithin(value, w)
    ensures var p, q := FittingPrefix(value, left), FittingSuffix(value, right);
            && Cuts(value, left, right, |p|, |value| - |q|)
            && p + [ELLIPSIS] + q == value[..|p|] + [ELLIPSIS] + value[|value| - |q|..]
            && left + right + 1 - 2 * (w - 1) <= Width(p + [ELLIPSIS] + q) <= left + right + 1
  {
    CutsAreMaximal(value, left, right, w);
    AroundEllipsis(FittingPrefix(value, left), FittingSuffix(value, right));
  }

  /** The two budgets of middle truncation. */
  lemma MiddleParts(value: Label, maxWidth: int)
    requires 2 <= maxWidth < Width(value)
    ensures TruncateMiddle(value, maxWidth)
         == FittingPrefix(value, maxWidth / 2) + [ELLIPSIS] + FittingSuffix(value, (maxWidth - 1) / 2)
  {
    WidthOne(ELLIPSIS);
    assert (maxWidth - 1 + 1) / 2 == maxWidth / 2;
  }

  /** The two cuts of an over-wide label, and how little of each budget stays unused. */
  lemma CutsAreMaximal(value: Label, left: int, right: int, w: nat)
    requires 0 <= left && 0 <= right && left + right < Width(value)
    requires ClustersWithin(value, w)
    ensures var p, q := FittingPrefix(value, left), FittingSuffix(value, right);
            && |p| <= |value| && p == value[..|p|] && |q| <= |value| && q == value[|value| - |q|..]
            && Cuts(value, left, right, |p|, |value| - |q|)
            && left - w < Width(p) && right - w < Width(q)
  {
    FittingPrefixIsLongest(value, left);
    FittingSuffixIsLongest(value, right);
    var p, q := FittingPrefix(value, left), FittingSuffix(value, right);
    var i, j := |p|, |value| - |q|;
    assert p == value[..i];
    assert value[..|value|] == value && value[0..] == value;
    WidthSplit(value, j);
    if j <= i {
      WidthMonotone(value, j, i);
    } else {
      WidthSnoc(value, i);
      assert value[j - 1..][1..] == value[j..];
      assert Width(value[..i + 1]) > left && Width(value[j - 1..]) > right;
    }
  }

  lemma {:induction false} SomeClusterIsWide(value: Label, w: nat)
    requires Width(value) > 0 && ClustersWithin(value, w)
    ensures w >= 1
  {
    if value[0].width == 0 {
      SomeClusterIsWide(value[1..], w);
    }
  }

  /** Where the interior of an over-wide padded title is cut: after its first `i` clusters,
      and one more would not have left room for the ellipsis and the outer space. */
  ghost predicate PaddedCut(title: Label, maxWidth: int, i: int) {
    && 1 <= i < |title| - 1
    && ApplyMaxWidth(title, maxWidth) == title[..i] + [ELLIPSIS, SPACE]
    && (if maxWidth == 3 then i == 1 else Width(title[..i + 1]) + 2 > maxWidth)
  }

  lemma PaddedTitleIsCut(title: Label, maxWidth: int)
    requires 3 <= maxWidth < Width(title) && Padded(title)
    ensures Width(ApplyMaxWidth(title, maxWidth)) <= maxWidth
    ensures exists i :: PaddedCut(title, maxWidth, i)
  {
    SingleSpace(title);
    WidthOne(SPACE);
    var interior := title[1..|title| - 1];
    assert title == [SPACE] + interior + [SPACE];
    WidthConcat([SPACE], interior);
    WidthConcat([SPACE] + interior, [SPACE]);
    TruncateFits(interior, maxWidth - 2);
    var k :| EndCut(interior, maxWidth - 2, k);
    WidthConcat([SPACE], interior[..k + 1]);
    assert title[..k + 2] == [SPACE] + interior[..k + 1];
    assert title[..k + 1] == [SPACE] + interior[..k];
    var cut := Truncate(interior, maxWidth - 2);
    WidthConcat([SPACE], cut);
    WidthConcat([SPACE] + cut, [SPACE]);
    assert ApplyMaxWidth(title, maxWidth) == title[..k + 1] + [ELLIPSIS, SPACE];
    assert PaddedCut(title, maxWidth, k + 1);
  }

  /** A positive limit is never exceeded, a label that fits is returned unchanged, and from a
      limit of three cells both outer spaces of a padded title survive.  Applying the ceiling
      twice is applying it once, and it never leaves nothing of something. */
  lemma ApplyMaxWidthFits(title: Label, maxWidth: int)
    ensures maxWidth > 0 ==> Width(ApplyMaxWidth(title, maxWidth)) <= maxWidth
    ensures maxWidth <= 0 || Width(title) <= maxWidth ==> ApplyMaxWidth(title, maxWidth) == title
    ensures maxWidth >= 3 && Padded(title) ==> Padded(ApplyMaxWidth(title, maxWidth))
    ensures ApplyMaxWidth(ApplyMaxWidth(title, maxWidth), maxWidth) == ApplyMaxWidth(title, maxWidth)
    ensures ApplyMaxWidth(title, maxWidth) == [] <==> title == []
  {
    if maxWidth > 0 && Width(title) > maxWidth {
      if maxWidth >= 3 && Padded(title) {
        PaddedTitleIsCut(title, maxWidth);
      } else {
        TruncateFits(title, maxWidth);
      }
    }
  }

  /** The ceiling adds no cluster but the ellipsis and a space that was there. */
  lemma CeilingAddsLittle(title: Label, maxWidth: int)
    ensures forall c | c in ApplyMaxWidth(title, maxWidth) :: c in title || c == ELLIPSIS || c == SPACE
  {
    if maxWidth > 0 && Width(title) > maxWidth {
      if maxWidth >= 3 && Padded(title) {
        PaddedTitleIsCut(title, maxWidth);
      } else {
        TruncateFits(title, maxWidth);
      }
    }
  }
}
