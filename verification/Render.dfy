/** From the output of a template to a tab label.

    Template execution is a parameter; so is the segmentation of a text into grapheme clusters,
    of which only this is assumed: the clusters, none of them empty, make up the text. */
module Render {
  import opened Common
  import opened Width

  /** What a template prints for a missing map entry. */
  const MISSING := "<no value>"

  /** The control characters of Unicode. */
  predicate IsControl(c: char) { c < ' ' || '\U{7f}' <= c <= '\U{9f}' }

  predicate ControlOnly(s: string) {
    forall c | c in s :: IsControl(c)
  }

  /** Removes every placeholder, from left to right; what then meets is not looked at again. */
  function StripMissing(s: string): string {
    if s == "" then ""
    else if MISSING <= s then StripMissing(s[|MISSING|..])
    else [s[0]] + StripMissing(s[1..])
  }

  /** Replaces every control character by a space. */
  function Sanitize(s: string): string {
    if s == "" then "" else [if IsControl(s[0]) then ' ' else s[0]] + Sanitize(s[1..])
  }

  function Text(s: Label): string {
    if s == [] then "" else s[0].text + Text(s[1..])
  }

  type Segmentation = string -> Label

  ghost predicate Segments(segment: Segmentation) {
    forall s :: Text(segment(s)) == s && NoneEmpty(segment(s))
  }

  predicate NoneEmpty(s: Label) {
    forall c | c in s :: c.text != ""
  }

  /** The label for a template's output, or an error when there is nothing to display. */
  function Execute(output: Option<string>, segment: Segmentation, maxWidth: int): Option<Label> {
    if output == None || output.value == "" || ControlOnly(output.value) then None
    else Some(ApplyMaxWidth(segment(Sanitize(StripMissing(output.value))), maxWidth))
  }

  // ----- when a label is empty

  function Copies(n: nat): string {
    if n == 0 then "" else MISSING + Copies(n - 1)
  }

  /** Stripping leaves nothing exactly of copies of the placeholder. */
  lemma {:induction false} StripsToNothingIff(s: string)
    ensures StripMissing(s) == "" <==> exists n: nat :: s == Copies(n)
  {
    if s == "" {
      assert s == Copies(0);
    } else if MISSING <= s {
      var rest := s[|MISSING|..];
      StripsToNothingIff(rest);
      assert s == MISSING + rest;
      if StripMissing(s) == "" {
        var n: nat :| rest == Copies(n);
        assert s == Copies(n + 1);
      }
      if n: nat :| s == Copies(n) {
        assert n > 0;
        assert rest == Copies(n - 1);
      }
    } else {
      forall n: nat ensures s != Copies(n) {
        assert n > 0 ==> MISSING <= Copies(n);
      }
    }
  }

  /** Exactly the control characters, U+0000 to U+001F and U+007F to U+009F, become spaces. */
  lemma SanitizedAt(s: string)
    ensures |Sanitize(s)| == |s|
    ensures forall i | 0 <= i < |s| ::
              Sanitize(s)[i] == if s[i] as int < 0x20 || 0x7f <= s[i] as int <= 0x9f then ' ' else s[i]
    ensures forall c | c in Sanitize(s) :: !IsControl(c)
  {
  }

  predicate Occurs(s: string, k: nat) {
    k + |MISSING| <= |s| && s[k..k + |MISSING|] == MISSING
  }

  lemma OccursFirst(s: string)
    ensures MISSING <= s <==> Occurs(s, 0)
  {
    if |MISSING| <= |s| {
      assert s[0..|MISSING|] == s[..|MISSING|];
    }
  }

  /** A text without the placeholder is kept, ... */
  lemma {:induction false} StripKeeps(s: string)
    requires forall k: nat :: !Occurs(s, k)
    ensures StripMissing(s) == s
  {
    if s != "" {
      OccursFirst(s);
      forall k: nat ensures !Occurs(s[1..], k) {
        if k + |MISSING| <= |s| - 1 {
          assert s[1..][k..k + |MISSING|] == s[k + 1..k + 1 + |MISSING|];
          assert !Occurs(s, k + 1);
        }
      }
      StripKeeps(s[1..]);
    }
  }

  /** ... and from any other exactly the placeholders are taken: the text before the first one
      is kept, and what follows it is stripped in turn. */
  lemma {:induction false} StripTakesFirst(a: string, b: string)
    requires forall k: nat | k < |a| :: !Occurs(a + MISSING + b, k)
    ensures StripMissing(a + MISSING + b) == a + StripMissing(b)
  {
    var s := a + MISSING + b;
    if a == "" {
      assert s == MISSING + b && s[|MISSING|..] == b;
    } else {
      OccursFirst(s);
      var rest := a[1..] + MISSING + b;
      assert s[1..] == rest;
      forall k: nat | k < |a| - 1 ensures !Occurs(rest, k) {
        if k + |MISSING| <= |rest| {
          assert rest[k..k + |MISSING|] == s[k + 1..k + 1 + |MISSING|];
          assert !Occurs(s, k + 1);
        }
      }
      StripTakesFirst(a[1..], b);
      assert s[0] == a[0];
    }
  }

  /** When there is something to display: the template printed something, and not only control
      characters.  The label is then what was printed, stripped, sanitized and cut. */
  lemma AcceptedIff(output: Option<string>, segment: Segmentation, maxWidth: int)
    ensures Execute(output, segment, maxWidth).Some? <==>
            output.Some? && exists k :: 0 <= k < |output.value| && !IsControl(output.value[k])
    ensures Segments(segment) && Execute(output, segment, maxWidth).Some?
            && (maxWidth <= 0 || Width.Width(segment(Sanitize(StripMissing(output.value)))) <= maxWidth) ==>
              Text(Execute(output, segment, maxWidth).value) == Sanitize(StripMissing(output.value))
  {
    if output.Some? && !ControlOnly(output.value) {
      var c :| c in output.value && !IsControl(c);
      var k :| 0 <= k < |output.value| && output.value[k] == c;
    }
  }

  lemma EmptyText(s: Label)
    requires NoneEmpty(s)
    ensures Text(s) == "" <==> s == []
  {
    if s != [] {
      assert s[0] in s;
    }
  }

  /** An accepted output gives an empty label exactly when it is one or more copies of the
      placeholder and nothing else, whatever the width ceiling. */
  lemma EmptyLabelIff(output: string, segment: Segmentation, maxWidth: int)
    requires Segments(segment) && Execute(Some(output), segment, maxWidth).Some?
    ensures Text(Execute(Some(output), segment, maxWidth).value) == "" <==>
            exists n: nat :: n > 0 && output == Copies(n)
  {
    var shown := Sanitize(StripMissing(output));
    StripsToNothingIff(output);
    SanitizedAt(StripMissing(output));
    EmptyText(segment(shown));
    ApplyMaxWidthFits(segment(shown), maxWidth);
    CeilingAddsLittle(segment(shown), maxWidth);
    EmptyText(ApplyMaxWidth(segment(shown), maxWidth));
    if n: nat :| output == Copies(n) {
      assert n > 0;
    }
  }

  /** So the placeholder alone is accepted, and its label is empty. */
  lemma PlaceholderIsAccepted(segment: Segmentation, maxWidth: int)
    requires Segments(segment)
    ensures Execute(Some(MISSING), segment, maxWidth).Some?
    ensures Text(Execute(Some(MISSING), segment, maxWidth).value) == ""
  {
    assert MISSING[0] in MISSING && !IsControl(MISSING[0]);
    assert MISSING == Copies(1);
    EmptyLabelIff(MISSING, segment, maxWidth);
  }

  // ----- what a label is made of

  lemma ClusterInText(s: Label, c: char)
    ensures c in Text(s) <==> exists k :: 0 <= k < |s| && c in s[k].text
  {
    if s != [] {
      ClusterInText(s[1..], c);
      assert forall k :: 1 <= k < |s| ==> s[k] == s[1..][k - 1];
      if k :| 0 <= k < |s[1..]| && c in s[1..][k].text {
        assert c in s[k + 1].text;
      }
    }
  }

  /** A label never carries a control character, and a positive ceiling bounds its width. */
  lemma LabelIsDisplayable(output: Option<string>, segment: Segmentation, maxWidth: int)
    requires Segments(segment) && Execute(output, segment, maxWidth).Some?
    ensures var made := Execute(output, segment, maxWidth).value;
            && (forall c | c in Text(made) :: !IsControl(c))
            && (maxWidth > 0 ==> Width.Width(made) <= maxWidth)
  {
    var shown := Sanitize(StripMissing(output.value));
    var full, made := segment(shown), Execute(output, segment, maxWidth).value;
    ApplyMaxWidthFits(full, maxWidth);
    CeilingAddsLittle(full, maxWidth);
    SanitizedAt(StripMissing(output.value));
    forall c | c in Text(made) ensures !IsControl(c) {
      ClusterInText(made, c);
      var k :| 0 <= k < |made| && c in made[k].text;
      if made[k] in full {
        ClusterInText(full, c);
      }
    }
  }
}
