/**
 * The segment prompt strategy of the transcription pipeline: the shape of the
 * per-segment inference result that a strategy is notified with, the
 * interface a strategy offers, and the shared helper that merges two optional
 * prompts.
 */
module PromptStrategy {
  import opened Wrappers

  /** One sub-segment of an inference result: its text. Timestamps and the
      word-level entries are not part of this model. */
  datatype SubSegment = SubSegment(text: string)

  /** The record handed to `on_segment_finished`: the overall text, the
      ordered sub-segments (possibly none) and the detected language. */
  datatype SegmentResult = SegmentResult(text: string, segments: seq<SubSegment>, language: string)

  /**
   * The strategy interface, with its state `S` passed explicitly.
   * `segmentPrompt(s, index, whisperPrompt, language)` is the prompt for the
   * segment about to be processed; it yields no new state.
   * `segmentFinished(s, index, whisperPrompt, language, result)` is the
   * notification that the segment is done; it yields the next state.
   */
  datatype Strategy<!S> = Strategy(
    segmentPrompt: (S, nat, Option<string>, Option<string>) -> Option<string>,
    segmentFinished: (S, nat, Option<string>, Option<string>, SegmentResult) -> S)

  /** What a subclass inherits when it overrides neither operation: the base
      class's placeholder bodies give no prompt and leave the state as it was. */
  function Inherited<S>(): Strategy<S>
  {
    Strategy((s: S, i: nat, w: Option<string>, l: Option<string>) => None,
             (s: S, i: nat, w: Option<string>, l: Option<string>, res: SegmentResult) => s)
  }

  /**
   * Merges two optional prompts: an absent first prompt yields the second,
   * an absent second prompt yields the first, and two present prompts are
   * joined with exactly one space between them.
   */
  function ConcatPrompt(prompt1: Option<string>, prompt2: Option<string>): (r: Option<string>)
    ensures r.None? <==> prompt1.None? && prompt2.None?
    ensures prompt1.Some? && prompt2.Some? ==>
      var p, q := prompt1.value, prompt2.value;
      |r.value| == |p| + 1 + |q| &&
      r.value[..|p|] == p && r.value[|p|] == ' ' && r.value[|p| + 1..] == q
  {
    if prompt1.None? then prompt2
    else if prompt2.None? then prompt1
    else Some(prompt1.value + " " + prompt2.value)
  }

  /** The inherited operations give no prompt for any segment and leave any state unchanged. */
  lemma InheritedIsInert<S>(s: S, i: nat, w: Option<string>, l: Option<string>, res: SegmentResult)
    ensures Inherited<S>().segmentPrompt(s, i, w, l) == None
    ensures Inherited<S>().segmentFinished(s, i, w, l, res) == s
  {
  }

  // ---------------------------------------------------------------------
  // An independent reference definition: the present prompts of a list,
  // in order, separated by single spaces; absent when no prompt is present.

  /** The values of the present prompts, in order. */
  function Present(ps: seq<Option<string>>): (r: seq<string>)
    ensures r == [] <==> forall i :: 0 <= i < |ps| ==> ps[i].None?
  {
    if ps == [] then []
    else if ps[0].Some? then [ps[0].value] + Present(ps[1..])
    else Present(ps[1..])
  }

  /** The parts separated by single spaces. */
  function JoinWithSpaces(parts: seq<string>): (r: string)
  {
    if parts == [] then ""
    else if |parts| == 1 then parts[0]
    else parts[0] + " " + JoinWithSpaces(parts[1..])
  }

  /** All present prompts of `ps` joined by single spaces, or absent when none is present. */
  function Merged(ps: seq<Option<string>>): (r: Option<string>)
  {
    var parts := Present(ps);
    if parts == [] then None else Some(JoinWithSpaces(parts))
  }

  /** Merging a list of prompts one after another, left to right, starting from absence. */
  function ConcatAll(ps: seq<Option<string>>): (r: Option<string>)
  {
    if ps == [] then None else ConcatPrompt(ConcatAll(ps[..|ps| - 1]), ps[|ps| - 1])
  }

  // ---------------------------------------------------------------------
  // The three branches of the helper.

  /** An absent first prompt yields the second unchanged, absent or not. */
  lemma AbsentFirstYieldsSecond(prompt2: Option<string>)
    ensures ConcatPrompt(None, prompt2) == prompt2
  {
  }

  /** A present first prompt with an absent second yields the first unchanged. */
  lemma AbsentSecondYieldsFirst(p: string)
    ensures ConcatPrompt(Some(p), None) == Some(p)
  {
  }

  /** Two present prompts are joined with exactly one space. */
  lemma BothPresentJoinWithSpace(p: string, q: string)
    ensures ConcatPrompt(Some(p), Some(q)) == Some(p + " " + q)
  {
  }

  /** Only absence selects a fallback: present empty prompts are still joined with the space. */
  lemma EmptyIsNotAbsent(s: string)
    ensures ConcatPrompt(Some(""), Some(s)) == Some(" " + s)
    ensures ConcatPrompt(Some(s), Some("")) == Some(s + " ")
    ensures ConcatPrompt(Some(""), Some("")) == Some(" ")
    ensures ConcatPrompt(Some(""), Some("x")) == Some(" x")
  {
    assert "" + " " + s == " " + s;
    assert s + " " + "" == s + " ";
    assert "" + " " + "" == " ";
    assert "" + " " + "x" == " x";
  }

  // ---------------------------------------------------------------------
  // Algebraic laws.

  /** Absence is a two-sided identity. */
  lemma AbsentIsIdentity(a: Option<string>)
    ensures ConcatPrompt(None, a) == a && ConcatPrompt(a, None) == a
  {
  }

  /** Merging is associative. */
  lemma {:induction false} ConcatPromptAssociative(a: Option<string>, b: Option<string>, c: Option<string>)
    ensures ConcatPrompt(ConcatPrompt(a, b), c) == ConcatPrompt(a, ConcatPrompt(b, c))
  {
    if a.Some? && b.Some? && c.Some? {
      var x, y, z := a.value, b.value, c.value;
      assert (x + " " + y) + " " + z == x + " " + (y + " " + z);
    }
  }

  // ---------------------------------------------------------------------
  // The helper agrees with the reference definition.

  /** The helper merges its two arguments exactly as the reference definition does. */
  lemma ConcatPromptIsMerged(a: Option<string>, b: Option<string>)
    ensures ConcatPrompt(a, b) == Merged([a, b])
  {
    assert [a, b][1..] == [b];
    assert [b][1..] == [];
    if a.Some? && b.Some? {
      assert Present([a, b]) == [a.value, b.value];
      assert [a.value, b.value][1..] == [b.value];
      assert JoinWithSpaces([a.value, b.value]) == a.value + " " + JoinWithSpaces([b.value]);
    } else if a.Some? {
      assert Present([a, b]) == [a.value];
    } else if b.Some? {
      assert Present([a, b]) == [b.value];
    } else {
      assert Present([a, b]) == [];
    }
  }

  lemma {:induction false} PresentAppend(ps: seq<Option<string>>, p: Option<string>)
    ensures Present(ps + [p]) == Present(ps) + (if p.Some? then [p.value] else [])
    decreases |ps|
  {
    if ps == [] {
      assert [p][1..] == [];
    } else {
      assert (ps + [p])[1..] == ps[1..] + [p];
      PresentAppend(ps[1..], p);
    }
  }

  lemma {:induction false} JoinAppend(parts: seq<string>, s: string)
    requires parts != []
    ensures JoinWithSpaces(parts + [s]) == JoinWithSpaces(parts) + " " + s
    decreases |parts|
  {
    if |parts| == 1 {
      assert (parts + [s])[1..] == [s];
    } else {
      assert (parts + [s])[1..] == parts[1..] + [s];
      JoinAppend(parts[1..], s);
      var h, t := parts[0], JoinWithSpaces(parts[1..]);
      assert h + " " + (t + " " + s) == (h + " " + t) + " " + s;
    }
  }

  /** Merging a whole list one prompt at a time gives the reference result:
      the present prompts in order, each pair separated by exactly one space. */
  lemma {:induction false} ConcatAllIsMerged(ps: seq<Option<string>>)
    ensures ConcatAll(ps) == Merged(ps)
    decreases |ps|
  {
    if ps != [] {
      var init, last := ps[..|ps| - 1], ps[|ps| - 1];
      assert ps == init + [last];
      ConcatAllIsMerged(init);
      PresentAppend(init, last);
      if Present(init) != [] && last.Some? {
        JoinAppend(Present(init), last.value);
      } else if last.Some? {
        assert Present(ps) == [last.value];
      } else {
        assert Present(ps) == Present(init);
      }
    }
  }
}
