/**
  Cumulative USSD transcripts (lib/AfricasTalkingAdapter.js): splitting at '*', normalisation into
  input and position, and the comparison that decides whether a request may follow the stored one.
 */
module Transcript {
  import opened Wrappers

  datatype Relation = Initial | MissingInitial | Repeat | Conflict | Stale | Gap | Next

  const STAR := '*'

  /** JavaScript's text.split('*'): never empty, and "" splits into one empty segment. */
  function Split(text: string): (segments: seq<string>)
    ensures |segments| >= 1
    ensures forall s <- segments :: STAR !in s
    ensures Join(segments) == text
  {
    if text == "" then [""]
    else
      var rest := Split(text[1..]);
      if text[0] == STAR then [""] + rest
      else
        var r := [[text[0]] + rest[0]] + rest[1..];
        assert r[1..] == rest[1..];
        r
  }

  function Join(segments: seq<string>): string
  {
    if segments == [] then ""
    else if |segments| == 1 then segments[0]
    else segments[0] + [STAR] + Join(segments[1..])
  }

  /** The adapter's segments: the empty transcript has none. */
  function Segments(text: string): seq<string> {
    if text == "" then [] else Split(text)
  }

  /** Position and latest input of a cumulative request. */
  function Position(text: string): nat { |Segments(text)| }

  function LatestInput(text: string): string {
    var segments := Segments(text);
    if segments == [] then "" else segments[|segments| - 1]
  }

  predicate Agree(shorter: seq<string>, longer: seq<string>)
    requires |shorter| <= |longer|
  {
    forall i | 0 <= i < |shorter| :: shorter[i] == longer[i]
  }

  function CompareTranscript(position: nat, transcript: string, previous: Option<string>): Relation {
    if previous.None? then (if position == 0 then Initial else MissingInitial)
    else if previous.value == transcript then Repeat
    else
      var before, after := Segments(previous.value), Segments(transcript);
      var (shorter, longer) := if |before| < |after| then (before, after) else (after, before);
      if !Agree(shorter, longer) then Conflict
      else if |after| < |before| then Stale
      else if |after| == |before| then Conflict
      else if |after| == |before| + 1 then Next
      else Gap
  }

  /** `transcript` adds exactly one segment to `previous`, in the segment view. */
  ghost predicate ExtendsByOne(previous: string, transcript: string) {
    && |Segments(transcript)| == |Segments(previous)| + 1
    && Segments(transcript)[..|Segments(previous)|] == Segments(previous)
  }

  lemma SegmentsJoin(text: string)
    ensures Join(Segments(text)) == text
  {
  }

  /** Equal segment lists come from equal texts, so the equal-length branch of the comparison means divergence. */
  lemma SegmentsInjective(a: string, b: string)
    requires Segments(a) == Segments(b)
    ensures a == b
  {
    SegmentsJoin(a);
    SegmentsJoin(b);
  }

  /** What each verdict of the comparison means, for every pair of texts. */
  lemma ComparisonIsExact(position: nat, transcript: string, previous: string)
    ensures var r := CompareTranscript(position, transcript, Some(previous));
      var before, after := Segments(previous), Segments(transcript);
      && (r == Repeat <==> before == after)
      && (r == Next <==> ExtendsByOne(previous, transcript))
      && (r == Gap <==> before <= after && |after| >= |before| + 2)
      && (r == Stale <==> after < before)
      && (r == Conflict <==> !(before <= after) && !(after <= before))
      && r != Initial && r != MissingInitial
  {
    var before, after := Segments(previous), Segments(transcript);
    if before == after {
      SegmentsInjective(previous, transcript);
    }
    if |before| <= |after| {
      assert before <= after <==> Agree(before, after);
      assert before <= after <==> after[..|before|] == before;
    }
    if |after| <= |before| {
      assert after <= before <==> Agree(after, before);
    }
  }

  /** A star-free text is its own single segment. */
  lemma {:induction false} SplitPlain(text: string)
    requires STAR !in text
    ensures Split(text) == [text]
  {
    if text != "" {
      SplitPlain(text[1..]);
      assert [text[0]] + text[1..] == text;
    }
  }

  lemma {:induction false} SplitAppend(text: string, last: string)
    requires STAR !in last
    ensures Split(text + [STAR] + last) == Split(text) + [last]
  {
    if text == "" {
      assert text + [STAR] + last == [STAR] + last;
      SplitPlain(last);
      assert ([STAR] + last)[1..] == last;
    } else {
      var whole := text + [STAR] + last;
      assert whole[1..] == text[1..] + [STAR] + last;
      SplitAppend(text[1..], last);
      var inner := Split(text[1..]);
      assert Split(whole[1..]) == inner + [last];
      if text[0] != STAR {
        assert ([[text[0]] + inner[0]] + inner[1..]) + [last] == [[text[0]] + inner[0]] + (inner + [last])[1..];
      }
    }
  }

  /** The text of a request that follows `previous` by one more key press `choice`. */
  function Extend(previous: string, choice: string): string {
    if previous == "" then choice else previous + [STAR] + choice
  }

  lemma NextSplitsOff(transcript: string, previous: string)
    requires ExtendsByOne(previous, transcript)
    ensures var choice := LatestInput(transcript);
      STAR !in choice && transcript == Extend(previous, choice) && (previous == "" ==> choice != "")
  {
    var before, after := Segments(previous), Segments(transcript);
    var choice := after[|before|];
    assert after == before + [choice];
    assert STAR !in choice;
    SegmentsJoin(transcript);
    if previous != "" {
      SplitAppend(previous, choice);
      SegmentsInjective(transcript, Extend(previous, choice));
    }
  }

  lemma ChoiceExtends(previous: string, choice: string)
    requires STAR !in choice && (previous == "" ==> choice != "")
    ensures ExtendsByOne(previous, Extend(previous, choice))
  {
    if previous == "" {
      SplitPlain(choice);
    } else {
      SplitAppend(previous, choice);
    }
  }

  predicate IsChoice(previous: string, choice: string, transcript: string) {
    STAR !in choice && transcript == Extend(previous, choice) && (previous == "" ==> choice != "")
  }

  /**
    The verdict Next in terms of texts: the new request is the old one with one more star-free choice,
    and that choice is what the handler receives as its input. Only the first choice cannot be empty.
   */
  lemma NextIsOneMoreChoice(position: nat, transcript: string, previous: string)
    ensures CompareTranscript(position, transcript, Some(previous)) == Next
      <==> exists choice: string :: IsChoice(previous, choice, transcript)
    ensures CompareTranscript(position, transcript, Some(previous)) == Next ==>
      IsChoice(previous, LatestInput(transcript), transcript) && Position(transcript) == Position(previous) + 1
  {
    ComparisonIsExact(position, transcript, previous);
    if CompareTranscript(position, transcript, Some(previous)) == Next {
      NextSplitsOff(transcript, previous);
      assert IsChoice(previous, LatestInput(transcript), transcript);
    }
    if choice: string :| IsChoice(previous, choice, transcript) {
      ChoiceExtends(previous, choice);
    }
  }
}
