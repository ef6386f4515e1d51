/**
 * The part of post-call scoring that is not the language-model call: the
 * flattening of a stored transcript into the plain text the scoring prompt
 * embeds, and the shape of the scoring model's answer as the backend reads it.
 */
module Scoring {
  import opened Common
  import opened Store

  /** The scoring model's JSON answer: one optional field per key the backend reads. */
  datatype ScoringResult = ScoringResult(
    termUnderstanding: Option<real>, descriptionBreadth: Option<real>, conciseness: Option<real>,
    objectionHandling: Option<real>, uspFraming: Option<real>, confidence: Option<real>, overall: Option<real>,
    perAnswerFeedback: Option<seq<Json>>, strengths: Option<seq<string>>, improvements: Option<seq<string>>,
    ramblingInstances: Option<int>)

  /** The speaker of a transcript entry; an entry without a role is "unknown". */
  function RoleOf(m: TranscriptEntry): string
  {
    if m.role.Some? then m.role.value else "unknown"
  }

  /** The text of an entry: its "content", else its "message", else empty. */
  function ContentOf(m: TranscriptEntry): string
  {
    if m.content.Some? then m.content.value else if m.message.Some? then m.message.value else ""
  }

  /** One transcript line: the upper-cased role, a colon, the text and a newline. */
  function Line(m: TranscriptEntry): string
  {
    Upper(RoleOf(m)) + ": " + ContentOf(m) + "\n"
  }

  /** The flattened transcript, by recursion on the last entry. */
  function TranscriptText(msgs: seq<TranscriptEntry>): string
  {
    if msgs == [] then "" else TranscriptText(msgs[..|msgs| - 1]) + Line(msgs[|msgs| - 1])
  }

  /** The source's loop: append one line per entry to an initially empty text. */
  method FlattenTranscript(msgs: seq<TranscriptEntry>) returns (text: string)
    ensures text == TranscriptText(msgs)
  {
    text := "";
    var i := 0;
    while i < |msgs|
      invariant 0 <= i <= |msgs|
      invariant text == TranscriptText(msgs[..i])
    {
      assert msgs[..i + 1][..i] == msgs[..i];
      text := text + Line(msgs[i]);
      i := i + 1;
    }
    assert msgs[..|msgs|] == msgs;
  }

  /** The flattened transcript is the concatenation of the entries' lines, in order. */
  lemma {:induction false} TranscriptIsLines(msgs: seq<TranscriptEntry>)
    ensures TranscriptText(msgs) == Concat(seq(|msgs|, i requires 0 <= i < |msgs| => Line(msgs[i])))
  {
    var lines := seq(|msgs|, i requires 0 <= i < |msgs| => Line(msgs[i]));
    if msgs != [] {
      var init := msgs[..|msgs| - 1];
      TranscriptIsLines(init);
      assert lines[..|lines| - 1] == seq(|init|, i requires 0 <= i < |init| => Line(init[i]));
    }
  }

  function CountChar(s: string, c: char): nat
  {
    if s == [] then 0 else CountChar(s[..|s| - 1], c) + (if s[|s| - 1] == c then 1 else 0)
  }

  lemma {:induction false} CountCharAppend(s: string, t: string, c: char)
    ensures CountChar(s + t, c) == CountChar(s, c) + CountChar(t, c)
    decreases |t|
  {
    if t == [] {
      assert s + t == s;
    } else {
      assert (s + t)[..|s + t| - 1] == s + t[..|t| - 1];
      CountCharAppend(s, t[..|t| - 1], c);
    }
  }

  lemma {:induction false} CountCharNone(s: string, c: char)
    requires forall i :: 0 <= i < |s| ==> s[i] != c
    ensures CountChar(s, c) == 0
  {
    if s != [] {
      CountCharNone(s[..|s| - 1], c);
    }
  }

  /** An entry whose role and text hold no newline. */
  predicate SingleLine(m: TranscriptEntry)
  {
    (forall i :: 0 <= i < |RoleOf(m)| ==> RoleOf(m)[i] != '\n')
    && (forall i :: 0 <= i < |ContentOf(m)| ==> ContentOf(m)[i] != '\n')
  }

  /** With single-line entries, the text has exactly one line per entry. */
  lemma {:induction false} OneLinePerEntry(msgs: seq<TranscriptEntry>)
    requires forall k :: 0 <= k < |msgs| ==> SingleLine(msgs[k])
    ensures CountChar(TranscriptText(msgs), '\n') == |msgs|
  {
    if msgs != [] {
      var m := msgs[|msgs| - 1];
      OneLinePerEntry(msgs[..|msgs| - 1]);
      var head := Upper(RoleOf(m)) + ": " + ContentOf(m);
      assert forall i :: 0 <= i < |head| ==> head[i] != '\n' by {
        forall i | 0 <= i < |head|
          ensures head[i] != '\n'
        {
          if i < |RoleOf(m)| {
            assert head[i] == AsciiUpper(RoleOf(m)[i]);
          } else if i >= |RoleOf(m)| + 2 {
            assert head[i] == ContentOf(m)[i - |RoleOf(m)| - 2];
          }
        }
      }
      CountCharNone(head, '\n');
      assert Line(m) == head + "\n";
      CountCharAppend(head, "\n", '\n');
      CountCharAppend(TranscriptText(msgs[..|msgs| - 1]), Line(m), '\n');
    }
  }

  /** An entry without a role is rendered with the speaker "UNKNOWN". */
  lemma MissingRole(content: string, message: Option<string>)
    ensures Line(TranscriptEntry(None, Some(content), message)) == "UNKNOWN: " + content + "\n"
    ensures Line(TranscriptEntry(None, None, None)) == "UNKNOWN: \n"
  {
    assert Upper("unknown") == "UNKNOWN";
  }
}
