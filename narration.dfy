/** The deterministic parts of the narrative service (app/services/llm_service.py):
    the history formatter, the outcome label, and the outcome record with its
    defaults and its last-resort fallback. The generator call itself is outside
    this model; its answer arrives as a parameter. */
module Narration {
  import opened Models

  const NoPriorTurns: string := "- (no prior turns)"

  /** `"\n".join(lines)`. */
  function Join(lines: seq<string>): (s: string)
    ensures lines != [] ==> |s| >= |lines[0]| && s[..|lines[0]|] == lines[0]
  {
    if |lines| == 0 then ""
    else if |lines| == 1 then lines[0]
    else lines[0] + "\n" + Join(lines[1..])
  }

  /** `s.split("\n")`: the pieces between newlines; an empty string is one empty piece. */
  function Split(s: string): (pieces: seq<string>)
    ensures |pieces| >= 1
    decreases |s|
  {
    if |s| == 0 then [""]
    else if s[0] == '\n' then [""] + Split(s[1..])
    else
      var rest := Split(s[1..]);
      [[s[0]] + rest[0]] + rest[1..]
  }

  predicate NoNewline(s: string) {
    forall i :: 0 <= i < |s| ==> s[i] != '\n'
  }

  /** A string without a newline splits into itself alone. */
  lemma {:induction false} SplitOneLine(s: string)
    requires NoNewline(s)
    ensures Split(s) == [s]
    decreases |s|
  {
    if |s| > 0 {
      SplitOneLine(s[1..]);
      assert [s[0]] + s[1..] == s;
    }
  }

  /** Splitting at the first newline gives the text before it, then the pieces after it. */
  lemma {:induction false} SplitAtNewline(a: string, b: string)
    requires NoNewline(a)
    ensures Split(a + "\n" + b) == [a] + Split(b)
    decreases |a|
  {
    var s := a + "\n" + b;
    if |a| == 0 {
      assert s[1..] == b;
    } else {
      assert s[1..] == a[1..] + "\n" + b;
      SplitAtNewline(a[1..], b);
      assert [a[0]] + a[1..] == a;
    }
  }

  /** `split` undoes `join` when no line holds a newline. */
  lemma {:induction false} SplitJoin(lines: seq<string>)
    requires lines != []
    requires forall i :: 0 <= i < |lines| ==> NoNewline(lines[i])
    ensures Split(Join(lines)) == lines
    decreases |lines|
  {
    if |lines| == 1 {
      SplitOneLine(lines[0]);
    } else {
      SplitAtNewline(lines[0], Join(lines[1..]));
      SplitJoin(lines[1..]);
      assert [lines[0]] + lines[1..] == lines;
    }
  }

  /** The history lines, most recent first, each marked with a bullet. */
  function Bulleted(previousTurns: seq<string>): (lines: seq<string>)
    ensures |lines| == |previousTurns|
  {
    seq(|previousTurns|, i requires 0 <= i < |previousTurns| => "- " + previousTurns[|previousTurns| - 1 - i])
  }

  /** `_format_previous`: a placeholder line for an empty history; otherwise one
      bulleted line per entry, newest first. Either way the text opens with a bullet. */
  function FormatPrevious(previousTurns: seq<string>): (text: string)
    ensures previousTurns == [] ==> text == NoPriorTurns
    ensures |text| >= 2 && text[..2] == "- "
  {
    if previousTurns == [] then NoPriorTurns
    else
      var lines := Bulleted(previousTurns);
      var text := Join(lines);
      assert text[..2] == text[..|lines[0]|][..2] == lines[0][..2] == "- ";
      text
  }

  /** For an empty history the text is one line; otherwise, when no entry holds a
      newline, line `i` of the text is the bulleted entry `n - 1 - i`, so there are
      exactly as many lines as entries. */
  lemma FormatPreviousLines(previousTurns: seq<string>)
    requires forall i :: 0 <= i < |previousTurns| ==> NoNewline(previousTurns[i])
    ensures previousTurns == [] ==> Split(FormatPrevious(previousTurns)) == [NoPriorTurns]
    ensures previousTurns != [] ==>
      var lines := Split(FormatPrevious(previousTurns));
      && |lines| == |previousTurns|
      && forall i :: 0 <= i < |lines| ==> lines[i] == "- " + previousTurns[|previousTurns| - 1 - i]
  {
    if previousTurns == [] {
      SplitOneLine(NoPriorTurns);
    } else {
      var lines := Bulleted(previousTurns);
      forall i | 0 <= i < |lines| ensures NoNewline(lines[i]) {
        var p := previousTurns[|previousTurns| - 1 - i];
        assert lines[i] == "- " + p;
        forall j | 0 <= j < |lines[i]| ensures lines[i][j] != '\n' {
          if j >= 2 { assert lines[i][j] == p[j - 2]; }
        }
      }
      SplitJoin(lines);
    }
  }

  /** The history text for any entries, newlines inside them included: a single
      entry is that entry behind a bullet, and an older history gains the newest
      entry as a bulleted line in front of it. */
  lemma FormatPreviousPrepends(previousTurns: seq<string>, latest: string)
    ensures FormatPrevious([latest]) == "- " + latest
    ensures previousTurns != [] ==>
      FormatPrevious(previousTurns + [latest]) == "- " + latest + "\n" + FormatPrevious(previousTurns)
  {
    assert Bulleted([latest]) == ["- " + latest];
    if previousTurns != [] {
      var all := previousTurns + [latest];
      var lines := Bulleted(all);
      assert lines[0] == "- " + latest;
      assert lines[1..] == Bulleted(previousTurns);
    }
  }

  /** The label the narrator is told: "SUCCESS" exactly when the action succeeded. */
  function OutcomeLabel(outcomeSuccess: bool): (word: string)
    ensures word == "SUCCESS" <==> outcomeSuccess
    ensures word == "FAILURE" <==> !outcomeSuccess
  {
    if outcomeSuccess then "SUCCESS" else "FAILURE"
  }

  /** `LLMActionOutcome`: the narrated outcome of one action. */
  datatype ActionOutcome = ActionOutcome(
    narrative: string,
    enemyHealthChange: int,
    characterHealthChange: int,
    statusEffects: seq<string>)

  /** An outcome that changes nothing: no health moves and no status effect. */
  predicate Neutral(o: ActionOutcome) {
    o.enemyHealthChange == 0 && o.characterHealthChange == 0 && o.statusEffects == []
  }

  /** The fields of a decoded answer; any of them may be missing. */
  datatype OutcomeFields = OutcomeFields(
    narrative: Option<string>,
    enemyHealthChange: Option<int>,
    characterHealthChange: Option<int>,
    statusEffects: Option<seq<string>>)

  /** `LLMActionOutcome(**data)`: the narrative is required; the health changes
      default to 0 and the status effects to an empty list. */
  function BuildOutcome(f: OutcomeFields): (o: Option<ActionOutcome>)
    ensures o.Some? <==> f.narrative.Some?
    ensures o.Some? ==> o.value.narrative == f.narrative.value
    ensures o.Some? && f.enemyHealthChange.Some? ==> o.value.enemyHealthChange == f.enemyHealthChange.value
    ensures o.Some? && f.characterHealthChange.Some? ==> o.value.characterHealthChange == f.characterHealthChange.value
    ensures o.Some? && f.statusEffects.Some? ==> o.value.statusEffects == f.statusEffects.value
    ensures o.Some? && f.enemyHealthChange.None? ==> o.value.enemyHealthChange == 0
    ensures o.Some? && f.characterHealthChange.None? ==> o.value.characterHealthChange == 0
    ensures o.Some? && f.statusEffects.None? ==> o.value.statusEffects == []
  {
    match f.narrative
    case None => None
    case Some(n) => Some(ActionOutcome(
      n, f.enemyHealthChange.GetOr(0), f.characterHealthChange.GetOr(0), f.statusEffects.GetOr([])))
  }

  const FallbackNarrative: string := "You act, but the dust hasn’t settled enough to tell what happened."

  /** The last-resort outcome when the answer cannot be read. */
  function FallbackOutcome(): (o: ActionOutcome)
    ensures Neutral(o)
  {
    ActionOutcome(FallbackNarrative, 0, 0, [])
  }

  /** The fallback spells out exactly the defaults an outcome gets from its narrative alone. */
  lemma FallbackIsNarrativeOnly()
    ensures BuildOutcome(OutcomeFields(Some(FallbackNarrative), None, None, None)) == Some(FallbackOutcome())
  {
  }

  /** How the service settles on an outcome: the typed answer when the generator
      gave one; otherwise the decoded JSON text when it holds a narrative; otherwise
      (text that does not decode to a mapping, or lacks the narrative) the fallback.
      Once an answer has arrived, settling on an outcome never fails. */
  function SettleResponse(parsed: Option<ActionOutcome>, decoded: Option<OutcomeFields>): (o: ActionOutcome)
    ensures parsed.Some? ==> o == parsed.value
    ensures parsed.None? && decoded.Some? && decoded.value.narrative.Some? ==>
      Some(o) == BuildOutcome(decoded.value) && o.narrative == decoded.value.narrative.value
    ensures parsed.None? && (decoded.None? || decoded.value.narrative.None?) ==> o == FallbackOutcome() && Neutral(o)
  {
    if parsed.Some? then parsed.value
    else if decoded.None? then FallbackOutcome()
    else
      match BuildOutcome(decoded.value)
      case Some(o) => o
      case None => FallbackOutcome()
  }
}
