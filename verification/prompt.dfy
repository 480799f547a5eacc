/**
 The answer handling of `ask_continue`: each line the operator types is
 classified as yes, no, stop or something else; something else asks again.
 The console itself is left out: the lines typed are a parameter, so the
 re-prompting recursion runs over a finite input and always ends.
 */
module Prompt {

  const YesTokens: set<string> := {"Yes", "yes", "Y", "y"}
  const NoTokens: set<string> := {"No", "no", "N", "n"}
  const StopTokens: set<string> := {"Stop", "stop", "S", "s", "exit", "e"}

  datatype Answer = Yes | No | Stop | Retry

  /** The three token sets never overlap, so the order of the tests does not matter. */
  lemma TokenSetsDisjoint()
    ensures YesTokens !! NoTokens && YesTokens !! StopTokens && NoTokens !! StopTokens
  {
  }

  /** One line of input, checked against yes, then no, then stop. */
  function Classify(token: string): (r: Answer)
    ensures r == Yes <==> token in YesTokens
    ensures r == No <==> token in NoTokens
    ensures r == Stop <==> token in StopTokens
    ensures r == Retry <==> token !in YesTokens + NoTokens + StopTokens
  {
    TokenSetsDisjoint();
    if token in YesTokens then Yes
    else if token in NoTokens then No
    else if token in StopTokens then Stop
    else Retry
  }

  /** What `ask_continue` ends in: a boolean answer, `exit(1)`, or running out of input. */
  datatype Reply = Continue(answer: bool) | Exit(code: int) | EndOfInput

  /** `ask_continue` over the lines the operator types. */
  function AskContinue(lines: seq<string>): (r: Reply)
    ensures r.EndOfInput? <==> forall i :: 0 <= i < |lines| ==> Classify(lines[i]) == Retry
    ensures r.Exit? ==> r.code == 1
  {
    if |lines| == 0 then EndOfInput
    else
      match Classify(lines[0])
      case Yes => Continue(true)
      case No => Continue(false)
      case Stop => Exit(1)
      case Retry =>
        var r := AskContinue(lines[1..]);
        assert forall i :: 1 <= i < |lines| ==> lines[i] == lines[1..][i - 1];
        r
  }

  /** The reply is decided by the first line that is not a retry; lines before it are ignored. */
  lemma {:induction false} FirstAnswerDecides(lines: seq<string>, k: nat)
    requires k < |lines| && Classify(lines[k]) != Retry
    requires forall i :: 0 <= i < k ==> Classify(lines[i]) == Retry
    ensures AskContinue(lines) == match Classify(lines[k])
      case Yes => Continue(true)
      case No => Continue(false)
      case _ => Exit(1)
  {
    if k > 0 {
      FirstAnswerDecides(lines[1..], k - 1);
    }
  }
}
