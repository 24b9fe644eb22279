/**
 * The quiz stepper of pages/TestRunner.tsx: the current question index and the answers given so
 * far. Selecting writes the answer into the current slot and moves on; on the last question it
 * tallies the answers and yields the result path. Going back moves the index down, never below 0.
 */
module QuizRunner {
  import opened Wrappers
  import opened MbtiTypes
  import opened Scoring

  /** `/result?theme=<themeId>&type=<code>`, where the stepper navigates when it is done. */
  function ResultPath(themeId: string, answers: seq<Letter>): (p: string)
    ensures var prefix := "/result?theme=" + themeId + "&type=";
      |p| == |prefix| + 4 && p[..|prefix|] == prefix && p[|prefix|..] in AllCodes
  {
    "/result?theme=" + themeId + "&type=" + ComputeType(answers)
  }

  class TestRunner {
    const themeId: string
    const questions: seq<Question>
    var currentIndex: nat
    var answers: seq<Letter>

    /**
     * The index points at a question, and the answers never outgrow the question list: every
     * question up to the current one has been answered, and none past the end.
     */
    ghost predicate Valid()
      reads this
    {
      && |questions| > 0
      && currentIndex < |questions|
      && currentIndex <= |answers| <= |questions|
    }

    /** A fresh run of a theme that has questions (the source sends other themes to /select). */
    constructor (themeId: string, questions: seq<Question>)
      requires |questions| > 0
      ensures Valid()
      ensures this.themeId == themeId && this.questions == questions
      ensures currentIndex == 0 && answers == []
    {
      this.themeId := themeId;
      this.questions := questions;
      currentIndex := 0;
      answers := [];
    }

    /**
     * `handleSelect`: the value goes into the current slot of a copy of the answers (a slot that
     * was answered before is overwritten, otherwise the answer is appended), every other answer
     * is kept. Before the last question the index advances by one; on the last question all the
     * questions are answered and the stepper yields the result path for their type code.
     */
    method Select(value: Letter) returns (destination: Option<string>)
      requires Valid()
      modifies this
      ensures Valid()
      ensures old(currentIndex) < |old(answers)| ==> answers == old(answers)[old(currentIndex) := value]
      ensures old(currentIndex) == |old(answers)| ==> answers == old(answers) + [value]
      ensures old(currentIndex) < |questions| - 1 ==> currentIndex == old(currentIndex) + 1 && destination == None
      ensures old(currentIndex) == |questions| - 1 ==>
        && currentIndex == old(currentIndex)
        && |answers| == |questions|
        && destination == Some(ResultPath(themeId, answers))
    {
      var newAnswers := if currentIndex < |answers| then answers[currentIndex := value] else answers + [value];
      answers := newAnswers;
      if currentIndex < |questions| - 1 {
        currentIndex := currentIndex + 1;
        destination := None;
      } else {
        var counts := TallyAnswers(newAnswers);
        TallyMatchesCountsOf(newAnswers, counts);
        var code := TypeCodeOf(counts);
        destination := Some("/result?theme=" + themeId + "&type=" + code);
      }
    }

    /** `handlePrev`: step back one question unless already at the first; answers are kept. */
    method Prev()
      requires Valid()
      modifies this
      ensures Valid()
      ensures answers == old(answers)
      ensures currentIndex == if old(currentIndex) > 0 then old(currentIndex) - 1 else 0
    {
      if currentIndex > 0 {
        currentIndex := currentIndex - 1;
      }
    }
  }

  /** Going back and answering again replaces the earlier answer instead of adding one. */
  method ReanswerReplaces(themeId: string, q0: Question, q1: Question)
  {
    var runner := new TestRunner(themeId, [q0, q1]);
    var d := runner.Select(E);
    assert d == None && runner.currentIndex == 1 && runner.answers == [E];
    runner.Prev();
    assert runner.currentIndex == 0;
    d := runner.Select(I);
    assert runner.answers == [I] && runner.currentIndex == 1;
    d := runner.Select(N);
    assert runner.answers == [I, N];
    assert d == Some(ResultPath(themeId, [I, N]));
  }
}
