/**
 * The Japanese question set of lib/ja-test-content.ts. Each question offers two options; only
 * their letters are kept here (the prompt and option texts are display copy).
 */
module JaTestContent {
  import opened MbtiTypes
  import opened Scoring

  /** A `JaQuestion`: option A's letter and option B's letter. */
  datatype JaQuestion = JaQuestion(optionA: Letter, optionB: Letter)

  /** `JA_QUESTIONS`. */
  const JaQuestions: seq<JaQuestion> := [
    JaQuestion(E, I), JaQuestion(S, N), JaQuestion(T, F), JaQuestion(J, P),
    JaQuestion(E, I), JaQuestion(S, N), JaQuestion(T, F), JaQuestion(J, P),
    JaQuestion(E, I), JaQuestion(S, N), JaQuestion(T, F), JaQuestion(J, P),
    JaQuestion(E, I), JaQuestion(S, N), JaQuestion(T, F), JaQuestion(J, P)
  ]

  /** The axis a question asks about: the axis of its first option. */
  function QuestionAxis(q: JaQuestion): Axis {
    AxisOf(q.optionA)
  }

  /** The two options are the two poles of one axis, the canonical first pole as option A. */
  predicate Canonical(q: JaQuestion) {
    q.optionA == FirstPole(QuestionAxis(q)) && q.optionB == SecondPole(QuestionAxis(q))
  }

  /** How many questions ask about axis `a`. */
  function QuestionsOnAxis(qs: seq<JaQuestion>, a: Axis): nat {
    if qs == [] then 0 else (if QuestionAxis(qs[0]) == a then 1 else 0) + QuestionsOnAxis(qs[1..], a)
  }

  /**
   * The data invariant: 16 questions, every one offering the first pole as option A and the
   * second pole as option B, with the axes rotating E/I, S/N, T/F, J/P.
   */
  lemma JaQuestionsShape()
    ensures |JaQuestions| == 16
    ensures forall i :: 0 <= i < 16 ==> Canonical(JaQuestions[i]) && QuestionAxis(JaQuestions[i]) == AxisOrder[i % 4]
  {
  }

  /** Counting questions on an axis distributes over concatenation. */
  lemma {:induction false} QuestionsOnAxisConcat(qs: seq<JaQuestion>, rs: seq<JaQuestion>, a: Axis)
    ensures QuestionsOnAxis(qs + rs, a) == QuestionsOnAxis(qs, a) + QuestionsOnAxis(rs, a)
  {
    if qs == [] {
      assert qs + rs == rs;
    } else {
      assert (qs + rs)[1..] == qs[1..] + rs;
      QuestionsOnAxisConcat(qs[1..], rs, a);
    }
  }

  /** Each axis is asked about exactly four times, once in each run of four questions. */
  lemma FourQuestionsPerAxis(a: Axis)
    ensures QuestionsOnAxis(JaQuestions, a) == 4
  {
    var round := [JaQuestion(E, I), JaQuestion(S, N), JaQuestion(T, F), JaQuestion(J, P)];
    assert QuestionsOnAxis(round, a) == 1;
    assert JaQuestions == round + round + round + round;
    QuestionsOnAxisConcat(round, round, a);
    QuestionsOnAxisConcat(round + round, round, a);
    QuestionsOnAxisConcat(round + round + round, round, a);
  }

  /** Answers given by picking, for each question, one of its two options. */
  predicate AnswersFit(answers: seq<Letter>, qs: seq<JaQuestion>) {
    |answers| == |qs| && forall i :: 0 <= i < |qs| ==> answers[i] == qs[i].optionA || answers[i] == qs[i].optionB
  }

  /** With canonical questions, the two poles of an axis together get one vote per question on it. */
  lemma {:induction false} AxisVotes(answers: seq<Letter>, qs: seq<JaQuestion>, a: Axis)
    requires AnswersFit(answers, qs)
    requires forall i :: 0 <= i < |qs| ==> Canonical(qs[i])
    ensures Count(answers, FirstPole(a)) + Count(answers, SecondPole(a)) == QuestionsOnAxis(qs, a)
  {
    if qs != [] {
      assert AnswersFit(answers[1..], qs[1..]) by {
        forall i | 0 <= i < |qs[1..]|
          ensures answers[1..][i] == qs[1..][i].optionA || answers[1..][i] == qs[1..][i].optionB
        {
          assert answers[1..][i] == answers[i + 1] && qs[1..][i] == qs[i + 1];
        }
      }
      assert Canonical(qs[0]);
      AxisVotes(answers[1..], qs[1..], a);
    }
  }

  /**
   * A completed Japanese quiz gives every axis exactly four votes, so each axis is decided 4-0,
   * 3-1 or 2-2, and a 2-2 split goes to the first pole.
   */
  lemma JaAxisVotes(answers: seq<Letter>, k: nat)
    requires AnswersFit(answers, JaQuestions)
    requires k < 4
    ensures Count(answers, FirstPole(AxisOrder[k])) + Count(answers, SecondPole(AxisOrder[k])) == 4
    ensures Count(answers, FirstPole(AxisOrder[k])) == 2 ==> ComputeType(answers)[k] == LetterChar(FirstPole(AxisOrder[k]))
  {
    JaQuestionsShape();
    AxisVotes(answers, JaQuestions, AxisOrder[k]);
    FourQuestionsPerAxis(AxisOrder[k]);
    TypeCodeByMajority(answers, k);
  }

  /** A letter no answer chose has count 0. */
  lemma {:induction false} CountAbsent(answers: seq<Letter>, l: Letter)
    requires forall i :: 0 <= i < |answers| ==> answers[i] != l
    ensures Count(answers, l) == 0
  {
    if answers != [] {
      CountAbsent(answers[1..], l);
    }
  }

  /** Picking option A every time gives ESTJ. */
  lemma AllOptionAGivesESTJ(answers: seq<Letter>)
    requires |answers| == |JaQuestions|
    requires forall i :: 0 <= i < |answers| ==> answers[i] == JaQuestions[i].optionA
    ensures ComputeType(answers) == "ESTJ"
  {
    JaQuestionsShape();
    CountAbsent(answers, I);
    CountAbsent(answers, N);
    CountAbsent(answers, F);
    CountAbsent(answers, P);
  }

  /** A letter some answer chose has a positive count. */
  lemma {:induction false} CountPresent(answers: seq<Letter>, i: nat)
    requires i < |answers|
    ensures Count(answers, answers[i]) > 0
  {
    if i > 0 {
      assert answers[1..][i - 1] == answers[i];
      CountPresent(answers[1..], i - 1);
    }
  }

  /** Picking option B every time gives INFP. */
  lemma AllOptionBGivesINFP(answers: seq<Letter>)
    requires |answers| == |JaQuestions|
    requires forall i :: 0 <= i < |answers| ==> answers[i] == JaQuestions[i].optionB
    ensures ComputeType(answers) == "INFP"
  {
    JaQuestionsShape();
    CountAbsent(answers, E);
    CountAbsent(answers, S);
    CountAbsent(answers, T);
    CountAbsent(answers, J);
    CountPresent(answers, 0);
    CountPresent(answers, 1);
    CountPresent(answers, 2);
    CountPresent(answers, 3);
  }
}
