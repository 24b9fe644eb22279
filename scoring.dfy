/**
 * The scorer at the end of the quiz (pages/TestRunner.tsx): eight counters, one per letter,
 * each answer adds one to its letter, and each axis is won by its more frequent pole, with
 * ties (0-0 included) going to the pole written first (E, S, T, J).
 */
module Scoring {
  import opened MbtiTypes

  const AllLetters: set<Letter> := {E, I, S, N, T, F, J, P}

  /** The `counts` record: a counter for each of the eight letters. */
  type Counts = map<Letter, nat>

  predicate HasAllLetters(c: Counts) {
    forall l: Letter :: l in c
  }

  /** `AllLetters` lists every letter. */
  lemma AllLettersComplete()
    ensures forall l: Letter :: l in AllLetters
  {
    forall l: Letter
      ensures l in AllLetters
    {
      match l
      case E => case I => case S => case N =>
      case T => case F => case J => case P =>
    }
  }

  /** How many of the answers are `l`. */
  function Count(answers: seq<Letter>, l: Letter): nat {
    if answers == [] then 0 else (if answers[0] == l then 1 else 0) + Count(answers[1..], l)
  }

  /** The counters after every answer has been tallied. */
  function CountsOf(answers: seq<Letter>): (c: Counts)
    ensures HasAllLetters(c)
  {
    AllLettersComplete();
    map l | l in AllLetters :: Count(answers, l)
  }

  /** The letter axis `a` contributes: the first pole unless the second has strictly more votes. */
  function Winner(c: Counts, a: Axis): (w: Letter)
    requires HasAllLetters(c)
    ensures w == FirstPole(a) || w == SecondPole(a)
    ensures w == FirstPole(a) <==> c[FirstPole(a)] >= c[SecondPole(a)]
  {
    if c[FirstPole(a)] >= c[SecondPole(a)] then FirstPole(a) else SecondPole(a)
  }

  /** The four winners joined in axis order E/I, S/N, T/F, J/P. */
  function TypeCodeOf(c: Counts): (code: string)
    requires HasAllLetters(c)
    ensures |code| == 4
    ensures forall k :: 0 <= k < 4 ==> code[k] == LetterChar(Winner(c, AxisOrder[k]))
  {
    [LetterChar(Winner(c, EI)), LetterChar(Winner(c, SN)), LetterChar(Winner(c, TF)), LetterChar(Winner(c, JP))]
  }

  /** The type code of a completed answer sequence: whatever the answers, one of the sixteen types. */
  function ComputeType(answers: seq<Letter>): (code: string)
    ensures code in AllCodes
  {
    var c := CountsOf(answers);
    var w0, w1, w2, w3 := Winner(c, EI), Winner(c, SN), Winner(c, TF), Winner(c, JP);
    assert w0 in {E, I} && w1 in {S, N} && w2 in {T, F} && w3 in {J, P};
    TypeCodeOf(c)
  }

  /** All sixteen codes the scorer can produce. */
  const AllCodes: set<string> := {
    "ESTJ", "ESTP", "ESFJ", "ESFP", "ENTJ", "ENTP", "ENFJ", "ENFP",
    "ISTJ", "ISTP", "ISFJ", "ISFP", "INTJ", "INTP", "INFJ", "INFP"
  }

  /**
   * The code has four letters, the k-th from the k-th axis; it is the first pole exactly when
   * that pole has at least as many votes, and the second pole exactly when it has strictly more.
   */
  lemma TypeCodeByMajority(answers: seq<Letter>, k: nat)
    requires k < 4
    ensures |ComputeType(answers)| == 4
    ensures var a := AxisOrder[k];
      && (ComputeType(answers)[k] == LetterChar(FirstPole(a)) <==> Count(answers, FirstPole(a)) >= Count(answers, SecondPole(a)))
      && (ComputeType(answers)[k] == LetterChar(SecondPole(a)) <==> Count(answers, SecondPole(a)) > Count(answers, FirstPole(a)))
  {
  }

  /** A tie on an axis, including no votes at all, gives that axis's first pole. */
  lemma TieGoesToFirstPole(answers: seq<Letter>, k: nat)
    requires k < 4
    requires Count(answers, FirstPole(AxisOrder[k])) == Count(answers, SecondPole(AxisOrder[k]))
    ensures ComputeType(answers)[k] == LetterChar(FirstPole(AxisOrder[k]))
  {
    TypeCodeByMajority(answers, k);
  }

  /** A counter counts the letter's occurrences: `Count` is the multiset multiplicity. */
  lemma {:induction false} CountIsMultiplicity(answers: seq<Letter>, l: Letter)
    ensures Count(answers, l) == multiset(answers)[l]
  {
    if answers != [] {
      CountIsMultiplicity(answers[1..], l);
      assert answers == [answers[0]] + answers[1..];
      assert multiset(answers) == multiset{answers[0]} + multiset(answers[1..]);
    }
  }

  /** Only the counts matter: any reordering of the answers gives the same code. */
  lemma OrderIndependent(answers: seq<Letter>, reordered: seq<Letter>)
    requires multiset(answers) == multiset(reordered)
    ensures CountsOf(answers) == CountsOf(reordered)
    ensures ComputeType(answers) == ComputeType(reordered)
  {
    forall l | l in AllLetters
      ensures Count(answers, l) == Count(reordered, l)
    {
      CountIsMultiplicity(answers, l);
      CountIsMultiplicity(reordered, l);
    }
  }

  /** Tallying one more answer adds one to its own counter and leaves the other seven alone. */
  lemma {:induction false} CountAppend(answers: seq<Letter>, x: Letter, l: Letter)
    ensures Count(answers + [x], l) == Count(answers, l) + (if x == l then 1 else 0)
  {
    if answers != [] {
      assert (answers + [x])[1..] == answers[1..] + [x];
      CountAppend(answers[1..], x, l);
    }
  }

  /** Every answer is counted exactly once: the eight counters add up to the number of answers. */
  lemma {:induction false} CountsSumToLength(answers: seq<Letter>)
    ensures Count(answers, E) + Count(answers, I) + Count(answers, S) + Count(answers, N)
          + Count(answers, T) + Count(answers, F) + Count(answers, J) + Count(answers, P) == |answers|
  {
    if answers != [] {
      CountsSumToLength(answers[1..]);
    }
  }

  /**
   * The tally loop (`newAnswers.forEach(ans => counts[ans]++)`): start every counter at 0 and
   * add one per answer; the result is the counters of the whole sequence.
   */
  method TallyAnswers(answers: seq<Letter>) returns (counts: Counts)
    ensures HasAllLetters(counts)
    ensures forall l: Letter :: counts[l] == Count(answers, l)
  {
    counts := map[E := 0, I := 0, S := 0, N := 0, T := 0, F := 0, J := 0, P := 0];
    assert counts.Keys == AllLetters;
    AllLettersComplete();
    for i := 0 to |answers|
      invariant HasAllLetters(counts)
      invariant forall l: Letter :: counts[l] == Count(answers[..i], l)
    {
      var ans := answers[i];
      assert answers[..i + 1] == answers[..i] + [ans];
      forall l: Letter
        ensures Count(answers[..i + 1], l) == Count(answers[..i], l) + (if ans == l then 1 else 0)
      {
        CountAppend(answers[..i], ans, l);
      }
      counts := counts[ans := counts[ans] + 1];
    }
    assert answers[..|answers|] == answers;
  }

  /** The tally method computes exactly the counters of `CountsOf`. */
  lemma TallyMatchesCountsOf(answers: seq<Letter>, counts: Counts)
    requires HasAllLetters(counts)
    requires forall l: Letter :: counts[l] == Count(answers, l)
    ensures counts == CountsOf(answers)
    ensures TypeCodeOf(counts) == ComputeType(answers)
  {
    AllLettersComplete();
  }
}
