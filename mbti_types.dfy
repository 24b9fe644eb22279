/**
 * The shared vocabulary of the quiz (types.ts): the eight trait letters, the four axes,
 * questions with exactly two options, and the per-theme content tables.
 */
module MbtiTypes {
  import opened Wrappers

  /** `MBTI_Value`: one pole of one axis. */
  datatype Letter = E | I | S | N | T | F | J | P

  /** `MBTI_Axis`. */
  datatype Axis = EI | SN | TF | JP

  /** One answer choice (`Option` in types.ts; its `label` is `labelText`, as `label` is a Dafny keyword). */
  datatype Choice = Choice(value: Letter, labelText: string)

  /** A question: one axis and a pair of options, so there are exactly two. */
  datatype Question = Question(axis: Axis, prompt: string, options: (Choice, Choice))

  /** A character description; `episodeNote` is optional. */
  datatype CharacterResult = CharacterResult(name: string, desc: string, longDesc: string, episodeNote: Option<string>)

  /** Display metadata of one theme (anime franchise). */
  datatype ThemeMeta = ThemeMeta(id: string, labelText: string, emoji: string, gradient: string, tags: seq<string>, accentColor: string)

  /** A theme's questions and its character table, keyed by type code. */
  datatype ThemeContent = ThemeContent(questions: seq<Question>, results: map<string, CharacterResult>)

  /** The axes in type-code order. */
  const AxisOrder: seq<Axis> := [EI, SN, TF, JP]

  /** The pole written first in an axis name, which also wins ties. */
  function FirstPole(a: Axis): Letter {
    match a
    case EI => E
    case SN => S
    case TF => T
    case JP => J
  }

  function SecondPole(a: Axis): Letter {
    match a
    case EI => I
    case SN => N
    case TF => F
    case JP => P
  }

  /** The axis a letter belongs to. */
  function AxisOf(l: Letter): (a: Axis)
    ensures l == FirstPole(a) || l == SecondPole(a)
  {
    match l
    case E | I => EI
    case S | N => SN
    case T | F => TF
    case J | P => JP
  }

  /** The letter on the other side of the same axis. */
  function Opposite(l: Letter): (o: Letter)
    ensures AxisOf(o) == AxisOf(l) && o != l
  {
    var a := AxisOf(l);
    if l == FirstPole(a) then SecondPole(a) else FirstPole(a)
  }

  /** Every letter is exactly one pole of exactly one axis. */
  lemma PolesPartitionLetters(l: Letter, a: Axis)
    ensures (l == FirstPole(a) || l == SecondPole(a)) <==> AxisOf(l) == a
    ensures FirstPole(a) != SecondPole(a)
  {
  }

  /** The one-character string of a letter. */
  function LetterChar(l: Letter): char {
    match l
    case E => 'E' case I => 'I' case S => 'S' case N => 'N'
    case T => 'T' case F => 'F' case J => 'J' case P => 'P'
  }

  /** The letter a character spells, if any. */
  function ParseLetter(c: char): (r: Option<Letter>)
    ensures r.Some? ==> LetterChar(r.value) == c
  {
    match c
    case 'E' => Some(E) case 'I' => Some(I) case 'S' => Some(S) case 'N' => Some(N)
    case 'T' => Some(T) case 'F' => Some(F) case 'J' => Some(J) case 'P' => Some(P)
    case _ => None
  }

  lemma ParseLetterChar(l: Letter)
    ensures ParseLetter(LetterChar(l)) == Some(l)
  {
  }

  /** A theme's questions are well formed when each offers the two poles of its own axis. */
  predicate WellFormedQuestion(q: Question) {
    {q.options.0.value, q.options.1.value} == {FirstPole(q.axis), SecondPole(q.axis)}
  }
}
