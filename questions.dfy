/**
 * The fixed question table that the start-screen controller (`Start1`) hands,
 * one entry at a time, to the quiz component.
 */
module QuestionTable {

  /** One multiple-choice entry: the prompt, the text of the right answer and the option texts in display order. */
  datatype Question = Question(prompt: string, answer: string, options: seq<string>)

  /** How many positions of `s` hold `x`. */
  function Occurrences(s: seq<string>, x: string): (n: nat)
    ensures n <= |s|
    ensures n == 0 <==> x !in s
  {
    if s == [] then 0 else (if s[0] == x then 1 else 0) + Occurrences(s[1..], x)
  }

  /** Four options, no two alike, and the answer is exactly one of them. */
  predicate WellFormed(q: Question) {
    && |q.options| == 4
    && Occurrences(q.options, q.answer) == 1
    && forall i, j :: 0 <= i < j < |q.options| ==> q.options[i] != q.options[j]
  }

  /** The five questions, in presentation order. */
  function Questions(): (qs: seq<Question>)
    ensures |qs| == 5
  {
    [ Question("What is the capital of Japan?", "Tokyo",
               ["Beijing", "Tokyo", "Seoul", "Bangkok"]),
      Question("Which planet is known as the Red Planet?", "Mars",
               ["Earth", "Mars", "Venus", "Jupiter"]),
      Question("Who wrote the play 'Romeo and Juliet'?", "William Shakespeare",
               ["Charles Dickens", "Mark Twain", "William Shakespeare", "Jane Austen"]),
      Question("What is the largest ocean on Earth?", "Pacific Ocean",
               ["Atlantic Ocean", "Arctic Ocean", "Indian Ocean", "Pacific Ocean"]),
      Question("Which animal is known as the King of the Jungle?", "Lion",
               ["Elephant", "Tiger", "Lion", "Giraffe"]) ]
  }

  /** There are five entries, each well formed. */
  lemma QuestionsWellFormed()
    ensures |Questions()| == 5
    ensures forall k :: 0 <= k < |Questions()| ==> WellFormed(Questions()[k])
  {
    forall k | 0 <= k < |Questions()| ensures WellFormed(Questions()[k]) {
      EntryWellFormed(k);
    }
  }

  lemma EntryWellFormed(k: nat)
    requires k < |Questions()|
    ensures WellFormed(Questions()[k])
  {
    var q := Questions()[k];
    var o := q.options;
    assert |o| == 4;
    assert o[0] != o[1] && o[0] != o[2] && o[0] != o[3] && o[1] != o[2] && o[1] != o[3] && o[2] != o[3];
    assert o[3..][1..] == [];
    assert Occurrences(o, q.answer) == 1;
  }

  /**
   * No two entries share a prompt. The quiz component resets itself when its
   * prompt text changes, so this is what makes every advance a reset.
   */
  lemma PromptsDistinct()
    ensures forall i, j :: 0 <= i < j < |Questions()| ==> Questions()[i].prompt != Questions()[j].prompt
  {
  }
}
