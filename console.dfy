/** The console as the scripts read it: one line per `input()` call. */
module Console {

  /** What Python's `int()` makes of a line: a number, or a ValueError. */
  datatype Number = Int(value: int) | NotANumber

  /** One line typed at a prompt. A prompt that wants text reads `text`;
      a prompt that wants a number reads `number`, which is what `int()`
      gives for that same text. */
  datatype Line = Line(text: string, number: Number)

  function Texts(lines: seq<Line>): (r: seq<string>)
    ensures |r| == |lines| && forall i :: 0 <= i < |lines| ==> r[i] == lines[i].text
  {
    seq(|lines|, i requires 0 <= i < |lines| => lines[i].text)
  }

  function LowerChar(c: char): char {
    if 'A' <= c <= 'Z' then (c as int - 'A' as int + 'a' as int) as char else c
  }

  /** `str.lower()` on the ASCII letters. */
  function Lower(s: string): (r: string)
    ensures |r| == |s| && forall i :: 0 <= i < |s| ==> r[i] == LowerChar(s[i])
  {
    seq(|s|, i requires 0 <= i < |s| => LowerChar(s[i]))
  }

  /** The `text.lower() == "done"` sentinel that ends the input loops. */
  predicate IsDone(s: string) {
    Lower(s) == "done"
  }

  /** The sentinel is "done" in any letter case, and nothing else. */
  lemma IsDoneCases(s: string)
    ensures IsDone(s) <==>
      && |s| == 4
      && (s[0] == 'd' || s[0] == 'D')
      && (s[1] == 'o' || s[1] == 'O')
      && (s[2] == 'n' || s[2] == 'N')
      && (s[3] == 'e' || s[3] == 'E')
  {
    if |s| == 4 && IsDone(s) {
      assert Lower(s)[0] == 'd' && Lower(s)[1] == 'o' && Lower(s)[2] == 'n' && Lower(s)[3] == 'e';
    }
  }

  /** What a retry loop ends with: an accepted answer, or no line left to
      read (where Python's `input()` would raise EOFError). */
  datatype Prompted<+T> = Answer(value: T) | Exhausted

  /** A number prompt's outcome and how many lines it read. */
  datatype Asked = Asked(answer: Prompted<int>, consumed: nat)

  /** An attempt a `lo <= int(text) <= hi` check lets through. */
  predicate Accepts(n: Number, lo: int, hi: int) {
    n.Int? && lo <= n.value <= hi
  }

  /** The `while True: try: int(input()) ...` pattern: read lines until one
      holds a number in lo..hi. Non-numbers and numbers out of range are
      rejected and the prompt repeats. */
  function AskNumber(lines: seq<Line>, lo: int, hi: int): (r: Asked)
    ensures r.consumed <= |lines|
    ensures r.answer.Exhausted? ==> r.consumed == |lines|
    ensures r.answer.Answer? ==>
      && r.consumed >= 1
      && Accepts(lines[r.consumed - 1].number, lo, hi)
      && r.answer.value == lines[r.consumed - 1].number.value
    ensures forall j :: 0 <= j < |lines| && j < r.consumed - (if r.answer.Answer? then 1 else 0) ==>
      !Accepts(lines[j].number, lo, hi)
  {
    if lines == [] then Asked(Exhausted, 0)
    else if Accepts(lines[0].number, lo, hi) then Asked(Answer(lines[0].number.value), 1)
    else
      var rest := AskNumber(lines[1..], lo, hi);
      Asked(rest.answer, rest.consumed + 1)
  }

  /** The answer always lies in lo..hi, and an empty range can only run out of input. */
  lemma AskNumberInRange(lines: seq<Line>, lo: int, hi: int)
    ensures AskNumber(lines, lo, hi).answer.Answer? ==> lo <= AskNumber(lines, lo, hi).answer.value <= hi
    ensures hi < lo ==> AskNumber(lines, lo, hi) == Asked(Exhausted, |lines|)
  {
  }

  /** Lines after the answer are never read: appending input changes nothing. */
  lemma {:induction false} AskNumberIgnoresLater(lines: seq<Line>, more: seq<Line>, lo: int, hi: int)
    requires AskNumber(lines, lo, hi).answer.Answer?
    ensures AskNumber(lines + more, lo, hi) == AskNumber(lines, lo, hi)
  {
    assert lines != [];
    if !Accepts(lines[0].number, lo, hi) {
      assert (lines + more)[1..] == lines[1..] + more;
      AskNumberIgnoresLater(lines[1..], more, lo, hi);
    }
  }
}
