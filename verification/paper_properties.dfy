/** What the layout rules of the question paper guarantee: the shape of each
    question block, the grid/list boundary, positional labels, when a choice is
    marked, the order of the blocks and the header values. */
module PaperProperties {
  import opened Numerals
  import opened Whitespace
  import opened Paper

  /** The options that are shown: the first four in the grid, all of them in the list. */
  function ShownOptions(q: Question): (shown: seq<string>)
    ensures |shown| == if |q.answerOptions.GetOr([])| >= 4 then 4 else |q.answerOptions.GetOr([])|
    ensures shown <= q.answerOptions.GetOr([])
  {
    var options := q.answerOptions.GetOr([]);
    if |options| >= 4 then options[..4] else options
  }

  /** Choice k shows option k with label k, marked exactly when it is correct; in the
      grid it sits at row k / 2, column k % 2. */
  lemma AnswerPartShowsOptions(q: Question, showAnswer: bool)
    ensures |AnswerPart(q, showAnswer)| == |ShownOptions(q)|
    ensures forall k :: 0 <= k < |ShownOptions(q)| ==>
      var e := AnswerPart(q, showAnswer)[k];
      && e.IsChoice()
      && e.prefix == Prefixes[k]
      && e.option == ShownOptions(q)[k]
      && e.marked == IsCorrect(ShownOptions(q)[k], q, showAnswer)
      && (e.GridCell? <==> |q.answerOptions.GetOr([])| >= 4)
      && (e.GridCell? ==> e.row == k / 2 && e.col == k % 2)
  {
  }

  /** Four or more options: exactly the four cells (0,0), (0,1), (1,0), (1,1) with
      options 0 to 3 and labels ka) to gha). */
  lemma GridLayout(q: Question, showAnswer: bool)
    requires |q.answerOptions.GetOr([])| >= 4
    ensures var o := q.answerOptions.GetOr([]);
      AnswerPart(q, showAnswer) == [
        GridCell(0, 0, Prefixes[0], o[0], IsCorrect(o[0], q, showAnswer)),
        GridCell(0, 1, Prefixes[1], o[1], IsCorrect(o[1], q, showAnswer)),
        GridCell(1, 0, Prefixes[2], o[2], IsCorrect(o[2], q, showAnswer)),
        GridCell(1, 1, Prefixes[3], o[3], IsCorrect(o[3], q, showAnswer))]
  {
    var o := q.answerOptions.GetOr([]);
    var g := GridCells(o, 4, q, showAnswer);
    assert g[0] == Cell(o, 0, q, showAnswer) && g[1] == Cell(o, 1, q, showAnswer);
    assert g[2] == Cell(o, 2, q, showAnswer) && g[3] == Cell(o, 3, q, showAnswer);
  }

  /** Options beyond the fourth are dropped: cutting the list to four changes nothing. */
  lemma ExtraOptionsDropped(q: Question, showAnswer: bool)
    requires |q.answerOptions.GetOr([])| >= 4
    ensures AnswerPart(q.(answerOptions := Some(q.answerOptions.GetOr([])[..4])), showAnswer) == AnswerPart(q, showAnswer)
  {
    var o := q.answerOptions.GetOr([]);
    var q4 := q.(answerOptions := Some(o[..4]));
    assert CorrectKey(q4) == CorrectKey(q);
    var g, g4 := GridCells(o, 4, q, showAnswer), GridCells(o[..4], 4, q4, showAnswer);
    assert forall k :: 0 <= k < 4 ==> g4[k] == g[k];
  }

  /** Fewer than four options: one line per option, in order, line j labelled with
      label j, so the label index never exceeds the four labels. */
  lemma ListLayout(q: Question, showAnswer: bool)
    requires |q.answerOptions.GetOr([])| < 4
    ensures var o := q.answerOptions.GetOr([]);
      && |AnswerPart(q, showAnswer)| == |o|
      && forall j :: 0 <= j < |o| ==>
        AnswerPart(q, showAnswer)[j] == ListLine(Prefixes[j], o[j], IsCorrect(o[j], q, showAnswer))
  {
    var o := q.answerOptions.GetOr([]);
    assert forall j :: 0 <= j < |o| ==> ListLines(o, q, showAnswer)[j] == Line(o, j, q, showAnswer);
  }

  /** A "complex" question gets one bullet per sub-option, in order, then exactly one
      prompt (the given one or the default); any other type gets neither. */
  lemma ComplexLayout(q: Question)
    ensures q.kind != "complex" ==> ComplexPart(q) == []
    ensures q.kind == "complex" ==>
      var subs := q.subOptions.GetOr([]);
      && |ComplexPart(q)| == |subs| + 1
      && (forall i :: 0 <= i < |subs| ==> ComplexPart(q)[i] == Bullet(subs[i]))
      && ComplexPart(q)[|subs|] == Prompt(q.finalPrompt.GetOr(DefaultPrompt))
  {
  }

  /** A block is one bold question line "{id}. {text}", then the sub-options and prompt,
      then the choices: no other question line, and nothing after the first choice that
      is not a choice. */
  lemma BlockLayout(q: Question, showAnswer: bool)
    ensures |QuestionBlock(q, showAnswer)| == 1 + |ComplexPart(q)| + |AnswerPart(q, showAnswer)|
    ensures QuestionBlock(q, showAnswer)[0] == QuestionLine(q.id, q.questionText)
    ensures Runs(QuestionBlock(q, showAnswer)[0]) == [Run(q.id + ". " + q.questionText, true)]
    ensures forall i :: 1 <= i < |QuestionBlock(q, showAnswer)| ==>
      !QuestionBlock(q, showAnswer)[i].QuestionLine? && !QuestionBlock(q, showAnswer)[i].HeaderLine?
    ensures forall i :: 1 <= i < 1 + |ComplexPart(q)| ==>
      QuestionBlock(q, showAnswer)[i] == ComplexPart(q)[i - 1] && !QuestionBlock(q, showAnswer)[i].IsChoice()
    ensures forall i :: 1 + |ComplexPart(q)| <= i < |QuestionBlock(q, showAnswer)| ==>
      QuestionBlock(q, showAnswer)[i] == AnswerPart(q, showAnswer)[i - 1 - |ComplexPart(q)|]
      && QuestionBlock(q, showAnswer)[i].IsChoice()
  {
    BlockComplexSlots(q, showAnswer);
    BlockChoiceSlots(q, showAnswer);
  }

  /** The elements after the question line and before the choices are the complex part. */
  lemma BlockComplexSlots(q: Question, showAnswer: bool)
    ensures forall i :: 1 <= i < 1 + |ComplexPart(q)| ==>
      QuestionBlock(q, showAnswer)[i] == ComplexPart(q)[i - 1] && !QuestionBlock(q, showAnswer)[i].IsChoice()
  {
    var c := ComplexPart(q);
    var b := QuestionBlock(q, showAnswer);
    forall i | 1 <= i < 1 + |c| ensures b[i] == c[i - 1] && !b[i].IsChoice() {
      assert b[i] == ([QuestionLine(q.id, q.questionText)] + c)[i];
      assert c[i - 1].Bullet? || c[i - 1].Prompt?;
    }
  }

  /** The elements after the complex part are the answer part's choices. */
  lemma BlockChoiceSlots(q: Question, showAnswer: bool)
    ensures forall i :: 1 + |ComplexPart(q)| <= i < |QuestionBlock(q, showAnswer)| ==>
      QuestionBlock(q, showAnswer)[i] == AnswerPart(q, showAnswer)[i - 1 - |ComplexPart(q)|]
      && QuestionBlock(q, showAnswer)[i].IsChoice()
  {
    var head := [QuestionLine(q.id, q.questionText)] + ComplexPart(q);
    forall i | 1 + |ComplexPart(q)| <= i < |QuestionBlock(q, showAnswer)|
      ensures QuestionBlock(q, showAnswer)[i] == AnswerPart(q, showAnswer)[i - 1 - |ComplexPart(q)|]
      ensures QuestionBlock(q, showAnswer)[i].IsChoice()
    {
      ConcatIndex(head, AnswerPart(q, showAnswer), i);
    }
  }

  lemma ConcatIndex<T>(x: seq<T>, y: seq<T>, i: int)
    requires |x| <= i < |x| + |y|
    ensures (x + y)[i] == y[i - |x|]
  {
  }

  /** A choice is marked exactly when answers are shown and its stripped text equals the
      stripped correct answer; with answers hidden nothing in a block is marked. */
  lemma MarkedIffCorrect(q: Question, showAnswer: bool)
    ensures forall e :: e in AnswerPart(q, showAnswer) ==>
      e.IsChoice() && (e.IsMarked() <==> showAnswer && Strip(e.option) == Strip(q.correctAnswer.GetOr("")))
    ensures !showAnswer ==> forall e :: e in QuestionBlock(q, showAnswer) ==> !e.IsMarked()
  {
    AnswerPartShowsOptions(q, showAnswer);
    BlockLayout(q, showAnswer);
  }

  /** With answers shown, a question whose correct answer matches one shown option, and
      whose shown options are distinct once stripped, has exactly one marked choice. */
  lemma ExactlyOneMarked(q: Question, k: nat)
    requires k < |ShownOptions(q)| && Strip(ShownOptions(q)[k]) == CorrectKey(q)
    requires forall i, j :: 0 <= i < j < |ShownOptions(q)| ==> Strip(ShownOptions(q)[i]) != Strip(ShownOptions(q)[j])
    ensures AnswerPart(q, true)[k].IsMarked()
    ensures forall j :: 0 <= j < |AnswerPart(q, true)| && AnswerPart(q, true)[j].IsMarked() ==> j == k
  {
    AnswerPartShowsOptions(q, true);
  }

  /** How a choice looks: all its runs are bold exactly when it is marked; a grid cell
      starts with the filled bubble when marked and the empty one otherwise; a list line
      carries the " (correct answer)" run exactly when marked. */
  lemma ChoiceRendering(e: Element)
    requires e.IsChoice()
    ensures forall r :: r in Runs(e) ==> r.bold == e.marked
    ensures e.GridCell? ==> Runs(e)[0] == Run([if e.marked then FilledCircle else OmrCircle], e.marked)
    ensures e.GridCell? ==> Runs(e)[1] == Run(" " + e.prefix + " " + e.option, e.marked)
    ensures e.ListLine? ==> Runs(e)[0] == Run(e.prefix + " " + e.option, e.marked)
    ensures e.ListLine? ==> (Run(CorrectSuffix, true) in Runs(e) <==> e.marked)
  {
  }

  /** The student copy: nothing in the paper is marked. */
  lemma {:induction false} StudentCopyUnmarked(questions: seq<Question>)
    ensures forall e :: e in PaperFor(questions, false) ==> !e.IsMarked()
  {
    BodyUnmarked(questions);
  }

  lemma {:induction false} BodyUnmarked(questions: seq<Question>)
    ensures forall e :: e in PaperBody(questions, false) ==> !e.IsMarked()
  {
    if questions != [] {
      BodyUnmarked(questions[..|questions| - 1]);
      MarkedIffCorrect(questions[|questions| - 1], false);
    }
  }

  /** An element with its mark taken away. */
  function Unmark(e: Element): (r: Element)
    ensures !r.IsMarked()
    ensures e.IsChoice() ==> r == e.(marked := false)
    ensures !e.IsChoice() ==> r == e
  {
    match e
    case GridCell(row, col, prefix, option, _) => GridCell(row, col, prefix, option, false)
    case ListLine(prefix, option, _) => ListLine(prefix, option, false)
    case _ => e
  }

  function UnmarkAll(es: seq<Element>): (r: seq<Element>)
    ensures |r| == |es|
    ensures forall i :: 0 <= i < |es| ==> r[i] == Unmark(es[i])
  {
    if es == [] then [] else UnmarkAll(es[..|es| - 1]) + [Unmark(es[|es| - 1])]
  }

  /** The teacher copy and the student copy differ only in the marks: erasing the marks
      of the teacher copy gives the student copy. */
  lemma {:induction false} CopiesDifferOnlyInMarks(questions: seq<Question>)
    ensures UnmarkAll(PaperFor(questions, true)) == PaperFor(questions, false)
  {
    var h := HeaderFor(|questions|);
    assert PaperFor(questions, true) == [h] + PaperBody(questions, true);
    assert PaperFor(questions, false) == [h] + PaperBody(questions, false);
    BodyCopiesDifferOnlyInMarks(questions);
    UnmarkAllAppend([h], PaperBody(questions, true));
    assert UnmarkAll([h]) == [Unmark(h)] == [h];
  }

  lemma {:induction false} BodyCopiesDifferOnlyInMarks(questions: seq<Question>)
    ensures UnmarkAll(PaperBody(questions, true)) == PaperBody(questions, false)
  {
    if questions != [] {
      var init, q := questions[..|questions| - 1], questions[|questions| - 1];
      BodyCopiesDifferOnlyInMarks(init);
      BlockCopiesDifferOnlyInMarks(q);
      UnmarkAllAppend(PaperBody(init, true), QuestionBlock(q, true));
    }
  }

  lemma BlockCopiesDifferOnlyInMarks(q: Question)
    ensures UnmarkAll(QuestionBlock(q, true)) == QuestionBlock(q, false)
  {
    var head := [QuestionLine(q.id, q.questionText)] + ComplexPart(q);
    var teacher, student := AnswerPart(q, true), AnswerPart(q, false);
    assert QuestionBlock(q, true) == head + teacher;
    assert QuestionBlock(q, false) == head + student;
    UnmarkAllAppend(head, teacher);
    BlockHeadUnmarked(q);
    AnswerCopiesDifferOnlyInMarks(q);
  }

  /** The question line and the complex part hold no choice, so erasing marks keeps them. */
  lemma BlockHeadUnmarked(q: Question)
    ensures UnmarkAll([QuestionLine(q.id, q.questionText)] + ComplexPart(q)) == [QuestionLine(q.id, q.questionText)] + ComplexPart(q)
  {
    var head := [QuestionLine(q.id, q.questionText)] + ComplexPart(q);
    forall i | 0 <= i < |head| ensures !head[i].IsChoice() {
      if i > 0 {
        assert head[i] == ComplexPart(q)[i - 1];
      }
    }
    UnmarkNonChoices(head);
  }

  lemma UnmarkNonChoices(es: seq<Element>)
    requires forall i :: 0 <= i < |es| ==> !es[i].IsChoice()
    ensures UnmarkAll(es) == es
  {
  }

  lemma AnswerCopiesDifferOnlyInMarks(q: Question)
    ensures UnmarkAll(AnswerPart(q, true)) == AnswerPart(q, false)
  {
    var o := q.answerOptions.GetOr([]);
    var teacher, student := AnswerPart(q, true), AnswerPart(q, false);
    if |o| >= 4 {
      forall k | 0 <= k < 4 ensures UnmarkAll(teacher)[k] == student[k] {
        assert teacher[k] == Cell(o, k, q, true) && student[k] == Cell(o, k, q, false);
      }
    } else {
      forall j | 0 <= j < |o| ensures UnmarkAll(teacher)[j] == student[j] {
        assert teacher[j] == Line(o, j, q, true) && student[j] == Line(o, j, q, false);
      }
    }
  }

  lemma UnmarkAllAppend(a: seq<Element>, b: seq<Element>)
    ensures UnmarkAll(a + b) == UnmarkAll(a) + UnmarkAll(b)
  {
  }

  /** The question lines of a sequence of elements, in order. */
  function QuestionLinesOf(es: seq<Element>): (r: seq<Element>)
    ensures |r| <= |es|
    ensures forall e :: e in r ==> e in es && e.QuestionLine?
    ensures forall i :: 0 <= i < |es| && es[i].QuestionLine? ==> es[i] in r
  {
    if es == [] then []
    else
      var last := es[|es| - 1];
      QuestionLinesOf(es[..|es| - 1]) + (if last.QuestionLine? then [last] else [])
  }

  lemma {:induction false} QuestionLinesOfAppend(a: seq<Element>, b: seq<Element>)
    ensures QuestionLinesOf(a + b) == QuestionLinesOf(a) + QuestionLinesOf(b)
    decreases |b|
  {
    if b != [] {
      var ab := a + b;
      assert ab[..|ab| - 1] == a + b[..|b| - 1];
      QuestionLinesOfAppend(a, b[..|b| - 1]);
    } else {
      assert a + b == a;
    }
  }

  lemma {:induction false} NoQuestionLines(es: seq<Element>)
    requires forall i :: 0 <= i < |es| ==> !es[i].QuestionLine?
    ensures QuestionLinesOf(es) == []
  {
    if es != [] {
      NoQuestionLines(es[..|es| - 1]);
    }
  }

  lemma BlockQuestionLines(q: Question, showAnswer: bool)
    ensures QuestionLinesOf(QuestionBlock(q, showAnswer)) == [QuestionLine(q.id, q.questionText)]
  {
    var b := QuestionBlock(q, showAnswer);
    BlockLayout(q, showAnswer);
    NoQuestionLines(b[1..]);
    assert b == [b[0]] + b[1..];
    QuestionLinesOfAppend([b[0]], b[1..]);
    assert QuestionLinesOf([b[0]]) == [b[0]] by {
      assert [b[0]][..0] == [];
    }
  }

  /** The question line of each question, in input order. */
  function QuestionLinesFor(questions: seq<Question>): (r: seq<Element>)
    ensures |r| == |questions|
    ensures forall i :: 0 <= i < |questions| ==> r[i] == QuestionLine(questions[i].id, questions[i].questionText)
  {
    if questions == [] then []
    else
      var q := questions[|questions| - 1];
      QuestionLinesFor(questions[..|questions| - 1]) + [QuestionLine(q.id, q.questionText)]
  }

  /** One block per question, in input order: the question lines of the paper are the
      questions' own "{id}. {text}" lines, one each, in the order of the input. */
  lemma {:induction false} BlocksInInputOrder(questions: seq<Question>, showAnswer: bool)
    ensures QuestionLinesOf(PaperBody(questions, showAnswer)) == QuestionLinesFor(questions)
  {
    if questions != [] {
      var init, q := questions[..|questions| - 1], questions[|questions| - 1];
      BlocksInInputOrder(init, showAnswer);
      var body, block := PaperBody(init, showAnswer), QuestionBlock(q, showAnswer);
      assert PaperBody(questions, showAnswer) == body + block;
      QuestionLinesOfAppend(body, block);
      BlockQuestionLines(q, showAnswer);
    }
  }

  /** The header: time and marks are the same string, the numeral of the question count;
      the line reads "Time— {t} minutes", a tab, "Full marks— {m}"; the numeral is made
      of Bengali digits and reads back as the count. */
  lemma HeaderFromCount(questions: seq<Question>, showAnswer: bool)
    ensures PaperFor(questions, showAnswer)[0] == HeaderFor(|questions|)
    ensures var h := HeaderFor(|questions|);
      && h.time == h.marks == ToBengali(DecimalString(|questions|))
      && Runs(h) == [Run(TimeLabel + h.time + MinutesWord, false), Run("\t", false), Run(MarksLabel + h.marks, false)]
      && (forall i :: 0 <= i < |h.time| ==> IsBengaliDigit(h.time[i]))
      && FromBengali(h.time) == DecimalString(|questions|)
      && DecimalValue(FromBengali(h.time)) == |questions|
  {
    CountNumeralDeterminesCount(|questions|);
  }

  /** Answer " B " against options A, B, C, D: with answers shown, B (and only B) is
      marked, because both sides are stripped before comparing. */
  lemma TrimmedAnswerMatches()
    ensures var q := Question("1", "Q", "simple", None, None, Some(["A", "B", "C", "D"]), Some(" B "));
      AnswerPart(q, true) == [
        GridCell(0, 0, Prefixes[0], "A", false), GridCell(0, 1, Prefixes[1], "B", true),
        GridCell(1, 0, Prefixes[2], "C", false), GridCell(1, 1, Prefixes[3], "D", false)]
  {
    var q := Question("1", "Q", "simple", None, None, Some(["A", "B", "C", "D"]), Some(" B "));
    StripUnique(" ", "B", " ");
    assert " " + "B" + " " == " B ";
    assert CorrectKey(q) == "B";
    LettersStripToThemselves();
    GridLayout(q, true);
  }

  /** The option letters of the two examples strip to themselves. */
  lemma LettersStripToThemselves()
    ensures Strip("A") == "A" && Strip("B") == "B" && Strip("C") == "C" && Strip("D") == "D" && Strip("b") == "b"
  {
    StripLetter('A');
    StripLetter('B');
    StripLetter('C');
    StripLetter('D');
    StripLetter('b');
  }

  /** A single non-space character strips to itself. */
  lemma StripLetter(c: char)
    requires !IsSpace(c)
    ensures Strip([c]) == [c]
  {
    StripUnique([], [c], []);
    assert [] + [c] + [] == [c];
  }

  /** Answer "b" against options A, B, C, D: the comparison is case-sensitive, so nothing
      is marked. */
  lemma CaseMismatchMarksNothing()
    ensures var q := Question("1", "Q", "simple", None, None, Some(["A", "B", "C", "D"]), Some("b"));
      AnswerPart(q, true) == [
        GridCell(0, 0, Prefixes[0], "A", false), GridCell(0, 1, Prefixes[1], "B", false),
        GridCell(1, 0, Prefixes[2], "C", false), GridCell(1, 1, Prefixes[3], "D", false)]
  {
    var q := Question("1", "Q", "simple", None, None, Some(["A", "B", "C", "D"]), Some("b"));
    LettersStripToThemselves();
    assert CorrectKey(q) == "b";
    GridLayout(q, true);
  }

  /** A complex question with two sub-options, no final prompt and three options: the
      question line, both bullets, the default prompt, then three list lines. */
  lemma ComplexWithDefaultPrompt()
    ensures var q := Question("2", "Q", "complex", Some(["X is true", "Y is false"]), None, Some(["a", "b", "c"]), Some("z"));
      QuestionBlock(q, false) == [
        QuestionLine("2", "Q"), Bullet("X is true"), Bullet("Y is false"), Prompt(DefaultPrompt),
        ListLine(Prefixes[0], "a", false), ListLine(Prefixes[1], "b", false), ListLine(Prefixes[2], "c", false)]
  {
    var q := Question("2", "Q", "complex", Some(["X is true", "Y is false"]), None, Some(["a", "b", "c"]), Some("z"));
    ComplexLayout(q);
    ListLayout(q, false);
  }
}
