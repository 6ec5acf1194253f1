/** The question paper: question records, the abstract elements a paper is made of,
    the layout rules of add_question_to_document and create_question_paper as
    functions, and the document-building methods proved against them. */
module Paper {
  import opened Numerals
  import opened Whitespace

  datatype Option<T> = None | Some(value: T) {
    /** `q.get(key, default)` */
    function GetOr(default: T): T {
      match this
      case Some(v) => v
      case None => default
    }
  }

  datatype Result<T, E> = Success(value: T) | Failure(error: E)

  /** Why the question list could not be loaded. */
  datatype LoadError = FileNotFound | JsonDecodeError

  /** One question record of the JSON list. `id`, `question_text` and `type` are read
      with `q[...]` and so must be present; the other keys are read with a default. */
  datatype Question = Question(
    id: string,
    questionText: string,
    kind: string,
    subOptions: Option<seq<string>>,
    finalPrompt: Option<string>,
    answerOptions: Option<seq<string>>,
    correctAnswer: Option<string>)

  /** A run of text with its weight. */
  datatype Run = Run(text: string, bold: bool)

  /** What the paper is made of, in document order. */
  datatype Element =
    | HeaderLine(time: string, marks: string)
    | QuestionLine(id: string, text: string)
    | Bullet(text: string)
    | Prompt(text: string)
    | GridCell(row: nat, col: nat, prefix: string, option: string, marked: bool)
    | ListLine(prefix: string, option: string, marked: bool)
  {
    /** An answer choice, in either layout. */
    predicate IsChoice() {
      GridCell? || ListLine?
    }

    /** Whether this element shows a choice as the correct answer. */
    predicate IsMarked() {
      IsChoice() && marked
    }
  }

  const OmrCircle: char := '\U{25EF}'
  const FilledCircle: char := '\U{25CF}'

  /** The four positional labels ka), kha), ga), gha). */
  const Prefixes: seq<string> := ["\U{0995})", "\U{0996})", "\U{0997})", "\U{0998})"]

  /** "Which of the following is correct?" */
  const DefaultPrompt: string :=
    "\U{09A8}\U{09BF}\U{099A}\U{09C7}\U{09B0} \U{0995}\U{09CB}\U{09A8}\U{099F}\U{09BF} \U{09B8}\U{09A0}\U{09BF}\U{0995}?"

  /** " (correct answer)" */
  const CorrectSuffix: string := " (\U{09B8}\U{09A0}\U{09BF}\U{0995} \U{0989}\U{09A4}\U{09CD}\U{09A4}\U{09B0})"

  /** "Time— " and " minutes" around the time value. */
  const TimeLabel: string := "\U{09B8}\U{09AE}\U{09DF}\U{2014} "
  const MinutesWord: string := " \U{09AE}\U{09BF}\U{09A8}\U{09BF}\U{099F}"

  /** "Full marks— " before the marks value. */
  const MarksLabel: string := "\U{09AA}\U{09C2}\U{09B0}\U{09CD}\U{09A3}\U{09AE}\U{09BE}\U{09A8}\U{2014} "

  /** The runs each element writes into the document. */
  function Runs(e: Element): (r: seq<Run>)
    ensures 1 <= |r| <= 3
    ensures forall i :: 0 <= i < |r| ==> r[i].bold == (e.QuestionLine? || e.Prompt? || e.IsMarked())
  {
    match e
    case HeaderLine(t, m) => [Run(TimeLabel + t + MinutesWord, false), Run("\t", false), Run(MarksLabel + m, false)]
    case QuestionLine(id, text) => [Run(id + ". " + text, true)]
    case Bullet(text) => [Run(text, false)]
    case Prompt(text) => [Run(text, true)]
    case GridCell(_, _, prefix, option, marked) =>
      [Run([if marked then FilledCircle else OmrCircle], marked), Run(" " + prefix + " " + option, marked)]
    case ListLine(prefix, option, marked) =>
      [Run(prefix + " " + option, marked)] + (if marked then [Run(CorrectSuffix, true)] else [])
  }

  /** `str(q.get("correct_answer", "")).strip()` */
  function CorrectKey(q: Question): (key: string)
    ensures IsTrimmed(key)
    ensures |key| <= |q.correctAnswer.GetOr("")|
    ensures q.correctAnswer.None? ==> key == ""
  {
    Strip(q.correctAnswer.GetOr(""))
  }

  /** Whether an option is shown as correct: only with answers shown, and only when it
      equals the correct answer once both are stripped. */
  function IsCorrect(option: string, q: Question, showAnswer: bool): (correct: bool)
    ensures correct ==> showAnswer
    ensures showAnswer && option == q.correctAnswer.GetOr("") ==> correct
    ensures correct ==> AllSpace(option) == AllSpace(q.correctAnswer.GetOr(""))
  {
    showAnswer && Strip(option) == CorrectKey(q)
  }

  /** One bullet per sub-option, in order. */
  function Bullets(subs: seq<string>): (r: seq<Element>)
    ensures |r| == |subs|
    ensures forall i :: 0 <= i < |subs| ==> r[i] == Bullet(subs[i])
  {
    if subs == [] then [] else Bullets(subs[..|subs| - 1]) + [Bullet(subs[|subs| - 1])]
  }

  /** The sub-options and closing prompt of a "complex" question; nothing otherwise. */
  function ComplexPart(q: Question): (r: seq<Element>)
    ensures q.kind != "complex" ==> r == []
    ensures q.kind == "complex" ==> |r| == |q.subOptions.GetOr([])| + 1 && r[|r| - 1].Prompt?
    ensures forall i :: 0 <= i < |r| - 1 ==> r[i] == Bullet(q.subOptions.GetOr([])[i])
  {
    if q.kind == "complex" then
      Bullets(q.subOptions.GetOr([])) + [Prompt(q.finalPrompt.GetOr(DefaultPrompt))]
    else
      []
  }

  /** The grid cell for option k (k < 4): row k / 2, column k % 2, label k. */
  function Cell(options: seq<string>, k: nat, q: Question, showAnswer: bool): Element
    requires k < 4 && k < |options|
  {
    GridCell(k / 2, k % 2, Prefixes[k], options[k], IsCorrect(options[k], q, showAnswer))
  }

  /** The first n cells of the 2x2 table, filled in the order (0,0), (0,1), (1,0), (1,1). */
  function GridCells(options: seq<string>, n: nat, q: Question, showAnswer: bool): (r: seq<Element>)
    requires n <= 4 && n <= |options|
    ensures |r| == n
    ensures forall k :: 0 <= k < n ==> r[k] == Cell(options, k, q, showAnswer)
  {
    if n == 0 then [] else GridCells(options, n - 1, q, showAnswer) + [Cell(options, n - 1, q, showAnswer)]
  }

  /** The list line for option j (j < 4): label j, then the option. */
  function Line(options: seq<string>, j: nat, q: Question, showAnswer: bool): Element
    requires j < 4 && j < |options|
  {
    ListLine(Prefixes[j], options[j], IsCorrect(options[j], q, showAnswer))
  }

  /** One labelled line per option, for fewer than four options. */
  function ListLines(options: seq<string>, q: Question, showAnswer: bool): (r: seq<Element>)
    requires |options| <= 4
    ensures |r| == |options|
    ensures forall j :: 0 <= j < |options| ==> r[j] == Line(options, j, q, showAnswer)
  {
    if options == [] then []
    else
      ListLines(options[..|options| - 1], q, showAnswer) + [Line(options, |options| - 1, q, showAnswer)]
  }

  /** The answer options of a question: the grid for four or more, the list otherwise. */
  function AnswerPart(q: Question, showAnswer: bool): (r: seq<Element>)
    ensures |r| == if |q.answerOptions.GetOr([])| >= 4 then 4 else |q.answerOptions.GetOr([])|
    ensures forall k :: 0 <= k < |r| ==> r[k].IsChoice() && r[k].option == q.answerOptions.GetOr([])[k]
  {
    var options := q.answerOptions.GetOr([]);
    if |options| >= 4 then GridCells(options, 4, q, showAnswer) else ListLines(options, q, showAnswer)
  }

  /** Everything add_question_to_document adds for one question. */
  function QuestionBlock(q: Question, showAnswer: bool): (r: seq<Element>)
    ensures |r| == 1 + |ComplexPart(q)| + |AnswerPart(q, showAnswer)|
    ensures r[0] == QuestionLine(q.id, q.questionText)
    ensures forall i :: 1 <= i < |r| ==> !r[i].QuestionLine?
    ensures forall i :: 0 <= i < |r| ==> !r[i].HeaderLine?
  {
    [QuestionLine(q.id, q.questionText)] + ComplexPart(q) + AnswerPart(q, showAnswer)
  }

  /** The question blocks of a list of questions, in input order. */
  function PaperBody(questions: seq<Question>, showAnswer: bool): (r: seq<Element>)
    ensures |r| >= |questions|
    ensures questions != [] ==> r[0] == QuestionLine(questions[0].id, questions[0].questionText)
    ensures questions == [] ==> r == []
    ensures forall i :: 0 <= i < |r| ==> !r[i].HeaderLine?
  {
    if questions == [] then []
    else
      PaperBody(questions[..|questions| - 1], showAnswer) + QuestionBlock(questions[|questions| - 1], showAnswer)
  }

  lemma AppendAssoc<T>(a: seq<T>, b: seq<T>, c: seq<T>)
    ensures a + (b + c) == (a + b) + c
  {
  }

  /** Adding question i to the blocks of the questions before it gives the blocks up to i. */
  lemma PaperBodyAppendOne(questions: seq<Question>, i: nat, showAnswer: bool)
    requires i < |questions|
    ensures PaperBody(questions[..i + 1], showAnswer) == PaperBody(questions[..i], showAnswer) + QuestionBlock(questions[i], showAnswer)
  {
    assert questions[..i + 1][..i] == questions[..i];
  }

  /** The time / full-marks line: both values are the numeral of the question count. */
  function HeaderFor(count: nat): (h: Element)
    ensures h.HeaderLine? && h.time == h.marks
    ensures forall i :: 0 <= i < |h.time| ==> IsBengaliDigit(h.time[i])
    ensures FromBengali(h.time) == DecimalString(count)
  {
    CountNumeralDeterminesCount(count);
    HeaderLine(CountNumeral(count), CountNumeral(count))
  }

  /** The whole paper: the header line, then the question blocks. */
  function PaperFor(questions: seq<Question>, showAnswer: bool): (r: seq<Element>)
    ensures |r| == 1 + |PaperBody(questions, showAnswer)|
    ensures r[0] == HeaderFor(|questions|)
    ensures forall i :: 1 <= i < |r| ==> !r[i].HeaderLine?
  {
    [HeaderFor(|questions|)] + PaperBody(questions, showAnswer)
  }

  /** The document being built, as the sequence of elements added so far. */
  class Document {
    var elements: seq<Element>

    constructor ()
      ensures elements == []
    {
      elements := [];
    }

    /** Appends one paragraph, table cell or line. */
    method Add(e: Element)
      modifies this
      ensures elements == old(elements) + [e]
    {
      elements := elements + [e];
    }
  }

  /** Section B of add_question_to_document: for a "complex" question, one bullet per
      sub-option and then the bold prompt; nothing for any other type. */
  method AddComplexPart(document: Document, q: Question)
    modifies document
    ensures document.elements == old(document.elements) + ComplexPart(q)
  {
    if q.kind == "complex" {
      var subs := q.subOptions.GetOr([]);
      for i := 0 to |subs|
        invariant document.elements == old(document.elements) + Bullets(subs[..i])
      {
        assert subs[..i + 1][..i] == subs[..i];
        document.Add(Bullet(subs[i]));
      }
      assert subs[..|subs|] == subs;
      document.Add(Prompt(q.finalPrompt.GetOr(DefaultPrompt)));
    }
  }

  /** Section C, four or more options: the cells (0,0), (0,1), (1,0), (1,1) get
      options 0 to 3 with labels 0 to 3; a correct option is marked. */
  method AddAnswerGrid(document: Document, options: seq<string>, correctAns: string, q: Question, showAnswer: bool)
    requires |options| >= 4 && correctAns == CorrectKey(q)
    modifies document
    ensures document.elements == old(document.elements) + GridCells(options, 4, q, showAnswer)
  {
    var cellData: seq<(nat, nat, string, string)> :=
      [(0, 0, options[0], Prefixes[0]), (0, 1, options[1], Prefixes[1]),
       (1, 0, options[2], Prefixes[2]), (1, 1, options[3], Prefixes[3])];
    for k := 0 to 4
      invariant document.elements == old(document.elements) + GridCells(options, k, q, showAnswer)
    {
      var (row, col, optionText, prefix) := cellData[k];
      assert row == k / 2 && col == k % 2 && optionText == options[k] && prefix == Prefixes[k];
      var isCorrect := showAnswer && Strip(optionText) == correctAns;
      document.Add(GridCell(row, col, prefix, optionText, isCorrect));
    }
  }

  /** Section C, fewer than four options: one labelled line per option, in order. */
  method AddAnswerList(document: Document, options: seq<string>, correctAns: string, q: Question, showAnswer: bool)
    requires |options| < 4 && correctAns == CorrectKey(q)
    modifies document
    ensures document.elements == old(document.elements) + ListLines(options, q, showAnswer)
  {
    for j := 0 to |options|
      invariant document.elements == old(document.elements) + ListLines(options[..j], q, showAnswer)
    {
      var isCorrect := showAnswer && Strip(options[j]) == correctAns;
      assert options[..j + 1][..j] == options[..j];
      document.Add(ListLine(Prefixes[j], options[j], isCorrect));
    }
    assert options[..|options|] == options;
  }

  /** add_question_to_document: appends the bold question line, the sub-options and prompt
      of a complex question, and the answer grid or list. */
  method AddQuestionToDocument(document: Document, q: Question, showAnswer: bool)
    modifies document
    ensures document.elements == old(document.elements) + QuestionBlock(q, showAnswer)
  {
    document.Add(QuestionLine(q.id, q.questionText));
    AddComplexPart(document, q);
    ghost var beforeAnswers := document.elements;
    assert beforeAnswers == old(document.elements) + ([QuestionLine(q.id, q.questionText)] + ComplexPart(q));

    var options := q.answerOptions.GetOr([]);
    var correctAns := Strip(q.correctAnswer.GetOr(""));
    if |options| >= 4 {
      AddAnswerGrid(document, options, correctAns, q, showAnswer);
    } else {
      AddAnswerList(document, options, correctAns, q, showAnswer);
    }
    assert document.elements == beforeAnswers + AnswerPart(q, showAnswer);
    AppendAssoc(old(document.elements), [QuestionLine(q.id, q.questionText)] + ComplexPart(q), AnswerPart(q, showAnswer));
  }

  /** The per-question loop of create_question_paper: each question is added in input order. */
  method AddQuestions(document: Document, questions: seq<Question>, showAnswer: bool)
    modifies document
    ensures document.elements == old(document.elements) + PaperBody(questions, showAnswer)
  {
    for i := 0 to |questions|
      invariant document.elements == old(document.elements) + PaperBody(questions[..i], showAnswer)
    {
      PaperBodyAppendOne(questions, i, showAnswer);
      AppendAssoc(old(document.elements), PaperBody(questions[..i], showAnswer), QuestionBlock(questions[i], showAnswer));
      AddQuestionToDocument(document, questions[i], showAnswer);
    }
    assert questions[..|questions|] == questions;
  }

  /** create_question_paper without its file I/O: a failed load produces no document;
      otherwise the header line carries the numeral of the count twice, as time and as
      marks, and the questions follow. */
  method CreateQuestionPaper(loaded: Result<seq<Question>, LoadError>, showAnswer: bool) returns (document: Document?)
    ensures loaded.Failure? ==> document == null
    ensures loaded.Success? ==> document != null && fresh(document) && document.elements == PaperFor(loaded.value, showAnswer)
  {
    if loaded.Failure? {
      return null;
    }
    var questions := loaded.value;
    var numQuestions := |questions|;
    var bengaliMarks := ToBengaliNumeral(DecimalString(numQuestions));
    var bengaliTime := bengaliMarks;

    document := new Document();
    document.Add(HeaderLine(bengaliTime, bengaliMarks));
    AddQuestions(document, questions, showAnswer);
  }
}
