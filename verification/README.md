# Question paper generator — a Dafny model

The program turns a list of multiple-choice question records into an exam paper.
It produces two copies: a student copy with no answers shown and a teacher copy
with the correct answers marked. This project models the paper's content, in
`generate_paper.py`:

- **Numerals** (`numerals.dfy`, module `Numerals`). `to_bengali_numeral` maps the
  decimal string of a number character by character. Each ASCII digit is looked up
  in a fixed ten-entry table of Bengali digits; every other character is kept.
  `str(n)` of a count is modelled as `DecimalString`.
- **Trimming** (`whitespace.dfy`, module `Whitespace`). Python's argument-less
  `str.strip()` is modelled over the full set of characters that Python's
  `str.isspace()` accepts. It is used to compare an option with the correct answer.
- **Layout** (`paper.dfy`, module `Paper`). The document is a `Document` object
  whose `elements` sequence grows as paragraphs, bullets, table cells and lines are
  added, as python-docx does in place. Its element kinds are:
  - the header line (time, marks);
  - the bold question line `"{id}. {question_text}"`;
  - the sub-option bullets and the bold prompt of a `"complex"` question;
  - the cells of the 2x2 answer grid, for four or more options;
  - the labelled lines of the vertical list, for fewer than four options.

  Each grid cell and list line carries a flag that says whether it is shown as
  the correct answer. `Runs` gives the text runs and the bold flag each element
  writes. The layout rules are spec functions, `QuestionBlock` for one record and
  `PaperFor` for the whole paper. The methods `AddQuestionToDocument` and
  `CreateQuestionPaper` follow the source's loops and are proved to build exactly
  those sequences.
- **Properties** (`paper_properties.dfy`, module `PaperProperties`):
  - the grid / list boundary at four options;
  - positional labels;
  - the exact marking rule;
  - the student copy marks nothing, and the two copies differ only in marks;
  - one block per question, in input order;
  - the header derivation;
  - worked examples: a padded answer, a case mismatch, and a complex question without a prompt.

Two behaviours of the code differ from what a reader might expect; the model follows the code:

- **Absent `type`.** A reader might expect a record without `type` to count as
  "simple". The code reads `q["type"]` directly (`generate_paper.py:38`), so such
  a record raises. `Question.kind` is therefore a required field.
- **"Exactly one option marked".** A reader might expect exactly one option to be
  marked whenever the correct answer matches an entry. The code marks every shown option
  whose stripped text equals the stripped correct answer: two equal options are
  both marked, and a match at index 4 or beyond marks nothing in the grid.
  `ExactlyOneMarked` states the condition under which exactly one is marked.

## Model

| member | source | states |
|---|---|---|
| Numerals.LocalizeChar | generate_paper.py:13-19 | an ASCII digit becomes the table's Bengali digit, which is U+09E6 plus the digit's value; any other character is returned unchanged |
| Numerals.ToBengali | generate_paper.py:11-20 | the converted string has the input's length, and character i is the lookup of input character i |
| Numerals.ToBengaliNumeral | generate_paper.py:17-20 | the append loop builds exactly the per-character conversion of its input |
| Numerals.ToBengaliAppend | generate_paper.py:18-19 | the conversion distributes over concatenation: f(a + b) = f(a) + f(b) |
| Numerals.DigitsBecomeBengaliDigits | generate_paper.py:13-19 | a string of ASCII digits becomes a string of Bengali digits with no ASCII digit left |
| Numerals.FromBengaliToBengali | generate_paper.py:13-19 | mapping Bengali digits back recovers any input that held no Bengali digit, so the conversion loses nothing |
| Numerals.ToBengaliFromBengali | generate_paper.py:13-19 | the other direction: a string without ASCII digits is the conversion of its ASCII form |
| Numerals.DecimalString | generate_paper.py:18 | `str(n)` of a count is non-empty, all ASCII digits, and has no leading zero |
| Numerals.DecimalRoundTrip | generate_paper.py:18 | reading `str(n)` back as a decimal gives n |
| Numerals.CountNumeral | generate_paper.py:108 | `to_bengali_numeral(num_questions)`: as long as `str(n)` and made of Bengali digits only |
| Numerals.CountNumeralDeterminesCount | generate_paper.py:107-108 | the numeral of a count is as long as `str(n)`, is all Bengali digits, maps back to `str(n)` and reads back as n |
| Whitespace.LeadingSpaces | generate_paper.py:50 | the longest all-space prefix: its characters are spaces and the next one is not |
| Whitespace.TrailingSpaces | generate_paper.py:50 | the longest all-space suffix: its characters are spaces and the one before it is not |
| Whitespace.Strip | generate_paper.py:50 | `str.strip()` as used at lines 50, 65 and 81: the result is no longer than the input, starts and ends with a non-space, and is empty exactly when the input is all spaces |
| Whitespace.StripShape | generate_paper.py:50 | `strip` yields a trimmed middle slice of the input, with only spaces cut off at both ends |
| Whitespace.StripUnique | generate_paper.py:50 | for spaces + trimmed core + spaces, `strip` returns the core, whatever the padding |
| Whitespace.StripIdempotent | generate_paper.py:50 | stripping twice is stripping once |
| Paper.Runs | generate_paper.py:33-86 | the runs each element writes (lines 33-34, 40, 44-45, 68-78, 83-86 and the header runs of 143-145): one to three runs, each bold exactly when the element is a question line, a prompt or a marked choice |
| Paper.CorrectKey | generate_paper.py:50 | the stripped correct answer is trimmed, no longer than the raw answer, and empty when the record has no `correct_answer` |
| Paper.IsCorrect | generate_paper.py:65 | the `is_correct` test of lines 65 and 81: never true with answers hidden, always true with answers shown for an option equal to the correct answer, and a match never pairs an all-space option with a non-blank answer |
| Paper.Bullets | generate_paper.py:39-42 | one bullet per sub-option, bullet i carrying sub-option i |
| Paper.GridCells | generate_paper.py:54-60 | the first n cells of the grid: cell k holds option k, label k, row k / 2 and column k % 2 |
| Paper.ListLines | generate_paper.py:80-83 | one line per option, line j holding label j and option j, marked iff option j is correct |
| Paper.ComplexPart | generate_paper.py:38-46 | nothing unless the type is "complex"; otherwise one bullet per sub-option, in order, followed by one prompt |
| Paper.AnswerPart | generate_paper.py:49-86 | as many choices as shown options (four when there are at least four, all of them otherwise), choice k showing option k |
| Paper.QuestionBlock | generate_paper.py:23-86 | the record's elements: the `"{id}. {text}"` question line first, then the complex part and the answer part, with no other question line and no header |
| Paper.PaperBody | generate_paper.py:163-164 | the blocks of all questions: empty for no questions, at least one element per question, starting with the first question's line, with no header |
| Paper.HeaderFor | generate_paper.py:107-109 | the header line: time and marks are the same string of Bengali digits, which maps back to `str(len(questions))` |
| Paper.PaperFor | generate_paper.py:107-164 | the paper's content: the header line first, followed by the question blocks, with no other header line |
| Paper.Document.constructor | generate_paper.py:112 | a new document has no elements |
| Paper.Document.Add | generate_paper.py:32-33 | adding a paragraph, cell or line appends exactly that element |
| Paper.AddComplexPart | generate_paper.py:38-46 | appends the complex-question part: the bullets in order and then the prompt, or nothing for another type |
| Paper.AddAnswerGrid | generate_paper.py:52-78 | the `cell_data` loop appends the four grid cells in order (0,0), (0,1), (1,0), (1,1) |
| Paper.AddAnswerList | generate_paper.py:79-86 | the `enumerate(options)` loop appends one labelled, possibly marked, line per option |
| Paper.AddQuestionToDocument | generate_paper.py:23-86 | appends exactly the question's block: question line, complex part, then the answer grid or list |
| Paper.AddQuestions | generate_paper.py:163-164 | the per-question loop appends the blocks of all questions, in input order |
| Paper.CreateQuestionPaper | generate_paper.py:96-164 | a failed load gives no document; otherwise a fresh document holding the header line built from the count's numeral, then every block |
| PaperProperties.ShownOptions | generate_paper.py:52-59 | the shown options are a prefix of the record's options: four of them when there are at least four, all of them otherwise |
| PaperProperties.AnswerPartShowsOptions | generate_paper.py:52-86 | choice k shows shown option k with label k, is a grid cell exactly when there are at least four options, sits at row k / 2, column k % 2, and is marked iff correct |
| PaperProperties.GridLayout | generate_paper.py:52-59 | with at least four options: exactly the four cells (0,0), (0,1), (1,0), (1,1) holding options 0 to 3 with labels ka) to gha) |
| PaperProperties.ExtraOptionsDropped | generate_paper.py:52-59 | options beyond the fourth are dropped: cutting the list to four leaves the grid unchanged |
| PaperProperties.ListLayout | generate_paper.py:79-83 | with fewer than four options: exactly one line per option, in order, line j labelled with label j, so no label index goes out of range |
| PaperProperties.ComplexLayout | generate_paper.py:38-46 | a complex question gets its sub-options as bullets, in order, then exactly one prompt (given or default); any other type gets neither |
| PaperProperties.BlockLayout | generate_paper.py:31-86 | a block starts with the bold `"{id}. {text}"` line and holds no other question line; the complex part comes next and the choices come last |
| PaperProperties.MarkedIffCorrect | generate_paper.py:50-81 | a choice is marked iff answers are shown and its stripped text equals the stripped correct answer; with answers hidden, nothing in a block is marked |
| PaperProperties.ExactlyOneMarked | generate_paper.py:50-86 | with answers shown, a matching shown option and shown options distinct once stripped, exactly that choice is marked |
| PaperProperties.ChoiceRendering | generate_paper.py:66-86 | every run of a choice is bold iff the choice is marked; a grid cell shows the filled bubble iff marked and the empty bubble otherwise; a list line carries the " (correct answer)" run iff marked |
| PaperProperties.StudentCopyUnmarked | generate_paper.py:65-81 | in the student copy, no element of the paper is marked |
| PaperProperties.Unmark | generate_paper.py:65-81 | an element with its mark erased is not marked; a choice keeps everything but the mark, and any other element is unchanged |
| PaperProperties.UnmarkAll | generate_paper.py:65-81 | erasing the marks of a sequence erases them element by element |
| PaperProperties.CopiesDifferOnlyInMarks | generate_paper.py:65-81 | erasing the marks of the teacher copy gives exactly the student copy |
| PaperProperties.QuestionLinesOf | generate_paper.py:33 | the filter keeps exactly the question lines: every kept element is a question line of the input, and every question line of the input is kept |
| PaperProperties.QuestionLinesFor | generate_paper.py:33 | line i is the `"{id}. {text}"` line of question i |
| PaperProperties.BlocksInInputOrder | generate_paper.py:163-164 | the paper's question lines are the questions' own lines, one per question, in input order |
| PaperProperties.HeaderFromCount | generate_paper.py:107-145 | the paper starts with the header; time and marks are the same numeral of the question count; the runs are "Time— {t} minutes", a tab, "Full marks— {m}"; the numeral is all Bengali digits and reads back as the count |
| PaperProperties.TrimmedAnswerMatches | generate_paper.py:50-65 | answer " B " against options A, B, C, D: only B is marked |
| PaperProperties.CaseMismatchMarksNothing | generate_paper.py:50-65 | answer "b" against options A, B, C, D: nothing is marked, because matching is case-sensitive |
| PaperProperties.ComplexWithDefaultPrompt | generate_paper.py:38-46 | a complex question with two sub-options, no prompt and three options gives the question line, two bullets, the default prompt, then three list lines |

## Left out

- Loading the JSON file (`generate_paper.py:96-104`) is file I/O plus a foreign parser. `CreateQuestionPaper` takes its outcome as a value: the records, or `FileNotFound` / `JsonDecodeError`. The error messages are not modelled.
- Directory creation, `document.save`, the caught save exception and all console output (`generate_paper.py:167-176`) are filesystem side effects and printing.
- The `__main__` block (`generate_paper.py:179-201`) is not modelled: old-file removal and the two runs with fixed file names. The two copies appear only as `showAnswer` false and true in `CopiesDifferOnlyInMarks`.
- All python-docx styling is left out, because its effects are the document engine's:
  - fonts, point sizes, margins and line spacing;
  - the title, class and subject lines (`generate_paper.py:112-133`);
  - the right tab stop computed from the page width (`generate_paper.py:139-142`), modelled only as the tab run;
  - the two-column section set through raw XML (`generate_paper.py:150-160`);
  - column flow and pagination.
- Record values are strings only. `id` is modelled as the string the f-string prints. Python's `str()` of non-string options or answers is not modelled, and neither is a `null` or non-list value under an optional key.
- A record lacking `id`, `question_text` or `type` makes the source raise `KeyError`. Such a record cannot be written as a `Question` here.
- `show_answer is True` is modelled as a boolean; non-boolean truthy values are not.

