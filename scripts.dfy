/** Two complete sessions of the wizard worked through the model: a stored
    text field answered "yes" throughout, and a fast u64 field. Each line
    of a script is what `read_line` leaves in its buffer, newline included. */
module Scripts {
  import opened Wrappers
  import opened Text
  import opened Prompt
  import opened Tantivy
  import opened Wizard

  /** A yes/no line "c\n" is accepted at once and read as "yes" exactly
      when `c` is 'y' or 'Y'. */
  lemma AnswerLine(input: seq<string>, pos: nat, c: char)
    requires pos < |input| && input[pos] == [c, '\n'] && c in "YyNn"
    ensures YnStep(input, pos) == Some(Step(c in "Yy", pos + 1))
  {
    var line := input[pos];
    assert !IsWhitespace(line[0]) && IsWhitespace(line[1]);
    assert TrimmedLen(line, 2) == 1;
    assert TrimEnd(line) == [c];
    YnAccepts([c]);
  }

  /** A type line "c\n" is accepted at once and read as `c` uppercased. */
  lemma TypeLine(input: seq<string>, pos: nat, c: char)
    requires pos < |input| && input[pos] == [c, '\n'] && c in "TI"
    ensures OptionsStep(TypeCodes, input, pos) == Some(Step(c, pos + 1))
  {
    var line := input[pos];
    assert !IsWhitespace(line[0]) && IsWhitespace(line[1]);
    assert TrimmedLen(line, 2) == 1;
    assert TrimEnd(line) == [c];
    TypeChoice([c]);
  }

  /** A name line "name\n" with a valid name is accepted at once. */
  lemma NameLine(input: seq<string>, pos: nat, name: string)
    requires pos < |input| && input[pos] == name + "\n" && IsValidFieldName(name)
    ensures PromptStep(FieldNameValidate, input, pos) == Some(Step(name, pos + 1))
  {
    var line := input[pos];
    assert IsWhitespace(line[|name|]);
    assert !IsWhitespace(line[|name| - 1]);
    assert TrimmedLen(line, |line|) == |name|;
    assert TrimEnd(line) == name;
  }

  /** A field followed by "no" to "Add another field" is the whole schema. */
  lemma OnlyRound(input: seq<string>, pos: nat, f: FieldEntry, next: nat, last: nat)
    requires FieldStep(input, pos) == Some(Step(f, next))
    requires YnStep(input, next) == Some(Step(false, last))
    ensures NewSchema(input, pos) == Some([f])
  {
    RoundsUnfold(input, pos);
    var rs := [Round(f, false)];
    assert FieldsOf(rs) == [rs[0].field];
  }

  const TitleScript: seq<string> := ["title\n", "T\n", "Y\n", "Y\n", "Y\n", "Y\n", "Y\n", "N\n"]

  const TitleOptions: TextOptions := TextOptions(Some(TextFieldIndexing(CANG_JIE, WithFreqsAndPositions)), true)

  lemma TitleText(input: seq<string>)
    requires input == TitleScript
    ensures TextStep(input, 2) == Some(Step(TitleOptions, 7))
  {
    AnswerLine(input, 2, 'Y');
    AnswerLine(input, 3, 'Y');
    AnswerLine(input, 4, 'Y');
    AnswerLine(input, 5, 'Y');
    AnswerLine(input, 6, 'Y');
  }

  lemma TitleField(input: seq<string>)
    requires input == TitleScript
    ensures FieldStep(input, 0) == Some(Step(FieldEntry("title", Str(TitleOptions)), 7))
  {
    NameLine(input, 0, "title");
    TypeLine(input, 1, 'T');
    TitleText(input);
  }

  /** A stored text field answered "yes" throughout records frequencies and
      positions with the word-segmenting tokenizer; "no" to "Add another
      field" ends the loop after one field. */
  lemma TitleExample(input: seq<string>)
    requires input == TitleScript
    ensures NewSchema(input, 0) == Some([FieldEntry("title", Str(TitleOptions))])
  {
    TitleField(input);
    AnswerLine(input, 7, 'N');
    OnlyRound(input, 0, FieldEntry("title", Str(TitleOptions)), 7, 8);
  }

  const CountScript: seq<string> := ["count\n", "I\n", "N\n", "Y\n", "N\n", "N\n"]

  const CountOptions: IntOptions := IntOptions(false, Some(SingleValue), false)

  lemma CountNumeric(input: seq<string>)
    requires input == CountScript
    ensures U64Step(input, 2) == Some(Step(CountOptions, 5))
  {
    AnswerLine(input, 2, 'N');
    AnswerLine(input, 3, 'Y');
    AnswerLine(input, 4, 'N');
  }

  lemma CountField(input: seq<string>)
    requires input == CountScript
    ensures FieldStep(input, 0) == Some(Step(FieldEntry("count", U64(CountOptions)), 5))
  {
    NameLine(input, 0, "count");
    TypeLine(input, 1, 'I');
    CountNumeric(input);
  }

  /** A u64 field answered "no", "yes", "no" is fast but neither stored nor
      indexed. */
  lemma CountExample(input: seq<string>)
    requires input == CountScript
    ensures NewSchema(input, 0) == Some([FieldEntry("count", U64(CountOptions))])
  {
    CountField(input);
    AnswerLine(input, 5, 'N');
    OnlyRound(input, 0, FieldEntry("count", U64(CountOptions)), 5, 6);
  }
}
