/** The field-definition flow and the field-collection loop of
    `src/commands/new.rs`: `ask_add_field_text`, `ask_add_field_u64`,
    `ask_add_field` and the loop of `run_new`.

    Every run of the wizard is a function of the script: the methods read
    the terminal as the source does, and each one is proved to return, to
    add and to stop where a function of (script, position) says. The
    text-field and u64-field questions are also given as decision tables
    over the yes/no answers, which is where their properties are proved. */
module Wizard {
  import opened Wrappers
  import opened Text
  import opened Prompt
  import opened Tantivy

  /** A decision taken from a list of answers, and how many answers it used. */
  datatype Decided<T> = Decided(value: T, used: nat)

  // ---------------------------------------------------------------------
  // Runs of yes/no questions

  /** The yes/no answers successive `prompt_yn` calls read from `pos` on,
      each with the position after the line it accepted. */
  function YnReads(input: seq<string>, pos: nat): seq<Step<bool>>
    decreases |input| - pos
  {
    match YnStep(input, pos)
    case None => []
    case Some(s) => [s] + YnReads(input, s.next)
  }

  function Answers(steps: seq<Step<bool>>): seq<bool>
  {
    seq(|steps|, i requires 0 <= i < |steps| => steps[i].value)
  }

  /** The yes/no answers a script holds: its acceptable lines, in order,
      each read as "yes" when it is "y" or "Y". */
  function YnFilter(lines: seq<string>): seq<bool>
  {
    if lines == [] then []
    else
      (if Verdict(YnValidator, lines[0]).Pass? then [TrimEnd(lines[0]) in {"y", "Y"}] else [])
      + YnFilter(lines[1..])
  }

  /** Successive `prompt_yn` calls read exactly the acceptable lines of the
      script, in order: a rejected line has no effect on any answer. */
  lemma {:induction false} YnReadsFilter(input: seq<string>, pos: nat)
    requires pos <= |input|
    ensures Answers(YnReads(input, pos)) == YnFilter(input[pos..])
    decreases |input| - pos
  {
    if pos == |input| {
      assert input[pos..] == [];
    } else {
      YnReadsFilter(input, pos + 1);
      YnFilterCons(input, pos);
      if Verdict(YnValidator, input[pos]).Fail? {
        PromptStepSkips(YnValidator, input, pos);
        YnReadsSkip(input, pos);
      } else {
        YnReadsTake(input, pos);
      }
    }
  }

  lemma YnFilterCons(input: seq<string>, pos: nat)
    requires pos < |input|
    ensures YnFilter(input[pos..]) ==
      (if Verdict(YnValidator, input[pos]).Pass? then [TrimEnd(input[pos]) in {"y", "Y"}] else [])
      + YnFilter(input[pos + 1..])
  {
    assert input[pos..][0] == input[pos];
    assert input[pos..][1..] == input[pos + 1..];
  }

  /** A rejected line leaves the answers read from the next line on. */
  lemma YnReadsSkip(input: seq<string>, pos: nat)
    requires pos < |input| && Verdict(YnValidator, input[pos]).Fail?
    requires PromptStep(YnValidator, input, pos) == PromptStep(YnValidator, input, pos + 1)
    ensures YnReads(input, pos) == YnReads(input, pos + 1)
  {
  }

  /** An accepted line is the first answer, read as "yes" exactly when it is
      "y" or "Y". */
  lemma YnReadsTake(input: seq<string>, pos: nat)
    requires pos < |input| && Verdict(YnValidator, input[pos]).Pass?
    ensures Answers(YnReads(input, pos)) == [TrimEnd(input[pos]) in {"y", "Y"}] + Answers(YnReads(input, pos + 1))
  {
    assert PromptStep(YnValidator, input, pos) == Some(Step(TrimEnd(input[pos]), pos + 1));
    var s := YnStep(input, pos).value;
    YnStepLine(input, pos);
    AnswersCons(s, YnReads(input, pos + 1));
  }

  lemma AnswersCons(s: Step<bool>, rest: seq<Step<bool>>)
    ensures Answers([s] + rest) == [s.value] + Answers(rest)
  {
  }

  /** Where the `k`-th read of a run starting at `pos` starts. */
  function StepStart(steps: seq<Step<bool>>, pos: nat, k: nat): nat
    requires k <= |steps|
  {
    if k == 0 then pos else steps[k - 1].next
  }

  function StepAt(steps: seq<Step<bool>>, k: nat): Option<Step<bool>>
  {
    if k < |steps| then Some(steps[k]) else None
  }

  /** The `k`-th read of the run is the `prompt_yn` step taken where the
      previous one stopped; the run ends where a step finds nothing. */
  lemma {:induction false} YnReadsIndex(input: seq<string>, pos: nat, k: nat)
    requires k <= |YnReads(input, pos)|
    ensures var steps := YnReads(input, pos);
      YnStep(input, StepStart(steps, pos, k)) == StepAt(steps, k)
    decreases k
  {
    YnReadsHead(input, pos);
    if k > 0 {
      var steps := YnReads(input, pos);
      YnReadsIndex(input, steps[0].next, k - 1);
    }
  }

  /** The first read of the run is the step taken at `pos`, and the rest of
      the run starts where it stopped. */
  lemma YnReadsHead(input: seq<string>, pos: nat)
    ensures var steps := YnReads(input, pos);
      && YnStep(input, pos) == StepAt(steps, 0)
      && (steps != [] ==> steps[1..] == YnReads(input, steps[0].next))
  {
  }

  // ---------------------------------------------------------------------
  // ask_add_field_text

  /** The indexing a text field starts with: the CANG_JIE tokenizer,
      recording frequencies and positions. */
  const InitialIndexing: TextFieldIndexing := TextFieldIndexing(CANG_JIE, WithFreqsAndPositions)

  /** The text-field questions as a decision table over the yes/no answers
      `a` (stored, indexed, tokenized, frequencies, positions), in the order
      they are asked. A question is asked only while the answers before it
      (from "indexed" on) are "yes"; `None` when `a` ends before the last
      question asked. */
  function TextTable(a: seq<bool>): (r: Option<Decided<TextOptions>>)
    ensures |a| >= 5 ==> r.Some?
    ensures r.Some? ==> 2 <= r.value.used <= 5 && r.value.used <= |a|
    ensures r.Some? ==> forall j :: 1 <= j < r.value.used - 1 ==> a[j]
    ensures r.Some? && r.value.used < 5 ==> !a[r.value.used - 1]
    ensures r.Some? ==> r.value.value.stored == a[0]
    ensures r.Some? ==> r.value.value.indexing.Some? && r.value.value.indexing.value.tokenizer == CANG_JIE
  {
    if |a| < 2 then None
    else if !a[1] then Some(Decided(TextOptions(Some(InitialIndexing), a[0]), 2))
    else if |a| < 3 then None
    else if !a[2] then Some(Decided(TextOptions(Some(TextFieldIndexing(CANG_JIE, Basic)), a[0]), 3))
    else if |a| < 4 then None
    else if !a[3] then Some(Decided(TextOptions(Some(TextFieldIndexing(CANG_JIE, Basic)), a[0]), 4))
    else if |a| < 5 then None
    else
      var record := if a[4] then WithFreqsAndPositions else WithFreqs;
      Some(Decided(TextOptions(Some(TextFieldIndexing(CANG_JIE, record)), a[0]), 5))
  }

  /** The record option each path through the text-field questions selects. */
  lemma TextRecordOption(a: seq<bool>)
    requires TextTable(a).Some?
    ensures var o := TextTable(a).value.value.indexing.value.record;
      && (!a[1] ==> o == WithFreqsAndPositions)
      && (a[1] && !a[2] ==> o == Basic)
      && (a[1] && a[2] && !a[3] ==> o == Basic)
      && (a[1] && a[2] && a[3] && !a[4] ==> o == WithFreqs)
      && (a[1] && a[2] && a[3] && a[4] ==> o == WithFreqsAndPositions)
  {
  }

  /** Once the field is to be indexed, it records frequencies and positions
      exactly when every later question is answered "yes"; any "no" gives a
      strictly poorer option. Declining indexing altogether keeps the initial
      indexing, which is richer than what accepting it without tokenizing
      gives. */
  lemma TextRichness(a: seq<bool>)
    requires TextTable(a).Some?
    ensures var o := TextTable(a).value.value.indexing.value.record;
      && (a[1] ==> (o == WithFreqsAndPositions <==> a[2] && a[3] && a[4]))
      && (a[1] && !(a[2] && a[3] && a[4]) ==> Richness(o) < Richness(WithFreqsAndPositions))
      && (!a[1] ==> TextTable(a).value.value.indexing == Some(InitialIndexing))
  {
  }

  /** Only the answers the table used matter: whatever follows them, the
      same decision is taken. */
  lemma TextTableUsesPrefix(a: seq<bool>, b: seq<bool>)
    requires TextTable(a).Some?
    ensures TextTable(a[..TextTable(a).value.used] + b) == TextTable(a)
  {
    var d := TextTable(a).value;
    var c := a[..d.used] + b;
    assert forall j :: 0 <= j < d.used ==> c[j] == a[j];
  }

  /** What `ask_add_field_text` adds when it starts reading at `pos`, and the
      position after its last yes/no answer, following the questions as the
      source nests them. */
  function TextStep(input: seq<string>, pos: nat): (r: Option<Step<TextOptions>>)
    ensures r.Some? ==> pos < r.value.next <= |input|
  {
    var stored :- YnStep(input, pos);
    var indexed :- YnStep(input, stored.next);
    if !indexed.value then
      Some(Step(TextOptions(Some(InitialIndexing), stored.value), indexed.next))
    else
      var tokenized :- YnStep(input, indexed.next);
      if !tokenized.value then
        Some(Step(TextOptions(Some(TextFieldIndexing(CANG_JIE, Basic)), stored.value), tokenized.next))
      else
        var freqs :- YnStep(input, tokenized.next);
        if !freqs.value then
          Some(Step(TextOptions(Some(TextFieldIndexing(CANG_JIE, Basic)), stored.value), freqs.next))
        else
          var positions :- YnStep(input, freqs.next);
          var record := if positions.value then WithFreqsAndPositions else WithFreqs;
          Some(Step(TextOptions(Some(TextFieldIndexing(CANG_JIE, record)), stored.value), positions.next))
  }

  /** The text-field flow follows its decision table: it takes the decision
      the table takes on the yes/no answers the script holds, and stops
      right after the last answer the table used. */
  ghost predicate TextFollowsTable(input: seq<string>, pos: nat) {
    var steps := YnReads(input, pos);
    TextStep(input, pos) ==
      match TextTable(Answers(steps))
      case None => None
      case Some(d) => Some(Step(d.value, steps[d.used - 1].next))
  }

  lemma TextStepFollowsTable(input: seq<string>, pos: nat)
    ensures TextFollowsTable(input, pos)
  {
    var a := Answers(YnReads(input, pos));
    if |a| < 2 || !a[1] {
      TextFollowsUnindexed(input, pos);
    } else if |a| < 4 || !a[2] || !a[3] {
      TextFollowsBasic(input, pos);
    } else {
      TextFollowsFreqs(input, pos);
    }
  }

  /** The script ends before "indexed" is answered, or it is answered "no". */
  lemma TextFollowsUnindexed(input: seq<string>, pos: nat)
    requires var a := Answers(YnReads(input, pos)); |a| < 2 || !a[1]
    ensures TextFollowsTable(input, pos)
  {
    var steps := YnReads(input, pos);
    YnReadsIndex(input, pos, 0);
    if |steps| > 0 {
      YnReadsIndex(input, pos, 1);
    }
  }

  /** "indexed" is "yes", and the script ends or a "no" comes before the
      question on positions. */
  lemma TextFollowsBasic(input: seq<string>, pos: nat)
    requires var a := Answers(YnReads(input, pos)); |a| >= 2 && a[1] && (|a| < 4 || !a[2] || !a[3])
    ensures TextFollowsTable(input, pos)
  {
    var steps := YnReads(input, pos);
    YnReadsIndex(input, pos, 0);
    YnReadsIndex(input, pos, 1);
    YnReadsIndex(input, pos, 2);
    if |steps| > 2 && steps[2].value {
      YnReadsIndex(input, pos, 3);
    }
  }

  /** "indexed", "tokenized" and "frequencies" are all "yes". */
  lemma TextFollowsFreqs(input: seq<string>, pos: nat)
    requires var a := Answers(YnReads(input, pos)); |a| >= 4 && a[1] && a[2] && a[3]
    ensures TextFollowsTable(input, pos)
  {
    var steps := YnReads(input, pos);
    YnReadsIndex(input, pos, 0);
    YnReadsIndex(input, pos, 1);
    YnReadsIndex(input, pos, 2);
    YnReadsIndex(input, pos, 3);
    YnReadsIndex(input, pos, 4);
  }

  /** `ask_add_field_text`: asks the text-field questions and adds a text
      field named `fieldName` to `builder`. */
  method AskAddFieldText(t: Terminal, fieldName: string, builder: SchemaBuilder) returns (r: Option<()>)
    requires t.Valid()
    modifies t, builder
    ensures t.Valid() && old(t.pos) <= t.pos
    ensures match TextStep(t.input, old(t.pos))
      case Some(s) =>
        r.Some? && t.pos == s.next && builder.fields == old(builder.fields) + [FieldEntry(fieldName, Str(s.value))]
      case None =>
        r.None? && t.pos == |t.input| && builder.fields == old(builder.fields)
    ensures t.errors == old(t.errors) + Rejections(YnValidator, t.input, old(t.pos), t.pos)
  {
    ghost var start, log0 := t.pos, t.errors;
    ghost var p, e := t.pos, t.errors;
    var textFieldIndexing := TextFieldIndexing(CANG_JIE, WithFreqsAndPositions);
    var textOptions := TextOptions(Some(textFieldIndexing), false);

    // "Should the field be stored"
    var stored := PromptYn(t);
    if stored.None? {
      return None;
    }
    p := t.pos;
    if stored.value {
      textOptions := textOptions.(stored := true);
    }

    // "Should the field be indexed"
    e := t.errors;
    var indexed := PromptYn(t);
    RejectionsExtend(YnValidator, t.input, log0, e, start, p, t.pos);
    if indexed.None? {
      return None;
    }
    p := t.pos;
    if indexed.value {
      var textIndexingOptions := TextFieldIndexing(CANG_JIE, Basic);

      // "Should the term be tokenized?"
      e := t.errors;
      var tokenized := PromptYn(t);
      RejectionsExtend(YnValidator, t.input, log0, e, start, p, t.pos);
      if tokenized.None? {
        return None;
      }
      p := t.pos;
      if tokenized.value {
        // "Should the term frequencies (per doc) be in the index"
        e := t.errors;
        var freqs := PromptYn(t);
        RejectionsExtend(YnValidator, t.input, log0, e, start, p, t.pos);
        if freqs.None? {
          return None;
        }
        p := t.pos;
        if freqs.value {
          // "Should the term positions (per doc) be in the index"
          e := t.errors;
          var positions := PromptYn(t);
          RejectionsExtend(YnValidator, t.input, log0, e, start, p, t.pos);
          if positions.None? {
            return None;
          }
          p := t.pos;
          if positions.value {
            textIndexingOptions := textIndexingOptions.(record := WithFreqsAndPositions);
          } else {
            textIndexingOptions := textIndexingOptions.(record := WithFreqs);
          }
        }
      } else {
        textIndexingOptions := textIndexingOptions.(tokenizer := CANG_JIE);
      }
      textOptions := textOptions.(indexing := Some(textIndexingOptions));
    }
    var field := builder.AddTextField(fieldName, textOptions);
    r := Some(());
  }

  // ---------------------------------------------------------------------
  // ask_add_field_u64

  /** The u64-field questions as a decision table over the yes/no answers
      `a` (stored, fast, indexed); all three are always asked. */
  function U64Table(a: seq<bool>): (r: Option<Decided<IntOptions>>)
    ensures r.Some? <==> |a| >= 3
    ensures r.Some? ==> r.value.used == 3
  {
    if |a| < 3 then None
    else Some(Decided(IntOptions(a[2], if a[1] then Some(SingleValue) else None, a[0]), 3))
  }

  /** Each u64 flag is its own answer, and changing one answer changes
      only its own flag. */
  lemma U64Independent(a: seq<bool>, i: nat, b: bool)
    requires |a| >= 3 && i < 3
    ensures var o := U64Table(a).value.value;
      o.stored == a[0] && (o.fast == Some(SingleValue) <==> a[1]) && (o.fast == None <==> !a[1])
      && o.indexed == a[2]
    ensures var o, o' := U64Table(a).value.value, U64Table(a[i := b]).value.value;
      (i != 0 ==> o'.stored == o.stored) && (i != 1 ==> o'.fast == o.fast) && (i != 2 ==> o'.indexed == o.indexed)
  {
  }

  /** What `ask_add_field_u64` adds when it starts reading at `pos`, and the
      position after its third yes/no answer. */
  function U64Step(input: seq<string>, pos: nat): (r: Option<Step<IntOptions>>)
    ensures r.Some? ==> pos < r.value.next <= |input|
  {
    var stored :- YnStep(input, pos);
    var fast :- YnStep(input, stored.next);
    var indexed :- YnStep(input, fast.next);
    Some(Step(IntOptions(indexed.value, if fast.value then Some(SingleValue) else None, stored.value), indexed.next))
  }

  /** The u64-field flow consumes exactly three yes/no answers and takes
      the decision its table takes on them. */
  lemma U64StepFollowsTable(input: seq<string>, pos: nat)
    ensures var steps := YnReads(input, pos);
      U64Step(input, pos) ==
        match U64Table(Answers(steps))
        case None => None
        case Some(d) => Some(Step(d.value, steps[2].next))
  {
    var s0 := YnReads(input, pos);
    if s0 != [] {
      var s1 := YnReads(input, s0[0].next);
      assert s0 == [s0[0]] + s1;
      if s1 != [] {
        var s2 := YnReads(input, s1[0].next);
        assert s1 == [s1[0]] + s2;
      }
    }
  }

  /** `ask_add_field_u64`: asks the three u64-field questions and adds a u64
      field named `fieldName` to `builder`. */
  method AskAddFieldU64(t: Terminal, fieldName: string, builder: SchemaBuilder) returns (r: Option<()>)
    requires t.Valid()
    modifies t, builder
    ensures t.Valid() && old(t.pos) <= t.pos
    ensures match U64Step(t.input, old(t.pos))
      case Some(s) =>
        r.Some? && t.pos == s.next && builder.fields == old(builder.fields) + [FieldEntry(fieldName, U64(s.value))]
      case None =>
        r.None? && t.pos == |t.input| && builder.fields == old(builder.fields)
    ensures t.errors == old(t.errors) + Rejections(YnValidator, t.input, old(t.pos), t.pos)
  {
    ghost var start, log0 := t.pos, t.errors;
    ghost var p, e := t.pos, t.errors;
    var u64Options := IntOptions(false, None, false);

    // "Should the field be stored"
    var stored := PromptYn(t);
    if stored.None? {
      return None;
    }
    if stored.value {
      u64Options := u64Options.(stored := true);
    }

    // "Should the field be fast"
    p, e := t.pos, t.errors;
    var fast := PromptYn(t);
    RejectionsExtend(YnValidator, t.input, log0, e, start, p, t.pos);
    if fast.None? {
      return None;
    }
    if fast.value {
      u64Options := u64Options.(fast := Some(SingleValue));
    }

    // "Should the field be indexed"
    p, e := t.pos, t.errors;
    var indexed := PromptYn(t);
    RejectionsExtend(YnValidator, t.input, log0, e, start, p, t.pos);
    if indexed.None? {
      return None;
    }
    if indexed.value {
      u64Options := u64Options.(indexed := true);
    }
    var field := builder.AddU64Field(fieldName, u64Options);
    r := Some(());
  }

  // ---------------------------------------------------------------------
  // ask_add_field

  const TypeCodes: seq<char> := ['T', 'I']

  /** The type question accepts "T", "t", "I" and "i" and nothing else, and
      reads "T" or "t" as a text field. */
  lemma TypeChoice(entry: string)
    ensures OptionCheck(TypeCodes, entry).Pass? <==> entry in {"T", "t", "I", "i"}
    ensures OptionCheck(TypeCodes, entry).Pass? ==> (AsciiUpper(entry[0]) == 'T' <==> entry in {"T", "t"})
  {
    OptionCheckSpec(TypeCodes, entry);
    if OptionCheck(TypeCodes, entry).Pass? {
      assert entry == [entry[0]];
    }
  }

  /** What `ask_add_field` adds when it starts reading at `pos`: a field
      under the first acceptable name, text when the type answer is "T",
      u64 otherwise. */
  function FieldStep(input: seq<string>, pos: nat): (r: Option<Step<FieldEntry>>)
    ensures r.Some? ==> pos < r.value.next <= |input|
    ensures r.Some? ==> IsValidFieldName(r.value.value.name)
  {
    var name :- PromptStep(FieldNameValidate, input, pos);
    var kind :- OptionsStep(TypeCodes, input, name.next);
    if kind.value == 'T' then
      var text :- TextStep(input, kind.next);
      Some(Step(FieldEntry(name.value, Str(text.value)), text.next))
    else
      var numeric :- U64Step(input, kind.next);
      Some(Step(FieldEntry(name.value, U64(numeric.value)), numeric.next))
  }

  /** The field `ask_add_field` adds is named by the name prompt's answer,
      and it is a text field exactly when the type prompt returned 'T' (which
      `TypeChoice` ties to the lines "T" and "t"). */
  lemma FieldStepKind(input: seq<string>, pos: nat)
    requires FieldStep(input, pos).Some?
    ensures var name := PromptStep(FieldNameValidate, input, pos).value;
      var kind := OptionsStep(TypeCodes, input, name.next).value;
      var f := FieldStep(input, pos).value.value;
      f.name == name.value && (f.fieldType.Str? <==> kind.value == 'T')
  {
  }

  /** The error log `after` extends `before` by at most one message per line
      read between `a` and `b`. */
  ghost predicate Grows(before: seq<string>, after: seq<string>, a: nat, b: nat) {
    && |before| <= |after| <= |before| + (b - a)
    && after[..|before|] == before
  }

  lemma GrowsBy(v: Validator, input: seq<string>, before: seq<string>, after: seq<string>, a: nat, b: nat)
    requires a <= b <= |input|
    requires after == before + Rejections(v, input, a, b)
    ensures Grows(before, after, a, b)
  {
    assert after[..|before|] == before;
  }

  lemma GrowsTrans(l0: seq<string>, l1: seq<string>, l2: seq<string>, a: nat, b: nat, c: nat)
    requires a <= b <= c
    requires Grows(l0, l1, a, b) && Grows(l1, l2, b, c)
    ensures Grows(l0, l2, a, c)
  {
    assert l2[..|l0|] == l2[..|l1|][..|l0|];
  }

  /** `ask_add_field`: asks for a field name and a type, then the questions
      of that type, and adds the field to `builder`. */
  method AskAddField(t: Terminal, builder: SchemaBuilder) returns (r: Option<()>)
    requires t.Valid()
    modifies t, builder
    ensures t.Valid() && old(t.pos) <= t.pos
    ensures match FieldStep(t.input, old(t.pos))
      case Some(s) => r.Some? && t.pos == s.next && builder.fields == old(builder.fields) + [s.value]
      case None => r.None? && t.pos == |t.input| && builder.fields == old(builder.fields)
    ensures Grows(old(t.errors), t.errors, old(t.pos), t.pos)
  {
    ghost var p0, e0 := t.pos, t.errors;
    // "New field name "
    var fieldName := PromptInput(t, FieldNameValidate);
    GrowsBy(FieldNameValidate, t.input, e0, t.errors, p0, t.pos);
    if fieldName.None? {
      return None;
    }
    ghost var p1, e1 := t.pos, t.errors;
    // "Text or unsigned 32-bit integer"
    var textOrInteger := PromptOptions(t, TypeCodes);
    GrowsBy(OptionValidator(TypeCodes), t.input, e1, t.errors, p1, t.pos);
    GrowsTrans(e0, e1, t.errors, p0, p1, t.pos);
    if textOrInteger.None? {
      return None;
    }
    ghost var p2, e2 := t.pos, t.errors;
    if textOrInteger.value == 'T' {
      r := AskAddFieldText(t, fieldName.value, builder);
    } else {
      r := AskAddFieldU64(t, fieldName.value, builder);
    }
    GrowsBy(YnValidator, t.input, e2, t.errors, p2, t.pos);
    GrowsTrans(e0, e2, t.errors, p0, p2, t.pos);
  }

  // ---------------------------------------------------------------------
  // The field-collection loop of run_new

  /** One pass of the loop: the field added, and the answer to "Add another
      field". */
  datatype Round = Round(field: FieldEntry, another: bool)

  /** The passes of the loop when it starts reading at `pos`: it goes on
      while "Add another field" is answered "yes". */
  function Rounds(input: seq<string>, pos: nat): (r: Option<seq<Round>>)
    ensures r.Some? ==> FieldStep(input, pos).Some? && r.value != []
    ensures r.Some? ==> r.value[0].field == FieldStep(input, pos).value.value
    decreases |input| - pos
  {
    var field :- FieldStep(input, pos);
    var another :- YnStep(input, field.next);
    if another.value then
      var rest :- Rounds(input, another.next);
      Some([Round(field.value, true)] + rest)
    else
      Some([Round(field.value, false)])
  }

  function FieldsOf(rounds: seq<Round>): Schema
  {
    seq(|rounds|, i requires 0 <= i < |rounds| => rounds[i].field)
  }

  lemma FieldsOfSnoc(done: seq<Round>, r: Round)
    ensures FieldsOf(done + [r]) == FieldsOf(done) + [r.field]
  {
    assert forall i :: 0 <= i < |done| ==> (done + [r])[i] == done[i];
  }

  lemma FieldsOfCons(r: Round, rest: seq<Round>)
    ensures FieldsOf([r] + rest) == [r.field] + FieldsOf(rest)
  {
    assert forall i :: 0 <= i < |rest| ==> ([r] + rest)[i + 1] == rest[i];
  }

  /** The number of passes answered "yes" to "Add another field". */
  function Yeses(rounds: seq<Round>): nat
  {
    if rounds == [] then 0 else (if rounds[0].another then 1 else 0) + Yeses(rounds[1..])
  }

  /** The shape of the answers to "Add another field" over a run of the
      loop: "yes" on every pass but the last, "no" on the last. */
  predicate LoopShape(rs: seq<Round>) {
    && |rs| >= 1
    && !rs[|rs| - 1].another
    && (forall i :: 0 <= i < |rs| - 1 ==> rs[i].another)
  }

  lemma LoopShapeCons(r: Round, rest: seq<Round>)
    requires r.another && LoopShape(rest)
    ensures LoopShape([r] + rest)
  {
    var rs := [r] + rest;
    assert rs[|rs| - 1] == rest[|rest| - 1];
    assert forall i :: 1 <= i < |rs| ==> rs[i] == rest[i - 1];
  }

  /** The loop always adds at least one field; every pass but the last was
      answered "yes" and the last "no". */
  lemma {:induction false} RoundsShape(input: seq<string>, pos: nat)
    requires Rounds(input, pos).Some?
    ensures LoopShape(Rounds(input, pos).value)
    decreases |input| - pos
  {
    RoundsUnfold(input, pos);
    var f := FieldStep(input, pos).value;
    var a := YnStep(input, f.next).value;
    if a.value {
      RoundsShape(input, a.next);
      LoopShapeCons(Round(f.value, true), Rounds(input, a.next).value);
    }
  }

  /** Every field the loop adds has a valid name. */
  lemma {:induction false} RoundsNames(input: seq<string>, pos: nat)
    requires Rounds(input, pos).Some?
    ensures var rs := Rounds(input, pos).value;
      forall i :: 0 <= i < |rs| ==> IsValidFieldName(rs[i].field.name)
    decreases |input| - pos
  {
    RoundsUnfold(input, pos);
    var a := YnStep(input, FieldStep(input, pos).value.next).value;
    if a.value {
      RoundsNames(input, a.next);
    }
  }

  /** A run of passes answered "yes" on all but the last has one pass more
      than it has "yes" answers. */
  lemma {:induction false} ShapeCount(rs: seq<Round>)
    requires LoopShape(rs)
    ensures |rs| == 1 + Yeses(rs)
  {
    if |rs| > 1 {
      var rest := rs[1..];
      assert forall i :: 0 <= i < |rest| - 1 ==> rest[i] == rs[i + 1];
      assert rest[|rest| - 1] == rs[|rs| - 1];
      ShapeCount(rest);
    }
  }

  /** The schema holds one field more than the number of "yes" answers to
      "Add another field". */
  lemma FieldCount(input: seq<string>, pos: nat)
    requires Rounds(input, pos).Some?
    ensures |FieldsOf(Rounds(input, pos).value)| == 1 + Yeses(Rounds(input, pos).value)
  {
    RoundsShape(input, pos);
    ShapeCount(Rounds(input, pos).value);
  }

  /** The schema `run_new` builds from the script read from `pos` on. */
  function NewSchema(input: seq<string>, pos: nat): (r: Option<Schema>)
    ensures r.Some? ==> |r.value| >= 1
    ensures r.Some? ==> forall i :: 0 <= i < |r.value| ==> IsValidFieldName(r.value[i].name)
  {
    match Rounds(input, pos)
    case None => None
    case Some(rs) =>
      RoundsShape(input, pos);
      RoundsNames(input, pos);
      Some(FieldsOf(rs))
  }

  /** The schema starts with the field of the first pass; when that pass is
      answered "yes" it goes on with the schema the rest of the script
      builds, and when it is answered "no" it holds that field alone. So the
      fields appear in the order they were asked for, each as its pass
      built it. */
  lemma SchemaOrder(input: seq<string>, pos: nat)
    ensures match NewSchema(input, pos)
      case None => true
      case Some(schema) =>
        FieldStep(input, pos).Some? &&
        var f := FieldStep(input, pos).value;
        YnStep(input, f.next).Some? &&
        var a := YnStep(input, f.next).value;
        schema[0] == f.value &&
        if a.value then NewSchema(input, a.next).Some? && schema[1..] == NewSchema(input, a.next).value
        else schema == [f.value]
  {
    if Rounds(input, pos).Some? {
      RoundsUnfold(input, pos);
      var f := FieldStep(input, pos).value;
      var a := YnStep(input, f.next).value;
      if a.value {
        var rest := Rounds(input, a.next).value;
        assert Rounds(input, pos).value == [Round(f.value, true)] + rest;
        FieldsOfCons(Round(f.value, true), rest);
      } else {
        assert Rounds(input, pos).value == [Round(f.value, false)];
        FieldsOfCons(Round(f.value, false), []);
      }
    }
  }

  /** Where the loop stops reading when it starts at `pos`: right after the
      "no" to "Add another field"; `None` when the script runs out first. */
  function LoopEnd(input: seq<string>, pos: nat): (r: Option<nat>)
    ensures r.Some? ==> pos < r.value <= |input|
    decreases |input| - pos
  {
    var field :- FieldStep(input, pos);
    var another :- YnStep(input, field.next);
    if another.value then LoopEnd(input, another.next) else Some(another.next)
  }

  /** The loop stops exactly when it builds a schema. */
  lemma {:induction false} LoopEndRounds(input: seq<string>, pos: nat)
    ensures LoopEnd(input, pos).Some? <==> Rounds(input, pos).Some?
    decreases |input| - pos
  {
    LoopEndUnfold(input, pos);
    RoundsUnfold(input, pos);
    var fs := FieldStep(input, pos);
    if fs.Some? {
      var ys := YnStep(input, fs.value.next);
      if ys.Some? && ys.value.value {
        LoopEndRounds(input, ys.value.next);
      }
    }
  }

  /** Line `e - 1` of the script, trimmed, is "n" or "N". */
  ghost predicate EndsOnNo(input: seq<string>, e: nat) {
    0 < e <= |input| && TrimEnd(input[e - 1]) in {"n", "N"}
  }

  /** The last line the loop reads is a "no" to "Add another field": "n" or
      "N". */
  lemma {:induction false} LoopEndLine(input: seq<string>, pos: nat)
    ensures LoopEnd(input, pos).Some? ==> EndsOnNo(input, LoopEnd(input, pos).value)
    decreases |input| - pos
  {
    var fs := FieldStep(input, pos);
    if fs.None? || YnStep(input, fs.value.next).None? {
      LoopEndStops(input, pos);
    } else {
      var f := fs.value;
      var a := YnStep(input, f.next).value;
      LoopEndPass(input, pos, f, a);
      if a.value {
        LoopEndLine(input, a.next);
        assert LoopEnd(input, pos) == LoopEnd(input, a.next);
      } else {
        NoLine(input, f.next);
        assert LoopEnd(input, pos) == Some(a.next);
      }
    }
  }

  /** A "no" from `prompt_yn` was read from a line "n" or "N". */
  lemma NoLine(input: seq<string>, p: nat)
    requires YnStep(input, p).Some? && !YnStep(input, p).value.value
    ensures EndsOnNo(input, YnStep(input, p).value.next)
  {
    YnStepLine(input, p);
  }

  /** A pass that reads a field and an answer goes on from the answer on
      "yes" and stops right after it on "no". */
  lemma LoopEndPass(input: seq<string>, pos: nat, f: Step<FieldEntry>, a: Step<bool>)
    requires FieldStep(input, pos) == Some(f) && YnStep(input, f.next) == Some(a)
    ensures LoopEnd(input, pos) == if a.value then LoopEnd(input, a.next) else Some(a.next)
  {
    LoopEndUnfold(input, pos);
  }

  /** A pass that runs out of script ends the loop without a schema. */
  lemma LoopEndStops(input: seq<string>, pos: nat)
    requires FieldStep(input, pos).None? || YnStep(input, FieldStep(input, pos).value.next).None?
    ensures LoopEnd(input, pos).None?
  {
    LoopEndUnfold(input, pos);
  }

  /** One pass of the loop, unfolded, as far as where it stops reading. */
  lemma LoopEndUnfold(input: seq<string>, pos: nat)
    ensures LoopEnd(input, pos) ==
      match FieldStep(input, pos)
      case None => None
      case Some(f) =>
        match YnStep(input, f.next)
        case None => None
        case Some(a) => if a.value then LoopEnd(input, a.next) else Some(a.next)
  {
  }

  /** The passes `r` of the loop that follow the passes `done`. */
  function After(done: seq<Round>, r: Option<seq<Round>>): Option<seq<Round>> {
    match r
    case None => None
    case Some(rest) => Some(done + rest)
  }

  lemma AfterAfter(d1: seq<Round>, d2: seq<Round>, r: Option<seq<Round>>)
    ensures After(d1, After(d2, r)) == After(d1 + d2, r)
  {
    if r.Some? {
      assert d1 + (d2 + r.value) == (d1 + d2) + r.value;
    }
  }

  lemma AfterNothing(r: Option<seq<Round>>)
    ensures After([], r) == r
  {
    if r.Some? {
      assert [] + r.value == r.value;
    }
  }

  /** One pass of the loop, unfolded, including the passes that run out of
      input. */
  lemma RoundsUnfold(input: seq<string>, pos: nat)
    ensures Rounds(input, pos) ==
      match FieldStep(input, pos)
      case None => None
      case Some(f) =>
        match YnStep(input, f.next)
        case None => None
        case Some(a) =>
          if a.value then After([Round(f.value, true)], Rounds(input, a.next))
          else Some([Round(f.value, false)])
  {
  }

  /** The loop of `run_new`: add a field, then ask "Add another field",
      until the answer is "no"; the result is the schema that is printed and
      handed to the index. */
  method RunNew(t: Terminal) returns (schema: Option<Schema>)
    requires t.Valid()
    modifies t
    ensures t.Valid() && old(t.pos) <= t.pos
    ensures schema == NewSchema(t.input, old(t.pos))
    ensures match LoopEnd(t.input, old(t.pos))
      case Some(e) => t.pos == e
      case None => t.pos == |t.input|
    ensures Grows(old(t.errors), t.errors, old(t.pos), t.pos)
  {
    var schemaBuilder := new SchemaBuilder();
    ghost var start, log0 := t.pos, t.errors;
    ghost var done: seq<Round> := [];
    AfterNothing(Rounds(t.input, start));
    while true
      invariant t.Valid() && start <= t.pos
      invariant schemaBuilder.fields == FieldsOf(done)
      invariant Grows(log0, t.errors, start, t.pos)
      invariant Rounds(t.input, start) == After(done, Rounds(t.input, t.pos))
      invariant LoopEnd(t.input, start) == LoopEnd(t.input, t.pos)
      decreases |t.input| - t.pos
    {
      ghost var here, e0 := t.pos, t.errors;
      RoundsUnfold(t.input, here);
      LoopEndUnfold(t.input, here);
      var added := AskAddField(t, schemaBuilder);
      GrowsTrans(log0, e0, t.errors, start, here, t.pos);
      if added.None? {
        assert Rounds(t.input, here) == None;
        assert Rounds(t.input, start) == None;
        return None;
      }
      ghost var field := FieldStep(t.input, here).value.value;
      ghost var p1, e1 := t.pos, t.errors;
      // "Add another field"
      var another := PromptYn(t);
      GrowsBy(YnValidator, t.input, e1, t.errors, p1, t.pos);
      GrowsTrans(log0, e1, t.errors, start, p1, t.pos);
      if another.None? {
        assert Rounds(t.input, here) == None;
        assert Rounds(t.input, start) == None;
        return None;
      }
      FieldsOfSnoc(done, Round(field, another.value));
      if !another.value {
        assert Rounds(t.input, here) == Some([Round(field, false)]);
        done := done + [Round(field, false)];
        assert Rounds(t.input, start) == Some(done);
        break;
      }
      assert Rounds(t.input, here) == After([Round(field, true)], Rounds(t.input, t.pos));
      AfterAfter(done, [Round(field, true)], Rounds(t.input, t.pos));
      done := done + [Round(field, true)];
      assert Rounds(t.input, start) == After(done, Rounds(t.input, t.pos));
    }
    schema := Some(schemaBuilder.Build());
  }
}
