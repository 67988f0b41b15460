/** The prompt engine of `src/commands/new.rs`: `prompt_input`, the predicate
    built by `prompt_options`, `prompt_yn` and `field_name_validate`.

    Standard input is a script of lines, each as `read_line` leaves it in its
    buffer (line terminator included); the terminal remembers how many lines
    were read and which error messages were printed. Each prompt is described
    twice: by a method that reads the terminal step by step as the source
    does, and by a function of (script, position) that says what the method
    returns and where the reading stops. */
module Prompt {
  import opened Wrappers
  import opened Text

  /** A validator's verdict: Rust's `Result<(), String>`. */
  datatype Outcome = Pass | Fail(msg: string)

  type Validator = string -> Outcome

  /** The verdict of `v` on the answer a buffer holds once trimmed. */
  function Verdict(v: Validator, line: string): Outcome {
    v(TrimEnd(line))
  }

  /** What a read of the script produced, and the position after it. */
  datatype Step<T> = Step(value: T, next: nat)

  /** Scripted standard input and the error messages printed so far. */
  class Terminal {
    const input: seq<string>
    var pos: nat
    var errors: seq<string>

    ghost predicate Valid()
      reads this
    {
      pos <= |input|
    }

    constructor (script: seq<string>)
      ensures Valid() && input == script && pos == 0 && errors == []
    {
      input := script;
      pos := 0;
      errors := [];
    }

    /** One `read_line`. At the end of the script there is nothing to read:
        the source's `read_line` would hand back an empty buffer, which every
        validator of the wizard rejects, forever; the model reports `None`. */
    method ReadLine() returns (line: Option<string>)
      requires Valid()
      modifies this`pos
      ensures Valid()
      ensures old(pos) < |input| ==> line == Some(input[old(pos)]) && pos == old(pos) + 1
      ensures old(pos) == |input| ==> line == None && pos == old(pos)
    {
      if pos < |input| {
        line := Some(input[pos]);
        pos := pos + 1;
      } else {
        line := None;
      }
    }

    /** `println!("Error: {}", msg)`, styling left out. */
    method PrintError(msg: string)
      requires Valid()
      modifies this`errors
      ensures Valid()
      ensures errors == old(errors) + [msg]
    {
      errors := errors + [msg];
    }
  }

  // ---------------------------------------------------------------------
  // prompt_input

  /** What `prompt_input` returns when it starts reading at `pos`: the first
      line from `pos` on whose trimmed form `v` accepts, and the position
      after that line; `None` when no line of the rest of the script is
      accepted. */
  function PromptStep(v: Validator, input: seq<string>, pos: nat): (r: Option<Step<string>>)
    ensures r.Some? ==> pos < r.value.next <= |input|
    ensures r.Some? ==> r.value.value == TrimEnd(input[r.value.next - 1]) && Verdict(v, input[r.value.next - 1]).Pass?
    decreases |input| - pos
  {
    if pos >= |input| then None
    else
      if Verdict(v, input[pos]).Pass? then Some(Step(TrimEnd(input[pos]), pos + 1))
      else PromptStep(v, input, pos + 1)
  }

  /** `prompt_input` returns the FIRST acceptable line: every line it reads
      before that one is rejected; and it finds nothing only when every
      remaining line is rejected. */
  lemma {:induction false} PromptStepFirst(v: Validator, input: seq<string>, pos: nat)
    ensures match PromptStep(v, input, pos)
      case Some(s) => forall j :: pos <= j < s.next - 1 ==> Verdict(v, input[j]).Fail?
      case None => forall j :: pos <= j < |input| ==> Verdict(v, input[j]).Fail?
    decreases |input| - pos
  {
    if pos < |input| && Verdict(v, input[pos]).Fail? {
      PromptStepFirst(v, input, pos + 1);
    }
  }

  /** A rejected line is skipped: reading resumes at the next one. */
  lemma PromptStepSkips(v: Validator, input: seq<string>, p: nat)
    requires p < |input| && Verdict(v, input[p]).Fail?
    ensures PromptStep(v, input, p) == PromptStep(v, input, p + 1)
  {
  }

  /** What reading `line` prints: the validator's message, if it rejects. */
  function MessageOf(v: Validator, line: string): seq<string> {
    match Verdict(v, line)
    case Pass => []
    case Fail(m) => [m]
  }

  /** The messages printed while reading lines `a` to `b - 1` of the
      script: one per line that `v` rejects, in order; an accepted line
      prints nothing. */
  function Rejections(v: Validator, input: seq<string>, a: nat, b: nat): (errs: seq<string>)
    requires a <= b <= |input|
    ensures |errs| <= b - a
    decreases b
  {
    if a == b then [] else Rejections(v, input, a, b - 1) + MessageOf(v, input[b - 1])
  }

  /** Reading a stretch of the script in two parts prints what reading it
      at once prints. */
  lemma {:induction false} RejectionsSplit(v: Validator, input: seq<string>, a: nat, b: nat, c: nat)
    requires a <= b <= c <= |input|
    ensures Rejections(v, input, a, c) == Rejections(v, input, a, b) + Rejections(v, input, b, c)
    decreases c
  {
    if b < c {
      RejectionsSplit(v, input, a, b, c - 1);
    }
  }

  /** A log holding the messages of the reads from `a` to `b` goes on to
      hold those from `a` to `c` once the messages of the reads from `b` to
      `c` are printed. */
  lemma RejectionsExtend(v: Validator, input: seq<string>, log0: seq<string>, log: seq<string>, a: nat, b: nat, c: nat)
    requires a <= b <= c <= |input|
    requires log == log0 + Rejections(v, input, a, b)
    ensures log + Rejections(v, input, b, c) == log0 + Rejections(v, input, a, c)
  {
    RejectionsSplit(v, input, a, b, c);
  }

  /** Every line `prompt_input` reads before the one it accepts prints
      exactly one error message, and the accepted line prints none; when
      the script runs out, every line read printed one. */
  lemma {:induction false} PromptErrorCount(v: Validator, input: seq<string>, pos: nat)
    requires pos <= |input|
    ensures match PromptStep(v, input, pos)
      case Some(s) => |Rejections(v, input, pos, s.next)| == s.next - pos - 1
      case None => |Rejections(v, input, pos, |input|)| == |input| - pos
    decreases |input| - pos
  {
    if pos < |input| && Verdict(v, input[pos]).Fail? {
      PromptErrorCount(v, input, pos + 1);
      assert |Rejections(v, input, pos, pos + 1)| == 1;
      match PromptStep(v, input, pos)
      case Some(s) =>
        RejectionsSplit(v, input, pos, pos + 1, s.next);
      case None =>
        RejectionsSplit(v, input, pos, pos + 1, |input|);
    }
  }

  /** Reading an accepted line ends the prompt: the step found is that
      line, and reading it printed nothing. */
  lemma ReadAccepted(v: Validator, input: seq<string>, start: nat, here: nat, next: nat, log0: seq<string>, log: seq<string>)
    requires start <= here < |input| && next == here + 1 && Verdict(v, input[here]).Pass?
    requires PromptStep(v, input, start) == PromptStep(v, input, here)
    requires log == log0 + Rejections(v, input, start, here)
    ensures PromptStep(v, input, start) == Some(Step(TrimEnd(input[here]), next))
    ensures log == log0 + Rejections(v, input, start, next)
  {
    assert MessageOf(v, input[here]) == [];
    var before := Rejections(v, input, start, here);
    assert Rejections(v, input, start, next) == before + [] == before;
  }

  /** Reading a rejected line moves the prompt on by one line and prints
      the validator's message. */
  lemma ReadRejected(v: Validator, input: seq<string>, start: nat, here: nat, next: nat, log0: seq<string>, log: seq<string>)
    requires start <= here < |input| && next == here + 1 && Verdict(v, input[here]).Fail?
    requires PromptStep(v, input, start) == PromptStep(v, input, here)
    requires log == log0 + Rejections(v, input, start, here)
    ensures PromptStep(v, input, start) == PromptStep(v, input, next)
    ensures log + [Verdict(v, input[here]).msg] == log0 + Rejections(v, input, start, next)
  {
    assert MessageOf(v, input[here]) == [Verdict(v, input[here]).msg];
    assert Rejections(v, input, start, next) == Rejections(v, input, start, here) + [Verdict(v, input[here]).msg];
  }

  /** `prompt_input`: read lines until `v` accepts one; print the message of
      every line it rejects; return the accepted line with its trailing
      whitespace trimmed. */
  method PromptInput(t: Terminal, v: Validator) returns (r: Option<string>)
    requires t.Valid()
    modifies t
    ensures t.Valid() && old(t.pos) <= t.pos
    ensures match PromptStep(v, t.input, old(t.pos))
      case Some(s) => r == Some(s.value) && t.pos == s.next
      case None => r == None && t.pos == |t.input|
    ensures t.errors == old(t.errors) + Rejections(v, t.input, old(t.pos), t.pos)
  {
    ghost var start, log0 := t.pos, t.errors;
    while true
      invariant t.Valid() && start <= t.pos
      invariant PromptStep(v, t.input, start) == PromptStep(v, t.input, t.pos)
      invariant t.errors == log0 + Rejections(v, t.input, start, t.pos)
      decreases |t.input| - t.pos
    {
      ghost var here := t.pos;
      var buffer := t.ReadLine();
      if buffer.None? {
        return None;
      }
      var answer := TrimEnd(buffer.value);
      match Verdict(v, buffer.value) {
        case Pass =>
          ReadAccepted(v, t.input, start, here, t.pos, log0, t.errors);
          return Some(answer);
        case Fail(msg) =>
          ReadRejected(v, t.input, start, here, t.pos, log0, t.errors);
          t.PrintError(msg);
      }
    }
  }

  // ---------------------------------------------------------------------
  // field_name_validate

  const FieldNameError: string := "Field name must match the pattern [_a-zA-Z0-9]+"

  predicate IsNameChar(c: char) {
    ('a' <= c <= 'z') || ('A' <= c <= 'Z') || ('0' <= c <= '9') || c == '_'
  }

  /** tantivy's `is_valid_field_name`, taken to be the pattern that the
      error message quotes. */
  predicate IsValidFieldName(name: string) {
    |name| > 0 && forall i :: 0 <= i < |name| ==> IsNameChar(name[i])
  }

  /** `field_name_validate`: accepts exactly the names that match the
      pattern, and rejects every other one with the same message. */
  function FieldNameValidate(name: string): (r: Outcome)
    ensures r.Pass? <==> IsValidFieldName(name)
    ensures r.Fail? ==> r.msg == FieldNameError
  {
    if IsValidFieldName(name) then Pass else Fail(FieldNameError)
  }

  /** The name prompt prints the same fixed message for every line it
      rejects, and the name it returns satisfies the pattern. */
  lemma {:induction false} NamePrompt(input: seq<string>, a: nat, b: nat)
    requires a <= b <= |input|
    ensures forall m :: m in Rejections(FieldNameValidate, input, a, b) ==> m == FieldNameError
    ensures PromptStep(FieldNameValidate, input, a).Some? ==>
      IsValidFieldName(PromptStep(FieldNameValidate, input, a).value.value)
    decreases b
  {
    if a < b {
      NamePrompt(input, a, b - 1);
    }
  }

  // ---------------------------------------------------------------------
  // prompt_options and prompt_yn

  /** `codes` joined with "/", as the prompt and the error message show them. */
  function JoinSlash(codes: seq<char>): (r: string)
    ensures codes == [] ==> r == []
    ensures codes != [] ==> |r| == 2 * |codes| - 1
    ensures forall i :: 0 <= i < |r| && i % 2 == 0 ==> r[i] == codes[i / 2]
    ensures forall i :: 0 <= i < |r| && i % 2 == 1 ==> r[i] == '/'
  {
    if |codes| <= 1 then codes
    else
      var rest := JoinSlash(codes[1..]);
      var r := [codes[0]] + "/" + rest;
      assert forall i :: 2 <= i < |r| ==> r[i] == rest[i - 2];
      r
  }

  function OptionsError(codes: seq<char>): string {
    "Invalid input. Options are (" + JoinSlash(codes) + ")"
  }

  /** The predicate `prompt_options` gives `prompt_input`: the entry must be
      one byte long and its ASCII-uppercased character one of `codes`. */
  function OptionCheck(codes: seq<char>, entry: string): (r: Outcome)
    ensures r.Fail? ==> r.msg == OptionsError(codes)
  {
    if ByteLen(entry) != 1 then Fail(OptionsError(codes))
    else
      var c := AsciiUpper(entry[0]);
      if c in codes then Pass else Fail(OptionsError(codes))
  }

  /** The entry is accepted exactly when it is a single ASCII character
      whose uppercase is one of `codes`; otherwise the message lists the
      codes. */
  lemma OptionCheckSpec(codes: seq<char>, entry: string)
    ensures OptionCheck(codes, entry).Pass? <==> |entry| == 1 && entry[0] as int < 0x80 && AsciiUpper(entry[0]) in codes
    ensures OptionCheck(codes, entry).Fail? ==> OptionCheck(codes, entry).msg == OptionsError(codes)
  {
    ByteLenIsOne(entry);
  }

  function OptionValidator(codes: seq<char>): Validator {
    entry => OptionCheck(codes, entry)
  }

  /** What `prompt_options` returns when it starts reading at `pos`: the
      uppercased character of the first acceptable line. */
  function OptionsStep(codes: seq<char>, input: seq<string>, pos: nat): (r: Option<Step<char>>)
    ensures r.Some? ==> pos < r.value.next <= |input|
  {
    match PromptStep(OptionValidator(codes), input, pos)
    case None => None
    case Some(s) => Some(Step(AsciiUpper(s.value[0]), s.next))
  }

  /** The character `prompt_options` returns is one of the codes: that of
      the accepted line, a single ASCII character, uppercased. */
  lemma OptionsStepLine(codes: seq<char>, input: seq<string>, pos: nat)
    requires OptionsStep(codes, input, pos).Some?
    ensures var s := OptionsStep(codes, input, pos).value;
      var line := TrimEnd(input[s.next - 1]);
      |line| == 1 && line[0] as int < 0x80 && s.value == AsciiUpper(line[0]) && s.value in codes
  {
    var s := OptionsStep(codes, input, pos).value;
    OptionCheckSpec(codes, TrimEnd(input[s.next - 1]));
  }

  /** `prompt_options`. */
  method PromptOptions(t: Terminal, codes: seq<char>) returns (r: Option<char>)
    requires t.Valid()
    modifies t
    ensures t.Valid() && old(t.pos) <= t.pos
    ensures match OptionsStep(codes, t.input, old(t.pos))
      case Some(s) => r == Some(s.value) && t.pos == s.next
      case None => r == None && t.pos == |t.input|
    ensures t.errors == old(t.errors) + Rejections(OptionValidator(codes), t.input, old(t.pos), t.pos)
  {
    var entry := PromptInput(t, OptionValidator(codes));
    if entry.None? {
      return None;
    }
    r := Some(AsciiUpper(entry.value[0]));
  }

  const YnCodes: seq<char> := ['Y', 'N']

  const YnValidator: Validator := OptionValidator(YnCodes)

  /** The yes/no predicate accepts exactly "y", "Y", "n" and "N"; a leading
      space, a second character or a non-ASCII letter is refused. */
  lemma YnAccepts(entry: string)
    ensures YnValidator(entry).Pass? <==> entry in {"y", "Y", "n", "N"}
  {
    OptionCheckSpec(YnCodes, entry);
    if YnValidator(entry).Pass? {
      assert entry == [entry[0]];
    }
  }

  /** The accepted yes/no line is read as "yes" exactly when it is "y" or
      "Y", as "no" exactly when it is "n" or "N". */
  lemma YnLine(line: string)
    requires YnValidator(line).Pass?
    ensures AsciiUpper(line[0]) == 'Y' <==> line in {"y", "Y"}
    ensures AsciiUpper(line[0]) == 'N' <==> line in {"n", "N"}
  {
    OptionCheckSpec(YnCodes, line);
    assert line == [line[0]];
  }

  /** What `prompt_yn` returns when it starts reading at `pos`: true exactly
      when the accepted line is "y" or "Y", false exactly when it is "n" or
      "N". */
  function YnStep(input: seq<string>, pos: nat): (r: Option<Step<bool>>)
    ensures r.Some? ==> pos < r.value.next <= |input|
  {
    match OptionsStep(YnCodes, input, pos)
    case None => None
    case Some(s) => Some(Step(s.value == 'Y', s.next))
  }

  /** `prompt_yn` answers "yes" exactly when the line it accepted is "y" or
      "Y", and "no" exactly when it is "n" or "N". */
  lemma YnStepLine(input: seq<string>, pos: nat)
    requires YnStep(input, pos).Some?
    ensures var s := YnStep(input, pos).value;
      var line := TrimEnd(input[s.next - 1]);
      (s.value <==> line in {"y", "Y"}) && (!s.value <==> line in {"n", "N"})
  {
    YnLine(TrimEnd(input[YnStep(input, pos).value.next - 1]));
  }

  /** `prompt_yn`. */
  method PromptYn(t: Terminal) returns (r: Option<bool>)
    requires t.Valid()
    modifies t
    ensures t.Valid() && old(t.pos) <= t.pos
    ensures match YnStep(t.input, old(t.pos))
      case Some(s) => r == Some(s.value) && t.pos == s.next
      case None => r == None && t.pos == |t.input|
    ensures t.errors == old(t.errors) + Rejections(YnValidator, t.input, old(t.pos), t.pos)
  {
    var c := PromptOptions(t, YnCodes);
    if c.None? {
      return None;
    }
    r := Some(c.value == 'Y');
  }
}
