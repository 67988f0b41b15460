# tantivy-cli `new`: the schema wizard

`tantivy new -i <dir>` creates an index after asking, on the terminal, for
its schema one field at a time. It asks for:

- a field name, checked against the field-name pattern;
- a type, `T` for text or `I` for an unsigned integer;
- the yes/no questions of that type.

It then asks "Add another field" and repeats until the answer is "no". The
fields collected become the schema.

Every prompt goes through one retry loop, `prompt_input`. It reads a line,
trims its trailing whitespace and hands it to a validator. If the validator
rejects the line, the loop prints the error and reads the next line. If the
validator accepts it, the loop returns the trimmed line.

This project models that wizard as a deterministic machine over a scripted
standard input:

- `Prompt.Terminal` holds the script, the number of lines read so far and
  the error messages printed.
- The prompts are methods that read the terminal as the source does:
  `PromptInput`, `PromptOptions`, `PromptYn`, `AskAddFieldText`,
  `AskAddFieldU64`, `AskAddField`, and `RunNew` for the collection loop.
- Each method is proved to return, to append to the `SchemaBuilder` and to
  stop reading exactly where a function of (script, position) says.
- The functions are `PromptStep`, `OptionsStep`, `YnStep`, `TextStep`,
  `U64Step`, `FieldStep`, and `Rounds`/`NewSchema` with `LoopEnd`.
- The questions are also written as decision tables over the sequence of
  yes/no answers. These are `TextTable` and `U64Table`, and the properties
  of the option lattice are proved on them.
- `TextStepFollowsTable` and `U64StepFollowsTable` prove that the prompting
  functions take the tables' decisions.
- `YnReadsFilter` proves that rejected lines have no effect on the answers.

Modules:

- `Wrappers`: `Option`.
- `Text`: UTF-8 byte length, `trim_end` and `to_ascii_uppercase`.
- `Prompt`: the terminal, `prompt_input`, `field_name_validate`,
  `prompt_options` and `prompt_yn`.
- `Tantivy`: the option values and the `SchemaBuilder` the wizard fills.
- `Wizard`: the field flows and the collection loop.
- `Scripts`: two complete sessions worked through the model.

When the script runs out, a method returns `None` and stops at the end of
the script. The source's `read_line` would instead hand back an empty
buffer, which every validator of the wizard rejects, so the program would
loop forever printing errors. `None` stands for that non-termination.

Two behaviours of the code differ from what its questions suggest; the
model follows the code:

- Answering "no" to "Should the field be indexed" does not leave a text
  field unindexed. The field keeps the indexing it was given at
  `src/commands/new.rs:82-85`: the CANG_JIE tokenizer with frequencies and
  positions. `TextRichness` states this.
- The else-branch at `src/commands/new.rs:105-107` re-sets the tokenizer
  that is already set. A field that is indexed but not tokenized therefore
  still uses CANG_JIE with `Basic` records.

## Model

| member | source | states |
|---|---|---|
| Text.ByteLen | src/commands/new.rs:62 | `entry.len()` counts UTF-8 bytes: at least one and at most four per character |
| Text.ByteLenIsOne | src/commands/new.rs:62 | an entry is one byte long exactly when it is a single ASCII character |
| Text.TrimEnd | src/commands/new.rs:36 | `trim_end` returns a prefix of the buffer; `TrimEndSpec` says which one |
| Text.TrimEndSpec | src/commands/new.rs:36 | the trimmed answer is the prefix of the buffer that leaves only whitespace behind and does not itself end in whitespace |
| Text.AsciiUpper | src/commands/new.rs:65 | `to_ascii_uppercase` maps 'a'..'z' to upper case, changes nothing else and keeps a character ASCII exactly when it was |
| Prompt.Terminal.constructor | src/commands/new.rs:31-35 | standard input is a script of lines: nothing has been read and nothing printed yet |
| Prompt.Terminal.ReadLine | src/commands/new.rs:31-35 | a read returns the next line of the script and advances by one; at the end of the script it returns nothing |
| Prompt.Terminal.PrintError | src/commands/new.rs:42 | printing an error appends its message to the output |
| Prompt.PromptStep | src/commands/new.rs:23-46 | what `prompt_input` returns is the trimmed form of a line the validator accepts, and reading stops right after that line |
| Prompt.PromptStepFirst | src/commands/new.rs:23-46 | the returned line is the FIRST accepted one: every line read before it is rejected; nothing is returned only when every remaining line is rejected |
| Prompt.Rejections | src/commands/new.rs:41-43 | reading a stretch of lines prints at most one message per line |
| Prompt.RejectionsSplit | src/commands/new.rs:24-45 | the messages printed by consecutive reads are the concatenation of those of each read |
| Prompt.PromptErrorCount | src/commands/new.rs:37-44 | every rejected line prints exactly one message and the accepted line prints none |
| Prompt.PromptInput | src/commands/new.rs:23-46 | the loop returns what `PromptStep` says, stops where it says, and prints exactly the messages of the lines it rejected, in order |
| Prompt.NamePrompt | src/commands/new.rs:48-56 | the name prompt prints the fixed pattern message for every rejected name and returns a name that matches the pattern |
| Prompt.FieldNameValidate | src/commands/new.rs:48-56 | accepts exactly the names that match the pattern, and rejects every other name with the fixed message "Field name must match the pattern [_a-zA-Z0-9]+" |
| Prompt.JoinSlash | src/commands/new.rs:59-60 | the codes joined by "/": for n codes, 2n-1 characters, the codes at even positions in order and "/" at odd ones |
| Prompt.OptionCheck | src/commands/new.rs:61-71 | every rejection carries the message "Invalid input. Options are (" + the joined codes + ")"; which entries pass is `OptionCheckSpec` |
| Prompt.OptionCheckSpec | src/commands/new.rs:61-71 | the option predicate accepts exactly one ASCII character whose upper case is one of the codes; otherwise its message lists the codes |
| Prompt.OptionsStep | src/commands/new.rs:58-75 | `prompt_options` reads at least one line and stays within the script |
| Prompt.OptionsStepLine | src/commands/new.rs:73-74 | the returned character is the upper case of the accepted one-character line and is always one of the codes |
| Prompt.PromptOptions | src/commands/new.rs:58-75 | the method returns and stops where `OptionsStep` says and prints the option message for each rejected line |
| Prompt.YnAccepts | src/commands/new.rs:77-79 | the yes/no predicate accepts exactly "y", "Y", "n" and "N" |
| Prompt.YnStep | src/commands/new.rs:77-79 | `prompt_yn` reads at least one line and stays within the script |
| Prompt.YnStepLine | src/commands/new.rs:77-79 | `prompt_yn` answers true exactly when the accepted line is "y" or "Y", and false exactly when it is "n" or "N" |
| Prompt.PromptYn | src/commands/new.rs:77-79 | the method returns and stops where `YnStep` says and prints the option message for each rejected line |
| Wizard.YnReadsFilter | src/commands/new.rs:77-79 | successive yes/no prompts read exactly the acceptable lines of the script, in order: a rejected line changes no answer |
| Wizard.TextTable | src/commands/new.rs:81-113 | the text questions use 2 to 5 answers; every answer after the first is "yes" except possibly the last one used; `stored` is the first answer; the tokenizer is always CANG_JIE; five answers always decide |
| Wizard.TextRecordOption | src/commands/new.rs:82-110 | the record option on each path: indexed=no keeps frequencies and positions, tokenized=no or frequencies=no give Basic, positions=no gives frequencies only, all yes gives frequencies and positions |
| Wizard.TextRichness | src/commands/new.rs:82-110 | once indexed, frequencies and positions are recorded exactly when every later answer is yes, and any no records strictly less; indexed=no keeps the initial indexing |
| Wizard.TextTableUsesPrefix | src/commands/new.rs:86-110 | answers after the last question asked do not affect the text field |
| Wizard.TextStep | src/commands/new.rs:81-113 | the text questions read at least one line and stay within the script |
| Wizard.TextStepFollowsTable | src/commands/new.rs:81-113 | the text questions take the decision of `TextTable` on the script's yes/no answers and stop right after the last answer it used |
| Wizard.AskAddFieldText | src/commands/new.rs:81-113 | appends exactly the text field `TextStep` describes, under the given name, and prints the yes/no messages of the rejected lines |
| Wizard.U64Table | src/commands/new.rs:115-127 | the u64 questions decide exactly when three answers are available, and use three |
| Wizard.U64Independent | src/commands/new.rs:115-127 | `stored`, `fast` (single-valued) and `indexed` each equal their own answer, and changing one answer changes only its own flag |
| Wizard.U64Step | src/commands/new.rs:115-127 | the u64 questions read at least one line and stay within the script |
| Wizard.U64StepFollowsTable | src/commands/new.rs:115-127 | the u64 questions take exactly three yes/no answers and the decision of `U64Table` on them |
| Wizard.AskAddFieldU64 | src/commands/new.rs:115-127 | appends exactly the u64 field `U64Step` describes, under the given name, and prints the yes/no messages of the rejected lines |
| Wizard.TypeChoice | src/commands/new.rs:132-133 | the type prompt accepts exactly "T", "t", "I" and "i", and reads "T" or "t" as text |
| Wizard.FieldStep | src/commands/new.rs:129-138 | a field is only added under a name matching the field-name pattern |
| Wizard.FieldStepKind | src/commands/new.rs:129-138 | the field is named by the name prompt's answer and is a text field exactly when the type prompt returned 'T' |
| Wizard.AskAddField | src/commands/new.rs:129-138 | appends exactly the field `FieldStep` describes and stops where it says; the error log only grows, by at most one message per line |
| Wizard.Rounds | src/commands/new.rs:153-158 | the passes of the loop: when the loop completes it made at least one pass, and the first pass holds the field asked for first |
| Wizard.RoundsShape | src/commands/new.rs:153-158 | the loop adds at least one field; "Add another field" is answered yes on every pass but the last and no on the last |
| Wizard.RoundsNames | src/commands/new.rs:152-159 | every field of the schema has a name matching the pattern |
| Wizard.ShapeCount | src/commands/new.rs:153-158 | a run of passes answered "yes" on every pass but the last has exactly one pass more than it has "yes" answers |
| Wizard.FieldCount | src/commands/new.rs:152-159 | the schema holds one field more than the number of "yes" answers to "Add another field" |
| Wizard.NewSchema | src/commands/new.rs:152-159 | a completed loop gives a schema with at least one field, every name matching the pattern |
| Wizard.SchemaOrder | src/commands/new.rs:152-159 | the schema starts with the first pass's field and continues, after a "yes", with the schema of the rest of the script, or ends there after a "no": fields appear in the order asked, each as its pass built it |
| Wizard.LoopEnd | src/commands/new.rs:153-158 | the loop reads at least one line and stays within the script |
| Wizard.LoopEndRounds | src/commands/new.rs:153-158 | the loop stops reading exactly when it completes a schema |
| Wizard.LoopEndLine | src/commands/new.rs:155-157 | the last line the loop reads is the "n" or "N" that answers "Add another field" |
| Wizard.RunNew | src/commands/new.rs:152-159 | the loop builds exactly `NewSchema` of the script and stops reading where `LoopEnd` says, or at the end of the script when it runs out; the error log only grows |
| Tantivy.SchemaBuilder.constructor | src/commands/new.rs:152 | a new builder holds no fields |
| Tantivy.SchemaBuilder.AddTextField | src/commands/new.rs:112 | appends one text entry after the existing ones |
| Tantivy.SchemaBuilder.AddU64Field | src/commands/new.rs:126 | appends one u64 entry after the existing ones |
| Scripts.AnswerLine | src/commands/new.rs:77-79 | a line "y", "Y", "n" or "N" followed by a newline is accepted at once and read as yes exactly for "y" and "Y" |
| Scripts.TypeLine | src/commands/new.rs:132 | a line "T" or "I" followed by a newline is accepted at once |
| Scripts.NameLine | src/commands/new.rs:131 | a valid name followed by a newline is accepted at once, without the newline |
| Scripts.OnlyRound | src/commands/new.rs:153-158 | a field followed by "no" to "Add another field" is the whole schema |
| Scripts.TitleExample | src/commands/new.rs:81-113 | "title", "T", five "Y" and a final "N" give one stored text field recording frequencies and positions with CANG_JIE |
| Scripts.CountExample | src/commands/new.rs:115-127 | "count", "I", "N", "Y", "N" and a final "N" give one u64 field that is fast (single-valued), neither stored nor indexed |

## Left out

- Terminal presentation is not modelled: ANSI styling, the prompt texts and their 40-column padding, stdout flushing and the blank lines (lines 25-30, 42, 130, 141-151, 161). Only the error messages are kept, as strings.
- A failing `read_line` panics through `expect` (lines 32-35). A scripted input cannot fail to read, so this is not modelled.
- Reading past the end of input is modelled as `None` rather than as the source's endless loop of rejected empty lines (see above).
- `is_valid_field_name` belongs to the tantivy library and is not part of this model. It is taken to be the pattern `[_a-zA-Z0-9]+` that the error message quotes (`Prompt.IsValidFieldName`). The library's own predicate may be stricter (for instance, it may refuse a leading digit or underscore), so the guarantees about accepted names (`NamePrompt`, `FieldStep`, `RoundsNames`, `NewSchema`) hold for the assumed pattern only.
- Duplicate field names: the schema is a plain sequence and nothing is claimed about uniqueness. What tantivy's `SchemaBuilder` does with a repeated name is not part of this model.
- `SchemaBuilder::build` is modelled as handing back the fields in order; tantivy's own schema internals are not part of this model.
- Serialising the schema to JSON (line 160), `fs::create_dir` with its AlreadyExists and panic handling (lines 162-167) and `Index::create_in_dir` (line 168) are filesystem and library calls. `RunNew` returns the schema instead of writing it.
- Command-line parsing in `run_new_cli` (lines 18-21) is left out.
- The CangJie/Jieba tokenizer itself is not modelled. Its registered name is the constant `Tantivy.CANG_JIE`.
- Of `TextOptions`, `TextFieldIndexing` and `IntOptions`, only the parts the wizard sets are modelled. The default tokenizer of `TextFieldIndexing::default()` is always overwritten (lines 83 and 93), so it is not modelled.
- The type prompt says "unsigned 32-bit integer" but adds a u64 field (lines 132 and 136). Prompt texts are not modelled, so the model has no trace of this.
- AskAddField: its error-log contract states only that the log grows by at most one message per line read and keeps its earlier contents. It does not give the exact messages, because the three prompts use different validators. PromptInput, PromptOptions, PromptYn, AskAddFieldText and AskAddFieldU64 state their exact messages.
- RunNew: its error-log contract is the same growth bound as AskAddField's, not the exact list of messages.
