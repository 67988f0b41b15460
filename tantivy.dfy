/** The values of the search-engine library that the wizard builds: text
    and u64 field options, field entries, and the schema builder it appends
    them to. Only the parts the wizard sets are modelled. */
module Tantivy {
  import opened Wrappers

  /** What the inverted index records for each term, poorest first. */
  datatype IndexRecordOption = Basic | WithFreqs | WithFreqsAndPositions

  /** How much an option records: 0 (documents only), 1 (plus term
      frequencies) or 2 (plus positions). */
  function Richness(o: IndexRecordOption): nat {
    match o
    case Basic => 0
    case WithFreqs => 1
    case WithFreqsAndPositions => 2
  }

  /** The name under which the word-segmenting tokenizer of the `cang_jie`
      crate is registered (its constant `CANG_JIE`). */
  const CANG_JIE: string := "cang_jie"

  datatype TextFieldIndexing = TextFieldIndexing(tokenizer: string, record: IndexRecordOption)

  /** `TextOptions`: `indexing` is `None` for a field that is not indexed. */
  datatype TextOptions = TextOptions(indexing: Option<TextFieldIndexing>, stored: bool)

  datatype Cardinality = SingleValue | MultiValues

  /** `IntOptions`: `fast` is `None` for a field without a fast column. */
  datatype IntOptions = IntOptions(indexed: bool, fast: Option<Cardinality>, stored: bool)

  datatype FieldType = Str(text: TextOptions) | U64(numeric: IntOptions)

  datatype FieldEntry = FieldEntry(name: string, fieldType: FieldType)

  type Schema = seq<FieldEntry>

  /** `SchemaBuilder`: collects field entries in the order they are added.
      Duplicate names are not examined here (see README). */
  class SchemaBuilder {
    var fields: seq<FieldEntry>

    /** `SchemaBuilder::default()`. */
    constructor ()
      ensures fields == []
    {
      fields := [];
    }

    /** `add_text_field`: appends a text entry and returns its field id. */
    method AddTextField(name: string, options: TextOptions) returns (field: nat)
      modifies this
      ensures fields == old(fields) + [FieldEntry(name, Str(options))]
      ensures field == |old(fields)|
    {
      field := |fields|;
      fields := fields + [FieldEntry(name, Str(options))];
    }

    /** `add_u64_field`: appends a u64 entry and returns its field id. */
    method AddU64Field(name: string, options: IntOptions) returns (field: nat)
      modifies this
      ensures fields == old(fields) + [FieldEntry(name, U64(options))]
      ensures field == |old(fields)|
    {
      field := |fields|;
      fields := fields + [FieldEntry(name, U64(options))];
    }

    /** `build`: the schema is the fields in the order they were added. */
    function Build(): Schema
      reads this
    {
      fields
    }
  }
}
