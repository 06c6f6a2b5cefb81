/**
  What the two scripts share: the files they open, what opening and
  reading those files can give, the ways a run can fail, and the one
  file a successful run writes.
 */
module Script {
  import opened Results
  import opened Json

  /** The input files a run opens, by the part they play. */
  datatype FileRole = SchemaFile | PredicateFile | PayloadFile | SignatureFile

  /** What `open` followed by `json.load` gives for one input file. */
  datatype JsonFile = JsonDoc(doc: Json) | JsonUnreadable | JsonMalformed

  /** What `open` followed by `read()` gives for one input file. */
  datatype TextFile = Text(text: string) | TextUnreadable

  /** Why the mode flags were refused. */
  datatype UsageFault =
    | ConflictingModes  // both flags given: refused by the mutually exclusive group
    | MissingMode       // neither flag given: refused by the explicit XOR check

  /** Every way a run ends without writing its output file. */
  datatype ScriptError =
    | UsageError(fault: UsageFault)
    | IOError(file: FileRole)
    | DecodeError(file: FileRole)
    | Raised(exception: PyError)

  /** The file a successful run writes: its name and the document dumped into it. */
  datatype Output = Output(path: string, doc: Json)

  /** The fixed names of the files the two scripts write. */
  const StatementPath := "sbom-intoto.json"
  const SbomEnvelopePath := "sbom.att"
  const ProvenanceEnvelopePath := "slsa-prov.att"

  /** `json.load(open(path))`: `open` raises an I/O error, `json.load` a decode error. */
  function LoadJson(f: JsonFile, role: FileRole): Result<Json, ScriptError>
  {
    match f
    case JsonDoc(doc) => Ok(doc)
    case JsonUnreadable => Err(IOError(role))
    case JsonMalformed => Err(DecodeError(role))
  }

  /** `open(path).read()`: the text as read, or the I/O error `open` raises. */
  function ReadText(f: TextFile, role: FileRole): Result<string, ScriptError>
  {
    match f
    case Text(text) => Ok(text)
    case TextUnreadable => Err(IOError(role))
  }
}
