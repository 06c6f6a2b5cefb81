# Attestation assembly: in-toto Statement builder and DSSE envelope packager

This project models the two scripts that assemble a supply-chain
attestation. Each one fills in a JSON template.

- `craft-intoto.py` builds an in-toto Statement. It loads a Statement
  template and an SBOM document. It writes the SBOM into `predicate`, the
  image name into `subject[0].name` and the image digest into
  `subject[0].digest.sha256`. It dumps the result to `sbom-intoto.json`.
  `_type`, `predicateType` and every other field come from the template.
- `craft-dsse.py` packages a DSSE (Dead Simple Signing Envelope) envelope.
  Exactly one of the flags `--sbom` and `--slsa-provenance` must be given.
  The flag picks the media type stored in `payloadType`:
  `application/vnd.in-toto.spdx+dsse` or
  `application/vnd.in-toto.provenance+dsse`. The payload file's text is
  copied into `payload`. The signature file's text is copied into
  `signatures[0].sig`, and `signatures[0].keyid` is set to `""`. The
  result is dumped to `sbom.att` or `slsa-prov.att`, by kind.

Files:

- `json.dfy`: module `Results` (a `Result` type usable with `:-`) and
  module `Json`. `Json` holds the JSON value type and Python's subscript
  semantics on it. `GetItem`/`Lookup` read `doc[s0][s1]...`, and `Assign`
  performs `doc[s0]...[sn][key] = v`. Both raise `KeyError`, `IndexError`
  or `TypeError` where Python does; indexing a string gives a
  one-character string. The lemmas say what an assignment changes, and
  that it changes nothing else.
- `script.dfy`: module `Script`. It defines the input files, what loading
  them can give, the ways a run can fail, and the output file.
- `intoto.dfy`: module `InToto`. `Populate` is the three assignments.
  `CraftStatement` is the whole script, in its order.
- `dsse.dfy`: module `Dsse`. It has the flag check, the kind-to-media-type
  and kind-to-file-name tables, `Package` (the four assignments) and
  `CraftEnvelope` (the whole script, in its order).

`json.load` builds a fresh tree in which no dict or list is shared. So
mutating a nested dict in place gives the same document as rebuilding it
along the assigned path. The scripts' in-place updates are modelled that
way: the methods reassign a local document step by step. "Nothing else
changes" is stated over paths. Every subscript path that parts ways with
all the written fields (`Json.Apart`) looks up the same result before and
after, including the same exception.

What the scripts check, and what they leave unchecked:

- Neither script checks the digest's format or the payload's base64.
  Both are stored exactly as given (craft-intoto.py:39, craft-dsse.py:45).
- A template of the wrong shape raises whatever Python raises at the
  failing subscript (`KeyError`, `IndexError` or `TypeError`). The model
  returns that exception as `Raised(...)`.
- The two flags are refused separately. Both flags are refused by the
  mutually exclusive group (craft-dsse.py:18-20), neither by the XOR
  check (craft-dsse.py:24-25). `ValidateFlags` keeps the two refusals
  apart.
- The docstring and parser description of craft-dsse.py (lines 5-11, 13)
  describe the in-toto script. They play no part in the model.

## Model

| member | source | states |
|---|---|---|
| Json.AssignSucceedsIff | craft-intoto.py:38-39 | a nested subscript assignment succeeds exactly when every subscript of the prefix succeeds and reaches a dict; otherwise Python's KeyError, IndexError or TypeError ends it |
| Json.AssignThenLookup | craft-intoto.py:38-39 | after `doc[p...][key] = v` succeeds, reading `doc[p...][key]` gives `v` |
| Json.AssignFrame | craft-intoto.py:38-39 | a nested assignment leaves every path that parts ways with the assigned one reading exactly as before, errors included |
| Json.AssignUpdatesDict | craft-dsse.py:50-51 | after `doc[p...][key] = v`, the prefix still reaches the same dict, now mapping `key` to `v` (so the `keyid` write after the `sig` write cannot fail) |
| Json.AssignExistingValue | craft-intoto.py:36-39 | assigning the value a path already holds leaves the document unchanged |
| Json.AssignIdempotent | craft-intoto.py:36-39 | repeating a nested assignment gives what one assignment gives |
| Json.StringsYieldStrings | craft-intoto.py:38 | subscripting a string (`"abc"[0]`) only yields strings, so an assignment through a string always fails |
| InToto.PopulateSucceedsIff | craft-intoto.py:36-39 | the three assignments succeed exactly when the template is a dict whose `subject` is a non-empty list whose first entry is a dict holding a `digest` dict |
| InToto.PopulateWrites | craft-intoto.py:36-39 | `predicate` is the SBOM document, `subject[0].name` the image name and `subject[0].digest.sha256` the digest string, verbatim |
| InToto.PopulateFrame | craft-intoto.py:36-39 | every path apart from the three written fields reads the same as in the template |
| InToto.PopulateKeepsOtherFields | craft-intoto.py:9-10 | `_type`, `predicateType` and every top-level key other than `predicate`/`subject`, `subject[1..]`, keys of `subject[0]` other than `name`/`digest`, and digest keys other than `sha256` are as in the template |
| InToto.PopulateIdempotent | craft-intoto.py:36-39 | building again from the output with the same name, digest and SBOM returns the same document |
| InToto.CraftStatement | craft-intoto.py:22-43 | the template is loaded before the SBOM; an unreadable or malformed file ends the run there; the run succeeds exactly on a well-shaped template; on success it writes `sbom-intoto.json` holding `Populate`'s document with the three fields set; on failure nothing is written |
| Dsse.ValidateFlags | craft-dsse.py:18-25 | both flags are refused as conflicting, neither as missing; exactly one flag selects its kind |
| Dsse.PayloadType | craft-dsse.py:27-40 | `payloadType` is always one of the two media types, and it is the SPDX one exactly in SBOM mode |
| Dsse.OutputName | craft-dsse.py:54 | the envelope goes to `sbom.att` exactly in SBOM mode and to `slsa-prov.att` otherwise; neither is the Statement's output file |
| Dsse.KindsDistinct | craft-dsse.py:54 | the two kinds get different file names and different media types |
| Dsse.PackageSucceedsIff | craft-dsse.py:37-51 | the four assignments succeed exactly when the template is a dict whose `signatures` is a non-empty list whose first entry is a dict |
| Dsse.PackageWrites | craft-dsse.py:37-51 | `payloadType` is the kind's media type, `payload` the payload text, `signatures[0].sig` the signature text, verbatim, and `signatures[0].keyid` is `""` whatever the template held |
| Dsse.PackageFrame | craft-dsse.py:34-51 | every path apart from the four written fields reads the same as in the template |
| Dsse.PackageKeepsOtherFields | craft-dsse.py:34-51 | top-level keys other than `payloadType`/`payload`/`signatures`, `signatures[1..]`, and keys of `signatures[0]` other than `sig`/`keyid` are as in the template |
| Dsse.PackageIdempotent | craft-dsse.py:37-51 | packaging again from the output with the same inputs returns the same document |
| Dsse.CraftEnvelope | craft-dsse.py:18-56 | refused flags open no file; a template that is not a dict fails at `payloadType` before the payload file is opened; the payload is read before the signature, and both before `signatures[0]` is reached; the run succeeds exactly on a well-shaped template; on success it writes `Package`'s document to the kind's file, with the media type, payload, signature and empty key id in place |

## Left out

- staas-cli.py, staas-sign.py and staas-upload.py are not part of this
  model. They hash a file, base64-encode the digest and post it to the
  remote signing service. That is file I/O, foreign cryptography and an
  HTTP client.
- server.js is not part of this model. It is an HTTP server with one
  greeting route.
- Parsing and printing JSON (`json.load`, `json.dump` with `indent=4`) is
  not modelled. An input file is given as what loading it yields: a
  document, an unreadable file or malformed JSON. The output is the
  document, not its bytes. Dicts are maps, so key order is not modelled.
- JSON numbers are unbounded integers or exact reals. Python floats, NaN
  and infinities are not modelled; the scripts only copy numbers through.
- Reading a text file is given as the text `read()` returns. Decoding
  with the locale's encoding and text-mode newline translation happen
  before that point and are not modelled.
- Argument parsing beyond the two mode flags, the `print` messages and the
  process exit codes are not modelled. A refused flag combination is the
  `UsageError` result.
- Writing the output file is the returned `Output` (file name and
  document). A failed run returns an error and so writes nothing. A
  failure to open or write the output file itself (craft-intoto.py:42-43,
  craft-dsse.py:55-56), which can leave a truncated file, is not
  modelled: a run that reaches the output step succeeds. Two runs writing
  the same file name (last writer wins) are not modelled.
