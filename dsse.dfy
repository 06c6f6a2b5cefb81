/**
  The DSSE envelope packager (craft-dsse.py). Exactly one of two mode flags
  picks the kind of attestation; the packager loads an envelope template,
  sets `payloadType` to the kind's media type, copies the payload file's
  text into `payload` and the signature file's text into
  `signatures[0].sig`, empties `signatures[0].keyid`, and dumps the result
  to a file named after the kind.
 */
module Dsse {
  import opened Results
  import opened Json
  import opened Script

  /** The two kinds of attestation, one per mode flag. */
  datatype Kind = Sbom | Provenance

  const SbomMediaType := "application/vnd.in-toto.spdx+dsse"
  const ProvenanceMediaType := "application/vnd.in-toto.provenance+dsse"

  /** `signatures[0]`, the dict the signature and key id are written into. */
  const SignatureEntry: Path := [Key("signatures"), Index(0)]

  /** The four fields the packager writes. */
  const PayloadTypeField: Path := [Key("payloadType")]
  const PayloadField: Path := [Key("payload")]
  const SigField: Path := SignatureEntry + [Key("sig")]
  const KeyIdField: Path := SignatureEntry + [Key("keyid")]

  /**
    The mode flags `--slsa-provenance` and `--sbom`: giving both is refused
    by the mutually exclusive group, giving neither by the XOR check that
    follows; exactly one selects its kind.
   */
  function ValidateFlags(provenance: bool, sbom: bool): (r: Result<Kind, UsageFault>)
    ensures r.Ok? <==> provenance != sbom
    ensures r == Ok(Sbom) <==> sbom && !provenance
    ensures r == Ok(Provenance) <==> provenance && !sbom
    ensures r == Err(ConflictingModes) <==> provenance && sbom
    ensures r == Err(MissingMode) <==> !provenance && !sbom
  {
    if provenance && sbom then Err(ConflictingModes)
    else if !(provenance != sbom) then Err(MissingMode)
    else if sbom then Ok(Sbom)
    else Ok(Provenance)
  }

  /** The media type stored in `payloadType`. */
  function PayloadType(kind: Kind): (r: string)
    ensures r == SbomMediaType || r == ProvenanceMediaType
    ensures r == SbomMediaType <==> kind == Sbom
  {
    match kind
    case Sbom => SbomMediaType
    case Provenance => ProvenanceMediaType
  }

  /** The name of the file the envelope is written to. */
  function OutputName(kind: Kind): (r: string)
    ensures r == SbomEnvelopePath || r == ProvenanceEnvelopePath
    ensures r == SbomEnvelopePath <==> kind == Sbom
    ensures r != StatementPath
  {
    if kind == Sbom then SbomEnvelopePath else ProvenanceEnvelopePath
  }

  /**
    Both kinds can be packaged from one template without one overwriting
    the other, and the two kinds are told apart by their media type.
   */
  lemma KindsDistinct(k1: Kind, k2: Kind)
    requires k1 != k2
    ensures OutputName(k1) != OutputName(k2)
    ensures PayloadType(k1) != PayloadType(k2)
  {
  }

  /**
    The templates the four assignments succeed on: a dict whose
    `signatures` is a non-empty list whose first entry is a dict.
   */
  predicate EnvelopeTemplate(t: Json)
  {
    && t.JObj?
    && "signatures" in t.fields
    && t.fields["signatures"].JArr?
    && |t.fields["signatures"].items| > 0
    && t.fields["signatures"].items[0].JObj?
  }

  /**
    The four assignments of the script, in its order. The payload and the
    signature are stored exactly as read: neither is decoded nor checked.
   */
  function Package(t: Json, payload: string, sig: string, kind: Kind): Result<Json, PyError>
  {
    var typed :- Assign(t, [], "payloadType", JStr(PayloadType(kind)));
    var withPayload :- Assign(typed, [], "payload", JStr(payload));
    var signed :- Assign(withPayload, SignatureEntry, "sig", JStr(sig));
    Assign(signed, SignatureEntry, "keyid", JStr(""))
  }

  /** The written fields part ways with one another. */
  lemma WrittenFieldsApart()
    ensures Apart(PayloadTypeField, PayloadField)
    ensures Apart(PayloadTypeField, SigField) && Apart(PayloadTypeField, KeyIdField)
    ensures Apart(PayloadField, SigField) && Apart(PayloadField, KeyIdField)
    ensures Apart(SigField, KeyIdField) && Apart(KeyIdField, SigField)
    ensures Apart(SignatureEntry, PayloadTypeField) && Apart(SignatureEntry, PayloadField)
  {
  }

  /** The packager succeeds exactly on the templates shaped as it needs. */
  lemma PackageSucceedsIff(t: Json, payload: string, sig: string, kind: Kind)
    ensures Package(t, payload, sig, kind).Ok? <==> EnvelopeTemplate(t)
  {
  }

  /**
    The four fields hold the kind's media type, the payload text, the
    signature text and the empty key id, whatever the template held there.
   */
  lemma PackageWrites(t: Json, payload: string, sig: string, kind: Kind)
    requires Package(t, payload, sig, kind).Ok?
    ensures Lookup(Package(t, payload, sig, kind).value, PayloadTypeField) == Ok(JStr(PayloadType(kind)))
    ensures Lookup(Package(t, payload, sig, kind).value, PayloadField) == Ok(JStr(payload))
    ensures Lookup(Package(t, payload, sig, kind).value, SigField) == Ok(JStr(sig))
    ensures Lookup(Package(t, payload, sig, kind).value, KeyIdField) == Ok(JStr(""))
  {
    var w1 := Assign(t, [], "payloadType", JStr(PayloadType(kind))).value;
    var w2 := Assign(w1, [], "payload", JStr(payload)).value;
    var w3 := Assign(w2, SignatureEntry, "sig", JStr(sig)).value;
    WrittenFieldsApart();
    assert [] + [Key("payloadType")] == PayloadTypeField;
    assert [] + [Key("payload")] == PayloadField;
    AssignThenLookup(t, [], "payloadType", JStr(PayloadType(kind)));
    AssignThenLookup(w1, [], "payload", JStr(payload));
    AssignThenLookup(w2, SignatureEntry, "sig", JStr(sig));
    AssignThenLookup(w3, SignatureEntry, "keyid", JStr(""));
    AssignFrame(w1, [], "payload", JStr(payload), PayloadTypeField);
    AssignFrame(w2, SignatureEntry, "sig", JStr(sig), PayloadTypeField);
    AssignFrame(w2, SignatureEntry, "sig", JStr(sig), PayloadField);
    AssignFrame(w3, SignatureEntry, "keyid", JStr(""), PayloadTypeField);
    AssignFrame(w3, SignatureEntry, "keyid", JStr(""), PayloadField);
    AssignFrame(w3, SignatureEntry, "keyid", JStr(""), SigField);
  }

  /** Every path off the four written fields reads the same as in the template. */
  lemma PackageFrame(t: Json, payload: string, sig: string, kind: Kind)
    requires Package(t, payload, sig, kind).Ok?
    ensures forall q ::
      Apart(q, PayloadTypeField) && Apart(q, PayloadField) && Apart(q, SigField) && Apart(q, KeyIdField) ==>
      Lookup(Package(t, payload, sig, kind).value, q) == Lookup(t, q)
  {
    var w1 := Assign(t, [], "payloadType", JStr(PayloadType(kind))).value;
    var w2 := Assign(w1, [], "payload", JStr(payload)).value;
    var w3 := Assign(w2, SignatureEntry, "sig", JStr(sig)).value;
    assert [] + [Key("payloadType")] == PayloadTypeField;
    assert [] + [Key("payload")] == PayloadField;
    forall q | Apart(q, PayloadTypeField) && Apart(q, PayloadField) && Apart(q, SigField) && Apart(q, KeyIdField)
      ensures Lookup(Package(t, payload, sig, kind).value, q) == Lookup(t, q)
    {
      AssignFrame(t, [], "payloadType", JStr(PayloadType(kind)), q);
      AssignFrame(w1, [], "payload", JStr(payload), q);
      AssignFrame(w2, SignatureEntry, "sig", JStr(sig), q);
      AssignFrame(w3, SignatureEntry, "keyid", JStr(""), q);
    }
  }

  /**
    What the packager leaves alone, field by field: the top-level keys
    other than `payloadType`, `payload` and `signatures`, the signature
    entries after the first, and the keys of `signatures[0]` other than
    `sig` and `keyid`.
   */
  lemma PackageKeepsOtherFields(t: Json, payload: string, sig: string, kind: Kind)
    requires Package(t, payload, sig, kind).Ok?
    ensures var out := Package(t, payload, sig, kind).value;
      && (forall k :: k != "payloadType" && k != "payload" && k != "signatures" ==>
            Lookup(out, [Key(k)]) == Lookup(t, [Key(k)]))
      && (forall i: nat :: i != 0 ==>
            Lookup(out, [Key("signatures"), Index(i)]) == Lookup(t, [Key("signatures"), Index(i)]))
      && (forall k :: k != "sig" && k != "keyid" ==>
            Lookup(out, SignatureEntry + [Key(k)]) == Lookup(t, SignatureEntry + [Key(k)]))
  {
    PackageFrame(t, payload, sig, kind);
    forall i: nat | i != 0
      ensures var q := [Key("signatures"), Index(i)];
        Apart(q, SigField) && Apart(q, KeyIdField)
    {
      var q := [Key("signatures"), Index(i)];
      assert Apart(q[1..], SigField[1..]);
      assert Apart(q[1..], KeyIdField[1..]);
    }
    forall k | k != "sig" && k != "keyid"
      ensures var q := SignatureEntry + [Key(k)];
        Apart(q, PayloadTypeField) && Apart(q, PayloadField) && Apart(q, SigField) && Apart(q, KeyIdField)
    {
      assert Apart([Key(k)], [Key("sig")]);
      assert Apart([Key(k)], [Key("keyid")]);
      ApartUnderPrefix(SignatureEntry, [Key(k)], [Key("sig")]);
      ApartUnderPrefix(SignatureEntry, [Key(k)], [Key("keyid")]);
    }
  }

  /** Packaging again from the packager's own output, with the same inputs, changes nothing. */
  lemma PackageIdempotent(t: Json, payload: string, sig: string, kind: Kind)
    requires Package(t, payload, sig, kind).Ok?
    ensures Package(Package(t, payload, sig, kind).value, payload, sig, kind) == Package(t, payload, sig, kind)
  {
    var out := Package(t, payload, sig, kind).value;
    PackageWrites(t, payload, sig, kind);
    assert [] + [Key("payloadType")] == PayloadTypeField;
    assert [] + [Key("payload")] == PayloadField;
    AssignExistingValue(out, [], "payloadType", JStr(PayloadType(kind)));
    AssignExistingValue(out, [], "payload", JStr(payload));
    AssignExistingValue(out, SignatureEntry, "sig", JStr(sig));
    AssignExistingValue(out, SignatureEntry, "keyid", JStr(""));
  }

  /**
    The script: check the mode flags, load the template, set the media
    type, read the payload and set it, read the signature and set it with
    an empty key id, and name the output file after the kind. A run that
    fails writes nothing; `openedFiles` lists the input files it opened,
    in order.
   */
  method CraftEnvelope(provenance: bool, sbom: bool, schema: JsonFile, payloadFile: TextFile, signatureFile: TextFile)
    returns (r: Result<Output, ScriptError>, openedFiles: seq<FileRole>)
    // refused flags: nothing is opened
    ensures ValidateFlags(provenance, sbom).Err? ==>
      r == Err(UsageError(ValidateFlags(provenance, sbom).error)) && openedFiles == []
    ensures ValidateFlags(provenance, sbom).Ok? && schema.JsonUnreadable? ==>
      r == Err(IOError(SchemaFile)) && openedFiles == [SchemaFile]
    ensures ValidateFlags(provenance, sbom).Ok? && schema.JsonMalformed? ==>
      r == Err(DecodeError(SchemaFile)) && openedFiles == [SchemaFile]
    // a template that is not a dict fails at `payloadType`, before the payload file is opened
    ensures ValidateFlags(provenance, sbom).Ok? && schema.JsonDoc? && !schema.doc.JObj? ==>
      r == Err(Raised(TypeError)) && openedFiles == [SchemaFile]
    ensures ValidateFlags(provenance, sbom).Ok? && schema.JsonDoc? && schema.doc.JObj? && payloadFile.TextUnreadable? ==>
      r == Err(IOError(PayloadFile)) && openedFiles == [SchemaFile, PayloadFile]
    ensures ValidateFlags(provenance, sbom).Ok? && schema.JsonDoc? && schema.doc.JObj? && payloadFile.Text? ==>
      openedFiles == [SchemaFile, PayloadFile, SignatureFile]
    // the signature file is read before `signatures[0]` is reached
    ensures (ValidateFlags(provenance, sbom).Ok? && schema.JsonDoc? && schema.doc.JObj? && payloadFile.Text? &&
             signatureFile.TextUnreadable?) ==> r == Err(IOError(SignatureFile))
    ensures ValidateFlags(provenance, sbom).Ok? && schema.JsonDoc? && payloadFile.Text? && signatureFile.Text? ==>
      (r.Ok? <==> EnvelopeTemplate(schema.doc))
    ensures (ValidateFlags(provenance, sbom).Ok? && schema.JsonDoc? && schema.doc.JObj? &&
             payloadFile.Text? && signatureFile.Text? && !EnvelopeTemplate(schema.doc)) ==>
      && Package(schema.doc, payloadFile.text, signatureFile.text, ValidateFlags(provenance, sbom).value).Err?
      && r == Err(Raised(Package(schema.doc, payloadFile.text, signatureFile.text, ValidateFlags(provenance, sbom).value).error))
    ensures r.Ok? ==>
      && ValidateFlags(provenance, sbom).Ok? && schema.JsonDoc? && payloadFile.Text? && signatureFile.Text?
      && r.value.path == OutputName(ValidateFlags(provenance, sbom).value)
      && Package(schema.doc, payloadFile.text, signatureFile.text, ValidateFlags(provenance, sbom).value) == Ok(r.value.doc)
    ensures r.Ok? ==>
      && Lookup(r.value.doc, PayloadTypeField) == Ok(JStr(if sbom then SbomMediaType else ProvenanceMediaType))
      && Lookup(r.value.doc, PayloadField) == Ok(JStr(payloadFile.text))
      && Lookup(r.value.doc, SigField) == Ok(JStr(signatureFile.text))
      && Lookup(r.value.doc, KeyIdField) == Ok(JStr(""))
      && r.value.path == (if sbom then SbomEnvelopePath else ProvenanceEnvelopePath)
  {
    openedFiles := [];
    var mode := ValidateFlags(provenance, sbom);
    if mode.Err? {
      r := Err(UsageError(mode.error));
      return;
    }
    var kind := mode.value;

    openedFiles := openedFiles + [SchemaFile];
    var loaded := LoadJson(schema, SchemaFile);
    if loaded.Err? {
      r := Err(loaded.error);
      return;
    }
    var data := loaded.value;
    var step := Assign(data, [], "payloadType", JStr(PayloadType(kind)));
    if step.Err? {
      r := Err(Raised(step.error));
      return;
    }
    data := step.value;

    openedFiles := openedFiles + [PayloadFile];
    var payload := ReadText(payloadFile, PayloadFile);
    if payload.Err? {
      r := Err(payload.error);
      return;
    }
    // `data` is a dict by now, so this assignment cannot fail
    step := Assign(data, [], "payload", JStr(payload.value));
    data := step.value;

    openedFiles := openedFiles + [SignatureFile];
    var signature := ReadText(signatureFile, SignatureFile);
    if signature.Err? {
      r := Err(signature.error);
      return;
    }
    PackageSucceedsIff(schema.doc, payload.value, signature.value, kind);
    step := Assign(data, SignatureEntry, "sig", JStr(signature.value));
    if step.Err? {
      r := Err(Raised(step.error));
      return;
    }
    AssignUpdatesDict(data, SignatureEntry, "sig", JStr(signature.value));
    data := step.value;
    // `signatures[0]` is still a dict, so this assignment cannot fail
    AssignSucceedsIff(data, SignatureEntry, "keyid", JStr(""));
    step := Assign(data, SignatureEntry, "keyid", JStr(""));
    data := step.value;

    PackageWrites(schema.doc, payload.value, signature.value, kind);
    r := Ok(Output(OutputName(kind), data));
  }
}
