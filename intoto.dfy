/**
  The in-toto Statement builder (craft-intoto.py). It loads a Statement
  template and an SBOM document, writes the SBOM into `predicate`, the
  image name into `subject[0].name` and the image digest into
  `subject[0].digest.sha256`, and dumps the result to `sbom-intoto.json`.
  `_type`, `predicateType` and everything else come from the template.
 */
module InToto {
  import opened Results
  import opened Json
  import opened Script

  /** `subject[0]`, the dict the image name is written into. */
  const SubjectEntry: Path := [Key("subject"), Index(0)]
  /** `subject[0]['digest']`, the dict the image digest is written into. */
  const SubjectDigest: Path := SubjectEntry + [Key("digest")]

  /** The three fields the builder writes. */
  const PredicateField: Path := [Key("predicate")]
  const NameField: Path := SubjectEntry + [Key("name")]
  const DigestField: Path := SubjectDigest + [Key("sha256")]

  /**
    The templates the three assignments succeed on: a dict whose `subject`
    is a non-empty list whose first entry is a dict holding a `digest` dict.
   */
  predicate StatementTemplate(t: Json)
  {
    && t.JObj?
    && "subject" in t.fields
    && t.fields["subject"].JArr?
    && |t.fields["subject"].items| > 0
    && t.fields["subject"].items[0].JObj?
    && "digest" in t.fields["subject"].items[0].fields
    && t.fields["subject"].items[0].fields["digest"].JObj?
  }

  /**
    The three assignments of the script, in its order: the predicate, then
    the subject's name, then the subject's SHA-256 digest. The name and the
    digest are stored exactly as given.
   */
  function Populate(t: Json, name: string, digest: string, sbom: Json): Result<Json, PyError>
  {
    var withPredicate :- Assign(t, [], "predicate", sbom);
    var withName :- Assign(withPredicate, SubjectEntry, "name", JStr(name));
    Assign(withName, SubjectDigest, "sha256", JStr(digest))
  }

  /** The written fields part ways with one another. */
  lemma WrittenFieldsApart()
    ensures Apart(PredicateField, NameField) && Apart(PredicateField, DigestField)
    ensures Apart(NameField, DigestField)
  {
  }

  /** How the template's `subject[0]` and `subject[0]['digest']` are reached. */
  lemma LookupSubject(t: Json)
    ensures (Lookup(t, SubjectEntry).Ok? && Lookup(t, SubjectEntry).value.JObj?) <==>
      && t.JObj? && "subject" in t.fields && t.fields["subject"].JArr?
      && |t.fields["subject"].items| > 0 && t.fields["subject"].items[0].JObj?
    ensures Lookup(t, SubjectEntry).Ok? && Lookup(t, SubjectEntry).value.JObj? ==>
      Lookup(t, SubjectDigest) == GetItem(Lookup(t, SubjectEntry).value, Key("digest"))
  {
    assert SubjectEntry[1..] == [Index(0)] && SubjectEntry[1..][1..] == [];
    assert [Key("digest")][1..] == [];
    LookupAppend(t, SubjectEntry, [Key("digest")]);
    if t.JObj? && "subject" in t.fields {
      var subject := t.fields["subject"];
      if subject.JStr? {
        StringsYieldStrings(subject.s, [Index(0)]);
      }
    }
  }

  /** The builder succeeds exactly on the templates shaped as it needs. */
  lemma PopulateSucceedsIff(t: Json, name: string, digest: string, sbom: Json)
    ensures Populate(t, name, digest, sbom).Ok? <==> StatementTemplate(t)
  {
    AssignSucceedsIff(t, [], "predicate", sbom);
    if t.JObj? {
      var w1 := Assign(t, [], "predicate", sbom).value;
      WrittenFieldsApart();
      assert Apart(SubjectEntry, PredicateField);
      assert Apart(SubjectDigest, PredicateField);
      AssignFrame(t, [], "predicate", sbom, SubjectEntry);
      AssignFrame(t, [], "predicate", sbom, SubjectDigest);
      LookupSubject(t);
      AssignSucceedsIff(w1, SubjectEntry, "name", JStr(name));
      if Assign(w1, SubjectEntry, "name", JStr(name)).Ok? {
        var w2 := Assign(w1, SubjectEntry, "name", JStr(name)).value;
        assert Apart([Key("digest")], [Key("name")]);
        ApartUnderPrefix(SubjectEntry, [Key("digest")], [Key("name")]);
        AssignFrame(w1, SubjectEntry, "name", JStr(name), SubjectDigest);
        AssignSucceedsIff(w2, SubjectDigest, "sha256", JStr(digest));
      }
    }
  }

  /** The three fields hold the SBOM, the image name and the digest, verbatim. */
  lemma PopulateWrites(t: Json, name: string, digest: string, sbom: Json)
    requires Populate(t, name, digest, sbom).Ok?
    ensures Lookup(Populate(t, name, digest, sbom).value, PredicateField) == Ok(sbom)
    ensures Lookup(Populate(t, name, digest, sbom).value, NameField) == Ok(JStr(name))
    ensures Lookup(Populate(t, name, digest, sbom).value, DigestField) == Ok(JStr(digest))
  {
    var w1 := Assign(t, [], "predicate", sbom).value;
    var w2 := Assign(w1, SubjectEntry, "name", JStr(name)).value;
    WrittenFieldsApart();
    assert [] + [Key("predicate")] == PredicateField;
    AssignThenLookup(t, [], "predicate", sbom);
    AssignThenLookup(w1, SubjectEntry, "name", JStr(name));
    AssignThenLookup(w2, SubjectDigest, "sha256", JStr(digest));
    AssignFrame(w1, SubjectEntry, "name", JStr(name), PredicateField);
    ApartSymmetric(PredicateField, DigestField);
    ApartSymmetric(NameField, DigestField);
    AssignFrame(w2, SubjectDigest, "sha256", JStr(digest), PredicateField);
    AssignFrame(w2, SubjectDigest, "sha256", JStr(digest), NameField);
  }

  /** Every path off the three written fields reads the same as in the template. */
  lemma PopulateFrame(t: Json, name: string, digest: string, sbom: Json)
    requires Populate(t, name, digest, sbom).Ok?
    ensures forall q :: Apart(q, PredicateField) && Apart(q, NameField) && Apart(q, DigestField) ==>
      Lookup(Populate(t, name, digest, sbom).value, q) == Lookup(t, q)
  {
    var w1 := Assign(t, [], "predicate", sbom).value;
    var w2 := Assign(w1, SubjectEntry, "name", JStr(name)).value;
    assert [] + [Key("predicate")] == PredicateField;
    forall q | Apart(q, PredicateField) && Apart(q, NameField) && Apart(q, DigestField)
      ensures Lookup(Populate(t, name, digest, sbom).value, q) == Lookup(t, q)
    {
      AssignFrame(t, [], "predicate", sbom, q);
      AssignFrame(w1, SubjectEntry, "name", JStr(name), q);
      AssignFrame(w2, SubjectDigest, "sha256", JStr(digest), q);
    }
  }

  /**
    What the builder leaves alone, field by field: the top-level keys other
    than `predicate` and `subject` (so `_type` and `predicateType`), the
    subject entries after the first, the keys of `subject[0]` other than
    `name` and `digest`, and the digests other than `sha256`.
   */
  lemma PopulateKeepsOtherFields(t: Json, name: string, digest: string, sbom: Json)
    requires Populate(t, name, digest, sbom).Ok?
    ensures var out := Populate(t, name, digest, sbom).value;
      && Lookup(out, [Key("_type")]) == Lookup(t, [Key("_type")])
      && Lookup(out, [Key("predicateType")]) == Lookup(t, [Key("predicateType")])
      && (forall k :: k != "predicate" && k != "subject" ==> Lookup(out, [Key(k)]) == Lookup(t, [Key(k)]))
      && (forall i: nat :: i != 0 ==> Lookup(out, [Key("subject"), Index(i)]) == Lookup(t, [Key("subject"), Index(i)]))
      && (forall k :: k != "name" && k != "digest" ==> Lookup(out, SubjectEntry + [Key(k)]) == Lookup(t, SubjectEntry + [Key(k)]))
      && (forall k :: k != "sha256" ==> Lookup(out, SubjectDigest + [Key(k)]) == Lookup(t, SubjectDigest + [Key(k)]))
  {
    PopulateFrame(t, name, digest, sbom);
    forall k | k != "predicate" && k != "subject"
      ensures Apart([Key(k)], PredicateField) && Apart([Key(k)], NameField) && Apart([Key(k)], DigestField)
    {
    }
    forall i: nat | i != 0
      ensures var q := [Key("subject"), Index(i)];
        Apart(q, PredicateField) && Apart(q, NameField) && Apart(q, DigestField)
    {
      var q := [Key("subject"), Index(i)];
      assert Apart(q[1..], NameField[1..]);
      assert Apart(q[1..], DigestField[1..]);
    }
    forall k | k != "name" && k != "digest"
      ensures var q := SubjectEntry + [Key(k)];
        Apart(q, PredicateField) && Apart(q, NameField) && Apart(q, DigestField)
    {
      assert Apart([Key(k)], [Key("name")]);
      assert Apart([Key(k)], [Key("digest"), Key("sha256")]);
      ApartUnderPrefix(SubjectEntry, [Key(k)], [Key("name")]);
      ApartUnderPrefix(SubjectEntry, [Key(k)], [Key("digest"), Key("sha256")]);
      assert SubjectEntry + [Key("digest"), Key("sha256")] == DigestField;
    }
    forall k | k != "sha256"
      ensures var q := SubjectDigest + [Key(k)];
        Apart(q, PredicateField) && Apart(q, NameField) && Apart(q, DigestField)
    {
      assert Apart([Key("digest"), Key(k)], [Key("name")]);
      assert Apart([Key("digest"), Key(k)], [Key("digest"), Key("sha256")]);
      ApartUnderPrefix(SubjectEntry, [Key("digest"), Key(k)], [Key("name")]);
      ApartUnderPrefix(SubjectEntry, [Key("digest"), Key(k)], [Key("digest"), Key("sha256")]);
      assert SubjectEntry + [Key("digest"), Key(k)] == SubjectDigest + [Key(k)];
      assert SubjectEntry + [Key("digest"), Key("sha256")] == DigestField;
    }
  }

  /** Building again from the builder's own output, with the same inputs, changes nothing. */
  lemma PopulateIdempotent(t: Json, name: string, digest: string, sbom: Json)
    requires Populate(t, name, digest, sbom).Ok?
    ensures Populate(Populate(t, name, digest, sbom).value, name, digest, sbom) == Populate(t, name, digest, sbom)
  {
    var out := Populate(t, name, digest, sbom).value;
    PopulateWrites(t, name, digest, sbom);
    assert [] + [Key("predicate")] == PredicateField;
    AssignExistingValue(out, [], "predicate", sbom);
    AssignExistingValue(out, SubjectEntry, "name", JStr(name));
    AssignExistingValue(out, SubjectDigest, "sha256", JStr(digest));
  }

  /**
    The script: load the template, load the SBOM, make the three
    assignments, and name the output file. A run that fails writes nothing;
    `openedFiles` lists the input files it opened, in order.
   */
  method CraftStatement(schema: JsonFile, imageName: string, imageDigest: string, sbomFile: JsonFile)
    returns (r: Result<Output, ScriptError>, openedFiles: seq<FileRole>)
    ensures schema.JsonUnreadable? ==> r == Err(IOError(SchemaFile)) && openedFiles == [SchemaFile]
    ensures schema.JsonMalformed? ==> r == Err(DecodeError(SchemaFile)) && openedFiles == [SchemaFile]
    ensures schema.JsonDoc? ==> openedFiles == [SchemaFile, PredicateFile]
    ensures schema.JsonDoc? && sbomFile.JsonUnreadable? ==> r == Err(IOError(PredicateFile))
    ensures schema.JsonDoc? && sbomFile.JsonMalformed? ==> r == Err(DecodeError(PredicateFile))
    ensures schema.JsonDoc? && sbomFile.JsonDoc? ==> (r.Ok? <==> StatementTemplate(schema.doc))
    ensures schema.JsonDoc? && sbomFile.JsonDoc? && !StatementTemplate(schema.doc) ==>
      && Populate(schema.doc, imageName, imageDigest, sbomFile.doc).Err?
      && r == Err(Raised(Populate(schema.doc, imageName, imageDigest, sbomFile.doc).error))
    ensures r.Ok? ==> r.value.path == StatementPath
    ensures r.Ok? ==>
      && schema.JsonDoc? && sbomFile.JsonDoc?
      && Populate(schema.doc, imageName, imageDigest, sbomFile.doc) == Ok(r.value.doc)
      && Lookup(r.value.doc, PredicateField) == Ok(sbomFile.doc)
      && Lookup(r.value.doc, NameField) == Ok(JStr(imageName))
      && Lookup(r.value.doc, DigestField) == Ok(JStr(imageDigest))
  {
    openedFiles := [SchemaFile];
    var loaded := LoadJson(schema, SchemaFile);
    if loaded.Err? {
      r := Err(loaded.error);
      return;
    }
    var data := loaded.value;
    openedFiles := openedFiles + [PredicateFile];
    var sbomLoaded := LoadJson(sbomFile, PredicateFile);
    if sbomLoaded.Err? {
      r := Err(sbomLoaded.error);
      return;
    }
    PopulateSucceedsIff(data, imageName, imageDigest, sbomLoaded.value);

    var step := Assign(data, [], "predicate", sbomLoaded.value);
    if step.Err? {
      r := Err(Raised(step.error));
      return;
    }
    data := step.value;
    step := Assign(data, SubjectEntry, "name", JStr(imageName));
    if step.Err? {
      r := Err(Raised(step.error));
      return;
    }
    data := step.value;
    step := Assign(data, SubjectDigest, "sha256", JStr(imageDigest));
    if step.Err? {
      r := Err(Raised(step.error));
      return;
    }
    data := step.value;

    PopulateWrites(schema.doc, imageName, imageDigest, sbomFile.doc);
    r := Ok(Output(StatementPath, data));
  }
}
