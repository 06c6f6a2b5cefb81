/** A failure-compatible result type, usable with `:-`. */
module Results {

  datatype Result<+T, +E> = Ok(value: T) | Err(error: E) {

    predicate IsFailure() {
      Err?
    }

    function PropagateFailure<U>(): Result<U, E>
      requires Err?
    {
      Err(error)
    }

    function Extract(): T
      requires Ok?
    {
      value
    }
  }
}

/**
  JSON documents as the scripts hold them after `json.load`, and Python's
  subscript semantics on them: reading `doc[s0][s1]...` and assigning
  `doc[s0]...[sn][key] = v`.

  `json.load` builds a fresh tree in which no dict or list is shared, so
  mutating a nested dict in place is the same as rebuilding the document
  along the path to it; that is how assignments are modelled here.
 */
module Json {
  import opened Results

  datatype Json =
    | JNull
    | JBool(b: bool)
    | JInt(i: int)
    | JFloat(f: real)
    | JStr(s: string)
    | JArr(items: seq<Json>)
    | JObj(fields: map<string, Json>)

  /** One subscript of a Python subscription chain: `[key]` or `[index]`. */
  datatype Step = Key(key: string) | Index(index: nat)

  type Path = seq<Step>

  /** The exceptions Python raises when a subscript fails. */
  datatype PyError =
    | KeyError(missing: Step)  // a dict without that key (a JSON dict never has an int key)
    | IndexError               // a list or string index past the end
    | TypeError                // a value that does not support that subscript

  /** `doc[step]` as an expression. Indexing a string yields a one-character string. */
  function GetItem(doc: Json, step: Step): Result<Json, PyError>
  {
    match step
    case Key(k) =>
      if doc.JObj? then
        if k in doc.fields then Ok(doc.fields[k]) else Err(KeyError(step))
      else Err(TypeError)
    case Index(i) =>
      match doc
      case JArr(items) => if i < |items| then Ok(items[i]) else Err(IndexError)
      case JStr(s) => if i < |s| then Ok(JStr([s[i]])) else Err(IndexError)
      case JObj(_) => Err(KeyError(step))
      case _ => Err(TypeError)
  }

  /** `doc[path[0]][path[1]]...`, failing at the first subscript that fails. */
  function Lookup(doc: Json, path: Path): Result<Json, PyError>
    decreases |path|
  {
    if path == [] then Ok(doc)
    else
      var child :- GetItem(doc, path[0]);
      Lookup(child, path[1..])
  }

  /** Reading along `p + q` is reading along `p`, then along `q` from where `p` led. */
  lemma {:induction false} LookupAppend(doc: Json, p: Path, q: Path)
    ensures Lookup(doc, p + q) == if Lookup(doc, p).Ok? then Lookup(Lookup(doc, p).value, q) else Lookup(doc, p)
    decreases |p|
  {
    if p == [] {
      assert p + q == q;
    } else {
      assert (p + q)[0] == p[0] && (p + q)[1..] == p[1..] + q;
      var g := GetItem(doc, p[0]);
      if g.Ok? {
        LookupAppend(g.value, p[1..], q);
      }
    }
  }

  /** `doc[key] = v`: only a dict supports item assignment with a string key. */
  function SetKey(doc: Json, key: string, v: Json): Result<Json, PyError>
  {
    if doc.JObj? then Ok(JObj(doc.fields[key := v])) else Err(TypeError)
  }

  /** Writes an updated child back under `step`; the identity where `doc` has no such child. */
  function Put(doc: Json, step: Step, child: Json): Json
  {
    match step
    case Key(k) => if doc.JObj? then JObj(doc.fields[k := child]) else doc
    case Index(i) => if doc.JArr? && i < |doc.items| then JArr(doc.items[i := child]) else doc
  }

  /**
    The statement `doc[prefix[0]]...[prefix[n-1]][key] = v`: the subscripts
    of the prefix are read, then the last one is assigned.
   */
  function Assign(doc: Json, prefix: Path, key: string, v: Json): Result<Json, PyError>
    decreases |prefix|
  {
    if prefix == [] then SetKey(doc, key, v)
    else
      var child :- GetItem(doc, prefix[0]);
      var updated :- Assign(child, prefix[1..], key, v);
      Ok(Put(doc, prefix[0], updated))
  }

  /** Neither path is a prefix of the other: they part ways at some step. */
  predicate Apart(p: Path, q: Path)
    decreases |p|
  {
    |p| > 0 && |q| > 0 && (p[0] != q[0] || Apart(p[1..], q[1..]))
  }

  lemma {:induction false} ApartSymmetric(p: Path, q: Path)
    requires Apart(p, q)
    ensures Apart(q, p)
    decreases |p|
  {
    if p[0] == q[0] {
      ApartSymmetric(p[1..], q[1..]);
    }
  }

  /** Paths that part ways still do so below a common prefix. */
  lemma {:induction false} ApartUnderPrefix(c: Path, p: Path, q: Path)
    requires Apart(p, q)
    ensures Apart(c + p, c + q)
    decreases |c|
  {
    if c != [] {
      assert (c + p)[1..] == c[1..] + p;
      assert (c + q)[1..] == c[1..] + q;
      ApartUnderPrefix(c[1..], p, q);
    } else {
      assert c + p == p && c + q == q;
    }
  }

  /** Subscripting a string only ever yields strings, never a dict. */
  lemma {:induction false} StringsYieldStrings(s: string, path: Path)
    ensures Lookup(JStr(s), path).Ok? ==> Lookup(JStr(s), path).value.JStr?
    decreases |path|
  {
    if path != [] {
      var g := GetItem(JStr(s), path[0]);
      if g.Ok? {
        StringsYieldStrings(g.value.s, path[1..]);
      }
    }
  }

  /** The assignment succeeds exactly when the prefix reaches a dict. */
  lemma {:induction false} AssignSucceedsIff(doc: Json, prefix: Path, key: string, v: Json)
    ensures Assign(doc, prefix, key, v).Ok? <==> Lookup(doc, prefix).Ok? && Lookup(doc, prefix).value.JObj?
    decreases |prefix|
  {
    if prefix != [] {
      var g := GetItem(doc, prefix[0]);
      if g.Ok? {
        AssignSucceedsIff(g.value, prefix[1..], key, v);
      }
    }
  }

  /** On the path of a successful assignment, `doc` is a container that `Put` writes into. */
  lemma PutThenGet(doc: Json, prefix: Path, key: string, v: Json, updated: Json)
    requires prefix != []
    requires Assign(doc, prefix, key, v).Ok?
    ensures GetItem(Put(doc, prefix[0], updated), prefix[0]) == Ok(updated)
  {
    AssignSucceedsIff(doc, prefix, key, v);
    if doc.JStr? {
      StringsYieldStrings(doc.s, prefix);
    }
  }

  /** After the assignment, the assigned path reads back the assigned value. */
  lemma {:induction false} AssignThenLookup(doc: Json, prefix: Path, key: string, v: Json)
    requires Assign(doc, prefix, key, v).Ok?
    ensures Lookup(Assign(doc, prefix, key, v).value, prefix + [Key(key)]) == Ok(v)
    decreases |prefix|
  {
    if prefix != [] {
      var child := GetItem(doc, prefix[0]).value;
      var updated := Assign(child, prefix[1..], key, v).value;
      PutThenGet(doc, prefix, key, v, updated);
      assert (prefix + [Key(key)])[1..] == prefix[1..] + [Key(key)];
      AssignThenLookup(child, prefix[1..], key, v);
    }
  }

  /** The dict assigned into is still reached by the prefix, now holding the new entry. */
  lemma {:induction false} AssignUpdatesDict(doc: Json, prefix: Path, key: string, v: Json)
    requires Assign(doc, prefix, key, v).Ok?
    ensures Lookup(doc, prefix).Ok? && Lookup(doc, prefix).value.JObj?
    ensures Lookup(Assign(doc, prefix, key, v).value, prefix) == Ok(JObj(Lookup(doc, prefix).value.fields[key := v]))
    decreases |prefix|
  {
    AssignSucceedsIff(doc, prefix, key, v);
    if prefix != [] {
      var child := GetItem(doc, prefix[0]).value;
      var updated := Assign(child, prefix[1..], key, v).value;
      PutThenGet(doc, prefix, key, v, updated);
      AssignUpdatesDict(child, prefix[1..], key, v);
    }
  }

  /** `Put` leaves every other subscript of `doc` as it was. */
  lemma PutKeepsOthers(doc: Json, step: Step, child: Json, other: Step)
    requires other != step
    ensures GetItem(Put(doc, step, child), other) == GetItem(doc, other)
  {
  }

  /** The assignment changes nothing that lies off the assigned path. */
  lemma {:induction false} AssignFrame(doc: Json, prefix: Path, key: string, v: Json, q: Path)
    requires Assign(doc, prefix, key, v).Ok?
    requires Apart(q, prefix + [Key(key)])
    ensures Lookup(Assign(doc, prefix, key, v).value, q) == Lookup(doc, q)
    decreases |prefix|
  {
    var target := prefix + [Key(key)];
    var after := Assign(doc, prefix, key, v).value;
    if prefix == [] {
      assert q[0] != Key(key);
    } else {
      var child := GetItem(doc, prefix[0]).value;
      var updated := Assign(child, prefix[1..], key, v).value;
      if q[0] == prefix[0] {
        PutThenGet(doc, prefix, key, v, updated);
        assert target[1..] == prefix[1..] + [Key(key)];
        AssignFrame(child, prefix[1..], key, v, q[1..]);
      } else {
        PutKeepsOthers(doc, prefix[0], updated, q[0]);
      }
    }
  }

  /** Assigning the value the path already holds leaves the document as it is. */
  lemma {:induction false} AssignExistingValue(doc: Json, prefix: Path, key: string, v: Json)
    requires Lookup(doc, prefix + [Key(key)]) == Ok(v)
    ensures Assign(doc, prefix, key, v) == Ok(doc)
    decreases |prefix|
  {
    if prefix == [] {
      assert [Key(key)][1..] == [];
      assert doc.fields[key := v] == doc.fields;
    } else {
      assert (prefix + [Key(key)])[1..] == prefix[1..] + [Key(key)];
      var child := GetItem(doc, prefix[0]).value;
      AssignExistingValue(child, prefix[1..], key, v);
      match prefix[0]
      case Key(k) =>
        assert doc.fields[k := child] == doc.fields;
      case Index(i) =>
        if doc.JStr? {
          AssignSucceedsIff(child, prefix[1..], key, v);
          StringsYieldStrings(child.s, prefix[1..]);
          assert false;
        }
        assert doc.items[i := child] == doc.items;
    }
  }

  /** Running the same assignment twice gives what running it once does. */
  lemma AssignIdempotent(doc: Json, prefix: Path, key: string, v: Json)
    requires Assign(doc, prefix, key, v).Ok?
    ensures Assign(Assign(doc, prefix, key, v).value, prefix, key, v) == Assign(doc, prefix, key, v)
  {
    AssignThenLookup(doc, prefix, key, v);
    AssignExistingValue(Assign(doc, prefix, key, v).value, prefix, key, v);
  }
}
