/** A printer for event programs, and that the parser reads back what it prints. */
module EventSpelling {
  import opened Basics
  import opened Text
  import opened EventLiterals
  import opened EventGrammar
  import opened EventParsers

  function SpellText(s: string): seq<Piece> {
    if s == "" then []
    else [if s[0] == '"' || s[0] == BACKSLASH then Escaped(s[0]) else Plain(s[0])] + SpellText(s[1..])
  }

  lemma {:induction false} TextIsSpelled(s: string)
    ensures TextOf(SpellText(s)) == s && OkPieces(SpellText(s))
  {
    if s != "" {
      TextIsSpelled(s[1..]);
      assert SpellText(s)[1..] == SpellText(s[1..]);
    }
  }

  /** Without floats, whose text differs from what `float` makes of it, and with every key of an object once. */
  predicate Writable(v: Json) {
    match v
    case JFloat(_) => false
    case JArray(items) => forall i :: 0 <= i < |items| ==> Writable(items[i])
    case JObject(fields) => WritableFields(fields)
    case _ => true
  }

  predicate WritableFields(fields: Fields) {
    && (forall i :: 0 <= i < |fields| ==> Writable(fields[i].value))
    && forall i, j :: 0 <= i < j < |fields| ==> fields[i].key != fields[j].key
  }

  function Spell(v: Json): Value
    requires Writable(v)
  {
    Value("", match v
              case JNull => Bare("null")
              case JBool(b) => Bare(if b then "true" else "false")
              case JInt(n) => Signed(n < 0, Whole(PrintNat(if n < 0 then -n else n)))
              case JText(s) => Quoted(SpellText(s))
              case JArray(items) => List(SpellItems(items))
              case JObject(fields) => Object(SpellFields(fields)))
  }

  function SpellItems(items: seq<Json>): Items
    requires forall i :: 0 <= i < |items| ==> Writable(items[i])
  {
    if items == [] then NoItem("") else MoreItems(Spell(items[0]), "", SpellItems(items[1..]))
  }

  function SpellFields(fields: Fields): Members
    requires WritableFields(fields)
  {
    if fields == [] then NoMember("")
    else MoreMembers("", QuotedKey(SpellText(fields[0].key)), "", Spell(fields[0].value), "", SpellFields(fields[1..]))
  }

  /** What may stand behind a value. */
  predicate Closes(k: string) { k != "" && k[0] in ",]})" }

  lemma {:induction false} ValueIsSpelled(v: Json, k: string)
    requires Writable(v) && Closes(k)
    ensures OkValue(Spell(v), k) && ValueOf(Spell(v)) == v
    decreases v
  {
    hide ShowItems, ShowMembers, DigitsValue, PrintNat, Fill, ItemsOf;
    match v
    case JText(s) => TextIsSpelled(s);
    case JInt(n) => DigitsOfNat(if n < 0 then -n else n);
    case JArray(items) => ItemsAreSpelled(items, k);
    case JObject(fields) => FieldsAreSpelled([], fields, k);
    case _ =>
  }

  lemma {:induction false} ItemsAreSpelled(items: seq<Json>, k: string)
    requires forall i :: 0 <= i < |items| ==> Writable(items[i])
    ensures OkItems(SpellItems(items), k) && ItemsOf(SpellItems(items)) == items
    decreases items
  {
    if items != [] {
      ValueIsSpelled(items[0], "" + ("," + ShowItems(SpellItems(items[1..]), k)));
      ItemsAreSpelled(items[1..], k);
    }
  }

  lemma {:induction false} FieldsAreSpelled(before: Fields, fields: Fields, k: string)
    requires WritableFields(fields)
    requires forall i, j :: 0 <= i < |before| && 0 <= j < |fields| ==> before[i].key != fields[j].key
    ensures OkMembers(SpellFields(fields), k) && Fill(before, SpellFields(fields)) == before + fields
    decreases fields
  {
    hide Spell, OkShape, ShowShape, ShapeOf, SpellText, OkKey, KeyOf, Put, Writable, ShowKey, WritableFields;
    if fields == [] {
      assert before + fields == before;
    } else {
      var f, rest := fields[0], fields[1..];
      RestIsWritable(fields);
      FieldIsSpelled(f, "" + ("," + ShowMembers(SpellFields(rest), k)));
      NewKey(before, f);
      FieldsAreSpelled(before + [f], rest, k);
      assert before + [f] + rest == before + fields;
    }
  }

  lemma RestIsWritable(fields: Fields)
    requires WritableFields(fields) && fields != []
    ensures Writable(fields[0].value) && WritableFields(fields[1..])
    ensures forall j :: 0 <= j < |fields| - 1 ==> fields[0].key != fields[1..][j].key
  {
    hide Writable;
  }

  lemma {:induction false} FieldIsSpelled(f: Field, k: string)
    requires Writable(f.value) && Closes(k)
    ensures var key := QuotedKey(SpellText(f.key)); OkKey(key) && KeyOf(key) == f.key
    ensures OkValue(Spell(f.value), k) && ValueOf(Spell(f.value)) == f.value
    decreases f
  {
    hide Spell, OkShape, ShapeOf, SpellText, TextOf, OkPieces, Writable;
    TextIsSpelled(f.key);
    ValueIsSpelled(f.value, k);
  }

  lemma {:induction false} NewKey(fields: Fields, f: Field)
    requires forall i :: 0 <= i < |fields| ==> fields[i].key != f.key
    ensures Put(fields, f.key, f.value) == fields + [f]
  {
    if fields != [] { NewKey(fields[1..], f); }
  }

  // ---- programs ----

  predicate WritableStatement(p: Parsed) { WritableFields(p.spec) }

  function SpellBody(spec: Fields): Body
    requires WritableFields(spec)
  {
    Body("", Value(" ", Object(SpellFields(spec))), "")
  }

  function SpellStatement(p: Parsed): Sentence
    requires WritableStatement(p)
  {
    match p
    case EmitStatement(name, spec) => EmitForm("", Argument("", SpellText(name)), SpellBody(spec))
    case OnStatement(source, event, spec) =>
      OnForm("", Argument("", SpellText(source)), "", Argument(" ", SpellText(event)), SpellBody(spec))
  }

  function SpellProgram(ps: seq<Parsed>): Script
    requires forall p :: p in ps ==> WritableStatement(p)
  {
    if ps == [] then End("") else Then("\n", SpellStatement(ps[0]), SpellProgram(ps[1..]))
  }

  lemma BodyIsSpelled(spec: Fields, k: string)
    requires WritableFields(spec)
    ensures OkBody(SpellBody(spec), k) && SpecOf(SpellBody(spec).spec) == spec
  {
    var shape, rest := SpellBody(spec).spec.shape, "" + (")" + k);
    FieldsAreSpelled([], spec, rest);
    assert [] + spec == spec;
    assert OkShape(shape, rest);
  }

  lemma StatementIsSpelled(p: Parsed, k: string)
    requires WritableStatement(p)
    ensures OkSentence(SpellStatement(p), k) && StatementOf(SpellStatement(p)) == p
  {
    hide SpellText, TextOf, OkPieces, OkBody, SpecOf, SpellBody, WritableFields;
    BodyIsSpelled(p.spec, k);
    match p
    case EmitStatement(name, _) => TextIsSpelled(name);
    case OnStatement(source, event, _) =>
      TextIsSpelled(source);
      TextIsSpelled(event);
  }

  lemma {:induction false} ProgramIsSpelled(ps: seq<Parsed>)
    requires forall p :: p in ps ==> WritableStatement(p)
    ensures OkScript(SpellProgram(ps)) && StatementsOf(SpellProgram(ps)) == ps
  {
    hide SpellStatement, OkSentence, ShowSentence, StatementOf, WritableStatement;
    if ps != [] {
      ProgramIsSpelled(ps[1..]);
      StatementIsSpelled(ps[0], ShowScript(SpellProgram(ps[1..])));
    }
  }

  /** What is printed is parsed back, whatever characters names, keys and texts have. */
  lemma PrintedProgramIsParsed(ps: seq<Parsed>)
    requires forall p :: p in ps ==> WritableStatement(p)
    ensures Told([], ShowScript(SpellProgram(ps))) == Some(ps)
  {
    ProgramIsSpelled(ps);
    ReadIsWritten(ShowScript(SpellProgram(ps)), SpellProgram(ps));
    assert [] + ps == ps;
  }
}
