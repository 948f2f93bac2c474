/** The parser of event text: a cursor that moves over the text, against the grammar. */
module EventParsers {
  import opened Basics
  import opened Text
  import opened EventLiterals
  import opened EventGrammar

  // ---- what the grammar's trees stand for ----

  /** A parsed value. JFloat holds the text that `float` is given; an object lists its keys in order. */
  datatype Json =
    | JNull
    | JBool(b: bool)
    | JInt(n: int)
    | JFloat(text: string)
    | JText(s: string)
    | JArray(items: seq<Json>)
    | JObject(fields: Fields)

  datatype Field = Field(key: string, value: Json)

  type Fields = seq<Field>

  datatype Parsed = EmitStatement(name: string, spec: Fields) | OnStatement(source: string, event: string, spec: Fields)

  function Unescaped(c: char): char { if c == 'n' then '\n' else if c == 't' then '\t' else c }

  function CharOf(p: Piece): char { if p.Plain? then p.c else Unescaped(p.c) }

  function TextOf(ps: seq<Piece>): string { if ps == [] then "" else [CharOf(ps[0])] + TextOf(ps[1..]) }

  function WordOf(word: string): Json {
    if word == "true" then JBool(true)
    else if word == "false" then JBool(false)
    else if word == "null" then JNull
    else JText(word)
  }

  function NumberOf(negative: bool, n: Number): Json {
    match n
    case Whole(digits) => (var value: int := DigitsValue(digits); JInt(if negative then -value else value))
    case Decimals(whole, part) => JFloat(Sign(negative) + whole + "." + part)
  }

  function ValueOf(v: Value): Json { ShapeOf(v.shape) }

  function ShapeOf(s: Shape): Json {
    match s
    case Quoted(ps) => JText(TextOf(ps))
    case Ref(tail) => JText("@" + tail)
    case Signed(negative, number) => NumberOf(negative, number)
    case Bare(word) => WordOf(word)
    case List(items) => JArray(ItemsOf(items))
    case Object(members) => JObject(Fill([], members))
  }

  function ItemsOf(items: Items): seq<Json> {
    match items
    case NoItem(_) => []
    case LastItem(v, _) => [ValueOf(v)]
    case MoreItems(v, _, rest) => [ValueOf(v)] + ItemsOf(rest)
  }

  function KeyOf(key: Key): string { if key.QuotedKey? then TextOf(key.pieces) else key.word }

  /** `obj[key] = value`: a known key keeps its place. */
  function Put(fields: Fields, key: string, v: Json): Fields {
    if fields == [] then [Field(key, v)]
    else if fields[0].key == key then [Field(key, v)] + fields[1..]
    else [fields[0]] + Put(fields[1..], key, v)
  }

  function Fill(fields: Fields, members: Members): Fields
    decreases members
  {
    match members
    case NoMember(_) => fields
    case LastMember(_, key, _, v, _) => Put(fields, KeyOf(key), ValueOf(v))
    case MoreMembers(_, key, _, v, _, rest) => Fill(Put(fields, KeyOf(key), ValueOf(v)), rest)
  }

  function SpecOf(v: Value): Fields { if v.shape.Object? then Fill([], v.shape.members) else [] }

  function StatementOf(s: Sentence): Parsed {
    match s
    case EmitForm(_, name, body) => EmitStatement(TextOf(name.pieces), SpecOf(body.spec))
    case OnForm(_, source, _, event, body) =>
        OnStatement(TextOf(source.pieces), TextOf(event.pieces), SpecOf(body.spec))
  }

  function StatementsOf(t: Script): seq<Parsed> {
    if t.End? then [] else [StatementOf(t.sentence)] + StatementsOf(t.rest)
  }

  // ---- the parser's steps, one by one ----

  function Skipped(s: string): (t: string)
    ensures |t| <= |s|
  {
    s[Span(IsSpace, s)..]
  }

  /** `_expect`: what is left behind the next character, if that is `c`. */
  function After(s: string, c: char): (r: Option<string>)
    ensures r.Some? ==> |r.value| < |s|
  {
    if StartsWith(Skipped(s), [c]) then Some(Skipped(s)[1..]) else None
  }

  function Map<T, U>(r: Option<(T, string)>, f: T -> U): Option<(U, string)> {
    if r.None? then None else Some((f(r.value.0), r.value.1))
  }

  function Argued(s: string): (r: Option<(string, string)>)
    ensures r.Some? ==> |r.value.1| < |s|
  {
    Map(ReadArgument(s), (a: Argument) => TextOf(a.pieces))
  }

  function Keyed(s: string): (r: Option<(string, string)>)
    ensures r.Some? ==> |r.value.1| < |s|
  {
    Map(ReadKey(s), KeyOf)
  }

  function Valued(s: string): (r: Option<(Json, string)>)
    ensures r.Some? ==> |r.value.1| < |s|
  {
    Map(ReadValue(s), ValueOf)
  }

  function Shaped(s: string): Option<(Json, string)>
    requires s != ""
  {
    Map(ReadShape(s), ShapeOf)
  }

  function Spelled(before: string, s: string): Option<(string, string)> {
    Map(ReadPieces(s), (ps: seq<Piece>) => before + TextOf(ps))
  }

  function Listed(before: seq<Json>, s: string): Option<(seq<Json>, string)> {
    Map(ReadItems(s), (items: Items) => before + ItemsOf(items))
  }

  function Filled(before: Fields, s: string): Option<(Fields, string)> {
    Map(ReadMembers(s), (members: Members) => Fill(before, members))
  }

  lemma SkippedIs(s: string)
    ensures Skipped(s) != "" ==> !IsSpace(Skipped(s)[0])
    ensures Skipped(Skipped(s)) == Skipped(s)
    ensures ReadNext(s).None? <==> Skipped(s) == ""
    ensures ReadNext(s).Some? ==> ReadNext(s).value.1 == Skipped(s)[0] && ReadNext(s).value.2 == Skipped(s)[1..]
  {
    hide Span, IsSpace;
    SpanFound(IsSpace, Skipped(s), 0);
  }

  lemma ArguedIs(s: string)
    ensures Argued(s) == if After(s, '"').Some? then Spelled("", After(s, '"').value) else None
  {
    hide ReadNext, ReadPieces, TextOf, Skipped;
    SkippedIs(s);
    var a := ReadArgument(s);
    if a.Some? { assert "" + TextOf(a.value.0.pieces) == TextOf(a.value.0.pieces); }
  }

  lemma SpelledMore(before: string, s: string)
    requires s != "" && s[0] != '"' && (s[0] == BACKSLASH ==> |s| > 1)
    ensures Spelled(before, s) ==
            if s[0] == BACKSLASH then Spelled(before + [Unescaped(s[1])], s[2..]) else Spelled(before + [s[0]], s[1..])
  {
    var r := ReadPieces(s);
    if r.Some? {
      var ps := r.value.0;
      assert ps == [ps[0]] + ps[1..];
      assert before + ([CharOf(ps[0])] + TextOf(ps[1..])) == (before + [CharOf(ps[0])]) + TextOf(ps[1..]);
    }
  }

  lemma KeyedIs(s: string)
    requires Skipped(s) == s
    ensures Keyed(s) == if StartsWith(s, "\"") then Argued(s) else ReadWord(s)
  {
    hide ReadNext, ReadPieces, ReadWord, TextOf, Skipped;
    SkippedIs(s);
  }

  lemma ValuedIs(s: string)
    ensures Valued(s) == if Skipped(s) == "" then None else Shaped(Skipped(s))
  {
    hide ReadShape, Span, ShapeOf;
  }

  lemma ShapedIs(s: string)
    requires s != "" && Skipped(s) == s
    ensures s[0] == '{' ==> Shaped(s) == Map(Filled([], s[1..]), (fields: Fields) => JObject(fields))
    ensures s[0] == '[' ==> Shaped(s) == Map(Listed([], s[1..]), (items: seq<Json>) => JArray(items))
    ensures s[0] == '"' ==> Shaped(s) == Map(Argued(s), (text: string) => JText(text))
    ensures s[0] !in "{[\"@" && !StartsNumber(s[0]) ==> Shaped(s) == Map(ReadWord(s), (w: Word) => WordOf(w))
  {
    hide Span, ReadMembers, ReadItems, ReadPieces, ReadWord, ReadNumber, ReadNext, Skipped, TextOf, WordOf;
    SkippedIs(s);
    if s[0] == '[' && ReadItems(s[1..]).Some? {
      var items := ReadItems(s[1..]).value.0;
      assert [] + ItemsOf(items) == ItemsOf(items);
    }
  }

  lemma ListedMore(before: seq<Json>, s: string)
    ensures Listed(before, s) ==
            if After(s, ']').Some? then Some((before, After(s, ']').value))
            else if Valued(Skipped(s)).None? then None
            else
              var (v, k) := Valued(Skipped(s)).value;
              if After(k, ',').Some? then Listed(before + [v], After(k, ',').value)
              else if After(k, ']').Some? then Some((before + [v], After(k, ']').value))
              else None
  {
    hide ReadNext, ReadValue, Skipped, ValueOf;
    SkippedIs(s);
    assert Valued(s) == Valued(Skipped(s)) by {
      ValuedIs(s);
      ValuedIs(Skipped(s));
    }
    if ReadValue(s).Some? { SkippedIs(ReadValue(s).value.1); }
    assert before + [] == before;
    var r := ReadItems(s);
    if r.Some? && r.value.0.MoreItems? {
      var v, rest := ValueOf(r.value.0.v), ItemsOf(r.value.0.rest);
      assert before + ([v] + rest) == (before + [v]) + rest;
    }
  }

  function Paired(s: string): (r: Option<((string, Json), string)>)
    ensures r.Some? ==> |r.value.1| < |s|
  {
    var r := ReadPair(s);
    if r.None? then None else Some(((KeyOf(r.value.0), ValueOf(r.value.2)), r.value.3))
  }

  lemma PairedIs(s: string)
    ensures var key := Keyed(s);
            Paired(s) ==
            if key.None? || After(key.value.1, ':').None? then None
            else Map(Valued(After(key.value.1, ':').value), (v: Json) => (key.value.0, v))
  {
    hide ReadNext, ReadKey, ReadValue, ValueOf, KeyOf, Skipped;
    if ReadKey(s).Some? { SkippedIs(ReadKey(s).value.1); }
  }

  /** One turn of the loop over members. */
  lemma MembersAre(s: string)
    ensures var pad, pair := s[..Span(IsSpace, s)], ReadPair(Skipped(s));
            ReadMembers(s) ==
            if After(s, '}').Some? then Some((NoMember(pad), After(s, '}').value))
            else if pair.None? then None
            else MembersFrom(pad, pair.value, ReadNext(pair.value.3))
  {
    hide Span, ReadNext, ReadPair;
  }

  lemma FilledMore(before: Fields, s: string)
    ensures Filled(before, s) ==
            if After(s, '}').Some? then Some((before, After(s, '}').value))
            else if Paired(Skipped(s)).None? then None
            else
              var ((key, v), k) := Paired(Skipped(s)).value;
              if After(k, ',').Some? then Filled(Put(before, key, v), After(k, ',').value)
              else if After(k, '}').Some? then Some((Put(before, key, v), After(k, '}').value))
              else None
  {
    hide ReadNext, ReadPair, ReadMembers, ValueOf, KeyOf, Put, Skipped;
    MembersAre(s);
    if ReadPair(Skipped(s)).Some? { SkippedIs(ReadPair(Skipped(s)).value.3); }
  }

  function Bodied(s: string): (r: Option<(Fields, string)>)
    ensures r.Some? ==> |r.value.1| < |s|
  {
    Map(ReadBody(s), (b: Body) => SpecOf(b.spec))
  }

  lemma ObjectIs(v: Value)
    ensures ValueOf(v).JObject? <==> v.shape.Object?
    ensures v.shape.Object? ==> ValueOf(v).fields == SpecOf(v)
  {
    hide Fill, ItemsOf;
  }

  lemma BodiedIs(s: string)
    ensures Bodied(s) ==
            if After(s, ',').None? then None
            else
              var v := Valued(After(s, ',').value);
              if v.None? || After(v.value.1, ')').None? || !v.value.0.JObject? then None
              else Some((v.value.0.fields, After(v.value.1, ')').value))
  {
    hide ReadNext, ReadValue, ValueOf, SpecOf, Skipped;
    SkippedIs(s);
    var comma := After(s, ',');
    if comma.Some? && ReadValue(comma.value).Some? {
      SkippedIs(ReadValue(comma.value).value.1);
      ObjectIs(ReadValue(comma.value).value.0);
    }
  }

  function Stated(s: string): (r: Option<(Parsed, string)>)
    ensures r.Some? ==> |r.value.1| < |s|
  {
    Map(ReadSentence(s), StatementOf)
  }

  function Emitted(s: string): Option<(Parsed, string)> {
    var name := Argued(s);
    if name.None? then None
    else Map(Bodied(name.value.1), (spec: Fields) => EmitStatement(name.value.0, spec))
  }

  function Heard(s: string): Option<(Parsed, string)> {
    var source := Argued(s);
    if source.None? || After(source.value.1, ',').None? then None
    else
      var event := Argued(After(source.value.1, ',').value);
      if event.None? then None
      else Map(Bodied(event.value.1), (spec: Fields) => OnStatement(source.value.0, event.value.0, spec))
  }

  lemma StatedIs(s: string)
    ensures Stated(s) ==
            var word := ReadWord(s);
            if word.None? || After(word.value.1, '(').None? then None
            else if word.value.0 == "emit" then Emitted(After(word.value.1, '(').value)
            else if word.value.0 == "on" then Heard(After(word.value.1, '(').value)
            else None
  {
    hide ReadNext, ReadArgument, ReadBody, ReadWord, TextOf, SpecOf, Skipped;
    var word := ReadWord(s);
    if word.Some? {
      SkippedIs(word.value.1);
      var open := After(word.value.1, '(');
      if open.Some? && ReadArgument(open.value).Some? { SkippedIs(ReadArgument(open.value).value.1); }
    }
  }

  function Told(before: seq<Parsed>, s: string): Option<seq<Parsed>> {
    var t := ReadScript(s);
    if t.None? then None else Some(before + StatementsOf(t.value))
  }

  lemma ToldMore(before: seq<Parsed>, s: string)
    ensures Told(before, s) ==
            if Skipped(s) == "" then Some(before)
            else if Stated(Skipped(s)).None? then None
            else Told(before + [Stated(Skipped(s)).value.0], Stated(Skipped(s)).value.1)
  {
    hide Span, ReadSentence, StatementOf;
    assert before + [] == before;
    var t := ReadScript(s);
    if t.Some? && t.value.Then? {
      var first, rest := StatementOf(t.value.sentence), StatementsOf(t.value.rest);
      assert before + ([first] + rest) == (before + [first]) + rest;
    }
  }

  /** `int(t)`, of a sign and digits. */
  function ToInt(t: string): Option<Json> {
    var n := ParseInt(t);
    if n.None? then None else Some(JInt(n.value))
  }

  /** `float(t)`, of a sign, digits, a point and digits. */
  function ToFloat(t: string): Option<Json> {
    if exists i :: 0 <= i < |t| && IsDigit(t[i]) then Some(JFloat(t)) else None
  }

  lemma IntIs(negative: bool, digits: Digits)
    ensures ToInt(Sign(negative) + digits) == if digits == "" then None else Some(NumberOf(negative, Whole(digits)))
  {
    if negative {
      var t := "-" + digits;
      assert t[1..] == digits && !IsDigit(t[0]);
    } else {
      assert Sign(negative) + digits == digits;
    }
  }

  lemma FloatIs(negative: bool, whole: Digits, part: Digits)
    ensures ToFloat(Sign(negative) + whole + "." + part) ==
            if whole == "" && part == "" then None else Some(NumberOf(negative, Decimals(whole, part)))
  {
    var t := Sign(negative) + whole + "." + part;
    if part != "" {
      assert IsDigit(t[|t| - 1]);
    } else if whole != "" {
      assert IsDigit(t[|t| - 2]);
    }
  }

  function Known(r: Option<Json>, k: string): Option<(Json, string)> { if r.None? then None else Some((r.value, k)) }

  function Numbered(negative: bool, t: string): Option<(Json, string)> {
    Map(ReadNumber(t), (n: Number) => NumberOf(negative, n))
  }

  lemma NumberedIs(negative: bool, t: string)
    ensures var n := Span(IsDigit, t);
            var before, rest := Sign(negative) + t[..n], t[n..];
            Numbered(negative, t) ==
            if StartsWith(rest, ".") then
              var m := Span(IsDigit, rest[1..]);
              Known(ToFloat(before + ("." + rest[1..][..m])), rest[1..][m..])
            else Known(ToInt(before), rest)
  {
    hide Span, ToInt, ToFloat, NumberOf, Sign;
    var n := Span(IsDigit, t);
    var before, rest := Sign(negative) + t[..n], t[n..];
    if StartsWith(rest, ".") {
      assert t[n + 1..] == rest[1..];
      var part := rest[1..][..Span(IsDigit, rest[1..])];
      FloatIs(negative, t[..n], part);
      assert Sign(negative) + t[..n] + "." + part == before + ("." + part);
    } else {
      IntIs(negative, t[..n]);
    }
  }

  lemma SignedIs(s: string)
    requires s != "" && StartsNumber(s[0])
    ensures Shaped(s) == Numbered(s[0] == '-', if s[0] == '-' then s[1..] else s)
  {
    hide ReadNumber, NumberOf;
  }

  lemma CutIn(s: string, a: nat, p: nat, b: nat)
    requires a <= p <= b <= |s|
    ensures s[a..b] == s[a..p] + s[p..b]
  {
  }

  lemma CutAt(s: string, a: nat, p: nat, b: nat)
    requires a <= p < b <= |s|
    ensures s[a..b] == s[a..p] + [s[p]] + s[p + 1..b]
  {
  }

  // ---- the parser ----

  class Parser {
    const text: string
    var i: nat

    constructor (text: string)
      ensures this.text == text && Valid() && Left() == text
    {
      this.text := text;
      i := 0;
    }

    predicate Valid() reads this { i <= |text| }

    function Left(): string
      requires Valid()
      reads this
    {
      text[i..]
    }

    /** The loops that move on while characters are of one kind. */
    method Advance(p: char -> bool)
      requires Valid()
      modifies this
      ensures Valid() && i == old(i) + Span(p, old(Left()))
      ensures Left() == old(Left())[Span(p, old(Left()))..]
      ensures text[old(i)..i] == old(Left())[..Span(p, old(Left()))]
    {
      hide Span;
      ghost var start, s := i, Left();
      while i < |text| && p(text[i])
        invariant start <= i <= |text| && forall k :: 0 <= k < i - start ==> p(s[k])
      {
        assert s[i - start] == text[i];
        i := i + 1;
      }
      SpanFound(p, s, i - start);
    }

    /** A step returned what `e` says, and the cursor stands where `e` says. */
    ghost predicate Gave<T>(r: Option<T>, e: Option<(T, string)>)
      requires Valid()
      reads this
    {
      if e.None? then r.None? else r == Some(e.value.0) && Left() == e.value.1
    }

    method SkipWs()
      requires Valid()
      modifies this
      ensures Valid() && Left() == Skipped(old(Left()))
    {
      Advance(IsSpace);
    }

    method Peek(c: char) returns (here: bool)
      requires Valid()
      ensures here == StartsWith(Left(), [c])
    {
      here := i < |text| && text[i] == c;
    }

    method Expect(c: char) returns (ok: bool)
      requires Valid()
      modifies this
      ensures Valid() && ok == After(old(Left()), c).Some?
      ensures Left() == if ok then After(old(Left()), c).value else Skipped(old(Left()))
    {
      SkipWs();
      ok := Peek(c);
      if ok { i := i + 1; }
    }

    method ParseString() returns (r: Option<string>)
      requires Valid()
      modifies this
      ensures Valid() && Gave(r, Argued(old(Left())))
    {
      hide After, Argued;
      ArguedIs(Left());
      var quoted := Expect('"');
      if !quoted {
        return None;
      }
      var chars: string := "";
      while i < |text|
        invariant Valid() && Spelled(chars, Left()) == Argued(old(Left()))
      {
        ghost var s := Left();
        var c := text[i];
        i := i + 1;
        assert s[0] == c && s[1..] == Left();
        if c == '"' {
          assert chars + TextOf([]) == chars;
          return Some(chars);
        }
        if c == BACKSLASH {
          if i == |text| {
            break;
          }
          var next := text[i];
          i := i + 1;
          assert s[1] == next && s[2..] == Left();
          SpelledMore(chars, s);
          chars := chars + [Unescaped(next)];
          continue;
        }
        SpelledMore(chars, s);
        chars := chars + [c];
      }
      return None;
    }

    method ParseRef() returns (r: Json)
      requires Valid() && StartsWith(Left(), "@")
      modifies this
      ensures Valid() && Gave(Some(r), Shaped(old(Left())))
    {
      hide Span, IsRefChar;
      var start := i;
      i := i + 1;
      ghost var s := Left();
      assert old(Left())[1..] == s;
      Advance(IsRefChar);
      assert text[start..i] == "@" + s[..Span(IsRefChar, s)];
      r := JText(text[start..i]);
    }

    method ParseIdent() returns (r: Option<string>)
      requires Valid()
      modifies this
      ensures Valid() && Gave(r, ReadWord(Skipped(old(Left()))))
    {
      hide Span, Skipped, IsWordChar;
      SkipWs();
      var start := i;
      ghost var s := Left();
      Advance(IsWordChar);
      assert text[start..i] == s[..i - start];
      if start == i {
        return None;
      }
      return Some(text[start..i]);
    }

    /** Moves over a point and the digits behind it. */
    method SkipFraction() returns (pointed: bool)
      requires Valid()
      modifies this
      ensures Valid() && i >= old(i) && pointed == StartsWith(old(Left()), ".")
      ensures !pointed ==> i == old(i)
      ensures pointed ==>
                var u := old(Left())[1..];
                Left() == u[Span(IsDigit, u)..] && text[old(i)..i] == "." + u[..Span(IsDigit, u)]
    {
      hide Span, IsDigit;
      pointed := Peek('.');
      if pointed {
        ghost var start := i;
        i := i + 1;
        assert Left() == old(Left())[1..];
        Advance(IsDigit);
        CutAt(text, start, start, i);
      }
    }

    /** Moves over a sign and the digits behind it. */
    method SkipWhole()
      requires Valid() && Left() != ""
      modifies this
      ensures Valid() && i >= old(i)
      ensures var negative := old(Left())[0] == '-';
              var t := if negative then old(Left())[1..] else old(Left());
              Left() == t[Span(IsDigit, t)..] && text[old(i)..i] == Sign(negative) + t[..Span(IsDigit, t)]
    {
      hide Span, IsDigit;
      if text[i] == '-' {
        i := i + 1;
        assert Left() == old(Left())[1..];
      }
      Advance(IsDigit);
    }

    method ParseNumber() returns (r: Option<Json>)
      requires Valid() && Left() != "" && StartsNumber(Left()[0])
      modifies this
      ensures Valid() && Gave(r, Shaped(old(Left())))
    {
      hide Span, IsDigit, ToInt, ToFloat, Shaped, Numbered, Sign;
      ghost var s := Left();
      SignedIs(s);
      NumberedIs(s[0] == '-', if s[0] == '-' then s[1..] else s);
      var start := i;
      SkipWhole();
      ghost var point := i;
      var pointed := SkipFraction();
      CutIn(text, start, point, i);
      return if pointed then ToFloat(text[start..i]) else ToInt(text[start..i]);
    }

    method ParseValue() returns (r: Option<Json>)
      requires Valid()
      modifies this
      ensures Valid() && Gave(r, Valued(old(Left())))
      decreases |Left()|, 1
    {
      hide Skipped, Shaped, Valued, Argued, Filled, Listed, WordOf;
      ValuedIs(Left());
      SkippedIs(Left());
      SkipWs();
      if i == |text| {
        return None;
      }
      var c := text[i];
      assert Left()[0] == c;
      ShapedIs(Left());
      if c == '{' {
        var fields := ParseObject();
        return if fields.None? then None else Some(JObject(fields.value));
      }
      if c == '[' {
        var items := ParseArray();
        return if items.None? then None else Some(JArray(items.value));
      }
      if c == '"' {
        var s := ParseString();
        return if s.None? then None else Some(JText(s.value));
      }
      if c == '@' {
        var ref := ParseRef();
        return Some(ref);
      }
      if StartsNumber(c) {
        r := ParseNumber();
        return;
      }
      var word := ParseIdent();
      return if word.None? then None else Some(WordOf(word.value));
    }

    /** A key, its colon and its value. */
    method ParsePair() returns (r: Option<(string, Json)>)
      requires Valid() && Skipped(Left()) == Left()
      modifies this
      ensures Valid() && Gave(r, Paired(old(Left())))
      decreases |Left()|, 2
    {
      hide Skipped, After, Argued, Keyed, Valued, Paired;
      PairedIs(Left());
      KeyedIs(Left());
      var quoted := Peek('"');
      var key: Option<string>;
      if quoted { key := ParseString(); } else { key := ParseIdent(); }
      if key.None? {
        return None;
      }
      var colon := Expect(':');
      if !colon {
        return None;
      }
      var value := ParseValue();
      return if value.None? then None else Some((key.value, value.value));
    }

    method ParseObject() returns (r: Option<Fields>)
      requires Valid() && StartsWith(Left(), "{") && Skipped(Left()) == Left()
      modifies this
      ensures Valid() && Gave(r, Filled([], old(Left())[1..]))
      decreases |Left()|, 0
    {
      hide Filled, Paired, Put, Skipped;
      var fields: Fields := [];
      var _ := Expect('{');
      while true
        invariant Valid() && |Left()| < old(|Left()|)
        invariant Filled(fields, Left()) == Filled([], old(Left())[1..])
        decreases |Left()|
      {
        FilledMore(fields, Left());
        SkippedIs(Left());
        var closed := Expect('}');
        if closed {
          return Some(fields);
        }
        var pair := ParsePair();
        if pair.None? {
          return None;
        }
        fields := Put(fields, pair.value.0, pair.value.1);
        SkippedIs(Left());
        var more := Expect(',');
        if more {
          continue;
        }
        closed := Expect('}');
        return if closed then Some(fields) else None;
      }
    }

    method ParseArray() returns (r: Option<seq<Json>>)
      requires Valid() && StartsWith(Left(), "[") && Skipped(Left()) == Left()
      modifies this
      ensures Valid() && Gave(r, Listed([], old(Left())[1..]))
      decreases |Left()|, 0
    {
      hide Listed, Valued, Skipped;
      var items: seq<Json> := [];
      var _ := Expect('[');
      while true
        invariant Valid() && |Left()| < old(|Left()|)
        invariant Listed(items, Left()) == Listed([], old(Left())[1..])
        decreases |Left()|
      {
        ListedMore(items, Left());
        SkippedIs(Left());
        var closed := Expect(']');
        if closed {
          return Some(items);
        }
        var value := ParseValue();
        if value.None? {
          return None;
        }
        items := items + [value.value];
        SkippedIs(Left());
        var more := Expect(',');
        if more {
          continue;
        }
        closed := Expect(']');
        return if closed then Some(items) else None;
      }
    }

    /** The object that ends a statement. */
    method ParseBody() returns (r: Option<Fields>)
      requires Valid()
      modifies this
      ensures Valid() && Gave(r, Bodied(old(Left())))
    {
      hide After, Bodied, Valued;
      BodiedIs(Left());
      var comma := Expect(',');
      if !comma {
        return None;
      }
      var spec := ParseValue();
      if spec.None? {
        return None;
      }
      var closed := Expect(')');
      return if closed && spec.value.JObject? then Some(spec.value.fields) else None;
    }

    method ParseEmit() returns (r: Option<Parsed>)
      requires Valid()
      modifies this
      ensures Valid() && Gave(r, Emitted(old(Left())))
    {
      hide Argued, Bodied;
      var name := ParseString();
      if name.None? {
        return None;
      }
      var spec := ParseBody();
      return if spec.None? then None else Some(EmitStatement(name.value, spec.value));
    }

    method ParseOn() returns (r: Option<Parsed>)
      requires Valid()
      modifies this
      ensures Valid() && Gave(r, Heard(old(Left())))
    {
      hide Argued, Bodied, After;
      var source := ParseString();
      if source.None? {
        return None;
      }
      var comma := Expect(',');
      if !comma {
        return None;
      }
      var event := ParseString();
      if event.None? {
        return None;
      }
      var spec := ParseBody();
      return if spec.None? then None else Some(OnStatement(source.value, event.value, spec.value));
    }

    method ParseProgram() returns (r: Option<seq<Parsed>>)
      requires Valid()
      modifies this
      ensures Valid() && r == Told([], old(Left()))
    {
      hide Told, Stated, Emitted, Heard, Skipped, After;
      var statements: seq<Parsed> := [];
      while true
        invariant Valid() && Told(statements, Left()) == Told([], old(Left()))
        decreases |Left()|
      {
        ToldMore(statements, Left());
        SkippedIs(Left());
        SkipWs();
        if i == |text| {
          return Some(statements);
        }
        StatedIs(Left());
        var word := ParseIdent();
        if word.None? {
          return None;
        }
        var bracket := Expect('(');
        if !bracket {
          return None;
        }
        var statement: Option<Parsed>;
        if word.value == "emit" {
          statement := ParseEmit();
        } else if word.value == "on" {
          statement := ParseOn();
        } else {
          return None;
        }
        if statement.None? {
          return None;
        }
        statements := statements + [statement.value];
      }
    }
  }

  /** `parse_event_dsl`; None where it raises. */
  method ParseEventDsl(text: string) returns (r: Option<seq<Parsed>>)
    ensures r == Told([], text)
  {
    var parser := new Parser(text);
    r := parser.ParseProgram();
  }
}
