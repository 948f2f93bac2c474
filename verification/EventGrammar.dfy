/** The grammar of event text, and the recursive descent that reads it. */
module EventGrammar {
  import opened Basics
  import opened Text
  import opened EventLiterals

  // ---- characters ----

  predicate All(p: char -> bool, s: string) { forall i :: 0 <= i < |s| ==> p(s[i]) }

  /** A longest run of `p` ends where `k` begins. */
  predicate Ends(p: char -> bool, k: string) { k == "" || !p(k[0]) }

  /** How many characters in front satisfy `p`. */
  function Span(p: char -> bool, s: string): (n: nat)
    ensures n <= |s| && (forall i :: 0 <= i < n ==> p(s[i])) && (n < |s| ==> !p(s[n]))
    ensures All(p, s[..n]) && Ends(p, s[n..])
  {
    if s == "" || !p(s[0]) then 0 else 1 + Span(p, s[1..])
  }

  lemma SpanFound(p: char -> bool, s: string, n: nat)
    requires n <= |s| && (forall i :: 0 <= i < n ==> p(s[i])) && (n < |s| ==> !p(s[n]))
    ensures Span(p, s) == n
  {
    hide Span;
  }

  lemma SpanIs(p: char -> bool, a: string, k: string)
    requires All(p, a) && Ends(p, k)
    ensures Span(p, a + k) == |a| && (a + k)[..|a|] == a && (a + k)[|a|..] == k
  {
    SpanFound(p, a + k, |a|);
  }

  predicate IsWordChar(c: char) { 'a' <= c <= 'z' || 'A' <= c <= 'Z' || IsDigit(c) || c == '.' || c == '_' || c == '-' }

  /** What goes on with a reference. */
  predicate IsRefChar(c: char) { c !in ",:]})( \t\r\n" }

  predicate StartsNumber(c: char) { c == '-' || IsDigit(c) }

  // ---- what is written ----

  type Pad = s: string | All(IsSpace, s)
  type Word = s: string | s != "" && All(IsWordChar, s) witness "x"
  type Digits = s: string | AllDigits(s)
  type RefTail = s: string | All(IsRefChar, s)

  /** A character of a quoted text, plain or after a backslash. */
  datatype Piece = Plain(c: char) | Escaped(c: char)

  datatype Number = Whole(digits: Digits) | Decimals(whole: Digits, part: Digits)

  datatype Value = Value(pad: Pad, shape: Shape)
  datatype Shape =
    | Quoted(pieces: seq<Piece>)
    | Ref(tail: RefTail)
    | Signed(negative: bool, number: Number)
    | Bare(word: Word)
    | List(items: Items)
    | Object(members: Members)
  /** From behind the opening bracket; a comma may stand before the closing one. */
  datatype Items = NoItem(pad: Pad) | LastItem(v: Value, pad: Pad) | MoreItems(v: Value, pad: Pad, rest: Items)
  datatype Key = QuotedKey(pieces: seq<Piece>) | BareKey(word: Word)
  datatype Members =
    | NoMember(pad: Pad)
    | LastMember(pad: Pad, key: Key, colon: Pad, v: Value, after: Pad)
    | MoreMembers(pad: Pad, key: Key, colon: Pad, v: Value, after: Pad, rest: Members)

  // ---- the text, before a text `k` ----

  function ShowPieces(ps: seq<Piece>, k: string): string {
    if ps == [] then "\"" + k
    else (if ps[0].Plain? then [ps[0].c] else [BACKSLASH, ps[0].c]) + ShowPieces(ps[1..], k)
  }

  function Sign(negative: bool): string { if negative then "-" else "" }

  function ShowNumber(n: Number, k: string): string {
    match n
    case Whole(digits) => digits + k
    case Decimals(whole, part) => whole + ("." + (part + k))
  }

  function ShowValue(v: Value, k: string): string { v.pad + ShowShape(v.shape, k) }

  function ShowShape(s: Shape, k: string): string {
    match s
    case Quoted(ps) => "\"" + ShowPieces(ps, k)
    case Ref(tail) => "@" + (tail + k)
    case Signed(negative, number) => Sign(negative) + ShowNumber(number, k)
    case Bare(word) => word + k
    case List(items) => "[" + ShowItems(items, k)
    case Object(members) => "{" + ShowMembers(members, k)
  }

  function ShowItems(items: Items, k: string): string {
    match items
    case NoItem(pad) => pad + ("]" + k)
    case LastItem(v, pad) => ShowValue(v, pad + ("]" + k))
    case MoreItems(v, pad, rest) => ShowValue(v, pad + ("," + ShowItems(rest, k)))
  }

  function ShowKey(key: Key, k: string): string {
    match key
    case QuotedKey(ps) => "\"" + ShowPieces(ps, k)
    case BareKey(word) => word + k
  }

  function ShowMembers(members: Members, k: string): string {
    match members
    case NoMember(pad) => pad + ("}" + k)
    case LastMember(pad, key, colon, v, after) =>
      pad + ShowKey(key, colon + (":" + ShowValue(v, after + ("}" + k))))
    case MoreMembers(pad, key, colon, v, after, rest) =>
      pad + ShowKey(key, colon + (":" + ShowValue(v, after + ("," + ShowMembers(rest, k)))))
  }

  // ---- no part runs on into the next ----

  predicate OkPieces(ps: seq<Piece>) {
    forall i :: 0 <= i < |ps| && ps[i].Plain? ==> ps[i].c != '"' && ps[i].c != BACKSLASH
  }

  predicate OkNumber(n: Number, k: string) {
    && Ends(IsDigit, k)
    && match n
       case Whole(digits) => digits != "" && !StartsWith(k, ".")
       case Decimals(whole, part) => whole != "" || part != ""
  }

  predicate OkValue(v: Value, k: string) { OkShape(v.shape, k) }

  predicate OkShape(s: Shape, k: string) {
    match s
    case Quoted(ps) => OkPieces(ps)
    case Ref(_) => Ends(IsRefChar, k)
    case Signed(negative, number) =>
      OkNumber(number, k) && (negative || StartsNumber(ShowNumber(number, k)[0]))
    case Bare(word) => !StartsNumber(word[0]) && Ends(IsWordChar, k)
    case List(items) => OkItems(items, k)
    case Object(members) => OkMembers(members, k)
  }

  predicate OkItems(items: Items, k: string) {
    match items
    case NoItem(_) => true
    case LastItem(v, pad) => OkValue(v, pad + ("]" + k))
    case MoreItems(v, pad, rest) => OkValue(v, pad + ("," + ShowItems(rest, k))) && OkItems(rest, k)
  }

  predicate OkKey(key: Key) { key.QuotedKey? ==> OkPieces(key.pieces) }

  predicate OkMembers(members: Members, k: string) {
    match members
    case NoMember(_) => true
    case LastMember(_, key, _, v, after) => OkKey(key) && OkValue(v, after + ("}" + k))
    case MoreMembers(_, key, _, v, after, rest) =>
      OkKey(key) && OkValue(v, after + ("," + ShowMembers(rest, k))) && OkMembers(rest, k)
  }

  // ---- reading ----

  /** White space, the character after it, and the rest. */
  function ReadNext(s: string): (r: Option<(Pad, char, string)>)
    ensures r.Some? ==> |r.value.2| < |s|
  {
    var n := Span(IsSpace, s);
    if n == |s| then None else Some((s[..n], s[n], s[n + 1..]))
  }

  /** From behind the opening quote. */
  function ReadPieces(s: string): (r: Option<(seq<Piece>, string)>)
    ensures r.Some? ==> |r.value.1| < |s|
  {
    if s == "" then None
    else if s[0] == '"' then Some(([], s[1..]))
    else if s[0] == BACKSLASH then
      if |s| == 1 then None
      else
        var r := ReadPieces(s[2..]);
        if r.None? then None else Some(([Escaped(s[1])] + r.value.0, r.value.1))
    else
      var r := ReadPieces(s[1..]);
      if r.None? then None else Some(([Plain(s[0])] + r.value.0, r.value.1))
  }

  /** From behind the sign; None where `int` or `float` raises. */
  function ReadNumber(s: string): (r: Option<(Number, string)>)
    ensures r.Some? ==> |r.value.1| < |s|
  {
    var n := Span(IsDigit, s);
    if StartsWith(s[n..], ".") then
      var t := s[n + 1..];
      var m := Span(IsDigit, t);
      if n == 0 && m == 0 then None else Some((Decimals(s[..n], t[..m]), t[m..]))
    else if n == 0 then None
    else Some((Whole(s[..n]), s[n..]))
  }

  function ReadWord(s: string): (r: Option<(Word, string)>)
    ensures r.Some? ==> |r.value.1| < |s|
  {
    var n := Span(IsWordChar, s);
    if n == 0 then None else Some((s[..n], s[n..]))
  }

  function ReadValue(s: string): (r: Option<(Value, string)>)
    ensures r.Some? ==> |r.value.1| < |s|
    decreases |s|, 1
  {
    var n := Span(IsSpace, s);
    if n == |s| then None
    else
      var r := ReadShape(s[n..]);
      if r.None? then None else Some((Value(s[..n], r.value.0), r.value.1))
  }

  function ReadShape(s: string): (r: Option<(Shape, string)>)
    requires s != ""
    ensures r.Some? ==> |r.value.1| < |s|
    decreases |s|, 0
  {
    if s[0] == '{' then
      var r := ReadMembers(s[1..]);
      if r.None? then None else Some((Object(r.value.0), r.value.1))
    else if s[0] == '[' then
      var r := ReadItems(s[1..]);
      if r.None? then None else Some((List(r.value.0), r.value.1))
    else if s[0] == '"' then
      var r := ReadPieces(s[1..]);
      if r.None? then None else Some((Quoted(r.value.0), r.value.1))
    else if s[0] == '@' then
      var n := Span(IsRefChar, s[1..]);
      Some((Ref(s[1..][..n]), s[1..][n..]))
    else if StartsNumber(s[0]) then
      var r := ReadNumber(if s[0] == '-' then s[1..] else s);
      if r.None? then None else Some((Signed(s[0] == '-', r.value.0), r.value.1))
    else
      var r := ReadWord(s);
      if r.None? then None else Some((Bare(r.value.0), r.value.1))
  }

  function ReadItems(s: string): (r: Option<(Items, string)>)
    ensures r.Some? ==> |r.value.1| < |s|
    decreases |s|, 2
  {
    var first := ReadNext(s);
    if first.Some? && first.value.1 == ']' then Some((NoItem(first.value.0), first.value.2))
    else
      var v := ReadValue(s);
      if v.None? then None
      else
        var next := ReadNext(v.value.1);
        if next.None? then None
        else if next.value.1 == ',' then
          var r := ReadItems(next.value.2);
          if r.None? then None else Some((MoreItems(v.value.0, next.value.0, r.value.0), r.value.1))
        else if next.value.1 == ']' then Some((LastItem(v.value.0, next.value.0), next.value.2))
        else None
  }

  function ReadKey(s: string): (r: Option<(Key, string)>)
    ensures r.Some? ==> |r.value.1| < |s|
  {
    if StartsWith(s, "\"") then
      var r := ReadPieces(s[1..]);
      if r.None? then None else Some((QuotedKey(r.value.0), r.value.1))
    else
      var r := ReadWord(s);
      if r.None? then None else Some((BareKey(r.value.0), r.value.1))
  }

  /** A key, its colon and its value, without white space in front. */
  function ReadPair(s: string): (r: Option<(Key, Pad, Value, string)>)
    ensures r.Some? ==> |r.value.3| < |s|
    decreases |s|, 2
  {
    var key := ReadKey(s);
    if key.None? then None
    else
      var colon := ReadNext(key.value.1);
      if colon.None? || colon.value.1 != ':' then None
      else
        var v := ReadValue(colon.value.2);
        if v.None? then None else Some((key.value.0, colon.value.0, v.value.0, v.value.1))
  }

  function ReadMembers(s: string): (r: Option<(Members, string)>)
    ensures r.Some? ==> |r.value.1| < |s|
    decreases |s|, 3
  {
    var n := Span(IsSpace, s);
    var pad, t := s[..n], s[n..];
    if StartsWith(t, "}") then Some((NoMember(pad), t[1..]))
    else
      var pair := ReadPair(t);
      if pair.None? then None
      else
        MembersFrom(pad, pair.value, ReadNext(pair.value.3))
  }

  /** Behind a pair: a comma and more, or the end. */
  function MembersFrom(
      pad: Pad, pair: (Key, Pad, Value, string), next: Option<(Pad, char, string)>): (r: Option<(Members, string)>)
    ensures r.Some? ==> next.Some? && |r.value.1| <= |next.value.2|
    decreases if next.Some? then |next.value.2| else 0, 4
  {
    if next.None? then None
    else if next.value.1 == ',' then
      var r := ReadMembers(next.value.2);
      if r.None? then None else Some((MoreMembers(pad, pair.0, pair.1, pair.2, next.value.0, r.value.0), r.value.1))
    else if next.value.1 == '}' then Some((LastMember(pad, pair.0, pair.1, pair.2, next.value.0), next.value.2))
    else None
  }

  // ---- what is read is what is written: soundness ----

  lemma NextIs(s: string, pad: Pad, c: char, k: string)
    ensures ReadNext(s) == Some((pad, c, k)) <==> s == pad + ([c] + k) && !IsSpace(c)
  {
    hide Span;
    var n := Span(IsSpace, s);
    if s == pad + ([c] + k) && !IsSpace(c) {
      SpanIs(IsSpace, pad, [c] + k);
      assert s[n] == c && s[n + 1..] == k;
    } else if n < |s| {
      assert s == s[..n] + ([s[n]] + s[n + 1..]);
    }
  }

  lemma {:induction false} PiecesRead(s: string)
    requires ReadPieces(s).Some?
    ensures OkPieces(ReadPieces(s).value.0)
    ensures s == ShowPieces(ReadPieces(s).value.0, ReadPieces(s).value.1)
  {
    if s[0] == '"' {
    } else if s[0] == BACKSLASH {
      PiecesRead(s[2..]);
      assert ReadPieces(s).value.0[1..] == ReadPieces(s[2..]).value.0;
    } else {
      PiecesRead(s[1..]);
      assert ReadPieces(s).value.0[1..] == ReadPieces(s[1..]).value.0;
    }
  }

  lemma {:induction false} PiecesShown(ps: seq<Piece>, k: string)
    requires OkPieces(ps)
    ensures ReadPieces(ShowPieces(ps, k)) == Some((ps, k))
  {
    if ps != [] {
      PiecesShown(ps[1..], k);
      var s := ShowPieces(ps, k);
      assert if ps[0].Plain? then s[1..] == ShowPieces(ps[1..], k) else s[2..] == ShowPieces(ps[1..], k);
      assert [ps[0]] + ps[1..] == ps;
    } else {
      assert ("\"" + k)[1..] == k;
    }
  }

  lemma NumberRead(s: string)
    requires ReadNumber(s).Some?
    ensures OkNumber(ReadNumber(s).value.0, ReadNumber(s).value.1)
    ensures s == ShowNumber(ReadNumber(s).value.0, ReadNumber(s).value.1)
  {
    NumberIsOk(s);
    hide Span, IsDigit, OkNumber, Ends;
    var n := Span(IsDigit, s);
    if StartsWith(s[n..], ".") {
      var t := s[n + 1..];
      Halves(t, Span(IsDigit, t));
      Around(s, n);
    } else {
      Halves(s, n);
    }
  }

  lemma NumberIsOk(s: string)
    requires ReadNumber(s).Some?
    ensures OkNumber(ReadNumber(s).value.0, ReadNumber(s).value.1)
  {
    hide Span, IsDigit;
  }

  lemma Halves(s: string, n: nat)
    requires n <= |s|
    ensures s == s[..n] + s[n..]
  {
  }

  lemma Around(s: string, n: nat)
    requires n < |s|
    ensures s == s[..n] + ([s[n]] + s[n + 1..])
  {
  }

  lemma NumberShown(n: Number, k: string)
    requires OkNumber(n, k)
    ensures ReadNumber(ShowNumber(n, k)) == Some((n, k))
    ensures ShowNumber(n, k) != "" && ShowNumber(n, k)[0] != '-'
  {
    hide Span;
    match n
    case Whole(digits) =>
      SpanIs(IsDigit, digits, k);
    case Decimals(whole, part) =>
      var t := part + k;
      SpanIs(IsDigit, whole, "." + t);
      SpanIs(IsDigit, part, k);
      assert (whole + ("." + t))[|whole| + 1..] == t;
  }

  /** What stands in front of a value. */
  lemma HeadOfShape(shape: Shape, k: string)
    requires OkShape(shape, k)
    ensures var s := ShowShape(shape, k); s != "" && !IsSpace(s[0]) && s[0] !in "]},:)"
  {
    hide ShowNumber, OkNumber, ShowPieces, ShowItems, ShowMembers;
    if shape.Signed? { NumberShown(shape.number, k); }
  }

  lemma HeadOfKey(key: Key, k: string)
    ensures var s := ShowKey(key, k); s != "" && !IsSpace(s[0]) && s[0] !in "]},:)"
  {
  }

  lemma KeyRead(s: string)
    requires ReadKey(s).Some?
    ensures OkKey(ReadKey(s).value.0) && s == ShowKey(ReadKey(s).value.0, ReadKey(s).value.1)
    ensures ReadKey(s).value.0.BareKey? ==> Ends(IsWordChar, ReadKey(s).value.1)
  {
    hide Span;
    if StartsWith(s, "\"") { PiecesRead(s[1..]); }
  }

  lemma KeyShown(key: Key, k: string)
    requires OkKey(key) && Ends(IsWordChar, k)
    ensures ReadKey(ShowKey(key, k)) == Some((key, k))
  {
    hide Span;
    match key
    case QuotedKey(ps) =>
      PiecesShown(ps, k);
      assert ShowKey(key, k)[1..] == ShowPieces(ps, k);
    case BareKey(word) =>
      SpanIs(IsWordChar, word, k);
      assert ShowKey(key, k)[0] == word[0];
  }

  lemma {:induction false} ValueRead(s: string)
    requires ReadValue(s).Some?
    ensures OkValue(ReadValue(s).value.0, ReadValue(s).value.1)
    ensures s == ShowValue(ReadValue(s).value.0, ReadValue(s).value.1)
    decreases |s|, 1
  {
    hide Span, ReadShape, OkShape, ShowShape, IsSpace;
    ShapeRead(s[Span(IsSpace, s)..]);
  }

  lemma {:induction false} ShapeRead(s: string)
    requires s != "" && ReadShape(s).Some?
    ensures OkShape(ReadShape(s).value.0, ReadShape(s).value.1)
    ensures s == ShowShape(ReadShape(s).value.0, ReadShape(s).value.1)
    decreases |s|, 0
  {
    hide Span, ReadNumber, ReadMembers, ReadItems, ReadPieces, ShowPieces, OkPieces, IsSpace;
    if s[0] == '{' {
      MembersRead(s[1..]);
    } else if s[0] == '[' {
      ItemsRead(s[1..]);
    } else if s[0] == '"' {
      PiecesRead(s[1..]);
    } else if s[0] == '@' {
    } else if StartsNumber(s[0]) {
      NumberRead(if s[0] == '-' then s[1..] else s);
      assert s[0] == '-' ==> s == "-" + s[1..];
    }
  }

  lemma {:induction false} ItemsRead(s: string)
    requires ReadItems(s).Some?
    ensures OkItems(ReadItems(s).value.0, ReadItems(s).value.1)
    ensures s == ShowItems(ReadItems(s).value.0, ReadItems(s).value.1)
    decreases |s|, 2
  {
    hide Span, ReadValue, ReadNext, ShowValue, OkValue, IsSpace;
    var first := ReadNext(s);
    if first.Some? && first.value.1 == ']' {
      NextIs(s, first.value.0, ']', first.value.2);
    } else {
      ValueRead(s);
      var v := ReadValue(s).value;
      var next := ReadNext(v.1).value;
      NextIs(v.1, next.0, next.1, next.2);
      if next.1 == ',' { ItemsRead(next.2); }
    }
  }

  lemma {:induction false} PairRead(s: string)
    requires ReadPair(s).Some?
    ensures var (key, colon, v, k) := ReadPair(s).value;
            OkKey(key) && OkValue(v, k) && s == ShowKey(key, colon + (":" + ShowValue(v, k)))
    decreases |s|, 2
  {
    hide Span, ReadKey, ReadValue, ReadNext, ShowValue, ShowKey, OkKey, OkValue, IsSpace;
    KeyRead(s);
    var key := ReadKey(s).value;
    var colon := ReadNext(key.1).value;
    NextIs(key.1, colon.0, colon.1, colon.2);
    ValueRead(colon.2);
  }

  lemma {:induction false} MembersRead(s: string)
    requires ReadMembers(s).Some?
    ensures OkMembers(ReadMembers(s).value.0, ReadMembers(s).value.1)
    ensures s == ShowMembers(ReadMembers(s).value.0, ReadMembers(s).value.1)
    decreases |s|, 3
  {
    hide Span, ReadPair, ReadNext, ShowValue, ShowKey, OkKey, OkValue, IsSpace;
    var n := Span(IsSpace, s);
    var t := s[n..];
    if !StartsWith(t, "}") {
      PairRead(t);
      var u := ReadPair(t).value.3;
      var next := ReadNext(u).value;
      NextIs(u, next.0, next.1, next.2);
      if next.1 == ',' { MembersRead(next.2); }
    }
  }

  // ---- what is written is what is read: completeness ----

  lemma {:induction false} ValueShown(v: Value, k: string)
    requires OkValue(v, k)
    ensures ReadValue(ShowValue(v, k)) == Some((v, k))
    decreases v, 0
  {
    hide Span;
    ShapeShown(v.shape, k);
    HeadOfShape(v.shape, k);
    SpanIs(IsSpace, v.pad, ShowShape(v.shape, k));
  }

  lemma {:induction false} ShapeShown(shape: Shape, k: string)
    requires OkShape(shape, k)
    ensures ShowShape(shape, k) != "" && ReadShape(ShowShape(shape, k)) == Some((shape, k))
  {
    hide Span, ReadMembers, ReadItems, ReadPieces, ReadNumber, IsSpace;
    match shape
    case List(items) =>
      ItemsShown(items, k);
      assert ShowShape(shape, k)[1..] == ShowItems(items, k);
    case Object(members) =>
      MembersShown(members, k);
      assert ShowShape(shape, k)[1..] == ShowMembers(members, k);
    case _ => AtomShown(shape, k);
  }

  lemma AtomShown(shape: Shape, k: string)
    requires OkShape(shape, k) && !shape.List? && !shape.Object?
    ensures ShowShape(shape, k) != "" && ReadShape(ShowShape(shape, k)) == Some((shape, k))
  {
    hide Span, ReadNumber, ReadMembers, ReadItems, ReadPieces, ShowPieces, OkPieces, OkNumber, ShowNumber, IsSpace;
    var s := ShowShape(shape, k);
    match shape
    case Quoted(ps) =>
      PiecesShown(ps, k);
      assert s[1..] == ShowPieces(ps, k);
    case Ref(tail) =>
      SpanIs(IsRefChar, tail, k);
      assert s[1..] == tail + k;
    case Signed(_, _) => SignedShown(shape, k);
    case Bare(word) =>
      SpanIs(IsWordChar, word, k);
  }

  lemma SignedShown(shape: Shape, k: string)
    requires OkShape(shape, k) && shape.Signed?
    ensures ShowShape(shape, k) != "" && ReadShape(ShowShape(shape, k)) == Some((shape, k))
  {
    hide Span, ReadNumber, ReadMembers, ReadItems, ReadPieces, OkNumber, ShowNumber, IsSpace, ReadWord;
    var s := ShowShape(shape, k);
    NumberShown(shape.number, k);
    assert shape.negative ==> s[1..] == ShowNumber(shape.number, k);
    assert !shape.negative ==> s == ShowNumber(shape.number, k);
  }

  /** No list ends where a value begins. */
  lemma ValueIsNoEnd(v: Value, k: string)
    requires OkValue(v, k)
    ensures ReadNext(ShowValue(v, k)).Some? && ReadNext(ShowValue(v, k)).value.1 != ']'
  {
    HeadOfShape(v.shape, k);
    var s := ShowShape(v.shape, k);
    assert s == [s[0]] + s[1..];
    NextIs(ShowValue(v, k), v.pad, s[0], s[1..]);
  }

  lemma {:induction false} ItemsShown(items: Items, k: string)
    requires OkItems(items, k)
    ensures ReadItems(ShowItems(items, k)) == Some((items, k))
  {
    hide Span, ReadValue, ReadNext, ShowValue, OkValue;
    match items
    case NoItem(pad) =>
      NextIs(ShowItems(items, k), pad, ']', k);
    case LastItem(v, pad) =>
      ValueShown(v, pad + ("]" + k));
      ValueIsNoEnd(v, pad + ("]" + k));
      NextIs(pad + ("]" + k), pad, ']', k);
    case MoreItems(v, pad, rest) =>
      ValueShown(v, pad + ("," + ShowItems(rest, k)));
      ValueIsNoEnd(v, pad + ("," + ShowItems(rest, k)));
      NextIs(pad + ("," + ShowItems(rest, k)), pad, ',', ShowItems(rest, k));
      ItemsShown(rest, k);
  }

  lemma {:induction false} PairShown(key: Key, colon: Pad, v: Value, k: string)
    requires OkKey(key) && OkValue(v, k)
    ensures ReadPair(ShowKey(key, colon + (":" + ShowValue(v, k)))) == Some((key, colon, v, k))
    decreases v, 1
  {
    hide Span, ReadKey, ReadValue, ReadNext, ShowValue, ShowKey, OkKey, OkValue;
    var u := colon + (":" + ShowValue(v, k));
    assert u[0] == if colon == "" then ':' else colon[0];
    KeyShown(key, u);
    NextIs(u, colon, ':', ShowValue(v, k));
    ValueShown(v, k);
  }

  lemma {:induction false} MembersShown(members: Members, k: string)
    requires OkMembers(members, k)
    ensures ReadMembers(ShowMembers(members, k)) == Some((members, k))
    decreases members
  {
    hide Span, ReadPair, ReadNext, ShowValue, ShowKey, OkKey, OkValue;
    if members.NoMember? {
      SpanIs(IsSpace, members.pad, "}" + k);
    } else {
      var last := members.LastMember?;
      var after := members.after + if last then "}" + k else "," + ShowMembers(members.rest, k);
      var pair := ShowKey(members.key, members.colon + (":" + ShowValue(members.v, after)));
      PairShown(members.key, members.colon, members.v, after);
      HeadOfKey(members.key, members.colon + (":" + ShowValue(members.v, after)));
      SpanIs(IsSpace, members.pad, pair);
      if last {
        NextIs(after, members.after, '}', k);
      } else {
        NextIs(after, members.after, ',', ShowMembers(members.rest, k));
        MembersShown(members.rest, k);
      }
    }
  }

  // ---- a whole text ----

  datatype Argument = Argument(pad: Pad, pieces: seq<Piece>)
  /** The last argument of a sentence, with its comma and the closing bracket. */
  datatype Body = Body(comma: Pad, spec: Value, close: Pad)
  datatype Sentence =
    | EmitForm(open: Pad, name: Argument, body: Body)
    | OnForm(open: Pad, source: Argument, comma: Pad, event: Argument, body: Body)
  datatype Script = End(pad: Pad) | Then(pad: Pad, sentence: Sentence, rest: Script)

  function ShowArgument(a: Argument, k: string): string { a.pad + ("\"" + ShowPieces(a.pieces, k)) }

  function ShowBody(b: Body, k: string): string { b.comma + ("," + ShowValue(b.spec, b.close + (")" + k))) }

  function ShowSentence(s: Sentence, k: string): string {
    match s
    case EmitForm(open, name, body) => "emit" + (open + ("(" + ShowArgument(name, ShowBody(body, k))))
    case OnForm(open, source, comma, event, body) =>
      "on" + (open + ("(" + ShowArgument(source, comma + ("," + ShowArgument(event, ShowBody(body, k))))))
  }

  function ShowScript(t: Script): string {
    match t
    case End(pad) => pad
    case Then(pad, sentence, rest) => pad + ShowSentence(sentence, ShowScript(rest))
  }

  predicate OkArgument(a: Argument) { OkPieces(a.pieces) }

  predicate OkBody(b: Body, k: string) { b.spec.shape.Object? && OkValue(b.spec, b.close + (")" + k)) }

  predicate OkSentence(s: Sentence, k: string) {
    && OkBody(s.body, k)
    && match s
       case EmitForm(_, name, _) => OkArgument(name)
       case OnForm(_, source, _, event, _) => OkArgument(source) && OkArgument(event)
  }

  predicate OkScript(t: Script) { t.Then? ==> OkSentence(t.sentence, ShowScript(t.rest)) && OkScript(t.rest) }

  function ReadArgument(s: string): (r: Option<(Argument, string)>)
    ensures r.Some? ==> |r.value.1| < |s|
  {
    var quote := ReadNext(s);
    if quote.None? || quote.value.1 != '"' then None
    else
      var r := ReadPieces(quote.value.2);
      if r.None? then None else Some((Argument(quote.value.0, r.value.0), r.value.1))
  }

  function ReadBody(s: string): (r: Option<(Body, string)>)
    ensures r.Some? ==> |r.value.1| < |s|
  {
    var comma := ReadNext(s);
    if comma.None? || comma.value.1 != ',' then None
    else
      var v := ReadValue(comma.value.2);
      if v.None? then None
      else
        var close := ReadNext(v.value.1);
        if close.None? || close.value.1 != ')' || !v.value.0.shape.Object? then None
        else Some((Body(comma.value.0, v.value.0, close.value.0), close.value.2))
  }

  function ReadEmit(open: Pad, s: string): (r: Option<(Sentence, string)>)
    ensures r.Some? ==> |r.value.1| < |s|
  {
    var name := ReadArgument(s);
    if name.None? then None
    else
      var body := ReadBody(name.value.1);
      if body.None? then None else Some((EmitForm(open, name.value.0, body.value.0), body.value.1))
  }

  function ReadOn(open: Pad, s: string): (r: Option<(Sentence, string)>)
    ensures r.Some? ==> |r.value.1| < |s|
  {
    var source := ReadArgument(s);
    if source.None? then None
    else
      var comma := ReadNext(source.value.1);
      if comma.None? || comma.value.1 != ',' then None
      else
        var event := ReadArgument(comma.value.2);
        if event.None? then None
        else
          var body := ReadBody(event.value.1);
          if body.None? then None
          else Some((OnForm(open, source.value.0, comma.value.0, event.value.0, body.value.0), body.value.1))
  }

  /** Without white space in front. */
  function ReadSentence(s: string): (r: Option<(Sentence, string)>)
    ensures r.Some? ==> |r.value.1| < |s|
  {
    var word := ReadWord(s);
    if word.None? then None
    else
      var open := ReadNext(word.value.1);
      if open.None? || open.value.1 != '(' then None
      else if word.value.0 == "emit" then ReadEmit(open.value.0, open.value.2)
      else if word.value.0 == "on" then ReadOn(open.value.0, open.value.2)
      else None
  }

  /** `parse_event_dsl`; None where it raises. */
  function ReadScript(s: string): Option<Script>
    decreases |s|
  {
    var n := Span(IsSpace, s);
    if n == |s| then Some(End(s))
    else
      var first := ReadSentence(s[n..]);
      if first.None? then None
      else
        var rest := ReadScript(first.value.1);
        if rest.None? then None else Some(Then(s[..n], first.value.0, rest.value))
  }

  lemma ArgumentRead(s: string)
    requires ReadArgument(s).Some?
    ensures OkArgument(ReadArgument(s).value.0) && s == ShowArgument(ReadArgument(s).value.0, ReadArgument(s).value.1)
  {
    hide ReadNext, ReadPieces, ShowPieces, OkPieces;
    var quote := ReadNext(s).value;
    NextIs(s, quote.0, quote.1, quote.2);
    PiecesRead(quote.2);
  }

  lemma ArgumentShown(a: Argument, k: string)
    requires OkArgument(a)
    ensures ReadArgument(ShowArgument(a, k)) == Some((a, k))
  {
    hide ReadNext, ReadPieces, ShowPieces, OkPieces;
    NextIs(ShowArgument(a, k), a.pad, '"', ShowPieces(a.pieces, k));
    PiecesShown(a.pieces, k);
  }

  lemma BodyRead(s: string)
    requires ReadBody(s).Some?
    ensures OkBody(ReadBody(s).value.0, ReadBody(s).value.1) && s == ShowBody(ReadBody(s).value.0, ReadBody(s).value.1)
  {
    hide ReadNext, ReadValue, ShowValue, OkValue;
    var comma := ReadNext(s).value;
    NextIs(s, comma.0, comma.1, comma.2);
    ValueRead(comma.2);
    var u := ReadValue(comma.2).value.1;
    var close := ReadNext(u).value;
    NextIs(u, close.0, close.1, close.2);
  }

  lemma BodyShown(b: Body, k: string)
    requires OkBody(b, k)
    ensures ReadBody(ShowBody(b, k)) == Some((b, k))
  {
    hide ReadNext, ReadValue, ShowValue, OkValue;
    var u := b.close + (")" + k);
    NextIs(ShowBody(b, k), b.comma, ',', ShowValue(b.spec, u));
    ValueShown(b.spec, u);
    NextIs(u, b.close, ')', k);
  }

  lemma SentenceRead(s: string)
    requires ReadSentence(s).Some?
    ensures OkSentence(ReadSentence(s).value.0, ReadSentence(s).value.1)
    ensures s == ShowSentence(ReadSentence(s).value.0, ReadSentence(s).value.1)
  {
    hide Span, ReadNext, ReadArgument, ReadBody, ShowArgument, ShowBody, OkArgument, OkBody;
    var word := ReadWord(s).value;
    assert s == word.0 + word.1;
    var open := ReadNext(word.1).value;
    NextIs(word.1, open.0, open.1, open.2);
    ArgumentRead(open.2);
    var t := ReadArgument(open.2).value.1;
    if word.0 == "emit" {
      BodyRead(t);
    } else {
      var comma := ReadNext(t).value;
      NextIs(t, comma.0, comma.1, comma.2);
      ArgumentRead(comma.2);
      BodyRead(ReadArgument(comma.2).value.1);
    }
  }

  lemma SentenceShown(s: Sentence, k: string)
    requires OkSentence(s, k)
    ensures var t := ShowSentence(s, k); t != "" && !IsSpace(t[0]) && ReadSentence(t) == Some((s, k))
  {
    hide Span, ReadNext, ReadArgument, ReadBody, ShowArgument, ShowBody, OkArgument, OkBody;
    BodyShown(s.body, k);
    var word := if s.EmitForm? then "emit" else "on";
    var rest :=
      if s.EmitForm? then ShowArgument(s.name, ShowBody(s.body, k))
      else ShowArgument(s.source, s.comma + ("," + ShowArgument(s.event, ShowBody(s.body, k))));
    var t := s.open + ("(" + rest);
    assert t[0] == if s.open == "" then '(' else s.open[0];
    SpanIs(IsWordChar, word, t);
    NextIs(t, s.open, '(', rest);
    if s.EmitForm? {
      ArgumentShown(s.name, ShowBody(s.body, k));
    } else {
      var u := ShowArgument(s.event, ShowBody(s.body, k));
      ArgumentShown(s.source, s.comma + ("," + u));
      NextIs(s.comma + ("," + u), s.comma, ',', u);
      ArgumentShown(s.event, ShowBody(s.body, k));
    }
  }

  /** The grammar says exactly what is read, and as what. */
  lemma {:induction false} ReadIsWritten(s: string, t: Script)
    ensures ReadScript(s) == Some(t) <==> s == ShowScript(t) && OkScript(t)
  {
    if ReadScript(s).Some? { ScriptRead(s); }
    if OkScript(t) { ScriptShown(t); }
  }

  lemma {:induction false} ScriptRead(s: string)
    requires ReadScript(s).Some?
    ensures OkScript(ReadScript(s).value) && s == ShowScript(ReadScript(s).value)
    decreases |s|
  {
    hide Span, ReadSentence, ShowSentence, OkSentence;
    var n := Span(IsSpace, s);
    if n < |s| {
      SentenceRead(s[n..]);
      ScriptRead(ReadSentence(s[n..]).value.1);
    }
  }

  lemma {:induction false} ScriptShown(t: Script)
    requires OkScript(t)
    ensures ReadScript(ShowScript(t)) == Some(t)
  {
    hide Span, ReadSentence, ShowSentence, OkSentence, IsSpace;
    match t
    case End(pad) =>
      SpanFound(IsSpace, pad, |pad|);
    case Then(pad, sentence, rest) =>
      SentenceShown(sentence, ShowScript(rest));
      SpanIs(IsSpace, pad, ShowSentence(sentence, ShowScript(rest)));
      ScriptShown(rest);
  }
}
