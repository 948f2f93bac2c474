/** EACH over the messages of a chat: when it ends.
 *
 *  The machine here knows PUT and PUT+ under undotted names, and EACH over a chat or its messages; any other line is
 *  outside of it and raises. Chats and messages are known by their places in a heap, so that a line of the body can
 *  lengthen the list that the EACH runs over, and change what the item's variable shows.
 */
module AssemblyChat {
  import opened Basics
  import opened Text
  import opened AssemblyVm
  import opened AssemblyBlocks
  import AssemblyCorrectness

  /** A dictionary of a message or a chat, with its `_index`, or a list that belongs to no chat. */
  datatype Obj =
    | Message(role: string, content: string, index: Option<nat>)
    | Chat(items: seq<nat>, index: Option<nat>)
    | Loose(items: seq<nat>)

  /** The heap, the variables that hold a chat or a message, and the turn counter. */
  datatype Ctx = Ctx(heap: seq<Obj>, vars: map<string, nat>, idx: Option<nat>)

  /** `str` of a token: `of` for literals, settings and variables that hold neither a chat nor a message, which no line
   *  here changes; `whole` for whatever else can be read of a chat, a message or the counter, such as all of it. */
  datatype Texts = Texts(of: string -> string, whole: (string, Ctx) -> string)

  // ---- tokens ----

  const COUNTER: string := "_each_idx"

  predicate IsRef(s: string) { StartsWith(s, "@") || StartsWith(s, "$") }

  function Unsigil(s: string): string { if IsRef(s) then s[1..] else s }

  /** `target.lstrip("@$")`. */
  function Name(s: string): string { if IsRef(s) then Name(s[1..]) else s }

  /** What stands before the first dot, and what behind it. */
  function Root(path: string): string { if path == "" || path[0] == '.' then "" else [path[0]] + Root(path[1..]) }

  function Field(path: string): Option<string> {
    if path == "" then None else if path[0] == '.' then Some(path[1..]) else Field(path[1..])
  }

  function IndexText(index: Option<nat>): string { if index.Some? then PrintNat(index.value) else "None" }

  function TextOf(t: Texts, c: Ctx, token: string): string {
    if !IsRef(token) then t.of(token)
    else
      var (root, field) := (Root(token[1..]), Field(token[1..]));
      if root == "settings" && field.Some? then t.of(token)
      else if root in c.vars && c.vars[root] < |c.heap| then FieldText(t, c, token, c.heap[c.vars[root]], field)
      else if root != COUNTER then t.of(token)
      else if field.None? then IndexText(c.idx)
      else t.whole(token, c)
  }

  function FieldText(t: Texts, c: Ctx, token: string, o: Obj, field: Option<string>): string {
    if o.Loose? then t.whole(token, c)
    else if field == Some("_index") then IndexText(o.index)
    else if field == Some("role") then (if o.Message? then o.role else "None")
    else if field == Some("content") then (if o.Message? then o.content else "None")
    else t.whole(token, c)
  }

  function ArgText(t: Texts, c: Ctx, inst: Instr, i: nat, default: string): string {
    if i < |inst.args| then TextOf(t, c, inst.args[i]) else default
  }

  // ---- the machine ----

  /** The first message of that role, or the length of the list. */
  function First(heap: seq<Obj>, l: seq<nat>, role: string): (k: nat)
    ensures k <= |l|
    ensures k < |l| ==> l[k] < |heap| && heap[l[k]].Message? && heap[l[k]].role == role
  {
    if l == [] then 0
    else if l[0] < |heap| && heap[l[0]].Message? && heap[l[0]].role == role then 0
    else 1 + First(heap, l[1..], role)
  }

  /** `_atomic_chat_set` on a chat. */
  function PutIn(c: Ctx, chat: nat, role: string, content: string, append: bool): Ctx
    requires chat < |c.heap| && c.heap[chat].Chat?
  {
    var l := c.heap[chat].items;
    var k := First(c.heap, l, role);
    if k < |l| then
      var m := c.heap[l[k]];
      c.(heap := c.heap[l[k] := m.(content := if append then m.content + content else content)])
    else c.(heap := c.heap[chat := c.heap[chat].(items := l + [|c.heap|])] + [Message(role, content, None)])
  }

  /** With a chat under the name: the one that is there, or an empty one. */
  function Owned(c: Ctx, name: string): (c': Ctx)
    ensures name in c'.vars && c'.vars[name] < |c'.heap| && c'.heap[c'.vars[name]].Chat?
  {
    if name in c.vars && c.vars[name] < |c.heap| && c.heap[c.vars[name]].Chat? then c
    else c.(heap := c.heap + [Chat([], None)], vars := c.vars[name := |c.heap|])
  }

  predicate IsPut(inst: Instr) {
    (inst.opcode == "PUT" || inst.opcode == "PUT+") && inst.args != [] && NoDot(Name(inst.args[0]))
  }

  function PutTo(inst: Instr): string
    requires IsPut(inst)
  {
    Name(inst.args[0])
  }

  /** `_exec_put`. */
  function PutLine(t: Texts, inst: Instr, c: Ctx): Option<Ctx> {
    if !IsPut(inst) then None
    else
      var (role, content) := (ArgText(t, c, inst, 1, "user"), ArgText(t, c, inst, 2, ""));
      var c1 := Owned(c, PutTo(inst));
      Some(PutIn(c1, c1.vars[PutTo(inst)], role, content, inst.opcode == "PUT+"))
  }

  function ItemsOf(c: Ctx, list: nat): seq<nat> {
    if list < |c.heap| && !c.heap[list].Message? then c.heap[list].items else []
  }

  /** `@chat.messages`, none for what is no chat; `@chat`, a list of that one. */
  function Open(token: string, c: Ctx): Option<(nat, Ctx)> {
    if !IsRef(token) then None
    else
      var (root, field) := (Root(token[1..]), Field(token[1..]));
      if root == COUNTER || (root == "settings" && field.Some?) then None
      else if field == Some("messages") then
        if root in c.vars && c.vars[root] < |c.heap| && c.heap[c.vars[root]].Chat? then Some((c.vars[root], c))
        else Some((|c.heap|, c.(heap := c.heap + [Loose([])])))
      else if field.None? && root in c.vars then Some((|c.heap|, c.(heap := c.heap + [Loose([c.vars[root]])])))
      else None
  }

  /** The item's variable, then the counter, then the item's `_index`. */
  function Bind(item: string, list: nat, idx: nat, c: Ctx): Ctx {
    var l := ItemsOf(c, list);
    if idx < |l| && l[idx] < |c.heap| && !c.heap[l[idx]].Loose? then
      Ctx(c.heap[l[idx] := c.heap[l[idx]].(index := Some(idx))], c.vars[Unsigil(item) := l[idx]] - {COUNTER}, Some(idx))
    else c.(vars := c.vars - {COUNTER}, idx := Some(idx))
  }

  function WriteBack(item: string, list: nat, idx: nat, c: Ctx): Option<Ctx> {
    if !IsRef(item) || Unsigil(item) !in c.vars then Some(c)
    else if idx < |ItemsOf(c, list)| then
      var l := ItemsOf(c, list)[idx := c.vars[Unsigil(item)]];
      Some(c.(heap := c.heap[list := c.heap[list].(items := l)]))
    else None
  }

  function ChatMachine(t: Texts, turns: nat): Machine<Ctx, nat> {
    Machine((inst: Instr, c: Ctx) => PutLine(t, inst, c),
            (token: string, c: Ctx) => None,
            (token: string, c: Ctx) => Open(token, c),
            (list: nat, c: Ctx) => |ItemsOf(c, list)|,
            (item: string, list: nat, idx: nat, c: Ctx) => Bind(item, list, idx, c),
            (item: string, list: nat, idx: nat, c: Ctx) => WriteBack(item, list, idx, c),
            (fn: string, inst: Instr, c: Ctx) => None,
            (fn: string, inst: Instr, c: Ctx, child: Ctx) => None,
            turns)
  }

  // ---- what a body reads, known before the EACH ----

  /** The body puts, and not under the item's name or the counter's. */
  predicate PutsAside(body: seq<Instr>, item: string) {
    NoDot(Unsigil(item))
    && forall inst :: inst in body ==> IsPut(inst) && PutTo(inst) != Unsigil(item) && PutTo(inst) != COUNTER
  }

  /** What stays the same during an EACH: `busy` are the variables that hold a chat or a message before or during it,
   *  `aims` those that hold the chat of the list, the item's aside. */
  datatype Scene = Scene(text: Texts, body: seq<Instr>, item: string, list: nat, busy: set<string>, aims: set<string>)

  function SceneOf(t: Texts, body: seq<Instr>, item: string, list: nat, c: Ctx): Scene {
    Scene(t, body, item, list,
          c.vars.Keys + (set inst | inst in body && IsPut(inst) :: PutTo(inst)) + {Unsigil(item), COUNTER},
          set n | n in c.vars && c.vars[n] == list && n != Unsigil(item) && n != COUNTER)
  }

  /** Where a text comes from: the same in each turn, the number of the turn, the item, or anywhere. */
  datatype Source = Fixed(text: string) | Counter | ItemRole | ItemContent | Other

  function SourceOf(s: Scene, token: string): Source {
    if !IsRef(token) then Fixed(s.text.of(token))
    else
      var (root, field) := (Root(token[1..]), Field(token[1..]));
      if root == "settings" && field.Some? then Fixed(s.text.of(token))
      else if root == COUNTER then (if field.None? then Counter else Other)
      else if root == Unsigil(s.item) then
        (if field == Some("_index") then Counter
         else if field == Some("role") then ItemRole
         else if field == Some("content") then ItemContent
         else Other)
      else if root in s.busy then Other
      else Fixed(s.text.of(token))
  }

  function ArgSource(s: Scene, inst: Instr, i: nat, default: string): Source {
    if i < |inst.args| then SourceOf(s, inst.args[i]) else Fixed(default)
  }

  function RoleSource(s: Scene, inst: Instr): Source { ArgSource(s, inst, 1, "user") }

  function ContentSource(s: Scene, inst: Instr): Source { ArgSource(s, inst, 2, "") }

  /** The line puts into the list. */
  predicate Aims(s: Scene, inst: Instr) { IsPut(inst) && PutTo(inst) in s.aims }

  /** Some line puts into the list under the number of the turn. */
  ghost predicate Counted(s: Scene) { exists inst :: inst in s.body && Aims(s, inst) && RoleSource(s, inst).Counter? }

  /** The same roles under which lines put into the list in each turn. */
  function FixedRoles(s: Scene): set<string> {
    set inst | inst in s.body && Aims(s, inst) && RoleSource(s, inst).Fixed? :: RoleSource(s, inst).text
  }

  function FixedContents(s: Scene): set<string> {
    set inst | inst in s.body && ContentSource(s, inst).Fixed? :: ContentSource(s, inst).text
  }

  /** The role of each member; None for a chat. */
  function Tags(c: Ctx, list: nat): (tags: seq<Option<string>>)
    ensures |tags| == |ItemsOf(c, list)|
  {
    var l := ItemsOf(c, list);
    seq(|l|, k requires 0 <= k < |l| =>
      if l[k] < |c.heap| && c.heap[l[k]].Message? then Some(c.heap[l[k]].role) else None)
  }

  function RolesOf(tags: seq<Option<string>>): set<string> { set k | 0 <= k < |tags| && tags[k].Some? :: tags[k].value }

  function Roles(c: Ctx, list: nat): set<string> { RolesOf(Tags(c, list)) }

  function Contents(c: Ctx, list: nat): set<string> {
    var l := ItemsOf(c, list);
    set k | 0 <= k < |l| && l[k] < |c.heap| && c.heap[l[k]].Message? :: c.heap[l[k]].content
  }

  /** Members beyond one for each role: none, unless two messages have one role or a chat is among them. */
  function Surplus(c: Ctx, list: nat): int { |Tags(c, list)| - |Roles(c, list)| }

  /** The texts of 0, 1, ..., n - 1. */
  function Numerals(n: nat): set<string> { if n == 0 then {} else Numerals(n - 1) + {PrintNat(n - 1)} }

  ghost predicate IsNumeral(s: string) { exists n: nat :: s == PrintNat(n) }

  predicate IsDict(c: Ctx, k: nat) { k < |c.heap| && !c.heap[k].Loose? }

  /** Places are places of chats and messages. */
  ghost predicate Sound(c: Ctx) {
    && (forall n :: n in c.vars ==> IsDict(c, c.vars[n]))
    && (forall k, i :: 0 <= k < |c.heap| && 0 <= i < |ItemsOf(c, k)| ==> IsDict(c, ItemsOf(c, k)[i]))
  }

  predicate IsList(c: Ctx, list: nat) { list < |c.heap| && !c.heap[list].Message? }

  // ---- one line ----

  /** Objects stay what they are; lists may get longer and contents may change. */
  predicate StaysAs(o: Obj, o': Obj) {
    match o
    case Message(role, _, index) => o'.Message? && o'.role == role && o'.index == index
    case Chat(items, index) => o'.Chat? && items <= o'.items && o'.index == index
    case Loose(items) => o' == o
  }

  ghost predicate Grows(c: Ctx, c': Ctx) {
    |c.heap| <= |c'.heap| && forall k :: 0 <= k < |c.heap| ==> StaysAs(c.heap[k], c'.heap[k])
  }

  lemma FirstFinds(c: Ctx, list: nat, role: string)
    ensures First(c.heap, ItemsOf(c, list), role) < |ItemsOf(c, list)| <==> role in Roles(c, list)
  {
    var l := ItemsOf(c, list);
    var k := First(c.heap, l, role);
    if k < |l| { assert Tags(c, list)[k] == Some(role); }
    if role in Roles(c, list) {
      var i :| 0 <= i < |l| && Tags(c, list)[i] == Some(role);
      FirstIsFirst(c.heap, l, role, i);
    }
  }

  lemma {:induction false} FirstIsFirst(heap: seq<Obj>, l: seq<nat>, role: string, i: nat)
    requires i < |l| && l[i] < |heap| && heap[l[i]].Message? && heap[l[i]].role == role
    ensures First(heap, l, role) <= i
  {
    if i > 0 { FirstIsFirst(heap, l[1..], role, i - 1); }
  }

  lemma RolesSnoc(tags: seq<Option<string>>, role: string)
    ensures RolesOf(tags + [Some(role)]) == RolesOf(tags) + {role}
  {
    var all := tags + [Some(role)];
    assert all[|tags|] == Some(role);
    forall r | r in RolesOf(tags) ensures r in RolesOf(all) {
      var k :| 0 <= k < |tags| && tags[k] == Some(r);
      assert all[k] == Some(r);
    }
  }

  lemma PutInEffect(c: Ctx, chat: nat, role: string, content: string, append: bool, list: nat)
    requires Sound(c) && chat < |c.heap| && c.heap[chat].Chat? && IsList(c, list)
    ensures var c' := PutIn(c, chat, role, content, append);
            && Grows(c, c') && Sound(c') && c'.vars == c.vars && c'.idx == c.idx
            && Tags(c', list) == Tags(c, list) + if chat == list && role !in Roles(c, list) then [Some(role)] else []
  {
    hide Roles, First, Sound, Tags, Grows, ItemsOf;
    var c' := PutIn(c, chat, role, content, append);
    PutInKeepsSound(c, chat, role, content, append);
    PutInItems(c, chat, role, content, append, list);
    assert forall i :: 0 <= i < |ItemsOf(c, list)| ==> ItemsOf(c', list)[i] == ItemsOf(c, list)[i];
    OldTags(c, c', list);
    if chat == list && role !in Roles(c, list) { LastTag(c', list, role); }
    assert |Tags(c', list)| == |Tags(c, list)| + if chat == list && role !in Roles(c, list) then 1 else 0;
  }

  lemma PutInItems(c: Ctx, chat: nat, role: string, content: string, append: bool, list: nat)
    requires chat < |c.heap| && c.heap[chat].Chat? && IsList(c, list)
    ensures var (c', isNew) := (PutIn(c, chat, role, content, append), chat == list && role !in Roles(c, list));
            && ItemsOf(c', list) == ItemsOf(c, list) + (if isNew then [|c.heap|] else [])
            && (isNew ==> |c'.heap| > |c.heap| && c'.heap[|c.heap|].Message? && c'.heap[|c.heap|].role == role)
  {
    hide Roles, First;
    FirstFinds(c, chat, role);
  }

  lemma OldTags(c: Ctx, c': Ctx, list: nat)
    requires Sound(c) && IsList(c, list) && Grows(c, c') && |ItemsOf(c, list)| <= |ItemsOf(c', list)|
    requires forall i :: 0 <= i < |ItemsOf(c, list)| ==> ItemsOf(c', list)[i] == ItemsOf(c, list)[i]
    ensures forall i :: 0 <= i < |Tags(c, list)| ==> Tags(c', list)[i] == Tags(c, list)[i]
  {
    forall i | 0 <= i < |Tags(c, list)| ensures Tags(c', list)[i] == Tags(c, list)[i] {
      ItemIsDict(c, list, i);
      assert StaysAs(c.heap[ItemsOf(c, list)[i]], c'.heap[ItemsOf(c, list)[i]]);
    }
  }

  lemma LastTag(c: Ctx, list: nat, role: string)
    requires ItemsOf(c, list) != []
    requires var k := ItemsOf(c, list)[|ItemsOf(c, list)| - 1];
             k < |c.heap| && c.heap[k].Message? && c.heap[k].role == role
    ensures Tags(c, list)[|Tags(c, list)| - 1] == Some(role)
  {
  }

  lemma ItemIsDict(c: Ctx, list: nat, i: nat)
    requires Sound(c) && list < |c.heap| && i < |ItemsOf(c, list)|
    ensures IsDict(c, ItemsOf(c, list)[i])
  {
  }

  lemma PutInKeepsSound(c: Ctx, chat: nat, role: string, content: string, append: bool)
    requires Sound(c) && chat < |c.heap| && c.heap[chat].Chat?
    ensures Sound(PutIn(c, chat, role, content, append)) && Grows(c, PutIn(c, chat, role, content, append))
  {
    hide First;
    var c' := PutIn(c, chat, role, content, append);
    forall k, i | 0 <= k < |c'.heap| && 0 <= i < |ItemsOf(c', k)| ensures IsDict(c', ItemsOf(c', k)[i]) {
      if k < |c.heap| && i < |ItemsOf(c, k)| { ItemIsDict(c, k, i); }
    }
  }

  lemma OwnedEffect(c: Ctx, name: string, list: nat)
    requires Sound(c) && IsList(c, list)
    ensures var c' := Owned(c, name);
            && Grows(c, c') && Sound(c') && IsList(c', list) && c'.idx == c.idx && Tags(c', list) == Tags(c, list)
            && c'.vars.Keys == c.vars.Keys + {name}
               && (forall n :: n in c.vars && n != name ==> c'.vars[n] == c.vars[n])
            && (c'.vars[name] == list <==> name in c.vars && c.vars[name] == list && c.heap[list].Chat?)
  {
    var c' := Owned(c, name);
    forall k, i | 0 <= k < |c'.heap| && 0 <= i < |ItemsOf(c', k)| ensures IsDict(c', ItemsOf(c', k)[i]) {
      if k < |c.heap| { assert IsDict(c, ItemsOf(c, k)[i]); }
    }
    forall i | 0 <= i < |ItemsOf(c, list)| ensures Tags(c', list)[i] == Tags(c, list)[i] {
      assert IsDict(c, ItemsOf(c, list)[i]);
    }
  }

  // ---- between the turns and in a turn ----

  /** Between two turns. */
  ghost predicate Fine(s: Scene, c: Ctx) {
    && Sound(c) && IsList(c, s.list) && c.vars.Keys <= s.busy
    && (forall n :: n != Unsigil(s.item) && n != COUNTER ==> (n in c.vars && c.vars[n] == s.list <==> n in s.aims))
  }

  /** In the turn of index i. */
  ghost predicate InTurn(s: Scene, c: Ctx, i: nat) {
    && Fine(s, c) && i < |ItemsOf(c, s.list)| && c.idx == Some(i) && COUNTER !in c.vars
    && ItemIsBound(s, c, i)
  }

  predicate ItemIsBound(s: Scene, c: Ctx, i: nat) {
    Unsigil(s.item) != COUNTER ==>
      && i < |ItemsOf(c, s.list)| && Unsigil(s.item) in c.vars && c.vars[Unsigil(s.item)] == ItemsOf(c, s.list)[i]
      && IsDict(c, ItemsOf(c, s.list)[i]) && c.heap[ItemsOf(c, s.list)[i]].index == Some(i)
  }

  lemma BindStarts(s: Scene, c: Ctx, i: nat)
    requires Fine(s, c) && i < |ItemsOf(c, s.list)| && {Unsigil(s.item), COUNTER} <= s.busy
    ensures var c' := Bind(s.item, s.list, i, c);
            InTurn(s, c', i) && Tags(c', s.list) == Tags(c, s.list) && Contents(c', s.list) == Contents(c, s.list)
  {
    hide Unsigil;
    var c' := Bind(s.item, s.list, i, c);
    assert IsDict(c, ItemsOf(c, s.list)[i]);
    assert forall k :: 0 <= k < |c.heap| ==> ItemsOf(c', k) == ItemsOf(c, k);
    forall k, j | 0 <= k < |c'.heap| && 0 <= j < |ItemsOf(c', k)| ensures IsDict(c', ItemsOf(c', k)[j]) {
      assert IsDict(c, ItemsOf(c, k)[j]);
    }
    assert Tags(c', s.list) == Tags(c, s.list);
  }

  /** What a token shows in a turn. */
  lemma TokenShows(s: Scene, c: Ctx, i: nat, token: string)
    requires InTurn(s, c, i)
    ensures var (text, tag, o) := (TextOf(s.text, c, token), Tags(c, s.list)[i], c.heap[ItemsOf(c, s.list)[i]]);
            match SourceOf(s, token)
            case Fixed(x) => text == x
            case Counter => text == PrintNat(i)
            case ItemRole => text == (if tag.Some? then tag.value else "None")
            case ItemContent => text == (if o.Message? then o.content else "None")
            case Other => true
  {
    assert IsDict(c, ItemsOf(c, s.list)[i]);
    hide Root, Field;
  }

  lemma InTurnStays(s: Scene, c: Ctx, i: nat, name: string, c': Ctx)
    requires InTurn(s, c, i) && Grows(c, c') && Sound(c') && c'.idx == c.idx && name in s.busy
    requires name != Unsigil(s.item) && name != COUNTER && c'.vars.Keys == c.vars.Keys + {name}
    requires forall n :: n in c.vars && n != name ==> c'.vars[n] == c.vars[n]
    requires c'.vars[name] == s.list <==> name in c.vars && c.vars[name] == s.list
    ensures InTurn(s, c', i)
  {
    hide Unsigil;
    assert IsDict(c, ItemsOf(c, s.list)[i]);
    assert ItemsOf(c', s.list)[i] == ItemsOf(c, s.list)[i];
  }

  predicate Within(s: Scene) {
    {Unsigil(s.item), COUNTER} <= s.busy && forall inst :: inst in s.body ==> IsPut(inst) && PutTo(inst) in s.busy
  }

  function RoleText(s: Scene, c: Ctx, inst: Instr): string { ArgText(s.text, c, inst, 1, "user") }

  function ContentText(s: Scene, c: Ctx, inst: Instr): string { ArgText(s.text, c, inst, 2, "") }

  /** What a line does to the list. */
  lemma LineEffect(s: Scene, inst: Instr, c: Ctx, i: nat)
    requires PutsAside(s.body, s.item) && Within(s) && inst in s.body && InTurn(s, c, i)
    ensures PutLine(s.text, inst, c).Some?
    ensures var c' := PutLine(s.text, inst, c).value;
            && InTurn(s, c', i)
            && Tags(c', s.list) == Tags(c, s.list) +
                 if Aims(s, inst) && RoleText(s, c, inst) !in Roles(c, s.list) then [Some(RoleText(s, c, inst))] else []
  {
    hide Unsigil, Name, TextOf, Tags, Roles, PutIn, Owned;
    var (name, role, content) := (PutTo(inst), RoleText(s, c, inst), ContentText(s, c, inst));
    VarsAreDicts(c, name, s.list);
    OwnedEffect(c, name, s.list);
    var c1 := Owned(c, name);
    InTurnStays(s, c, i, name, c1);
    PutInEffect(c1, c1.vars[name], role, content, inst.opcode == "PUT+", s.list);
    InTurnStays(s, c1, i, name, PutIn(c1, c1.vars[name], role, content, inst.opcode == "PUT+"));
    SameRoles(c, c1, s.list);
  }

  lemma VarsAreDicts(c: Ctx, name: string, list: nat)
    requires Sound(c) && IsList(c, list)
    ensures name in c.vars && c.vars[name] == list ==> c.heap[list].Chat?
  {
    if name in c.vars { assert IsDict(c, c.vars[name]); }
  }

  lemma SameRoles(c: Ctx, c': Ctx, list: nat)
    requires Tags(c, list) == Tags(c', list)
    ensures Roles(c, list) == Roles(c', list)
  {
  }

  // ---- a body ----

  function PutAll(t: Texts, body: seq<Instr>, c: Ctx): Ctx {
    if body == [] then c
    else
      var c' := PutLine(t, body[0], c);
      PutAll(t, body[1..], if c'.Some? then c'.value else c)
  }

  lemma {:induction false} BodyRuns(t: Texts, turns: nat, fns: Functions, body: seq<Instr>, c: Ctx)
    requires forall inst :: inst in body ==> IsPut(inst)
    ensures Exec(ChatMachine(t, turns), fns, Block(body), c) == Ok(PutAll(t, body, c))
    decreases |body|
  {
    hide PutLine, PlainStep, ChatMachine;
    if body != [] {
      assert Block(body)[1..] == Block(body[1..]);
      LineRuns(t, turns, fns, body[0], c);
      BodyRuns(t, turns, fns, body[1..], PutLine(t, body[0], c).value);
    }
  }

  lemma LineRuns(t: Texts, turns: nat, fns: Functions, inst: Instr, c: Ctx)
    requires IsPut(inst)
    ensures inst.opcode in PLAIN && inst.opcode != "NOP" && PutLine(t, inst, c).Some?
    ensures PlainStep(ChatMachine(t, turns), fns, inst, c) == Ok(PutLine(t, inst, c).value)
  {
    hide PutIn, Owned, ArgText, Name;
  }

  lemma BodySliceRuns(t: Texts, turns: nat, fns: Functions, body: seq<Instr>, c: Ctx)
    requires forall inst :: inst in body ==> IsPut(inst)
    ensures Run(ChatMachine(t, turns), fns, body, c).out == Ok(PutAll(t, body, c))
  {
    assert PlainLines(body) by {
      forall i | 0 <= i < |body| ensures body[i].opcode in PLAIN { assert IsPut(body[i]); }
    }
    BlockShape(body, Positions(Block(body), 0), 0);
    BodyRuns(t, turns, fns, body, c);
    AssemblyCorrectness.RunStructured(ChatMachine(t, turns), fns, Block(body), c);
  }

  /** What the lines of `rest` leave in a turn: all roles that were there, those that they put, and the surplus. */
  lemma {:induction false} BodyEffect(s: Scene, rest: seq<Instr>, c: Ctx, i: nat)
    requires PutsAside(s.body, s.item) && Within(s) && (forall inst :: inst in rest ==> inst in s.body)
             && InTurn(s, c, i)
    ensures var c' := PutAll(s.text, rest, c);
            && InTurn(s, c', i) && Roles(c, s.list) <= Roles(c', s.list) && Surplus(c', s.list) == Surplus(c, s.list)
            && forall inst :: inst in rest && Aims(s, inst) ==> Puts(s, c', inst, i)
    decreases |rest|
  {
    hide InTurn, Roles, Surplus, Tags, PutLine, PutsAside, Within, Aims, Puts;
    if rest != [] {
      LineEffect(s, rest[0], c, i);
      var c1 := PutLine(s.text, rest[0], c).value;
      LineAdds(s, rest[0], c, c1, i);
      BodyEffect(s, rest[1..], c1, i);
      PutsStay(s, c1, PutAll(s.text, rest[1..], c1), rest[0], i);
    }
  }

  /** The role of the line is there, as far as it is known beforehand. */
  predicate Puts(s: Scene, c: Ctx, inst: Instr, i: nat) {
    match RoleSource(s, inst)
    case Fixed(x) => x in Roles(c, s.list)
    case Counter => PrintNat(i) in Roles(c, s.list)
    case _ => true
  }

  lemma PutsStay(s: Scene, c: Ctx, c': Ctx, inst: Instr, i: nat)
    requires Roles(c, s.list) <= Roles(c', s.list) && (Aims(s, inst) ==> Puts(s, c, inst, i))
    ensures Aims(s, inst) ==> Puts(s, c', inst, i)
  {
  }

  lemma RoleShows(s: Scene, c: Ctx, inst: Instr, i: nat)
    requires InTurn(s, c, i)
    ensures RoleSource(s, inst).Fixed? ==> RoleText(s, c, inst) == RoleSource(s, inst).text
    ensures RoleSource(s, inst).Counter? ==> RoleText(s, c, inst) == PrintNat(i)
  {
    hide InTurn;
    if |inst.args| > 1 { TokenShows(s, c, i, inst.args[1]); }
  }

  lemma LineAdds(s: Scene, inst: Instr, c: Ctx, c': Ctx, i: nat)
    requires InTurn(s, c, i)
    requires Tags(c', s.list) == Tags(c, s.list) +
               if Aims(s, inst) && RoleText(s, c, inst) !in Roles(c, s.list) then [Some(RoleText(s, c, inst))] else []
    ensures Roles(c', s.list) == Roles(c, s.list) + if Aims(s, inst) then {RoleText(s, c, inst)} else {}
    ensures Surplus(c', s.list) == Surplus(c, s.list) && (Aims(s, inst) ==> Puts(s, c', inst, i))
  {
    hide InTurn, RolesOf, RoleText, Aims, Tags;
    RoleShows(s, c, inst, i);
    assert Tags(c, s.list) + [] == Tags(c, s.list);
    RolesSnoc(Tags(c, s.list), RoleText(s, c, inst));
  }

  // ---- a turn ----

  function After(s: Scene, i: nat, c: Ctx): Ctx { PutAll(s.text, s.body, Bind(s.item, s.list, i, c)) }

  ghost predicate Set(s: Scene) { PutsAside(s.body, s.item) && Within(s) }

  /** A turn leads to the context before the next, and its write-back changes nothing. */
  lemma TurnLeads(s: Scene, c: Ctx, i: nat)
    requires Set(s) && Fine(s, c) && i < |ItemsOf(c, s.list)|
    ensures var c' := After(s, i, c);
            && Fine(s, c') && WriteBack(s.item, s.list, i, c') == Some(c')
            && Roles(c, s.list) <= Roles(c', s.list) && Surplus(c', s.list) == Surplus(c, s.list)
            && FixedRoles(s) <= Roles(c', s.list) && (Counted(s) ==> PrintNat(i) in Roles(c', s.list))
  {
    hide Unsigil, Bind, WriteBack, Aims, RoleSource, Tags, PutAll;
    BindStarts(s, c, i);
    BodyEffect(s, s.body, Bind(s.item, s.list, i, c), i);
    WriteBackKeeps(s, After(s, i, c), i);
  }

  lemma WriteBackKeeps(s: Scene, c: Ctx, i: nat)
    requires InTurn(s, c, i)
    ensures WriteBack(s.item, s.list, i, c) == Some(c)
  {
    hide Unsigil;
    if Unsigil(s.item) in c.vars {
      var l := ItemsOf(c, s.list);
      assert l[i := c.vars[Unsigil(s.item)]] == l;
      assert c.heap[s.list := c.heap[s.list].(items := l)] == c.heap;
    }
  }

  lemma EachTurn(s: Scene, turns: nat, fns: Functions, i: nat, c: Ctx)
    requires Set(s) && i < |ItemsOf(c, s.list)| && WriteBack(s.item, s.list, i, After(s, i, c)) == Some(After(s, i, c))
    ensures Each(s, turns, fns, i, c) == if i >= turns then Running else Each(s, turns, fns, i + 1, After(s, i, c))
  {
    BodySliceRuns(s.text, turns, fns, s.body, Bind(s.item, s.list, i, c));
    hide Run, Bind, WriteBack, PutAll, ItemsOf, PutLine;
  }

  /** How the EACH goes on from turn i. */
  function Each(s: Scene, turns: nat, fns: Functions, i: nat, c: Ctx): Outcome<Ctx> {
    EachRun(ChatMachine(s.text, turns), fns, s.body, s.item, s.list, i, c).out
  }

  lemma EachOver(s: Scene, turns: nat, fns: Functions, i: nat, c: Ctx)
    requires i >= |ItemsOf(c, s.list)|
    ensures Each(s, turns, fns, i, c) == Ok(c)
  {
    hide Run;
  }

  lemma OneTurn(s: Scene, turns: nat, fns: Functions, i: nat, c: Ctx)
    requires Set(s) && Fine(s, c)
    ensures Each(s, turns, fns, i, c) ==
            if i >= |ItemsOf(c, s.list)| then Ok(c) else if i >= turns then Running
              else Each(s, turns, fns, i + 1, After(s, i, c))
  {
    hide Each, After, WriteBack, Set, Fine;
    if i >= |ItemsOf(c, s.list)| {
      EachOver(s, turns, fns, i, c);
    } else {
      TurnLeads(s, c, i);
      EachTurn(s, turns, fns, i, c);
    }
  }

  // ---- numerals and surplus ----

  lemma {:induction false} NumeralsAre(n: nat)
    ensures |Numerals(n)| == n && forall k: nat :: PrintNat(k) in Numerals(n) <==> k < n
    ensures forall s :: s in Numerals(n) ==> IsNumeral(s)
  {
    if n > 0 {
      NumeralsAre(n - 1);
      forall k: nat ensures PrintNat(k) == PrintNat(n - 1) <==> k == n - 1 {
        DigitsOfNat(k);
        DigitsOfNat(n - 1);
      }
    }
  }

  /** A number above all numerals of a set. */
  lemma {:induction false} NumeralsEnough(s: set<string>) returns (n: nat)
    ensures forall k: nat :: PrintNat(k) in s ==> k < n
  {
    n := 0;
    if r: nat :| PrintNat(r) in s {
      var n1 := NumeralsEnough(s - {PrintNat(r)});
      n := if r < n1 then n1 else r + 1;
      forall k: nat | PrintNat(k) in s ensures k < n {
        DigitsOfNat(k);
        DigitsOfNat(r);
        assert PrintNat(k) in s - {PrintNat(r)} || k == r;
      }
    }
  }

  lemma {:induction false} SurplusOf(tags: seq<Option<string>>)
    ensures |RolesOf(tags)| <= |tags| && (None in tags ==> |RolesOf(tags)| < |tags|)
    decreases |tags|
  {
    if tags != [] {
      var n := |tags| - 1;
      var (rest, last) := (tags[..n], tags[n]);
      assert tags == rest + [last];
      SurplusOf(rest);
      if last.Some? {
        RolesSnoc(rest, last.value);
      } else {
        assert RolesOf(tags) == RolesOf(rest) by {
          forall r | r in RolesOf(tags) ensures r in RolesOf(rest) {
            var k :| 0 <= k < |tags| && tags[k] == Some(r);
            assert rest[k] == Some(r);
          }
          forall r | r in RolesOf(rest) ensures r in RolesOf(tags) {
            var k :| 0 <= k < |rest| && rest[k] == Some(r);
            assert tags[k] == Some(r);
          }
        }
      }
    }
  }

  lemma SurplusIsNat(c: Ctx, list: nat)
    ensures Surplus(c, list) >= 0
  {
    SurplusOf(Tags(c, list));
  }

  // ---- for ever ----

  /** The number of the turn is put in each turn, and something is in the list that is no number. */
  ghost predicate Doomed(s: Scene, i: nat, c: Ctx) {
    && Counted(s) && Fine(s, c) && Numerals(i) <= Roles(c, s.list)
    && (Surplus(c, s.list) > 0 || exists r :: r in Roles(c, s.list) && !IsNumeral(r))
  }

  lemma DoomedIsAhead(s: Scene, i: nat, c: Ctx)
    requires Doomed(s, i, c)
    ensures i < |ItemsOf(c, s.list)|
  {
    hide Counted, Fine, RolesOf, IsNumeral;
    NumeralsAre(i);
    var roles := Roles(c, s.list);
    SurplusOf(Tags(c, s.list));
    SubsetSize(Numerals(i), roles);
    if r :| r in roles && !IsNumeral(r) {
      assert Numerals(i) + {r} <= roles;
      SubsetSize(Numerals(i) + {r}, roles);
    }
  }

  lemma {:induction false} GoesOn(s: Scene, turns: nat, fns: Functions, i: nat, c: Ctx)
    requires Set(s) && Doomed(s, i, c)
    ensures Each(s, turns, fns, i, c) == Running
    decreases if i < turns then turns - i else 0
  {
    hide Each, After, Set, Fine, Counted, Roles, Surplus, IsNumeral;
    DoomedIsAhead(s, i, c);
    OneTurn(s, turns, fns, i, c);
    if i < turns {
      TurnLeads(s, c, i);
      GoesOn(s, turns, fns, i + 1, After(s, i, c));
    }
  }

  /** An EACH over a list with a member goes on for ever, whatever its lines read, if one puts the number of the turn
   *  and the list has a surplus or a role that is no number, or a line puts such a role in each turn. */
  lemma NeverEnds(s: Scene, turns: nat, fns: Functions, c: Ctx)
    requires Set(s) && Fine(s, c) && ItemsOf(c, s.list) != [] && Counted(s)
    requires Surplus(c, s.list) > 0 || exists r :: r in Roles(c, s.list) + FixedRoles(s) && !IsNumeral(r)
    ensures Each(s, turns, fns, 0, c) == Running
  {
    hide Each, After, Set, Fine, Counted, Roles, Surplus, IsNumeral, FixedRoles;
    OneTurn(s, turns, fns, 0, c);
    if turns > 0 {
      TurnLeads(s, c, 0);
      assert Numerals(1) == {PrintNat(0)};
      GoesOn(s, turns, fns, 1, After(s, 0, c));
    }
  }

  // ---- no further than ----

  /** A text from there is one of the names, or a number where numbers are allowed; `deep` if contents are among
   *  them. */
  predicate Feeds(names: set<string>, deep: bool, nums: bool, source: Source) {
    match source
    case Fixed(x) => x in names
    case Counter => nums
    case ItemRole => true
    case ItemContent => deep
    case Other => false
  }

  predicate Closed(s: Scene, names: set<string>, deep: bool, nums: bool) {
    forall inst :: inst in s.body ==>
      && (Aims(s, inst) ==> Feeds(names, deep, nums, RoleSource(s, inst)))
      && (deep ==> inst.opcode == "PUT" && Feeds(names, deep, nums, ContentSource(s, inst)))
  }

  function Bound(names: set<string>, nums: bool, i: nat): set<string> { names + if nums then Numerals(i) else {} }

  /** What is in the list before the turn of index i. */
  predicate Below(s: Scene, names: set<string>, deep: bool, nums: bool, i: nat, c: Ctx) {
    && Roles(c, s.list) <= Bound(names, nums, i) && (deep ==> Contents(c, s.list) <= Bound(names, nums, i))
    && (Surplus(c, s.list) > 0 ==> "None" in names)
  }

  lemma TextIsBelow(s: Scene, names: set<string>, deep: bool, nums: bool, i: nat, c: Ctx, token: string)
    requires InTurn(s, c, i) && Below(s, names, deep, nums, i + 1, c) && Feeds(names, deep, nums, SourceOf(s, token))
    ensures TextOf(s.text, c, token) in Bound(names, nums, i + 1)
  {
    TokenShows(s, c, i, token);
    ItemIsIn(s, c, i);
    SurplusOf(Tags(c, s.list));
    hide InTurn, Roles, Contents, Tags, TextOf, SourceOf, ItemsOf;
  }

  lemma ItemIsIn(s: Scene, c: Ctx, i: nat)
    requires InTurn(s, c, i)
    ensures var (tag, o) := (Tags(c, s.list)[i], c.heap[ItemsOf(c, s.list)[i]]);
            && tag in Tags(c, s.list) && (tag.Some? ==> tag.value in Roles(c, s.list))
            && (o.Message? ==> tag.Some? && o.content in Contents(c, s.list)) && (tag.Some? ==> o.Message?)
  {
    ItemIsDict(c, s.list, i);
  }

  lemma ArgIsBelow(
      s: Scene, names: set<string>, deep: bool, nums: bool, i: nat, c: Ctx, inst: Instr, k: nat, default: string)
    requires InTurn(s, c, i) && Below(s, names, deep, nums, i + 1, c)
    requires Feeds(names, deep, nums, ArgSource(s, inst, k, default))
    ensures ArgText(s.text, c, inst, k, default) in Bound(names, nums, i + 1)
  {
    hide InTurn, Below;
    if k < |inst.args| { TextIsBelow(s, names, deep, nums, i, c, inst.args[k]); }
  }

  /** A PUT brings its own content alone. */
  lemma LineContents(t: Texts, inst: Instr, c: Ctx, list: nat)
    requires IsPut(inst) && inst.opcode == "PUT" && Sound(c) && IsList(c, list)
    ensures Contents(PutLine(t, inst, c).value, list) <= Contents(c, list) + {ArgText(t, c, inst, 2, "")}
  {
    hide Name, ArgText, PutIn, Owned, Contents;
    OwnedEffect(c, PutTo(inst), list);
    OwnedContents(c, PutTo(inst), list);
    var c1 := Owned(c, PutTo(inst));
    PutInContents(c1, c1.vars[PutTo(inst)], ArgText(t, c, inst, 1, "user"), ArgText(t, c, inst, 2, ""), list);
  }

  lemma OwnedContents(c: Ctx, name: string, list: nat)
    requires Sound(c) && IsList(c, list)
    ensures Contents(Owned(c, name), list) == Contents(c, list)
  {
    forall k | 0 <= k < |ItemsOf(c, list)| ensures IsDict(c, ItemsOf(c, list)[k]) { ItemIsDict(c, list, k); }
  }

  lemma PutInContents(c: Ctx, chat: nat, role: string, content: string, list: nat)
    requires Sound(c) && chat < |c.heap| && c.heap[chat].Chat? && IsList(c, list)
    ensures Contents(PutIn(c, chat, role, content, false), list) <= Contents(c, list) + {content}
  {
    hide First;
    var c' := PutIn(c, chat, role, content, false);
    var (l, l') := (ItemsOf(c, list), ItemsOf(c', list));
    forall k | 0 <= k < |l| ensures IsDict(c, l[k]) { ItemIsDict(c, list, k); }
    forall x | x in Contents(c', list) ensures x in Contents(c, list) + {content} {
      var k :| 0 <= k < |l'| && l'[k] < |c'.heap| && c'.heap[l'[k]].Message? && c'.heap[l'[k]].content == x;
      if k < |l| { assert l'[k] == l[k]; }
    }
  }

  lemma LineStaysBelow(s: Scene, names: set<string>, deep: bool, nums: bool, i: nat, c: Ctx, inst: Instr)
    requires Set(s) && inst in s.body && InTurn(s, c, i) && Closed(s, names, deep, nums)
             && Below(s, names, deep, nums, i + 1, c)
    ensures Below(s, names, deep, nums, i + 1, PutLine(s.text, inst, c).value)
  {
    hide InTurn, Roles, Contents, Tags, Aims, Surplus, PutLine, RoleText, ArgText, ArgSource, Bound;
    LineEffect(s, inst, c, i);
    var c' := PutLine(s.text, inst, c).value;
    LineAdds(s, inst, c, c', i);
    if Aims(s, inst) { ArgIsBelow(s, names, deep, nums, i, c, inst, 1, "user"); }
    if deep {
      ArgIsBelow(s, names, deep, nums, i, c, inst, 2, "");
      TurnIsSound(s, c, i);
      LineContents(s.text, inst, c, s.list);
    }
    RoleTextIs(s, c, inst);
  }

  lemma RoleTextIs(s: Scene, c: Ctx, inst: Instr)
    ensures RoleText(s, c, inst) == ArgText(s.text, c, inst, 1, "user")
  {
  }

  lemma TurnIsSound(s: Scene, c: Ctx, i: nat)
    requires InTurn(s, c, i)
    ensures Sound(c) && IsList(c, s.list)
  {
  }

  lemma {:induction false} BodyStaysBelow(
      s: Scene, names: set<string>, deep: bool, nums: bool, i: nat, c: Ctx, rest: seq<Instr>)
    requires Set(s) && (forall inst :: inst in rest ==> inst in s.body) && InTurn(s, c, i)
    requires Closed(s, names, deep, nums) && Below(s, names, deep, nums, i + 1, c)
    ensures Below(s, names, deep, nums, i + 1, PutAll(s.text, rest, c))
    decreases |rest|
  {
    hide InTurn, PutLine, Closed, Below, PutsAside, Within, Tags, Aims, RoleText, Roles;
    if rest != [] {
      LineEffect(s, rest[0], c, i);
      LineStaysBelow(s, names, deep, nums, i, c, rest[0]);
      BodyStaysBelow(s, names, deep, nums, i, PutLine(s.text, rest[0], c).value, rest[1..]);
    }
  }

  lemma TurnStaysBelow(s: Scene, names: set<string>, deep: bool, nums: bool, i: nat, c: Ctx)
    requires Set(s) && Fine(s, c) && i < |ItemsOf(c, s.list)|
    requires Closed(s, names, deep, nums) && Below(s, names, deep, nums, i, c)
    ensures Below(s, names, deep, nums, i + 1, After(s, i, c))
  {
    hide Fine, InTurn, Closed, PutAll, Bind, Tags, RolesOf, Contents, PutsAside;
    BindStarts(s, c, i);
    BodyStaysBelow(s, names, deep, nums, i, Bind(s.item, s.list, i, c), s.body);
  }

  lemma LengthIsBelow(s: Scene, names: set<string>, deep: bool, nums: bool, i: nat, c: Ctx)
    requires Below(s, names, deep, nums, i, c)
    ensures |ItemsOf(c, s.list)| <= Surplus(c, s.list) + |Bound(names, nums, i)|
  {
    hide RolesOf, Contents;
    SubsetSize(Roles(c, s.list), Bound(names, nums, i));
  }

  /** Where the bound is reached, the EACH ends. */
  lemma {:induction false} ComesToAnEnd(
      s: Scene, turns: nat, fns: Functions, i: nat, c: Ctx, names: set<string>, deep: bool, nums: bool)
    requires Set(s) && Fine(s, c) && Closed(s, names, deep, nums) && Below(s, names, deep, nums, i, c)
    requires forall k: nat :: turns <= k ==> Surplus(c, s.list) + |Bound(names, nums, k)| <= k
    ensures Each(s, turns, fns, i, c).Ok?
    decreases if i < turns then turns - i else 0
  {
    hide Each, After, Set, Fine, Closed, Below, Roles, Surplus, Bound, Counted;
    OneTurn(s, turns, fns, i, c);
    LengthIsBelow(s, names, deep, nums, i, c);
    if i < |ItemsOf(c, s.list)| {
      TurnLeads(s, c, i);
      TurnStaysBelow(s, names, deep, nums, i, c);
      ComesToAnEnd(s, turns, fns, i + 1, After(s, i, c), names, deep, nums);
    }
  }

  // ---- when an EACH ends ----

  /** Lines put into the list under roles that are the same in each turn, the number of the turn, or the item's role. */
  predicate RolesKnown(s: Scene) {
    forall inst :: inst in s.body && Aims(s, inst) ==> !RoleSource(s, inst).ItemContent? && !RoleSource(s, inst).Other?
  }

  /** All that is asked of the list and the body, before the EACH. */
  ghost predicate Ending(s: Scene, c: Ctx) {
    || ItemsOf(c, s.list) == []
    || !Counted(s)
    || (Surplus(c, s.list) == 0 && forall r :: r in Roles(c, s.list) + FixedRoles(s) ==> IsNumeral(r))
  }

  function AllRoles(s: Scene, c: Ctx): set<string> {
    Roles(c, s.list) + FixedRoles(s) + if Surplus(c, s.list) > 0 then {"None"} else {}
  }

  lemma SceneIsSet(t: Texts, body: seq<Instr>, item: string, list: nat, c: Ctx)
    requires PutsAside(body, item) && Sound(c) && IsList(c, list)
    ensures Set(SceneOf(t, body, item, list, c)) && Fine(SceneOf(t, body, item, list, c), c)
  {
    hide Unsigil, Name, NoDot;
  }

  lemma KnownIsClosed(s: Scene, c: Ctx)
    requires RolesKnown(s)
    ensures Closed(s, AllRoles(s, c), false, Counted(s)) && Below(s, AllRoles(s, c), false, Counted(s), 0, c)
  {
    hide Roles, Surplus, ArgSource, Aims;
    forall inst | inst in s.body && Aims(s, inst)
      ensures Feeds(AllRoles(s, c), false, Counted(s), RoleSource(s, inst)) {
    }
  }

  /** Enough turns for a list whose roles are numerals, or that gets no numerals. */
  lemma SomeLimit(s: Scene, c: Ctx) returns (n: nat)
    requires Ending(s, c) && ItemsOf(c, s.list) != []
    ensures forall k: nat :: n <= k ==> Surplus(c, s.list) + |Bound(AllRoles(s, c), Counted(s), k)| <= k
  {
    hide Roles, FixedRoles, Counted;
    var names := AllRoles(s, c);
    n := LimitOf(names, Surplus(c, s.list));
    forall k: nat | n <= k ensures Surplus(c, s.list) + |Bound(names, Counted(s), k)| <= k {
      if Counted(s) {
        NumeralsAre(k);
        SubsetSize(Bound(names, true, k), Numerals(k));
      }
    }
  }

  lemma LimitOf(names: set<string>, surplus: int) returns (n: nat)
    ensures surplus + |names| <= n && forall k: nat :: PrintNat(k) in names ==> k < n
  {
    n := NumeralsEnough(names);
    if n < surplus + |names| { n := surplus + |names|; }
  }

  /** An EACH over a list of messages, with a body of PUT and PUT+ lines that put into it under known roles, ends
   *  exactly when the list is empty, or no line puts into it under the number of the turn, which is the counter or
   *  the item's `_index`, or all members are messages of different roles, and these roles, with those that the lines
   *  put, are numerals. */
  lemma EachEndsExactly(t: Texts, fns: Functions, body: seq<Instr>, item: string, list: nat, c: Ctx)
    requires PutsAside(body, item) && Sound(c) && IsList(c, list) && RolesKnown(SceneOf(t, body, item, list, c))
    ensures (exists turns: nat :: EachRun(ChatMachine(t, turns), fns, body, item, list, 0, c).out != Running) <==>
            Ending(SceneOf(t, body, item, list, c), c)
    ensures Ending(SceneOf(t, body, item, list, c), c) ==>
              exists turns: nat :: EachRun(ChatMachine(t, turns), fns, body, item, list, 0, c).out.Ok?
  {
    var s := SceneOf(t, body, item, list, c);
    SceneIsSet(t, body, item, list, c);
    hide SceneOf, Set, Fine, RolesKnown, Ending, EachRun;
    SceneEnds(s, fns, c);
    assert forall turns: nat ::
        Each(s, turns, fns, 0, c) == EachRun(ChatMachine(t, turns), fns, body, item, list, 0, c).out;
  }

  lemma SceneEnds(s: Scene, fns: Functions, c: Ctx)
    requires Set(s) && Fine(s, c) && RolesKnown(s)
    ensures Ending(s, c) ==> exists turns: nat :: Each(s, turns, fns, 0, c).Ok?
    ensures !Ending(s, c) ==> forall turns: nat :: Each(s, turns, fns, 0, c) == Running
  {
    hide Set, Fine, RolesKnown, Each, Roles, Counted, FixedRoles, IsNumeral;
    if !Ending(s, c) {
      SurplusIsNat(c, s.list);
      forall turns: nat ensures Each(s, turns, fns, 0, c) == Running { NeverEnds(s, turns, fns, c); }
    } else if ItemsOf(c, s.list) == [] {
      EachOver(s, 0, fns, 0, c);
    } else {
      KnownIsClosed(s, c);
      var turns := SomeLimit(s, c);
      ComesToAnEnd(s, turns, fns, 0, c, AllRoles(s, c), false, Counted(s));
    }
  }

  // ---- roles that are read from contents ----

  /** All lines are PUTs with known contents, and the number of the turn is a content only if it is a role as well;
   *  roles may be the item's content. */
  ghost predicate ContentsKnown(s: Scene) {
    forall inst :: inst in s.body ==>
      && inst.opcode == "PUT" && (Aims(s, inst) ==> !RoleSource(s, inst).Other?)
      && !ContentSource(s, inst).Other? && (ContentSource(s, inst).Counter? ==> Counted(s))
  }

  /** Every role and content, of the list and of the lines. */
  function AllNames(s: Scene, c: Ctx): set<string> {
    Roles(c, s.list) + Contents(c, s.list) + FixedRoles(s) + FixedContents(s) + {"None"}
  }

  /** More turns than the names, the surplus and any number among the names. */
  ghost predicate Enough(s: Scene, c: Ctx, n: nat) {
    Surplus(c, s.list) + |AllNames(s, c)| <= n && forall k: nat :: PrintNat(k) in AllNames(s, c) ==> k < n
  }

  lemma SomeAreEnough(s: Scene, c: Ctx) returns (n: nat)
    ensures Enough(s, c, n)
  {
    n := LimitOf(AllNames(s, c), Surplus(c, s.list));
  }

  lemma ContentsAreClosed(s: Scene, c: Ctx)
    requires ContentsKnown(s)
    ensures Closed(s, AllNames(s, c), true, Counted(s)) && Below(s, AllNames(s, c), true, Counted(s), 0, c)
  {
    hide Roles, Contents, Surplus, ArgSource, Aims;
    forall inst | inst in s.body
      ensures Feeds(AllNames(s, c), true, Counted(s), ContentSource(s, inst))
      ensures Aims(s, inst) ==> Feeds(AllNames(s, c), true, Counted(s), RoleSource(s, inst))
    {
    }
  }

  /** An EACH that goes on at turn n, with no number from n on among the names, is doomed there. */
  lemma StillGoing(s: Scene, names: set<string>, n: nat, c: Ctx)
    requires Fine(s, c) && Counted(s) && Below(s, names, true, true, n, c) && Numerals(n) <= Roles(c, s.list)
    requires n < |ItemsOf(c, s.list)| && forall k: nat :: PrintNat(k) in names ==> k < n
    ensures Doomed(s, n, c)
  {
    hide Fine, Counted, RolesOf, Contents;
    NumeralsAre(n);
    var roles := Roles(c, s.list);
    SurplusOf(Tags(c, s.list));
    if Surplus(c, s.list) == 0 && forall r :: r in roles ==> IsNumeral(r) {
      forall r | r in roles ensures r in Numerals(n) {
        var k: nat :| r == PrintNat(k);
      }
      SubsetSize(roles, Numerals(n));
    }
  }

  lemma {:induction false} GoesOnFrom(s: Scene, n: nat, turns: nat, fns: Functions, i: nat, c: Ctx, names: set<string>)
    requires Set(s) && Fine(s, c) && Counted(s) && Closed(s, names, true, true) && Below(s, names, true, true, i, c)
    requires i <= n && Numerals(i) <= Roles(c, s.list) && forall k: nat :: PrintNat(k) in names ==> k < n
    requires Each(s, n, fns, i, c) == Running
    ensures Each(s, turns, fns, i, c) == Running
    decreases n - i
  {
    hide Each, After, Set, Fine, Closed, Below, Roles, Surplus, Counted, Doomed;
    OneTurn(s, n, fns, i, c);
    OneTurn(s, turns, fns, i, c);
    if i == n {
      StillGoing(s, names, n, c);
      GoesOn(s, turns, fns, n, c);
    } else {
      TurnLeads(s, c, i);
      TurnStaysBelow(s, names, true, true, i, c);
      if i < turns { GoesOnFrom(s, n, turns, fns, i + 1, After(s, i, c), names); }
    }
  }

  lemma SceneIsDecided(s: Scene, fns: Functions, c: Ctx, n: nat)
    requires Set(s) && Fine(s, c) && ContentsKnown(s) && Enough(s, c, n)
    ensures Each(s, n, fns, 0, c) == Running ==> forall turns: nat :: Each(s, turns, fns, 0, c) == Running
    ensures !Counted(s) ==> Each(s, n, fns, 0, c).Ok?
  {
    hide Set, Fine, ContentsKnown, Each, Roles, Contents, Counted, Closed, Below, FixedRoles, FixedContents, Surplus;
    var names := AllNames(s, c);
    ContentsAreClosed(s, c);
    if !Counted(s) {
      assert forall k: nat :: Bound(names, false, k) == names;
      ComesToAnEnd(s, n, fns, 0, c, names, true, false);
    } else if Each(s, n, fns, 0, c) == Running {
      forall turns: nat ensures Each(s, turns, fns, 0, c) == Running { GoesOnFrom(s, n, turns, fns, 0, c, names); }
    }
  }

  /** With roles that may be read from contents, following the EACH for as many turns as there are names tells
   *  whether it ends; and it does, when no line puts into the list under the number of the turn. */
  lemma EndsSoonOrNever(t: Texts, fns: Functions, body: seq<Instr>, item: string, list: nat, c: Ctx, n: nat)
    requires PutsAside(body, item) && Sound(c) && IsList(c, list)
    requires ContentsKnown(SceneOf(t, body, item, list, c)) && Enough(SceneOf(t, body, item, list, c), c, n)
    ensures (exists turns: nat :: EachRun(ChatMachine(t, turns), fns, body, item, list, 0, c).out != Running) <==>
            EachRun(ChatMachine(t, n), fns, body, item, list, 0, c).out != Running
    ensures !Counted(SceneOf(t, body, item, list, c)) ==>
            EachRun(ChatMachine(t, n), fns, body, item, list, 0, c).out.Ok?
  {
    var s := SceneOf(t, body, item, list, c);
    SceneIsSet(t, body, item, list, c);
    hide SceneOf, Set, Fine, ContentsKnown, Enough, EachRun, Counted;
    SceneIsDecided(s, fns, c, n);
    assert forall turns: nat ::
        Each(s, turns, fns, 0, c) == EachRun(ChatMachine(t, turns), fns, body, item, list, 0, c).out;
  }

  // ---- programs that do not end ----

  const HI: Instr := Instr("PUT", ["@chat", "user", "\"hi\""], map[])

  function Echo(role: string, content: string): Instr { Instr("PUT", ["@chat", role, content], map[]) }

  /** `PUT @chat, user, "hi"`, `EACH @m, @chat.messages, +1`, `PUT @chat, role, content` */
  function Echoes(role: string, content: string): seq<Instr> {
    [HI, Instr("EACH", ["@m", "@chat.messages", "+1"], map[]), Echo(role, content)]
  }

  function EchoBlock(role: string, content: string): seq<Stmt> {
    [Stmt.Plain(HI), Stmt.Each("@m", "@chat.messages", "end", [Stmt.Plain(Echo(role, content))])]
  }

  lemma PrintsOne()
    ensures PrintOffset(1) == "+1"
  {
    assert DigitChar(1) == '1';
    assert PrintInt(1) == PrintNat(1) == "1";
    assert "+" + "1" == "+1";
  }

  lemma EchoIsCode(echo: Instr, labels: map<string, nat>, pos: nat, outer: set<string>)
    requires echo.opcode == "PUT"
    ensures Code(labels, pos, [Stmt.Plain(echo)]) == [echo] && Scoped([Stmt.Plain(echo)], outer)
    ensures AssemblyCorrectness.Placed(map[], 0, [Stmt.Plain(echo)], {})
  {
    assert "PUT" in PLAIN;
    assert [echo][1..] == [] && Block([echo]) == [Stmt.Plain(echo)];
    BlockShape([echo], labels, pos);
    var one := [Stmt.Plain(echo)];
    assert one[1..] == [] && ScopedStmt(one[0], Ends(one[1..]) + outer) && Scoped(one[1..], outer);
  }

  lemma EchoesAreCode(role: string, content: string)
    ensures var nested := EchoBlock(role, content);
            Code(Positions(nested, 0), 0, nested) == Echoes(role, content) && Structured(nested)
  {
    var nested := EchoBlock(role, content);
    var labels := Positions(nested, 0);
    assert "PUT" in PLAIN;
    assert nested[1..] == [nested[1]];
    EachIsCode(role, content, labels);
    assert Labels([nested[0]]) == {};
  }

  lemma EachIsCode(role: string, content: string, labels: map<string, nat>)
    ensures var last := [EchoBlock(role, content)[1]];
            Code(labels, 1, last) == Echoes(role, content)[1..] && Structured(last)
  {
    var (each, echo) := (EchoBlock(role, content)[1], Echo(role, content));
    EchoIsCode(echo, labels, 2, {"end"} + (Ends([]) + {}));
    assert "PUT" in PLAIN && [each][1..] == [] && [Stmt.Plain(echo)][1..] == [];
    PrintsOne();
    assert "@m"[0] == '@' && "@chat.messages"[0] == '@';
    assert NotLabel("@m") && NotLabel("@chat.messages");
    assert WellFormed([Stmt.Plain(echo)]) && Labels([Stmt.Plain(echo)]) == {};
    assert WellFormed([each]) && DistinctLabels([each]) && Scoped([each], {});
    assert CodeStmt(labels, 1, each) == Echoes(role, content)[1..];
  }

  /** The context after the first line. */
  function Greeted(t: Texts): Ctx {
    Ctx([Chat([1], None), Message("user", t.of("\"hi\""), None)], map["chat" := 0], None)
  }

  lemma Paths()
    ensures IsRef("@chat") && Name("@chat") == "chat" && NoDot("chat") && Unsigil("@m") == "m" && NoDot("m")
    ensures !IsRef("user") && !IsRef("\"hi\"")
    ensures Root("chat") == "chat" && Field("chat") == None && Root("m") == "m" && Field("m") == None
  {
    assert "@chat"[1..] == "chat" && "@m"[1..] == "m";
    assert StartsWith("@chat", "@") && StartsWith("@m", "@");
    assert !IsRef("chat") by { assert "chat"[0] == 'c'; }
    assert "user"[0] == 'u' && "\"hi\""[0] == '"';
    PathIs("chat", None);
    PathIs("m", None);
  }

  lemma {:induction false} PathIs(root: string, field: Option<string>)
    requires NoDot(root)
    ensures var path := if field.Some? then root + "." + field.value else root;
            Root(path) == root && Field(path) == field
  {
    var path := if field.Some? then root + "." + field.value else root;
    if root != "" {
      PathIs(root[1..], field);
      assert path[1..] == if field.Some? then root[1..] + "." + field.value else root[1..];
    } else if field.Some? {
      assert path[1..] == field.value;
    }
  }

  lemma FirstLine(t: Texts)
    requires t.of("user") == "user"
    ensures PutLine(t, HI, Ctx([], map[], None)) == Some(Greeted(t))
  {
    Paths();
    hide Name, IsRef, Root, Field;
    var c := Ctx([], map[], None);
    assert IsPut(HI) && PutTo(HI) == "chat";
    assert ArgText(t, c, HI, 1, "user") == "user" && ArgText(t, c, HI, 2, "") == t.of("\"hi\"");
    var c1 := Owned(c, "chat");
    assert c1 == Ctx([Chat([], None)], map["chat" := 0], None);
    assert c1.vars["chat"] == 0 && First(c1.heap, c1.heap[0].items, "user") == 0;
    assert [] + [|c1.heap|] == [1];
    assert PutIn(c1, 0, "user", t.of("\"hi\""), false).heap == Greeted(t).heap;
    assert HI.opcode == "PUT" && HI.opcode[..3] == HI.opcode;
  }

  lemma OpensChat(t: Texts)
    ensures Open("@chat.messages", Greeted(t)) == Some((0, Greeted(t)))
  {
    PathIs("chat", Some("messages"));
    assert "chat" + "." + "messages" == "chat.messages" == "@chat.messages"[1..];
    assert StartsWith("@chat.messages", "@");
  }

  /** The EACH over the messages, with the one line as its body. */
  function Scenery(t: Texts, role: string, content: string): Scene {
    SceneOf(t, [Echo(role, content)], "@m", 0, Greeted(t))
  }

  lemma EchoIsSet(t: Texts, role: string, content: string)
    ensures var s := Scenery(t, role, content);
            && Set(s) && Fine(s, Greeted(t)) && Aims(s, Echo(role, content)) && s.item == "@m" && s.list == 0
            && s.busy == {"chat", "m", COUNTER}
    ensures Tags(Greeted(t), 0) == [Some("user")] && ItemsOf(Greeted(t), 0) == [1]
  {
    Paths();
    hide Name, Unsigil;
    var echo := Echo(role, content);
    assert PutTo(echo) == "chat" && IsPut(echo);
    assert "chat"[0] == 'c' && "m"[0] == 'm' && COUNTER[0] == '_';
    assert PutsAside([echo], "@m");
    SceneIsSet(t, [echo], "@m", 0, Greeted(t));
    var s := Scenery(t, role, content);
    assert (set inst | inst in [echo] && IsPut(inst) :: PutTo(inst)) == {"chat"} by {
      assert echo in [echo];
    }
    assert Greeted(t).vars.Keys == {"chat"};
  }

  /** If the EACH goes on for ever, so does the program. */
  lemma ProgramGoesOn(t: Texts, role: string, content: string, turns: nat)
    requires t.of("user") == "user" && Each(Scenery(t, role, content), turns, map[], 0, Greeted(t)) == Running
    ensures Run(ChatMachine(t, turns), map[], Echoes(role, content), Ctx([], map[], None)).out == Running
  {
    EchoesAreCode(role, content);
    FirstLine(t);
    EachStatement(t, role, content, turns);
    var (m, c, nested) := (ChatMachine(t, turns), Ctx([], map[], None), EchoBlock(role, content));
    hide Run, PutLine, Greeted, Code, Structured, Each;
    AssemblyCorrectness.RunStructured(m, map[], nested, c);
    assert nested[1..] == [nested[1]];
    assert ExecStmt(m, map[], nested[0], c) == Ok(Greeted(t));
  }

  lemma EachStatement(t: Texts, role: string, content: string, turns: nat)
    requires Each(Scenery(t, role, content), turns, map[], 0, Greeted(t)) == Running
    ensures ExecStmt(ChatMachine(t, turns), map[], EchoBlock(role, content)[1], Greeted(t)) == Running
  {
    var (m, c, echo) := (ChatMachine(t, turns), Greeted(t), Echo(role, content));
    EchoIsCode(echo, map[], 0, {});
    OpensChat(t);
    hide EachRun, Open, Greeted, Code, Scoped, AssemblyCorrectness.Placed;
    AssemblyCorrectness.RunEach(m, map[], map[], 0, [Stmt.Plain(echo)], {}, "@m", 0, 0, c);
  }

  /** `@_each_idx` and `@m._index`, or the same with a dollar sign. */
  predicate CountsTurns(role: string) { IsRef(role) && (role[1..] == COUNTER || role[1..] == "m" + "." + "_index") }

  lemma CountPaths(role: string)
    requires CountsTurns(role)
    ensures IsRef(role) && Root(role[1..]) != "settings"
    ensures || (Root(role[1..]) == COUNTER && Field(role[1..]) == None)
            || (Root(role[1..]) == "m" && "m" != COUNTER && Field(role[1..]) == Some("_index"))
  {
    hide IsRef, Root, Field;
    PathIs(COUNTER, None);
    PathIs("m", Some("_index"));
    assert COUNTER[0] == '_' && "m"[0] == 'm' && "settings"[0] == 's';
  }

  lemma CountsCount(t: Texts, role: string, content: string)
    requires CountsTurns(role)
    ensures RoleSource(Scenery(t, role, content), Echo(role, content)) == Counter
  {
    hide Scenery, Root, Field, Unsigil, IsRef, Set, Fine, Aims, Greeted;
    Paths();
    EchoIsSet(t, role, content);
    CountPaths(role);
  }

  /** A line that puts the number of the turn, under whichever of its names, goes on for ever: each turn adds the
   *  message that the next one is for. */
  lemma EchoesForEver(t: Texts, role: string, content: string, turns: nat)
    requires t.of("user") == "user" && CountsTurns(role)
    ensures Run(ChatMachine(t, turns), map[], Echoes(role, content), Ctx([], map[], None)).out == Running
  {
    var (s, c) := (Scenery(t, role, content), Greeted(t));
    EchoIsSet(t, role, content);
    CountsCount(t, role, content);
    assert Counted(s) by { assert Echo(role, content) in s.body; }
    assert Tags(c, 0)[0] == Some("user");
    assert "user" in Roles(c, 0) && !IsNumeral("user") by { assert !IsDigit("user"[0]); }
    hide Each, Scenery, Greeted, Run, Echoes;
    NeverEnds(s, turns, map[], c);
    ProgramGoesOn(t, role, content, turns);
  }

  lemma HoldsChat(s: Scene, c: Ctx, name: string)
    requires Fine(s, c) && name in s.aims && name != Unsigil(s.item) && name != COUNTER
    ensures name in c.vars && c.vars[name] == s.list && c.heap[s.list].Chat?
  {
    VarsAreDicts(c, name, s.list);
  }

  /** A role that is not there yet brings a message at the end of the list. */
  lemma NewMessage(t: Texts, inst: Instr, c: Ctx, list: nat)
    requires IsPut(inst) && PutTo(inst) in c.vars && c.vars[PutTo(inst)] == list && list < |c.heap|
             && c.heap[list].Chat?
    requires ArgText(t, c, inst, 1, "user") !in Roles(c, list)
    ensures var c' := PutLine(t, inst, c).value;
            && ItemsOf(c', list) == ItemsOf(c, list) + [|c.heap|] && |c'.heap| == |c.heap| + 1
            && c'.heap[|c.heap|] == Message(ArgText(t, c, inst, 1, "user"), ArgText(t, c, inst, 2, ""), None)
  {
    hide Roles, First, ArgText, Name;
    FirstFinds(c, list, ArgText(t, c, inst, 1, "user"));
  }

  /** A turn of the one line. */
  lemma EchoTurn(t: Texts, role: string, content: string, i: nat, c: Ctx)
    requires Fine(Scenery(t, role, content), c) && i < |ItemsOf(c, 0)|
    requires ArgText(t, Bind("@m", 0, i, c), Echo(role, content), 1, "user") !in Roles(c, 0)
    ensures var (s, c1, echo) := (Scenery(t, role, content), Bind("@m", 0, i, c), Echo(role, content));
            var c' := After(s, i, c);
            && Set(s) && Fine(s, c') && InTurn(s, c1, i)
            && Roles(c', 0) == Roles(c, 0) + {ArgText(t, c1, echo, 1, "user")}
            && ItemsOf(c', 0) == ItemsOf(c, 0) + [|c.heap|] && |c'.heap| == |c.heap| + 1
            && c'.heap[|c.heap|].Message? && c'.heap[|c.heap|].content == ArgText(t, c1, echo, 2, "")
  {
    var (s, c1, echo) := (Scenery(t, role, content), Bind("@m", 0, i, c), Echo(role, content));
    EchoIsSet(t, role, content);
    Paths();
    BindStarts(s, c, i);
    BindKeepsItems(s, c, i);
    hide Scenery, InTurn, Roles, Tags, ArgText, Name, Unsigil, PutLine, Bind, Set, Fine;
    RolesAreOf(c, c1);
    EchoLine(s, echo, c1, i);
    assert [echo][1..] == [];
    assert PutAll(s.text, [echo], c1) == PutLine(s.text, echo, c1).value;
  }

  lemma RolesAreOf(c: Ctx, c': Ctx)
    requires Tags(c, 0) == Tags(c', 0)
    ensures Roles(c, 0) == Roles(c', 0)
  {
  }

  lemma BindKeepsItems(s: Scene, c: Ctx, i: nat)
    requires Fine(s, c) && i < |ItemsOf(c, s.list)|
    ensures ItemsOf(Bind(s.item, s.list, i, c), s.list) == ItemsOf(c, s.list)
            && |Bind(s.item, s.list, i, c).heap| == |c.heap|
  {
    hide Unsigil;
  }

  lemma EchoLine(s: Scene, echo: Instr, c: Ctx, i: nat)
    requires Set(s) && s.body == [echo] && Aims(s, echo) && InTurn(s, c, i)
    requires ArgText(s.text, c, echo, 1, "user") !in Roles(c, s.list)
    ensures var c' := PutLine(s.text, echo, c);
            && c'.Some? && InTurn(s, c'.value, i) && Fine(s, c'.value)
            && Roles(c'.value, s.list) == Roles(c, s.list) + {ArgText(s.text, c, echo, 1, "user")}
            && ItemsOf(c'.value, s.list) == ItemsOf(c, s.list) + [|c.heap|] && |c'.value.heap| == |c.heap| + 1
            && c'.value.heap[|c.heap|].Message? && c'.value.heap[|c.heap|].content == ArgText(s.text, c, echo, 2, "")
  {
    hide Roles, Tags, ArgText, Name, Unsigil, PutLine;
    assert echo in s.body;
    LineEffect(s, echo, c, i);
    LineAdds(s, echo, c, PutLine(s.text, echo, c).value, i);
    HoldsChat(s, c, PutTo(echo));
    RoleTextIs(s, c, echo);
    NewMessage(s.text, echo, c, s.list);
  }

  // ---- a role that is the item's content ----

  predicate ReadsContent(role: string) { IsRef(role) && role[1..] == "m" + "." + "content" }

  predicate ReadsCounter(content: string) { IsRef(content) && content[1..] == COUNTER }

  lemma ContentShows(t: Texts, role: string, content: string, i: nat, c: Ctx)
    requires ReadsContent(role) && ReadsCounter(content) && InTurn(Scenery(t, role, content), c, i)
    ensures var (echo, o) := (Echo(role, content), c.heap[ItemsOf(c, 0)[i]]);
            && ArgText(t, c, echo, 1, "user") == (if o.Message? then o.content else "None")
            && ArgText(t, c, echo, 2, "") == PrintNat(i)
  {
    var s := Scenery(t, role, content);
    hide Scenery, IsRef, Root, Field, Unsigil, TextOf, InTurn, Set, Fine, Aims, Greeted;
    Paths();
    EchoIsSet(t, role, content);
    PathIs(COUNTER, None);
    PathIs("m", Some("content"));
    assert COUNTER[0] == '_' && "m"[0] == 'm' && "settings"[0] == 's';
    assert "_index"[0] == '_' && "role"[0] == 'r' && "content"[0] == 'c';
    SceneryText(t, role, content);
    TokenShows(s, c, i, role);
    TokenShows(s, c, i, content);
  }

  lemma SceneryText(t: Texts, role: string, content: string)
    ensures Scenery(t, role, content).text == t
  {
  }

  /** The last message is for the turn, and its content is no role yet. */
  ghost predicate Chain(s: Scene, i: nat, c: Ctx) {
    && Fine(s, c) && s.list == 0 && |ItemsOf(c, 0)| == i + 1 && ItemsOf(c, 0)[i] < |c.heap|
    && c.heap[ItemsOf(c, 0)[i]].Message?
    && c.heap[ItemsOf(c, 0)[i]].content == (if i == 0 then "hi" else PrintNat(i - 1))
    && Roles(c, 0) == ChainRoles(i)
  }

  lemma ChainTurn(t: Texts, role: string, content: string, i: nat, c: Ctx)
    requires ReadsContent(role) && ReadsCounter(content) && Chain(Scenery(t, role, content), i, c)
    ensures Set(Scenery(t, role, content)) && Chain(Scenery(t, role, content), i + 1,
            After(Scenery(t, role, content), i, c))
  {
    var s := Scenery(t, role, content);
    EchoIsSet(t, role, content);
    BindStarts(s, c, i);
    BindKeepsContent(s, c, i);
    hide Scenery, Fine, Set, Roles, Tags, ArgText, Bind, After, InTurn, IsRef, ItemsOf;
    ContentShows(t, role, content, i, Bind("@m", 0, i, c));
    ChainRole(i, c.heap[ItemsOf(c, 0)[i]].content);
    EchoTurn(t, role, content, i, c);
  }

  function ChainRoles(i: nat): set<string> { ChainOf("user", "hi", i) }

  function ChainOf(first: string, second: string, i: nat): set<string> {
    {first} + if i > 0 then {second} + Numerals(i - 1) else {}
  }

  lemma ChainRole(i: nat, x: string)
    requires x == if i == 0 then "hi" else PrintNat(i - 1)
    ensures x !in ChainRoles(i) && ChainRoles(i) + {x} == ChainRoles(i + 1)
  {
    hide PrintNat, ChainOf;
    var (first, second) := ("user", "hi");
    assert first[0] == 'u' && second[0] == 'h';
    if i > 0 { StartsWithDigit(i - 1); }
    ChainGrows(first, second, i, x);
  }

  lemma ChainGrows(first: string, second: string, i: nat, x: string)
    requires first != second && x != first && (if i == 0 then x == second else x == PrintNat(i - 1) && x != second)
    ensures x !in ChainOf(first, second, i) && ChainOf(first, second, i) + {x} == ChainOf(first, second, i + 1)
  {
    hide PrintNat, IsNumeral;
    if i > 0 {
      NumeralsAre(i - 1);
      assert Numerals(i) == Numerals(i - 1) + {x};
    } else {
      assert Numerals(0) == {};
    }
  }

  lemma StartsWithDigit(n: nat)
    ensures PrintNat(n) != "" && IsDigit(PrintNat(n)[0])
  {
  }

  lemma BindKeepsContent(s: Scene, c: Ctx, i: nat)
    requires Fine(s, c) && i < |ItemsOf(c, s.list)|
    ensures var (l, c') := (ItemsOf(c, s.list), Bind(s.item, s.list, i, c));
            && ItemsOf(c', s.list) == l && l[i] < |c.heap| && l[i] < |c'.heap|
            && (c.heap[l[i]].Message? ==> c'.heap[l[i]].Message? && c'.heap[l[i]].content == c.heap[l[i]].content)
  {
    hide Unsigil;
    ItemIsDict(c, s.list, i);
  }

  lemma {:induction false} ChainGoesOn(t: Texts, role: string, content: string, turns: nat, i: nat, c: Ctx)
    requires ReadsContent(role) && ReadsCounter(content) && Chain(Scenery(t, role, content), i, c)
    ensures Each(Scenery(t, role, content), turns, map[], i, c) == Running
    decreases if i < turns then turns - i else 0
  {
    var s := Scenery(t, role, content);
    ChainTurn(t, role, content, i, c);
    hide Scenery, Each, Set, Fine, After, Roles;
    OneTurn(s, turns, map[], i, c);
    if i < turns { ChainGoesOn(t, role, content, turns, i + 1, After(s, i, c)); }
  }

  /** `PUT @chat, @m.content, @_each_idx` goes on for ever: turn n finds the number n - 1 and adds a message for it. */
  lemma ContentEchoesForEver(t: Texts, role: string, content: string, turns: nat)
    requires t.of("user") == "user" && t.of("\"hi\"") == "hi" && ReadsContent(role) && ReadsCounter(content)
    ensures Run(ChatMachine(t, turns), map[], Echoes(role, content), Ctx([], map[], None)).out == Running
  {
    var (s, c) := (Scenery(t, role, content), Greeted(t));
    EchoIsSet(t, role, content);
    assert Tags(c, 0)[0] == Some("user");
    assert Roles(c, 0) == {"user"};
    assert c.heap[1] == Message("user", "hi", None);
    hide Scenery, Each, Fine, Set, Run, Echoes, Roles;
    ChainGoesOn(t, role, content, turns, 0, c);
    ProgramGoesOn(t, role, content, turns);
  }

  // ---- a role that shows the whole chat ----

  /** What the whole chat is shown as is longer than its roles, as it shows them. */
  ghost predicate ShowsMore(t: Texts, role: string) {
    forall c: Ctx, list: nat :: "chat" in c.vars && c.vars["chat"] == list ==> t.whole(role, c) !in Roles(c, list)
  }

  lemma {:induction false} WholeGoesOn(t: Texts, role: string, content: string, turns: nat, i: nat, c: Ctx)
    requires IsRef(role) && role[1..] == "chat" && ShowsMore(t, role)
    requires Fine(Scenery(t, role, content), c) && i < |ItemsOf(c, 0)|
    ensures Each(Scenery(t, role, content), turns, map[], i, c) == Running
    decreases if i < turns then turns - i else 0
  {
    var s := Scenery(t, role, content);
    WholeIsNew(t, role, content, i, c);
    EchoTurn(t, role, content, i, c);
    hide Scenery, Each, Set, Fine, After, Roles, ArgText, Bind, ShowsMore;
    OneTurn(s, turns, map[], i, c);
    SceneryText(t, role, content);
    EchoIsSet(t, role, content);
    if i < turns { WholeGoesOn(t, role, content, turns, i + 1, After(s, i, c)); }
  }

  lemma WholeIsNew(t: Texts, role: string, content: string, i: nat, c: Ctx)
    requires IsRef(role) && role[1..] == "chat" && ShowsMore(t, role)
    requires Fine(Scenery(t, role, content), c) && i < |ItemsOf(c, 0)|
    ensures ArgText(t, Bind("@m", 0, i, c), Echo(role, content), 1, "user") !in Roles(c, 0)
  {
    var (s, c1) := (Scenery(t, role, content), Bind("@m", 0, i, c));
    EchoIsSet(t, role, content);
    Paths();
    BindStarts(s, c, i);
    RolesAreOf(c, c1);
    hide Scenery, Set, Roles, Tags, Bind, Root, Field, Name, Unsigil, IsRef, TextOf, ItemIsBound, ItemsOf, Sound;
    assert "chat"[0] == 'c' && "m"[0] == 'm' && COUNTER[0] == '_';
    assert Aims(s, Echo(role, content)) && PutTo(Echo(role, content)) == "chat";
    HoldsChat(s, c1, "chat");
    WholeShows(t, c1, role);
  }

  lemma WholeShows(t: Texts, c: Ctx, role: string)
    requires IsRef(role) && role[1..] == "chat" && "chat" in c.vars && c.vars["chat"] < |c.heap|
             && c.heap[c.vars["chat"]].Chat?
    ensures TextOf(t, c, role) == t.whole(role, c)
  {
    PathIs("chat", None);
    assert "chat"[0] == 'c' && "settings"[0] == 's';
  }

  /** `PUT @chat, @chat, ...` goes on for ever, as the whole chat is never one of its own roles. */
  lemma WholeEchoesForEver(t: Texts, role: string, content: string, turns: nat)
    requires t.of("user") == "user" && IsRef(role) && role[1..] == "chat" && ShowsMore(t, role)
    ensures Run(ChatMachine(t, turns), map[], Echoes(role, content), Ctx([], map[], None)).out == Running
  {
    EchoIsSet(t, role, content);
    hide Scenery, Each, Fine, Set, Run, Echoes, ShowsMore;
    WholeGoesOn(t, role, content, turns, 0, Greeted(t));
    ProgramGoesOn(t, role, content, turns);
  }
}
