/** The layout editor's reducers (apps/web/app/prepare/[id]/editor.tsx and pdf-page.tsx): fields,
    undo history, clipboard, and the drag in progress. Fractions of the page are reals. */
module Editor {
  import opened Wrappers
  import opened FieldRules
  import opened JsText
  import Envelope

  /** The mouse is down on a field: what its geometry was at that moment. */
  datatype Gesture = Gesture(id: string, isMove: bool, x: real, y: real, w: real, h: real)

  datatype Editor = Editor(
    fields: seq<Field>, past: seq<seq<Field>>, future: seq<seq<Field>>,
    clipboard: Option<Field>, gesture: Option<Gesture>)

  datatype EditorRecipient = EditorRecipient(key: string, role: Envelope.Role)

  datatype Patch = SetRecipient(key: string) | SetRequired(required: bool) | SetOptions(options: seq<JsString>)

  datatype Action =
    | Add(kind: FieldType, page: int, x: real, y: real, id: string, key: string)
    | Change(id: string, patch: Patch)
    | Delete(id: string)
    | Copy(id: string)
    | Paste(id: string)
    | Undo
    | Redo
    | CopyToAll(recipients: seq<EditorRecipient>, mint: (nat, nat) -> string)
    | Grab(index: nat, isMove: bool)
    | Drag(dx: real, dy: real)
    | Release

  const HISTORY_LIMIT := 60
  const MIN_W := 0.02
  const MIN_H := 0.012

  function Least(a: real, b: real): real { if a <= b then a else b }

  function Most(a: real, b: real): real { if a <= b then b else a }

  function Clamp(v: real, lo: real, hi: real): real { Least(hi, Most(lo, v)) }

  /** The size a field of each type is placed at. */
  function PlacedSize(kind: FieldType): (real, real) {
    match kind
    case Signature => (0.24, 0.055)
    case Initial => (0.09, 0.045)
    case Stamp => (0.14, 0.1)
    case Date => (0.17, 0.028)
    case Name => (0.24, 0.028)
    case FirstName => (0.17, 0.028)
    case LastName => (0.17, 0.028)
    case Email => (0.26, 0.028)
    case Company => (0.24, 0.028)
    case Title => (0.2, 0.028)
    case Phone => (0.2, 0.028)
    case Address => (0.34, 0.028)
    case Text => (0.22, 0.028)
    case Number => (0.12, 0.028)
    case DateInput => (0.14, 0.028)
    case Checkbox => (0.022, 0.016)
    case Dropdown => (0.22, 0.028)
    case Radio => (0.22, 0.028)
  }

  /** Stands for the options a new choice starts with. */
  const DEFAULT_OPTIONS: seq<JsString> := [[0x4F, 0x31], [0x4F, 0x32]]

  // ----- the reducers

  function LastOf<T>(s: seq<T>, n: nat): seq<T> {
    if |s| <= n then s else s[|s| - n..]
  }

  function Commit(s: Editor, next: seq<Field>): Editor {
    s.(fields := next, past := LastOf(s.past, HISTORY_LIMIT) + [s.fields], future := [])
  }

  function DoUndo(s: Editor): Editor {
    if s.past == [] then s
    else s.(fields := s.past[|s.past| - 1], past := s.past[..|s.past| - 1], future := [s.fields] + s.future)
  }

  function DoRedo(s: Editor): Editor {
    if s.future == [] then s
    else s.(fields := s.future[0], past := s.past + [s.fields], future := s.future[1..])
  }

  function NewField(kind: FieldType, page: int, x: real, y: real, id: string, key: string): Field {
    var (w, h) := PlacedSize(kind);
    Field(id, kind, page, Least(1.0 - w, Most(0.0, x)), Least(1.0 - h, Most(0.0, y)), w, h,
          kind != Checkbox, key, if kind == Dropdown || kind == Radio then DEFAULT_OPTIONS else [])
  }

  function Patched(f: Field, patch: Patch): Field {
    match patch
    case SetRecipient(key) => f.(recipientKey := key)
    case SetRequired(required) => f.(required := required)
    case SetOptions(options) => f.(options := options)
  }

  function PatchAll(fields: seq<Field>, id: string, patch: Patch): seq<Field> {
    seq(|fields|, i requires 0 <= i < |fields| => if fields[i].id == id then Patched(fields[i], patch) else fields[i])
  }

  function Without(fields: seq<Field>, id: string): seq<Field> {
    if fields == [] then []
    else (if fields[0].id == id then [] else [fields[0]]) + Without(fields[1..], id)
  }

  function FindField(fields: seq<Field>, id: string): (found: Option<Field>)
    ensures found.Some? ==> found.value in fields && found.value.id == id
  {
    if fields == [] then None
    else if fields[0].id == id then Some(fields[0])
    else FindField(fields[1..], id)
  }

  function Pasted(f: Field, id: string): Field {
    f.(id := id, x := Least(1.0 - f.w, f.x + 0.02), y := Least(1.0 - f.h, f.y + 0.02))
  }

  function GestureOn(f: Field, isMove: bool): Gesture {
    Gesture(f.id, isMove, f.x, f.y, f.w, f.h)
  }

  /** One mouse move, from the geometry captured when the drag began. */
  function Dragged(f: Field, g: Gesture, dx: real, dy: real): Field {
    if g.isMove then f.(x := Clamp(g.x + dx, 0.0, 1.0 - g.w), y := Clamp(g.y + dy, 0.0, 1.0 - g.h))
    else f.(w := Clamp(g.w + dx, MIN_W, 1.0 - g.x), h := Clamp(g.h + dy, MIN_H, 1.0 - g.y))
  }

  function DragAll(fields: seq<Field>, g: Gesture, dx: real, dy: real): seq<Field> {
    seq(|fields|, i requires 0 <= i < |fields| =>
      if fields[i].id == g.id then Dragged(fields[i], g, dx, dy) else fields[i])
  }

  function Tagged(fields: seq<Field>, key: string): seq<Field> {
    if fields == [] then []
    else (if fields[0].recipientKey == key then [fields[0]] else []) + Tagged(fields[1..], key)
  }

  function Shifted(f: Field, key: string, step: nat, id: string): Field {
    f.(id := id, recipientKey := key, y := Least(f.y + (f.h + 0.012) * step as real, 1.0 - f.h))
  }

  function ShiftedAll(donor: seq<Field>, key: string, step: nat, who: nat, mint: (nat, nat) -> string): seq<Field> {
    seq(|donor|, i requires 0 <= i < |donor| => Shifted(donor[i], key, step, mint(who, i)))
  }

  predicate NeedsCopy(fields: seq<Field>, donorKey: string, r: EditorRecipient) {
    r.role == Envelope.Signer && r.key != donorKey && !Envelope.HasFields(fields, r.key)
  }

  /** How many of the first `n` recipients get a copy. */
  function CopiedBefore(fields: seq<Field>, donorKey: string, recipients: seq<EditorRecipient>, n: nat): (k: nat)
    requires n <= |recipients|
    ensures k <= n
  {
    if n == 0 then 0
    else
      CopiedBefore(fields, donorKey, recipients, n - 1)
      + (if NeedsCopy(fields, donorKey, recipients[n - 1]) then 1 else 0)
  }

  function Additions(
      fields: seq<Field>, donorKey: string, recipients: seq<EditorRecipient>, n: nat, mint: (nat, nat) -> string)
    : seq<Field>
    requires n <= |recipients|
  {
    if n == 0 then []
    else
      var r, before := recipients[n - 1], Additions(fields, donorKey, recipients, n - 1, mint);
      if NeedsCopy(fields, donorKey, r)
      then before + ShiftedAll(Tagged(fields, donorKey), r.key,
                               CopiedBefore(fields, donorKey, recipients, n - 1) + 1, n - 1, mint)
      else before
  }

  /** `copyFieldsToEverySigner`: it commits even when there is nothing to add. */
  function DoCopyToAll(s: Editor, recipients: seq<EditorRecipient>, mint: (nat, nat) -> string): Editor {
    if s.fields == [] || s.fields[0].recipientKey == "" then s
    else Commit(s, s.fields + Additions(s.fields, s.fields[0].recipientKey, recipients, |recipients|, mint))
  }

  function Opened(fields: seq<Field>): Editor {
    Editor(fields, [], [], None, None)
  }

  function Step(s: Editor, a: Action): Editor {
    match a
    case Add(kind, page, x, y, id, key) => Commit(s, s.fields + [NewField(kind, page, x, y, id, key)])
    case Change(id, patch) => Commit(s, PatchAll(s.fields, id, patch))
    case Delete(id) => Commit(s, Without(s.fields, id))
    case Copy(id) => if FindField(s.fields, id).Some? then s.(clipboard := FindField(s.fields, id)) else s
    case Paste(id) => if s.clipboard.None? then s else Commit(s, s.fields + [Pasted(s.clipboard.value, id)])
    case Undo => DoUndo(s)
    case Redo => DoRedo(s)
    case CopyToAll(recipients, mint) => DoCopyToAll(s, recipients, mint)
    case Grab(index, isMove) =>
      if index < |s.fields| then s.(gesture := Some(GestureOn(s.fields[index], isMove))) else s
    case Drag(dx, dy) => if s.gesture.None? then s else s.(fields := DragAll(s.fields, s.gesture.value, dx, dy))
    case Release => s.(gesture := None)
  }

  function Run(s: Editor, actions: seq<Action>): Editor
    decreases actions
  {
    if actions == [] then s else Run(Step(s, actions[0]), actions[1..])
  }

  // ----- what each edit does to the layout

  lemma AddMeaning(s: Editor, a: Action)
    requires a.Add?
    ensures var s', n := Step(s, a), |s.fields|;
            && |s'.fields| == n + 1 && s'.fields[..n] == s.fields
            && var f := s'.fields[n];
            && f.id == a.id && f.kind == a.kind && f.page == a.page && f.recipientKey == a.key
            && (f.required <==> a.kind != Checkbox) && (f.w, f.h) == PlacedSize(a.kind)
            && 0.0 <= f.x <= 1.0 - f.w && 0.0 <= f.y <= 1.0 - f.h
            && (0.0 <= a.x <= 1.0 - f.w ==> f.x == a.x) && (0.0 <= a.y <= 1.0 - f.h ==> f.y == a.y)
            && (f.options != [] <==> a.kind == Dropdown || a.kind == Radio)
  {
  }

  /** A change reaches the fields of its id alone, and leaves their place and type as they are. */
  lemma ChangeMeaning(s: Editor, a: Action, i: nat)
    requires a.Change? && i < |s.fields|
    ensures var s' := Step(s, a);
            && |s'.fields| == |s.fields|
            && var f, f' := s.fields[i], s'.fields[i];
            if f.id != a.id then f' == f
            else match a.patch
                 case SetRecipient(key) => f' == f.(recipientKey := key)
                 case SetRequired(required) => f' == f.(required := required)
                 case SetOptions(options) => f' == f.(options := options)
  {
  }

  /** How many of the first `n` fields have another id. */
  function OthersBefore(fields: seq<Field>, id: string, n: nat): (k: nat)
    requires n <= |fields|
    ensures k <= n
  {
    if n == 0 then 0 else OthersBefore(fields, id, n - 1) + (if fields[n - 1].id != id then 1 else 0)
  }

  lemma {:induction false} OthersAfterFirst(fields: seq<Field>, id: string, n: nat)
    requires 0 < n <= |fields|
    ensures OthersBefore(fields, id, n) == OthersBefore(fields[1..], id, n - 1) + (if fields[0].id != id then 1 else 0)
  {
    if n > 1 {
      OthersAfterFirst(fields, id, n - 1);
      assert fields[1..][n - 2] == fields[n - 1];
    }
  }

  lemma {:induction false} WithoutMeaning(fields: seq<Field>, id: string)
    ensures var kept := Without(fields, id);
            && |kept| == OthersBefore(fields, id, |fields|)
            && forall i :: 0 <= i < |fields| && fields[i].id != id ==>
                 OthersBefore(fields, id, i) < |kept| && kept[OthersBefore(fields, id, i)] == fields[i]
  {
    if fields != [] {
      var rest := fields[1..];
      WithoutMeaning(rest, id);
      OthersAfterFirst(fields, id, |fields|);
      forall i | 0 < i < |fields| && fields[i].id != id
        ensures OthersBefore(fields, id, i) < |Without(fields, id)|
        ensures Without(fields, id)[OthersBefore(fields, id, i)] == fields[i]
      {
        OthersAfterFirst(fields, id, i);
        assert rest[i - 1] == fields[i];
      }
    }
  }

  /** A delete takes away the fields of its id, and keeps all others in their order. */
  lemma DeleteMeaning(s: Editor, id: string)
    ensures var kept := Step(s, Delete(id)).fields;
            && |kept| == OthersBefore(s.fields, id, |s.fields|)
            && forall i :: 0 <= i < |s.fields| && s.fields[i].id != id ==>
                 OthersBefore(s.fields, id, i) < |kept| && kept[OthersBefore(s.fields, id, i)] == s.fields[i]
  {
    WithoutMeaning(s.fields, id);
  }

  /** What is copied and pasted is the same field under a new id, a step further right and down or
      as far as the page goes. */
  lemma PasteMeaning(s: Editor, index: nat, id: string)
    requires index < |s.fields| && HasDistinctIds(s.fields)
    ensures var s', n, f := Step(Step(s, Copy(s.fields[index].id)), Paste(id)), |s.fields|, s.fields[index];
            && |s'.fields| == n + 1 && s'.fields[..n] == s.fields
            && s'.fields[n] == f.(id := id, x := if f.x + 0.02 <= 1.0 - f.w then f.x + 0.02 else 1.0 - f.w,
                                  y := if f.y + 0.02 <= 1.0 - f.h then f.y + 0.02 else 1.0 - f.h)
  {
    FoundById(s.fields, index);
  }

  lemma {:induction false} FoundById(fields: seq<Field>, index: nat)
    requires index < |fields| && HasDistinctIds(fields)
    ensures FindField(fields, fields[index].id) == Some(fields[index])
  {
    if index > 0 {
      assert fields[0].id != fields[index].id;
      FoundById(fields[1..], index - 1);
    }
  }

  /** Every edit is one step of history: undo takes it back and redo brings it again. */
  lemma EditsAreUndoable(s: Editor, a: Action)
    requires a.Add? || a.Change? || a.Delete? || (a.Paste? && s.clipboard.Some?)
             || (a.CopyToAll? && s.fields != [] && s.fields[0].recipientKey != "")
    ensures var s' := Step(s, a);
            && Step(s', Undo).fields == s.fields && Step(Step(s', Undo), Redo) == s'
  {
    hide NewField, PatchAll, Without, Pasted, Additions;
    UndoRedoAreInverse(s, Step(s, a).fields);
  }

  /** A drag is none: it leaves no step behind, so undo gives back the layout before it only if
      the last step had ended with that same layout, or if nothing had moved and there is none. */
  lemma DragsAreNotUndoable(s: Editor, index: nat, isMove: bool, dx: real, dy: real)
    requires index < |s.fields|
    ensures var moved := Step(Step(Step(s, Grab(index, isMove)), Drag(dx, dy)), Release);
            && moved.past == s.past && moved.future == s.future && |moved.fields| == |s.fields|
            && moved.fields[index] == Dragged(s.fields[index], GestureOn(s.fields[index], isMove), dx, dy)
            && (Step(moved, Undo).fields == s.fields
                <==> if s.past == [] then moved.fields == s.fields else s.past[|s.past| - 1] == s.fields)
  {
    hide Dragged;
  }

  // ----- history

  lemma StepKeepsHistoryShort(s: Editor, a: Action)
    requires |s.past| + |s.future| <= HISTORY_LIMIT + 1
    ensures |Step(s, a).past| + |Step(s, a).future| <= HISTORY_LIMIT + 1
  {
    hide NewField, PatchAll, Without, FindField, Pasted, DragAll, Additions;
  }

  /** The history never holds more than 61 layouts, undone ones included. */
  lemma {:induction false} HistoryIsBounded(s: Editor, actions: seq<Action>)
    requires |s.past| + |s.future| <= HISTORY_LIMIT + 1
    ensures |Run(s, actions).past| + |Run(s, actions).future| <= HISTORY_LIMIT + 1
    decreases actions
  {
    hide Step;
    if actions != [] {
      StepKeepsHistoryShort(s, actions[0]);
      HistoryIsBounded(Step(s, actions[0]), actions[1..]);
    }
  }

  /** Undo and redo undo each other, and a commit is undone by undo. */
  lemma UndoRedoAreInverse(s: Editor, next: seq<Field>)
    ensures s.past != [] ==> DoRedo(DoUndo(s)) == s
    ensures s.future != [] ==> DoUndo(DoRedo(s)) == s
    ensures DoUndo(Commit(s, next)).fields == s.fields
    ensures DoRedo(DoUndo(Commit(s, next))) == Commit(s, next)
  {
    if s.past != [] {
      assert s.past[..|s.past| - 1] + [s.past[|s.past| - 1]] == s.past;
      assert ([s.fields] + s.future)[1..] == s.future;
    }
    if s.future != [] {
      assert (s.past + [s.fields])[..|s.past|] == s.past;
      assert [s.future[0]] + s.future[1..] == s.future;
    }
    var c := Commit(s, next);
    assert c.past[..|c.past| - 1] + [c.past[|c.past| - 1]] == c.past;
    assert ([c.fields] + c.future)[1..] == c.future;
  }

  // ----- ids

  predicate HasDistinctIds(fields: seq<Field>) {
    forall i, j :: 0 <= i < j < |fields| ==> fields[i].id != fields[j].id
  }

  ghost predicate IdsOk(fields: seq<Field>, used: iset<string>, distinct: bool) {
    (distinct ==> HasDistinctIds(fields)) && forall i :: 0 <= i < |fields| ==> fields[i].id in used
  }

  /** `used` holds every id of every layout, past, present or future; and none repeats an id, if
      `distinct` is asked for. */
  ghost predicate IdsAreOk(s: Editor, used: iset<string>, distinct: bool) {
    && IdsOk(s.fields, used, distinct)
    && (forall i :: 0 <= i < |s.past| ==> IdsOk(s.past[i], used, distinct))
    && (forall i :: 0 <= i < |s.future| ==> IdsOk(s.future[i], used, distinct))
    && (s.gesture.Some? ==> s.gesture.value.id in used)
  }

  /** The ids an action draws. */
  ghost function Minted(a: Action): iset<string> {
    match a
    case Add(_, _, _, _, id, _) => iset{id}
    case Paste(id) => iset{id}
    case CopyToAll(_, mint) => iset i: nat, j: nat :: mint(i, j)
    case _ => iset{}
  }

  /** They are nobody's yet, and no two of one action agree. */
  ghost predicate IsMintNew(used: iset<string>, a: Action) {
    && Minted(a) !! used
    && (a.CopyToAll? ==> forall i, j, k, l :: a.mint(i, j) == a.mint(k, l) ==> i == k && j == l)
  }

  ghost predicate MintsAreNew(used: iset<string>, actions: seq<Action>)
    decreases actions
  {
    actions == [] || (IsMintNew(used, actions[0]) && MintsAreNew(used + Minted(actions[0]), actions[1..]))
  }

  lemma MoreUsed(fields: seq<Field>, used: iset<string>, more: iset<string>, distinct: bool)
    requires IdsOk(fields, used, distinct)
    ensures IdsOk(fields, used + more, distinct)
  {
  }

  lemma CommitKeepsIds(s: Editor, next: seq<Field>, used: iset<string>, more: iset<string>, distinct: bool)
    requires IdsAreOk(s, used, distinct) && IdsOk(next, used + more, distinct)
    ensures IdsAreOk(Commit(s, next), used + more, distinct)
  {
    hide IdsOk;
    MoreUsed(s.fields, used, more, distinct);
    var past := LastOf(s.past, HISTORY_LIMIT) + [s.fields];
    forall i | 0 <= i < |past| ensures IdsOk(past[i], used + more, distinct) {
      if i < |past| - 1 {
        var k := |s.past| - |LastOf(s.past, HISTORY_LIMIT)| + i;
        assert past[i] == s.past[k];
        MoreUsed(s.past[k], used, more, distinct);
      }
    }
  }

  lemma StayKeepsIds(s: Editor, used: iset<string>, more: iset<string>, distinct: bool)
    requires IdsAreOk(s, used, distinct)
    ensures IdsAreOk(s, used + more, distinct)
  {
    hide IdsOk;
    MoreUsed(s.fields, used, more, distinct);
    forall i | 0 <= i < |s.past| ensures IdsOk(s.past[i], used + more, distinct) {
      MoreUsed(s.past[i], used, more, distinct);
    }
    forall i | 0 <= i < |s.future| ensures IdsOk(s.future[i], used + more, distinct) {
      MoreUsed(s.future[i], used, more, distinct);
    }
  }

  lemma {:induction false} WithoutKeeps(fields: seq<Field>, id: string)
    ensures forall f :: f in Without(fields, id) ==> f in fields
    ensures HasDistinctIds(fields) ==> HasDistinctIds(Without(fields, id))
  {
    if fields != [] {
      WithoutKeeps(fields[1..], id);
      var rest := Without(fields[1..], id);
      forall j | 0 <= j < |rest| && HasDistinctIds(fields) ensures rest[j].id != fields[0].id {
        assert rest[j] in fields[1..];
      }
    }
  }

  lemma {:induction false} TaggedMeaning(fields: seq<Field>, key: string)
    ensures forall f :: f in Tagged(fields, key) <==> f in fields && f.recipientKey == key
  {
    if fields != [] {
      TaggedMeaning(fields[1..], key);
      assert fields == [fields[0]] + fields[1..];
    }
  }

  ghost predicate IsDrawn(mint: (nat, nat) -> string, n: nat, id: string) {
    exists i: nat, j: nat :: i < n && id == mint(i, j)
  }

  /** Each copy has an id drawn for its own recipient and place. */
  lemma {:induction false} AdditionIds(
      fields: seq<Field>, donorKey: string, recipients: seq<EditorRecipient>, n: nat, mint: (nat, nat) -> string)
    requires n <= |recipients|
    requires forall i, j, k, l :: mint(i, j) == mint(k, l) ==> i == k && j == l
    ensures var added := Additions(fields, donorKey, recipients, n, mint);
            && HasDistinctIds(added)
            && forall k :: 0 <= k < |added| ==> IsDrawn(mint, n, added[k].id)
  {
    hide Tagged, CopiedBefore, NeedsCopy;
    if n > 0 {
      AdditionIds(fields, donorKey, recipients, n - 1, mint);
      var before := Additions(fields, donorKey, recipients, n - 1, mint);
      var added := Additions(fields, donorKey, recipients, n, mint);
      forall k | 0 <= k < |added| ensures IsDrawn(mint, n, added[k].id) {
        if k < |before| {
          assert IsDrawn(mint, n - 1, before[k].id);
        } else {
          assert added[k].id == mint(n - 1, k - |before|);
        }
      }
      forall k, l | 0 <= k < |before| <= l < |added| ensures added[k].id != added[l].id {
        assert IsDrawn(mint, n - 1, before[k].id);
        assert added[l].id == mint(n - 1, l - |before|);
      }
    }
  }

  lemma AddedIds(fields: seq<Field>, added: seq<Field>, used: iset<string>, more: iset<string>, distinct: bool)
    requires IdsOk(fields, used, distinct) && IdsOk(added, more, true) && more !! used
    ensures IdsOk(fields + added, used + more, distinct)
  {
  }

  lemma CopyToAllKeepsIds(s: Editor, a: Action, used: iset<string>, distinct: bool)
    requires IdsAreOk(s, used, distinct) && IsMintNew(used, a) && a.CopyToAll?
    ensures IdsAreOk(Step(s, a), used + Minted(a), distinct)
  {
    hide IdsOk, IdsAreOk, Additions;
    if s.fields == [] || s.fields[0].recipientKey == "" {
      StayKeepsIds(s, used, Minted(a), distinct);
    } else {
      var added := Additions(s.fields, s.fields[0].recipientKey, a.recipients, |a.recipients|, a.mint);
      AdditionIds(s.fields, s.fields[0].recipientKey, a.recipients, |a.recipients|, a.mint);
      AdditionsAreMinted(added, a);
      CurrentIds(s, used, distinct);
      AddedIds(s.fields, added, used, Minted(a), distinct);
      CommitKeepsIds(s, s.fields + added, used, Minted(a), distinct);
    }
  }

  lemma AdditionsAreMinted(added: seq<Field>, a: Action)
    requires a.CopyToAll? && HasDistinctIds(added)
    requires forall k :: 0 <= k < |added| ==> IsDrawn(a.mint, |a.recipients|, added[k].id)
    ensures IdsOk(added, Minted(a), true)
  {
  }

  lemma CurrentIds(s: Editor, used: iset<string>, distinct: bool)
    requires IdsAreOk(s, used, distinct)
    ensures IdsOk(s.fields, used, distinct)
  {
  }

  lemma EditKeepsIds(s: Editor, a: Action, used: iset<string>, distinct: bool)
    requires IdsAreOk(s, used, distinct) && IsMintNew(used, a) && (a.Add? || a.Change? || a.Delete? || a.Paste?)
    ensures IdsAreOk(Step(s, a), used + Minted(a), distinct)
  {
    hide IdsAreOk, NewField, Pasted, Commit;
    CurrentIds(s, used, distinct);
    match a
    case Add(kind, page, x, y, id, key) =>
      AddedIds(s.fields, [NewField(kind, page, x, y, id, key)], used, iset{id}, distinct) by {
        NewFieldId(kind, page, x, y, id, key);
      }
      CommitKeepsIds(s, s.fields + [NewField(kind, page, x, y, id, key)], used, iset{id}, distinct);
    case Change(id, patch) =>
      CommitKeepsIds(s, PatchAll(s.fields, id, patch), used, iset{}, distinct);
    case Delete(id) =>
      var next := Without(s.fields, id);
      WithoutKeeps(s.fields, id);
      forall i | 0 <= i < |next| ensures next[i].id in used {
        assert next[i] in next;
      }
      CommitKeepsIds(s, next, used, iset{}, distinct);
    case Paste(id) =>
      if s.clipboard.Some? {
        PastedId(s.clipboard.value, id);
        AddedIds(s.fields, [Pasted(s.clipboard.value, id)], used, iset{id}, distinct);
        CommitKeepsIds(s, s.fields + [Pasted(s.clipboard.value, id)], used, iset{id}, distinct);
      } else {
        StayKeepsIds(s, used, iset{id}, distinct);
      }
  }

  lemma NewFieldId(kind: FieldType, page: int, x: real, y: real, id: string, key: string)
    ensures NewField(kind, page, x, y, id, key).id == id
  {
  }

  lemma PastedId(f: Field, id: string)
    ensures Pasted(f, id).id == id
  {
  }

  lemma StepKeepsIds(s: Editor, a: Action, used: iset<string>, distinct: bool)
    requires IdsAreOk(s, used, distinct) && IsMintNew(used, a)
    ensures IdsAreOk(Step(s, a), used + Minted(a), distinct)
  {
    hide NewField, Pasted, Additions, Dragged, Commit, Without, PatchAll;
    match a
    case Add(_, _, _, _, _, _) => EditKeepsIds(s, a, used, distinct);
    case Change(_, _) => EditKeepsIds(s, a, used, distinct);
    case Delete(_) => EditKeepsIds(s, a, used, distinct);
    case Paste(_) => EditKeepsIds(s, a, used, distinct);
    case CopyToAll(_, _) => CopyToAllKeepsIds(s, a, used, distinct);
    case Drag(dx, dy) => DragKeepsIds(s, dx, dy, used, distinct);
    case _ =>
      assert used + Minted(a) == used;
  }

  lemma DragKeepsIds(s: Editor, dx: real, dy: real, used: iset<string>, distinct: bool)
    requires IdsAreOk(s, used, distinct)
    ensures IdsAreOk(Step(s, Drag(dx, dy)), used + Minted(Drag(dx, dy)), distinct)
  {
    hide Clamp;
    assert used + iset{} == used;
  }

  /** Ids never repeat, in no layout of any run, whatever is undone or dragged: it is enough that
      they do not at the start and that minted ids are new. */
  lemma {:induction false} IdsStayDistinct(s: Editor, actions: seq<Action>, used: iset<string>)
    requires IdsAreOk(s, used, true) && MintsAreNew(used, actions)
    ensures var s' := Run(s, actions);
            && HasDistinctIds(s'.fields)
            && (forall i :: 0 <= i < |s'.past| ==> HasDistinctIds(s'.past[i]))
            && (forall i :: 0 <= i < |s'.future| ==> HasDistinctIds(s'.future[i]))
    decreases actions
  {
    hide Step, HasDistinctIds, IsMintNew;
    if actions != [] {
      StepKeepsIds(s, actions[0], used, true);
      IdsStayDistinct(Step(s, actions[0]), actions[1..], used + Minted(actions[0]));
    }
  }

  // ----- geometry

  const MIN_SIZE := 0.005

  /** No smaller than the schema allows, and off the page by `slack` at most. */
  predicate Fits(f: Field, slack: real) {
    && 0.0 <= f.x && 0.0 <= f.y && MIN_SIZE <= f.w <= 1.0 && MIN_SIZE <= f.h <= 1.0
    && f.x + f.w <= 1.0 + slack && f.y + f.h <= 1.0 + slack
  }

  /** The corner leaves room on the page for the smallest size. */
  predicate HasRoom(f: Field) {
    f.x <= 1.0 - MIN_SIZE && f.y <= 1.0 - MIN_SIZE
  }

  predicate IsInside(f: Field) {
    Fits(f, 0.0)
  }

  const SCHEMA_SLACK := 0.0001

  /** What the template schema lets in: a field may overhang the page by a ten-thousandth. */
  predicate IsSchemaValid(f: Field) {
    && 0.0 <= f.x <= 1.0 && 0.0 <= f.y <= 1.0 && MIN_SIZE <= f.w <= 1.0 && MIN_SIZE <= f.h <= 1.0
    && f.x + f.w <= 1.0001 && f.y + f.h <= 1.0001
  }

  lemma SchemaFits(f: Field)
    ensures IsSchemaValid(f) <==> Fits(f, SCHEMA_SLACK)
    ensures IsInside(f) ==> HasRoom(f)
  {
  }

  predicate IsWithin(f: Field, slack: real) {
    Fits(f, slack) && HasRoom(f)
  }

  predicate AllWithin(fields: seq<Field>, slack: real) {
    forall i :: 0 <= i < |fields| ==> IsWithin(fields[i], slack)
  }

  /** What a drag does not change of a field exceeds what was grabbed by the slack at most. */
  predicate IsGrabbedAs(f: Field, g: Gesture, slack: real) {
    if g.isMove then f.w <= g.w + slack && f.h <= g.h + slack else f.x <= g.x + slack && f.y <= g.y + slack
  }

  predicate GestureOk(fields: seq<Field>, g: Gesture, slack: real) {
    && 0.0 <= g.x <= 1.0 - MIN_SIZE && 0.0 <= g.y <= 1.0 - MIN_SIZE && MIN_SIZE <= g.w <= 1.0 && MIN_SIZE <= g.h <= 1.0
    && forall i :: 0 <= i < |fields| && fields[i].id == g.id ==> IsGrabbedAs(fields[i], g, slack)
  }

  /** Either of two fields with one id can be dragged without the other getting out of bounds. */
  predicate AreTwins(f: Field, g: Field, slack: real) {
    f.id == g.id ==> IsGrabbedAs(f, GestureOn(g, true), slack) && IsGrabbedAs(f, GestureOn(g, false), slack)
  }

  predicate IsSteady(fields: seq<Field>, slack: real) {
    && AllWithin(fields, slack)
    && forall i, j :: 0 <= i < |fields| && 0 <= j < |fields| ==> AreTwins(fields[i], fields[j], slack)
  }

  predicate LayoutOk(s: Editor, slack: real) {
    && IsSteady(s.fields, slack)
    && (forall i :: 0 <= i < |s.past| ==> IsSteady(s.past[i], slack))
    && (forall i :: 0 <= i < |s.future| ==> IsSteady(s.future[i], slack))
    && (s.clipboard.Some? ==> IsWithin(s.clipboard.value, slack))
    && (s.gesture.Some? ==> GestureOk(s.fields, s.gesture.value, slack))
  }

  /** The layout is not swapped under a drag in progress. */
  predicate IsOrderly(s: Editor, a: Action) {
    s.gesture.Some? ==> !a.Undo? && !a.Redo?
  }

  predicate IsOrderlyRun(s: Editor, actions: seq<Action>)
    decreases actions
  {
    actions == [] || (IsOrderly(s, actions[0]) && IsOrderlyRun(Step(s, actions[0]), actions[1..]))
  }

  lemma CommitKeepsLayout(s: Editor, next: seq<Field>, slack: real)
    requires LayoutOk(s, slack) && IsSteady(next, slack)
    requires s.gesture.Some? ==> GestureOk(next, s.gesture.value, slack)
    ensures LayoutOk(Commit(s, next), slack)
  {
    hide IsSteady, GestureOk, IsWithin;
    var past := LastOf(s.past, HISTORY_LIMIT) + [s.fields];
    forall i | 0 <= i < |past| ensures IsSteady(past[i], slack) {
    }
  }

  lemma DragKeepsWithin(f: Field, g: Gesture, dx: real, dy: real, slack: real)
    requires IsWithin(f, slack) && IsGrabbedAs(f, g, slack) && slack >= 0.0
    requires 0.0 <= g.x <= 1.0 - MIN_SIZE && 0.0 <= g.y <= 1.0 - MIN_SIZE
    requires MIN_SIZE <= g.w <= 1.0 && MIN_SIZE <= g.h <= 1.0
    ensures IsWithin(Dragged(f, g, dx, dy), slack) && IsGrabbedAs(Dragged(f, g, dx, dy), g, slack)
  {
  }

  /** Dragged together, twins stay twins. */
  lemma TwinsStay(f: Field, g: Field, d: Gesture, dx: real, dy: real, slack: real)
    requires AreTwins(f, g, slack) && f.id == g.id && slack >= 0.0
    ensures AreTwins(Dragged(f, d, dx, dy), Dragged(g, d, dx, dy), slack)
  {
    hide Clamp;
  }

  lemma {:induction false} AdditionsWithin(
      fields: seq<Field>, donorKey: string, recipients: seq<EditorRecipient>, n: nat,
      mint: (nat, nat) -> string, slack: real)
    requires n <= |recipients| && AllWithin(fields, slack) && slack >= 0.0
    ensures AllWithin(Additions(fields, donorKey, recipients, n, mint), slack)
  {
    hide IsWithin, Shifted, Tagged;
    if n > 0 {
      AdditionsWithin(fields, donorKey, recipients, n - 1, mint, slack);
      var donor := Tagged(fields, donorKey);
      TaggedMeaning(fields, donorKey);
      var step := CopiedBefore(fields, donorKey, recipients, n - 1) + 1;
      var copies := ShiftedAll(donor, recipients[n - 1].key, step, n - 1, mint);
      forall i | 0 <= i < |copies| ensures IsWithin(copies[i], slack) {
        assert donor[i] in donor;
        ShiftKeepsWithin(donor[i], recipients[n - 1].key, step, mint(n - 1, i), slack);
      }
    }
  }

  lemma ShiftKeepsWithin(f: Field, key: string, step: nat, id: string, slack: real)
    requires IsWithin(f, slack) && slack >= 0.0
    ensures IsWithin(Shifted(f, key, step, id), slack)
  {
    var gap := (f.h + 0.012) * step as real;
    NotNegative(f.h + 0.012, step as real);
    PulledUp(f.y, gap, f.h);
    assert Shifted(f, key, step, id) == f.(id := id, recipientKey := key, y := Least(f.y + gap, 1.0 - f.h));
  }

  lemma NotNegative(a: real, b: real)
    requires a >= 0.0 && b >= 0.0
    ensures a * b >= 0.0
  {
  }

  lemma PulledUp(y: real, gap: real, h: real)
    requires 0.0 <= y && 0.0 <= gap && MIN_SIZE <= h <= 1.0
    ensures 0.0 <= Least(y + gap, 1.0 - h) <= 1.0 - h
  {
  }

  lemma NewFieldIsWithin(kind: FieldType, page: int, x: real, y: real, id: string, key: string, slack: real)
    requires slack >= 0.0
    ensures IsWithin(NewField(kind, page, x, y, id, key), slack)
  {
  }

  lemma PastedIsWithin(f: Field, id: string, slack: real)
    requires IsWithin(f, slack) && slack >= 0.0
    ensures IsWithin(Pasted(f, id), slack)
  {
  }

  lemma OwnTwin(f: Field, slack: real)
    requires slack >= 0.0
    ensures AreTwins(f, f, slack)
  {
  }

  /** A layout that repeats no id has no twins to disagree. */
  lemma DistinctIsSteady(fields: seq<Field>, slack: real)
    requires AllWithin(fields, slack) && HasDistinctIds(fields) && slack >= 0.0
    ensures IsSteady(fields, slack)
  {
    hide IsGrabbedAs;
    forall i, j | 0 <= i < |fields| && 0 <= j < |fields| ensures AreTwins(fields[i], fields[j], slack) {
      OwnTwin(fields[i], slack);
    }
  }

  /** Fields with new ids are nobody's twins, and not what a drag is about. */
  lemma AddedKeepsLayout(s: Editor, added: seq<Field>, used: iset<string>, more: iset<string>, slack: real)
    requires LayoutOk(s, slack) && IdsAreOk(s, used, false) && more !! used && slack >= 0.0
    requires AllWithin(added, slack) && IdsOk(added, more, true)
    ensures LayoutOk(Commit(s, s.fields + added), slack)
  {
    hide IsWithin, IsGrabbedAs;
    var next := s.fields + added;
    forall i, j | 0 <= i < |next| && 0 <= j < |next| ensures AreTwins(next[i], next[j], slack) {
      if i == j {
        OwnTwin(next[i], slack);
      } else if |s.fields| <= i || |s.fields| <= j {
        AddedAreNoTwins(s.fields, added, used, more, i, j);
      }
    }
    CommitKeepsLayout(s, next, slack);
  }

  lemma AddedAreNoTwins(
      fields: seq<Field>, added: seq<Field>, used: iset<string>, more: iset<string>, i: nat, j: nat)
    requires IdsOk(fields, used, false) && IdsOk(added, more, true) && more !! used
    requires i < |fields| + |added| && j < |fields| + |added| && i != j && (|fields| <= i || |fields| <= j)
    ensures (fields + added)[i].id != (fields + added)[j].id
  {
  }

  lemma EditKeepsLayout(s: Editor, a: Action, used: iset<string>, slack: real)
    requires LayoutOk(s, slack) && IdsAreOk(s, used, false) && IsMintNew(used, a) && slack >= 0.0
    requires a.Add? || a.Change? || a.Paste?
    ensures LayoutOk(Step(s, a), slack)
  {
    hide Commit, NewField, Pasted, LayoutOk, IdsAreOk;
    match a
    case Add(kind, page, x, y, id, key) =>
      NewFieldIsWithin(kind, page, x, y, id, key, slack);
      NewFieldId(kind, page, x, y, id, key);
      AddedKeepsLayout(s, [NewField(kind, page, x, y, id, key)], used, iset{id}, slack);
    case Change(id, patch) =>
      PatchKeepsLayout(s, id, patch, slack);
    case Paste(id) =>
      if s.clipboard.Some? {
        ClipboardIsWithin(s, slack);
        PastedIsWithin(s.clipboard.value, id, slack);
        PastedId(s.clipboard.value, id);
        AddedKeepsLayout(s, [Pasted(s.clipboard.value, id)], used, iset{id}, slack);
      }
  }

  lemma ClipboardIsWithin(s: Editor, slack: real)
    requires LayoutOk(s, slack) && s.clipboard.Some?
    ensures IsWithin(s.clipboard.value, slack)
  {
  }

  predicate HasGeometryOf(f': Field, f: Field) {
    f'.id == f.id && f'.x == f.x && f'.y == f.y && f'.w == f.w && f'.h == f.h
  }

  lemma SameGeometry(fields: seq<Field>, fields': seq<Field>, slack: real)
    requires IsSteady(fields, slack)
    requires |fields'| == |fields| && forall i :: 0 <= i < |fields| ==> HasGeometryOf(fields'[i], fields[i])
    ensures IsSteady(fields', slack)
    ensures forall g: Gesture :: GestureOk(fields, g, slack) ==> GestureOk(fields', g, slack)
  {
    forall i, j | 0 <= i < |fields| && 0 <= j < |fields| ensures AreTwins(fields'[i], fields'[j], slack) {
      assert AreTwins(fields[i], fields[j], slack);
    }
  }

  lemma PatchKeepsLayout(s: Editor, id: string, patch: Patch, slack: real)
    requires LayoutOk(s, slack)
    ensures LayoutOk(Commit(s, PatchAll(s.fields, id, patch)), slack)
  {
    hide IsSteady, GestureOk, Commit;
    SameGeometry(s.fields, PatchAll(s.fields, id, patch), slack);
    CommitKeepsLayout(s, PatchAll(s.fields, id, patch), slack);
  }

  lemma DeleteKeepsLayout(s: Editor, id: string, slack: real)
    requires LayoutOk(s, slack)
    ensures LayoutOk(Step(s, Delete(id)), slack)
  {
    hide IsWithin, IsGrabbedAs, AreTwins, Commit;
    var next := Without(s.fields, id);
    WithoutKeeps(s.fields, id);
    forall i | 0 <= i < |next| ensures next[i] in s.fields {
      assert next[i] in next;
    }
    CommitKeepsLayout(s, next, slack);
  }

  lemma CopyToAllKeepsLayout(s: Editor, a: Action, used: iset<string>, slack: real)
    requires LayoutOk(s, slack) && IdsAreOk(s, used, false) && IsMintNew(used, a) && slack >= 0.0 && a.CopyToAll?
    ensures LayoutOk(Step(s, a), slack)
  {
    hide IsWithin, AreTwins, IdsAreOk, GestureOk, Additions;
    if s.fields != [] && s.fields[0].recipientKey != "" {
      var donorKey := s.fields[0].recipientKey;
      var added := Additions(s.fields, donorKey, a.recipients, |a.recipients|, a.mint);
      AdditionsWithin(s.fields, donorKey, a.recipients, |a.recipients|, a.mint, slack);
      AdditionIds(s.fields, donorKey, a.recipients, |a.recipients|, a.mint);
      AdditionsAreMinted(added, a);
      AddedKeepsLayout(s, added, used, Minted(a), slack);
    }
  }

  lemma DragKeepsLayout(s: Editor, dx: real, dy: real, slack: real)
    requires LayoutOk(s, slack) && slack >= 0.0
    ensures LayoutOk(Step(s, Drag(dx, dy)), slack)
  {
    hide Dragged, IsWithin, IsGrabbedAs, AreTwins;
    if s.gesture.Some? {
      var g, next := s.gesture.value, DragAll(s.fields, s.gesture.value, dx, dy);
      forall i | 0 <= i < |next|
        ensures IsWithin(next[i], slack) && (next[i].id == g.id ==> IsGrabbedAs(next[i], g, slack))
      {
        DraggedId(s.fields[i], g, dx, dy);
        if s.fields[i].id == g.id {
          DragKeepsWithin(s.fields[i], g, dx, dy, slack);
        }
      }
      forall i, j | 0 <= i < |next| && 0 <= j < |next| ensures AreTwins(next[i], next[j], slack) {
        DraggedId(s.fields[i], g, dx, dy);
        DraggedId(s.fields[j], g, dx, dy);
        if s.fields[i].id != s.fields[j].id {
          NoTwins(next[i], next[j], slack);
        } else if s.fields[i].id == g.id {
          TwinsStay(s.fields[i], s.fields[j], g, dx, dy, slack);
        }
      }
    }
  }

  lemma DraggedId(f: Field, g: Gesture, dx: real, dy: real)
    ensures Dragged(f, g, dx, dy).id == f.id
  {
  }

  lemma NoTwins(f: Field, g: Field, slack: real)
    requires f.id != g.id
    ensures AreTwins(f, g, slack)
  {
  }

  lemma CopyKeepsLayout(s: Editor, id: string, slack: real)
    requires LayoutOk(s, slack)
    ensures LayoutOk(Step(s, Copy(id)), slack)
  {
    hide IsWithin, GestureOk, AreTwins;
    var found := FindField(s.fields, id);
    if found.Some? {
      var k :| 0 <= k < |s.fields| && s.fields[k] == found.value;
    }
  }

  lemma GrabKeepsLayout(s: Editor, index: nat, isMove: bool, slack: real)
    requires LayoutOk(s, slack)
    ensures LayoutOk(Step(s, Grab(index, isMove)), slack)
  {
    hide IsGrabbedAs;
    if index < |s.fields| {
      var g := GestureOn(s.fields[index], isMove);
      assert IsWithin(s.fields[index], slack);
      forall i | 0 <= i < |s.fields| && s.fields[i].id == g.id ensures IsGrabbedAs(s.fields[i], g, slack) {
        assert AreTwins(s.fields[i], s.fields[index], slack);
      }
    }
  }

  lemma StepKeepsLayout(s: Editor, a: Action, used: iset<string>, slack: real)
    requires LayoutOk(s, slack) && IdsAreOk(s, used, false) && IsMintNew(used, a) && IsOrderly(s, a) && slack >= 0.0
    ensures LayoutOk(Step(s, a), slack)
  {
    hide IsWithin, AreTwins, IsGrabbedAs, NewField, Pasted, Additions, Minted, Dragged;
    match a
    case Add(_, _, _, _, _, _) => EditKeepsLayout(s, a, used, slack);
    case Change(_, _) => EditKeepsLayout(s, a, used, slack);
    case Paste(_) => EditKeepsLayout(s, a, used, slack);
    case Delete(id) => DeleteKeepsLayout(s, id, slack);
    case CopyToAll(_, _) => CopyToAllKeepsLayout(s, a, used, slack);
    case Grab(index, isMove) => GrabKeepsLayout(s, index, isMove, slack);
    case Drag(dx, dy) => DragKeepsLayout(s, dx, dy, slack);
    case Copy(id) => CopyKeepsLayout(s, id, slack);
    case Undo | Redo | Release =>
  }

  /** Whatever the sender does, as long as no undo or redo swaps the layout under a drag in
      progress, every field in the layout, in the history and on the clipboard keeps within the
      page and the given slack, above the schema's minimum size, with its corner where there is
      room for it: for slack 0 on the page, for the schema's slack what the schema accepts. */
  lemma {:induction false} FieldsStayInside(s: Editor, actions: seq<Action>, used: iset<string>, slack: real)
    requires LayoutOk(s, slack) && IsOrderlyRun(s, actions) && slack >= 0.0
    requires IdsAreOk(s, used, false) && MintsAreNew(used, actions)
    ensures LayoutOk(Run(s, actions), slack)
    decreases actions
  {
    hide Step, LayoutOk, IsOrderly, IdsAreOk, IsMintNew, Minted;
    if actions != [] {
      StepKeepsLayout(s, actions[0], used, slack);
      StepKeepsIds(s, actions[0], used, false);
      FieldsStayInside(Step(s, actions[0]), actions[1..], used + Minted(actions[0]), slack);
    }
  }

  // ----- when one drag is safe

  /** A move keeps a field within the slack for every mouse position exactly when the field is no
      larger, but for the slack, than when the drag began. */
  lemma MoveIsSafeIffNoLarger(f: Field, g: Gesture, slack: real)
    requires Fits(f, slack) && slack >= 0.0 && g.isMove
    requires 0.0 <= g.x && 0.0 <= g.y && 0.0 <= g.w <= 1.0 && 0.0 <= g.h <= 1.0
    ensures (forall dx, dy :: Fits(Dragged(f, g, dx, dy), slack)) <==> f.w <= g.w + slack && f.h <= g.h + slack
  {
    var corner := Dragged(f, g, 1.0, 1.0);
    assert corner.x == 1.0 - g.w && corner.y == 1.0 - g.h;
  }

  /** And a resize exactly when the field is no further to the right or down, but for the slack,
      than when the drag began, and there was room for the smallest size there. */
  lemma ResizeIsSafeIffNotFurther(f: Field, g: Gesture, slack: real)
    requires Fits(f, slack) && slack >= 0.0 && !g.isMove && 0.0 <= g.x && 0.0 <= g.y
    ensures (forall dx, dy :: Fits(Dragged(f, g, dx, dy), slack))
       <==> f.x <= g.x + slack && f.y <= g.y + slack && g.x <= 1.0 - MIN_SIZE && g.y <= 1.0 - MIN_SIZE
  {
    var wide := Dragged(f, g, 2.0 - g.w, 2.0 - g.h);
    var small := Dragged(f, g, -g.w, -g.h);
    assert wide.w == 1.0 - g.x || wide.w == Most(MIN_W, 2.0);
    assert small.w == Least(1.0 - g.x, MIN_W) && small.h == Least(1.0 - g.y, MIN_H);
  }

  /** So a field the schema accepts can be moved to nothing the schema refuses, and resized to
      nothing it refuses exactly when its corner has room. */
  lemma OverhangsResizeIffRoom(f: Field)
    requires IsSchemaValid(f)
    ensures forall dx, dy :: IsSchemaValid(Dragged(f, GestureOn(f, true), dx, dy))
    ensures (forall dx, dy :: IsSchemaValid(Dragged(f, GestureOn(f, false), dx, dy))) <==> HasRoom(f)
  {
    hide Fits, IsSchemaValid, Dragged;
    SchemaFits(f);
    SchemaBounds(f);
    forall g: Gesture, dx, dy
      ensures IsSchemaValid(Dragged(f, g, dx, dy)) <==> Fits(Dragged(f, g, dx, dy), SCHEMA_SLACK)
    {
      SchemaFits(Dragged(f, g, dx, dy));
    }
    MoveIsSafeIffNoLarger(f, GestureOn(f, true), SCHEMA_SLACK);
    ResizeIsSafeIffNotFurther(f, GestureOn(f, false), SCHEMA_SLACK);
  }

  lemma SchemaBounds(f: Field)
    requires IsSchemaValid(f)
    ensures 0.0 <= f.x && 0.0 <= f.y && 0.0 <= f.w <= 1.0 && 0.0 <= f.h <= 1.0
  {
  }

  ghost function IdsOf(fields: seq<Field>): iset<string> {
    iset f | f in fields :: f.id
  }

  /** What the sender may do from the moment a saved layout is opened. */
  ghost predicate IsSession(fields: seq<Field>, actions: seq<Action>) {
    IsOrderlyRun(Opened(fields), actions) && MintsAreNew(IdsOf(fields), actions)
  }

  predicate AllSchemaValid(fields: seq<Field>) {
    forall i :: 0 <= i < |fields| ==> IsSchemaValid(fields[i])
  }

  /** The condition on a layout: every corner has room for the smallest size, and fields that share
      an id agree in place and size, but for the schema's tolerance. */
  predicate SurvivesEditing(fields: seq<Field>) {
    && (forall i :: 0 <= i < |fields| ==> HasRoom(fields[i]))
    && forall i, j :: 0 <= i < |fields| && 0 <= j < |fields| ==> AreTwins(fields[i], fields[j], SCHEMA_SLACK)
  }

  /** Any layout loaded from a template, repeated ids and overhanging fields included, can be
      edited into none the schema refuses to save if and only if it meets that condition. */
  lemma SchemaSurvivesIff(fields: seq<Field>)
    requires AllSchemaValid(fields)
    ensures (forall actions :: IsSession(fields, actions) ==> AllSchemaValid(Run(Opened(fields), actions).fields))
       <==> SurvivesEditing(fields)
  {
    hide IsSchemaValid, HasRoom, Run, IsSession, Fits, AreTwins;
    forall f: Field ensures IsSchemaValid(f) <==> Fits(f, SCHEMA_SLACK) {
      SchemaFits(f);
    }
    if SurvivesEditing(fields) {
      forall actions | IsSession(fields, actions) ensures AllSchemaValid(Run(Opened(fields), actions).fields) {
        SessionStaysSteady(fields, actions);
      }
    } else {
      var actions := BadSession(fields);
    }
  }

  lemma SessionStaysSteady(fields: seq<Field>, actions: seq<Action>)
    requires IsSteady(fields, SCHEMA_SLACK) && IsSession(fields, actions)
    ensures forall i :: 0 <= i < |Run(Opened(fields), actions).fields| ==>
              Fits(Run(Opened(fields), actions).fields[i], SCHEMA_SLACK)
  {
    hide Fits, HasRoom, Run, IsOrderlyRun, MintsAreNew, AreTwins;
    FieldsStayInside(Opened(fields), actions, IdsOf(fields), SCHEMA_SLACK);
  }

  /** One drag of one field puts itself or a twin where the schema refuses it. */
  lemma BadSession(fields: seq<Field>) returns (actions: seq<Action>)
    requires AllSchemaValid(fields) && !SurvivesEditing(fields)
    ensures IsSession(fields, actions) && !AllSchemaValid(Run(Opened(fields), actions).fields)
  {
    hide IsSession, Run, Dragged, IsSchemaValid, Fits;
    var i: nat, j: nat, isMove: bool := BadPair(fields);
    var f, g := fields[i], GestureOn(fields[j], isMove);
    SchemaFits(f);
    SchemaBounds(fields[j]);
    var dx, dy := BadDrag(f, g);
    SchemaFits(Dragged(f, g, dx, dy));
    actions := [Grab(j, isMove), Drag(dx, dy)];
    OneDragSession(fields, i, j, isMove, dx, dy);
  }

  /** Safe under a drag that began with this gesture, to the schema's tolerance. */
  predicate IsSafeUnder(f: Field, g: Gesture) {
    if g.isMove then f.w <= g.w + SCHEMA_SLACK && f.h <= g.h + SCHEMA_SLACK
    else f.x <= g.x + SCHEMA_SLACK && f.y <= g.y + SCHEMA_SLACK && g.x <= 1.0 - MIN_SIZE && g.y <= 1.0 - MIN_SIZE
  }

  lemma BadPair(fields: seq<Field>) returns (i: nat, j: nat, isMove: bool)
    requires !SurvivesEditing(fields)
    ensures i < |fields| && j < |fields| && fields[i].id == fields[j].id
    ensures !IsSafeUnder(fields[i], GestureOn(fields[j], isMove))
  {
    if k: nat :| k < |fields| && !HasRoom(fields[k]) {
      i, j, isMove := k, k, false;
    } else {
      i, j :| 0 <= i < |fields| && 0 <= j < |fields| && !AreTwins(fields[i], fields[j], SCHEMA_SLACK);
      isMove := !IsGrabbedAs(fields[i], GestureOn(fields[j], true), SCHEMA_SLACK);
    }
  }

  lemma BadDrag(f: Field, g: Gesture) returns (dx: real, dy: real)
    requires Fits(f, SCHEMA_SLACK) && !IsSafeUnder(f, g)
    requires 0.0 <= g.x && 0.0 <= g.y && 0.0 <= g.w <= 1.0 && 0.0 <= g.h <= 1.0
    ensures !Fits(Dragged(f, g, dx, dy), SCHEMA_SLACK)
  {
    hide Fits, Dragged;
    if g.isMove {
      MoveIsSafeIffNoLarger(f, g, SCHEMA_SLACK);
    } else {
      ResizeIsSafeIffNotFurther(f, g, SCHEMA_SLACK);
    }
    dx, dy :| !Fits(Dragged(f, g, dx, dy), SCHEMA_SLACK);
  }

  lemma OneDragSession(fields: seq<Field>, i: nat, j: nat, isMove: bool, dx: real, dy: real)
    requires i < |fields| && j < |fields| && fields[i].id == fields[j].id
    ensures var actions := [Grab(j, isMove), Drag(dx, dy)];
            && IsSession(fields, actions)
            && i < |Run(Opened(fields), actions).fields|
            && Run(Opened(fields), actions).fields[i] == Dragged(fields[i], GestureOn(fields[j], isMove), dx, dy)
  {
    hide Dragged;
    var s := Opened(fields);
    RunOfTwo(s, Grab(j, isMove), Drag(dx, dy));
    assert Step(s, Grab(j, isMove)) == s.(gesture := Some(GestureOn(fields[j], isMove)));
    NoMints(IdsOf(fields), Grab(j, isMove), Drag(dx, dy));
  }

  lemma RunOfTwo(s: Editor, a: Action, b: Action)
    ensures Run(s, [a, b]) == Step(Step(s, a), b)
    ensures IsOrderlyRun(s, [a, b]) <==> IsOrderly(s, a) && IsOrderly(Step(s, a), b)
  {
    hide Step, IsOrderly;
    var t := Step(s, a);
    assert [a, b][1..] == [b] && [b][1..] == [];
    assert Run(t, [b]) == Run(Step(t, b), []);
    assert IsOrderlyRun(t, [b]) <==> IsOrderly(t, b);
  }

  lemma NoMints(used: iset<string>, a: Action, b: Action)
    requires a.Grab? && b.Drag?
    ensures MintsAreNew(used, [a, b])
  {
    assert [a, b][1..] == [b] && [b][1..] == [];
  }

  lemma {:induction false} RunAppend(s: Editor, first: seq<Action>, rest: seq<Action>)
    ensures Run(s, first + rest) == Run(Run(s, first), rest)
    decreases first
  {
    hide Step;
    if first == [] {
      assert first + rest == rest;
    } else {
      assert (first + rest)[1..] == first[1..] + rest;
      RunAppend(Step(s, first[0]), first[1..], rest);
    }
  }

  /** From an empty layout: a signature is placed and made optional, drawn in to a tenth of the
      page, and picked up; an undo brings its first width back, and the next mouse move places it
      off the page. */
  lemma UndoUnderADrag(id: string, key: string)
    ensures var actions := [Add(Signature, 1, 0.1, 0.1, id, key), Change(id, SetRequired(false)),
                            Grab(0, false), Drag(-0.14, 0.0), Release, Grab(0, true), Undo, Drag(1.0, 0.0)];
            var fields := Run(Opened([]), actions).fields;
            |fields| == 1 && fields[0].x == 0.9 && fields[0].w == 0.24
  {
    var f := Field(id, Signature, 1, 0.1, 0.1, 0.24, 0.055, true, key, []);
    var placed := Opened([]).(fields := [f], past := [[]]);
    var optional := placed.(fields := [f.(required := false)], past := [[], [f]]);
    var narrow := optional.(fields := [f.(required := false, w := 0.1)]);
    var held := narrow.(gesture := Some(Gesture(id, true, 0.1, 0.1, 0.1, 0.055)));
    FirstHalf(f, placed, optional, narrow);
    SecondHalf(f, narrow, held);
    var first := [Add(Signature, 1, 0.1, 0.1, id, key), Change(id, SetRequired(false)), Grab(0, false), Drag(-0.14, 0.0)];
    var second := [Release, Grab(0, true), Undo, Drag(1.0, 0.0)];
    RunAppend(Opened([]), first, second);
    assert first + second == [Add(Signature, 1, 0.1, 0.1, id, key), Change(id, SetRequired(false)), Grab(0, false),
                              Drag(-0.14, 0.0), Release, Grab(0, true), Undo, Drag(1.0, 0.0)];
  }

  lemma FirstHalf(f: Field, placed: Editor, optional: Editor, narrow: Editor)
    requires f == Field(f.id, Signature, 1, 0.1, 0.1, 0.24, 0.055, true, f.recipientKey, [])
    requires placed == Opened([]).(fields := [f], past := [[]])
    requires optional == placed.(fields := [f.(required := false)], past := [[], [f]])
    requires narrow == optional.(fields := [f.(required := false, w := 0.1)])
    ensures var actions := [Add(Signature, 1, 0.1, 0.1, f.id, f.recipientKey), Change(f.id, SetRequired(false)),
                            Grab(0, false), Drag(-0.14, 0.0)];
            Run(Opened([]), actions) == narrow.(gesture := Some(GestureOn(f, false)))
  {
    var place, change := Add(Signature, 1, 0.1, 0.1, f.id, f.recipientKey), Change(f.id, SetRequired(false));
    assert Step(Opened([]), place) == placed;
    assert Step(placed, change) == optional;
    var held := Step(optional, Grab(0, false));
    assert held == optional.(gesture := Some(GestureOn(f, false)));
    assert Step(held, Drag(-0.14, 0.0)) == narrow.(gesture := Some(GestureOn(f, false)));
    RunOfTwo(Opened([]), place, change);
    RunOfTwo(optional, Grab(0, false), Drag(-0.14, 0.0));
    RunAppend(Opened([]), [place, change], [Grab(0, false), Drag(-0.14, 0.0)]);
    assert [place, change] + [Grab(0, false), Drag(-0.14, 0.0)] ==
           [place, change, Grab(0, false), Drag(-0.14, 0.0)];
  }

  lemma SecondHalf(f: Field, narrow: Editor, held: Editor)
    requires f.x == 0.1 && f.y == 0.1 && f.w == 0.24 && f.h == 0.055
    requires narrow == Opened([]).(fields := [f.(required := false, w := 0.1)], past := [[], [f]])
    requires held == narrow.(gesture := Some(Gesture(f.id, true, 0.1, 0.1, 0.1, 0.055)))
    ensures var actions := [Release, Grab(0, true), Undo, Drag(1.0, 0.0)];
            Run(narrow.(gesture := Some(GestureOn(f, false))), actions).fields == [f.(x := 0.9)]
  {
    var resizing := narrow.(gesture := Some(GestureOn(f, false)));
    assert Step(resizing, Release) == narrow;
    assert Step(narrow, Grab(0, true)) == held;
    var undone := Step(held, Undo);
    assert undone.fields == [f] && undone.gesture == held.gesture;
    assert Step(undone, Drag(1.0, 0.0)).fields == [f.(x := 0.9)];
    RunOfTwo(resizing, Release, Grab(0, true));
    RunOfTwo(held, Undo, Drag(1.0, 0.0));
    RunAppend(resizing, [Release, Grab(0, true)], [Undo, Drag(1.0, 0.0)]);
    assert [Release, Grab(0, true)] + [Undo, Drag(1.0, 0.0)] == [Release, Grab(0, true), Undo, Drag(1.0, 0.0)];
  }

  /** With a repeated id, which the schema does not rule out, a drag moves every twin by the
      grabbed one's size: a larger one is pushed off the page. */
  lemma TwinsMoveTogether(a: Field, b: Field)
    requires IsInside(a) && IsInside(b) && a.id == b.id && a.w < b.w
    ensures var moved := Run(Opened([a, b]), [Grab(0, true), Drag(1.0, 0.0)]).fields;
            IsInside(moved[0]) && moved[1].x + moved[1].w > 1.0
  {
    var s := Opened([a, b]);
    RunOfTwo(s, Grab(0, true), Drag(1.0, 0.0));
    assert Step(s, Grab(0, true)) == s.(gesture := Some(GestureOn(a, true)));
  }

  // ----- everybody gets fields

  predicate IsPersonOf(recipients: seq<EditorRecipient>, p: Envelope.Invitee) {
    exists k :: 0 <= k < |recipients| && recipients[k].key == p.key && recipients[k].role == p.role
  }

  lemma {:induction false} EveryoneServed(
      fields: seq<Field>, donorKey: string, recipients: seq<EditorRecipient>, n: nat,
      mint: (nat, nat) -> string, k: nat)
    requires k < n <= |recipients| && NeedsCopy(fields, donorKey, recipients[k]) && Tagged(fields, donorKey) != []
    ensures Envelope.HasFields(Additions(fields, donorKey, recipients, n, mint), recipients[k].key)
  {
    hide Shifted, Tagged;
    var now := Additions(fields, donorKey, recipients, n, mint);
    var before := Additions(fields, donorKey, recipients, n - 1, mint);
    if k == n - 1 {
      var copies := ShiftedAll(Tagged(fields, donorKey), recipients[k].key,
                               CopiedBefore(fields, donorKey, recipients, k) + 1, k, mint);
      assert now == before + copies;
      var step := CopiedBefore(fields, donorKey, recipients, k) + 1;
      ShiftedKey(Tagged(fields, donorKey)[0], recipients[k].key, step, mint(k, 0));
      assert now[|before|] == copies[0] && copies[0] in now;
    } else {
      EveryoneServed(fields, donorKey, recipients, n - 1, mint, k);
      var f :| f in before && f.recipientKey == recipients[k].key;
      assert f in now;
    }
  }

  /** `f` is one of the first owner's fields, given to a signer who had none: the same box on the
      same page, no higher and, if the original does, ending on it. */
  ghost predicate IsCopy(fields: seq<Field>, recipients: seq<EditorRecipient>, f: Field) {
    && (exists k :: 0 <= k < |recipients| && recipients[k].role == Envelope.Signer
                    && recipients[k].key == f.recipientKey)
    && (forall g :: g in fields ==> g.recipientKey != f.recipientKey)
    && (exists g :: g in fields && g.recipientKey == fields[0].recipientKey && IsShiftOf(g, f))
  }

  predicate IsShiftOf(g: Field, f: Field) {
    && f.kind == g.kind && f.page == g.page && f.x == g.x && f.w == g.w && f.h == g.h
    && f.required == g.required && f.options == g.options
    && (0.0 <= g.h && g.y + g.h <= 1.0 ==> g.y <= f.y && f.y + f.h <= 1.0)
  }

  lemma ShiftIsShift(g: Field, key: string, step: nat, id: string)
    ensures IsShiftOf(g, Shifted(g, key, step, id)) && Shifted(g, key, step, id).recipientKey == key
  {
    if 0.0 <= g.h {
      NotNegative(g.h + 0.012, step as real);
    }
  }

  lemma {:induction false} AdditionsAreCopies(
      fields: seq<Field>, recipients: seq<EditorRecipient>, n: nat, mint: (nat, nat) -> string)
    requires fields != [] && n <= |recipients|
    ensures forall f :: f in Additions(fields, fields[0].recipientKey, recipients, n, mint) ==>
              IsCopy(fields, recipients, f)
  {
    hide Shifted, Tagged, IsShiftOf;
    if n > 0 {
      AdditionsAreCopies(fields, recipients, n - 1, mint);
      var donorKey, r := fields[0].recipientKey, recipients[n - 1];
      var step := CopiedBefore(fields, donorKey, recipients, n - 1) + 1;
      var donor := Tagged(fields, donorKey);
      TaggedMeaning(fields, donorKey);
      if NeedsCopy(fields, donorKey, r) {
        forall f | f in ShiftedAll(donor, r.key, step, n - 1, mint) ensures IsCopy(fields, recipients, f) {
          var i :| 0 <= i < |donor| && f == Shifted(donor[i], r.key, step, mint(n - 1, i));
          ShiftIsShift(donor[i], r.key, step, mint(n - 1, i));
          assert donor[i] in donor;
        }
      }
    }
  }

  lemma ShiftedKey(f: Field, key: string, step: nat, id: string)
    ensures Shifted(f, key, step, id).recipientKey == key
  {
  }

  /** After copying the first field's owner's fields to everyone, the server's check that every
      signer owns a field accepts the layout, for any choice of these recipients; nobody who had
      fields is given more, and no field that was there changes. */
  lemma CopyTagsEverySigner(
      s: Editor, recipients: seq<EditorRecipient>, mint: (nat, nat) -> string, people: seq<Envelope.Invitee>)
    requires s.fields != [] && s.fields[0].recipientKey != ""
    requires forall i :: 0 <= i < |people| ==> IsPersonOf(recipients, people[i])
    ensures var s' := DoCopyToAll(s, recipients, mint);
            && Envelope.FirstUntagged(people, s'.fields, 0).None? && s.fields <= s'.fields
            && (forall f :: f in s'.fields[|s.fields|..] ==> IsCopy(s.fields, recipients, f))
  {
    hide Additions, Tagged;
    var donorKey := s.fields[0].recipientKey;
    var added := Additions(s.fields, donorKey, recipients, |recipients|, mint);
    var fields' := s.fields + added;
    assert fields'[|s.fields|..] == added;
    AdditionsAreCopies(s.fields, recipients, |recipients|, mint);
    TaggedMeaning(s.fields, donorKey);
    assert s.fields[0] in s.fields;
    assert s.fields[0] in Tagged(s.fields, donorKey);
    forall i | 0 <= i < |people| && people[i].role == Envelope.Signer
      ensures Envelope.HasFields(fields', people[i].key)
    {
      var k :| 0 <= k < |recipients| && recipients[k].key == people[i].key && recipients[k].role == people[i].role;
      if NeedsCopy(s.fields, donorKey, recipients[k]) {
        EveryoneServed(s.fields, donorKey, recipients, |recipients|, mint, k);
        var f :| f in added && f.recipientKey == people[i].key;
        assert f in fields';
      } else if recipients[k].key == donorKey {
        assert s.fields[0] in fields';
      } else {
        var f :| f in s.fields && f.recipientKey == people[i].key;
        assert f in fields';
      }
    }
  }

  // ----- the editor's own variables

  class EditorState {
    var fields: seq<Field>
    var past: seq<seq<Field>>
    var future: seq<seq<Field>>
    var clipboard: Option<Field>
    var gesture: Option<Gesture>

    ghost function Value(): Editor
      reads this
    {
      Editor(fields, past, future, clipboard, gesture)
    }

    constructor (fields: seq<Field>)
      ensures Value() == Opened(fields)
    {
      this.fields := fields;
      past := [];
      future := [];
      clipboard := None;
      gesture := None;
    }

    method CommitFields(next: seq<Field>)
      modifies this`fields, this`past, this`future
      ensures Value() == Commit(old(Value()), next)
    {
      past := (if |past| <= HISTORY_LIMIT then past else past[|past| - HISTORY_LIMIT..]) + [fields];
      future := [];
      fields := next;
    }

    method UndoLast()
      modifies this`fields, this`past, this`future
      ensures Value() == DoUndo(old(Value()))
    {
      if past == [] {
        return;
      }
      var last := past[|past| - 1];
      past := past[..|past| - 1];
      future := [fields] + future;
      fields := last;
    }

    method RedoNext()
      modifies this`fields, this`past, this`future
      ensures Value() == DoRedo(old(Value()))
    {
      if future == [] {
        return;
      }
      var next := future[0];
      future := future[1..];
      past := past + [fields];
      fields := next;
    }

    /** The loop of `copyFieldsToEverySigner`. */
    method CopyFieldsToEverySigner(recipients: seq<EditorRecipient>, mint: (nat, nat) -> string)
      modifies this`fields, this`past, this`future
      ensures Value() == DoCopyToAll(old(Value()), recipients, mint)
    {
      if fields == [] || fields[0].recipientKey == "" {
        return;
      }
      hide Shifted, Commit, Tagged;
      var donorKey := fields[0].recipientKey;
      var donor := Tagged(fields, donorKey);
      var additions: seq<Field> := [];
      var step := 0;
      for k := 0 to |recipients|
        invariant fields == old(fields)
        invariant step == CopiedBefore(fields, donorKey, recipients, k)
        invariant additions == Additions(fields, donorKey, recipients, k, mint)
      {
        var r := recipients[k];
        if r.role != Envelope.Signer || r.key == donorKey {
          continue;
        }
        if exists f :: f in fields && f.recipientKey == r.key {
          continue;
        }
        step := step + 1;
        ghost var before := additions;
        for i := 0 to |donor|
          invariant additions == before + ShiftedAll(donor, r.key, step, k, mint)[..i]
        {
          additions := additions + [Shifted(donor[i], r.key, step, mint(k, i))];
        }
        assert ShiftedAll(donor, r.key, step, k, mint)[..|donor|] == ShiftedAll(donor, r.key, step, k, mint);
      }
      CommitFields(fields + additions);
    }
  }
}
