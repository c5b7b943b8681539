/**
 Versioned mutation of a message: patch, insert, remove, fix and delete on its list of parts.
 */
module MessageEvents {
  import opened Common
  import opened Text

  datatype Json =
    | Null
    | Bool(b: bool)
    | Number(n: int)
    | Str(s: string)
    | Array(items: seq<Json>)
    | Object(fields: map<string, Json>)

  datatype Part = TextPart(text: string) | ImagePart(mimeType: string, dataBase64: string)

  datatype ActorType = Account | Soul | System

  datatype State = Pending | Fixed

  datatype Message = Message(
    id: string, actorType: ActorType, actorId: string, parts: seq<Part>,
    state: State, version: int, deletedAt: Option<string>)

  datatype PartPatch = PartPatch(index: int, merge: Json)
  datatype InsertItem = InsertItem(index: int, part: Part)

  datatype Payload =
    | Patch(patches: seq<PartPatch>)
    | Insert(items: seq<InsertItem>)
    | Remove(indexes: seq<int>)
    | Fix
    | Delete(reason: Option<string>)

  // ---------------------------------------------------------------------------------------
  // Patching a part: it is written as a JSON object, merged shallowly, and read back

  function PartToJson(p: Part): map<string, Json> {
    match p
    case TextPart(t) => map["type" := Str("text"), "text" := Str(t)]
    case ImagePart(m, d) => map["type" := Str("image"), "mime_type" := Str(m), "data_base64" := Str(d)]
  }

  predicate HasString(fields: map<string, Json>, key: string) {
    key in fields && fields[key].Str?
  }

  function PartFromJson(fields: map<string, Json>): Result<Part> {
    if HasString(fields, "type") && fields["type"].s == "text" && HasString(fields, "text") then
      Ok(TextPart(fields["text"].s))
    else if HasString(fields, "type") && fields["type"].s == "image"
            && HasString(fields, "mime_type") && HasString(fields, "data_base64") then
      Ok(ImagePart(fields["mime_type"].s, fields["data_base64"].s))
    else
      Err(InvalidInput("patch produced invalid message part"))
  }

  function MergePart(p: Part, merge: Json): Result<Part> {
    if !merge.Object? then Err(InvalidInput("patch merge must be an object"))
    else PartFromJson(PartToJson(p) + merge.fields)
  }

  function OutOfBounds(action: string, raw: int): Error {
    InvalidInput(action + " index out of bounds: " + Decimal(raw))
  }

  function PatchAll(parts: seq<Part>, patches: seq<PartPatch>): Result<seq<Part>> {
    if patches == [] then Ok(parts) else
      var before :- PatchAll(parts, patches[..|patches| - 1]);
      var patch := patches[|patches| - 1];
      if !(0 <= patch.index < |before|) then Err(OutOfBounds("patch", patch.index)) else
        var part :- MergePart(before[patch.index], patch.merge);
        Ok(before[patch.index := part])
  }

  // ---------------------------------------------------------------------------------------
  // Inserting and removing

  function InsertAt<T>(s: seq<T>, i: nat, x: T): seq<T>
    requires i <= |s|
  {
    s[..i] + [x] + s[i..]
  }

  function RemoveAt<T>(s: seq<T>, i: nat): seq<T>
    requires i < |s|
  {
    s[..i] + s[i + 1..]
  }

  /** Items in order of their index; equal indexes keep their order. */
  function PlaceItem(sorted: seq<InsertItem>, item: InsertItem): seq<InsertItem> {
    if sorted != [] && sorted[|sorted| - 1].index > item.index
    then PlaceItem(sorted[..|sorted| - 1], item) + [sorted[|sorted| - 1]]
    else sorted + [item]
  }

  function SortItems(items: seq<InsertItem>): seq<InsertItem> {
    if items == [] then [] else PlaceItem(SortItems(items[..|items| - 1]), items[|items| - 1])
  }

  function InsertAll(parts: seq<Part>, items: seq<InsertItem>): Result<seq<Part>> {
    if items == [] then Ok(parts) else
      var before :- InsertAll(parts, items[..|items| - 1]);
      var item := items[|items| - 1];
      if !(0 <= item.index <= |before|) then Err(OutOfBounds("insert", item.index))
      else Ok(InsertAt(before, item.index, item.part))
  }

  function InsertParts(parts: seq<Part>, items: seq<InsertItem>): Result<seq<Part>> {
    InsertAll(parts, SortItems(items))
  }

  /** Indexes ascending, each once. */
  function PlaceIndex(sorted: seq<int>, x: int): seq<int> {
    if sorted == [] || sorted[|sorted| - 1] < x then sorted + [x]
    else if sorted[|sorted| - 1] == x then sorted
    else PlaceIndex(sorted[..|sorted| - 1], x) + [sorted[|sorted| - 1]]
  }

  function SortDistinct(indexes: seq<int>): seq<int> {
    if indexes == [] then [] else PlaceIndex(SortDistinct(indexes[..|indexes| - 1]), indexes[|indexes| - 1])
  }

  predicate InBounds(indexes: seq<int>, n: nat) {
    forall k :: 0 <= k < |indexes| ==> 0 <= indexes[k] < n
  }

  function FirstOutOfBounds(indexes: seq<int>, n: nat): (k: nat)
    requires !InBounds(indexes, n)
    ensures k < |indexes| && !(0 <= indexes[k] < n)
    ensures forall j :: 0 <= j < k ==> 0 <= indexes[j] < n
  {
    if !(0 <= indexes[0] < n) then 0 else
      assert forall j :: 1 <= j < |indexes| ==> indexes[j] == indexes[1..][j - 1];
      1 + FirstOutOfBounds(indexes[1..], n)
  }

  /** Removal from the highest index down, so that the lower ones keep their meaning. */
  function RemoveAll(parts: seq<Part>, ascending: seq<int>): (r: seq<Part>)
    requires StrictlyAscending(ascending) && InBounds(ascending, |parts|)
    ensures |r| == |parts| - |ascending|
    decreases |ascending|
  {
    if ascending == [] then parts else
      var i := ascending[|ascending| - 1];
      RemoveAll(RemoveAt(parts, i), ascending[..|ascending| - 1])
  }

  function RemoveParts(parts: seq<Part>, indexes: seq<int>): Result<seq<Part>> {
    var ascending := SortDistinct(indexes);
    if !InBounds(ascending, |parts|) then
      Err(OutOfBounds("remove", ascending[FirstOutOfBounds(ascending, |parts|)]))
    else
      SortDistinctSpec(indexes);
      Ok(RemoveAll(parts, ascending))
  }

  lemma {:induction false} PlaceIndexSpec(sorted: seq<int>, x: int)
    requires StrictlyAscending(sorted)
    ensures StrictlyAscending(PlaceIndex(sorted, x))
    ensures forall k :: k in PlaceIndex(sorted, x) <==> k in sorted || k == x
  {
    if sorted != [] {
      var last := sorted[|sorted| - 1];
      assert sorted == sorted[..|sorted| - 1] + [last];
      if last > x {
        PlaceIndexSpec(sorted[..|sorted| - 1], x);
        var r := PlaceIndex(sorted[..|sorted| - 1], x);
        forall i | 0 <= i < |r| ensures r[i] < last {
          assert r[i] in r;
        }
      }
    }
  }

  lemma {:induction false} SortDistinctSpec(indexes: seq<int>)
    ensures StrictlyAscending(SortDistinct(indexes))
    ensures forall k :: k in SortDistinct(indexes) <==> k in indexes
  {
    if indexes != [] {
      SortDistinctSpec(indexes[..|indexes| - 1]);
      PlaceIndexSpec(SortDistinct(indexes[..|indexes| - 1]), indexes[|indexes| - 1]);
      assert indexes == indexes[..|indexes| - 1] + [indexes[|indexes| - 1]];
    }
  }

  // ---------------------------------------------------------------------------------------
  // Applying an event

  function NewParts(parts: seq<Part>, payload: Payload): Result<seq<Part>> {
    match payload
    case Patch(patches) => PatchAll(parts, patches)
    case Insert(items) => InsertParts(parts, items)
    case Remove(indexes) => RemoveParts(parts, indexes)
    case Fix => Ok(parts)
    case Delete(_) => Ok(parts)
  }

  function Rejection(m: Message, actorType: ActorType, actorId: string, baseVersion: int): Option<Error> {
    if m.actorType != actorType || m.actorId != actorId then
      Some(InvalidInput("only the original actor may mutate a message"))
    else if m.version != baseVersion then
      Some(InvalidInput("message version mismatch: expected " + Decimal(m.version) + ", got " + Decimal(baseVersion)))
    else if m.deletedAt.Some? then Some(InvalidInput("deleted messages cannot be mutated"))
    else if m.state == Fixed then Some(InvalidInput("fixed messages cannot be mutated"))
    else None
  }

  function Apply(m: Message, actorType: ActorType, actorId: string, baseVersion: int,
      payload: Payload): Result<Message> {
    var rejection := Rejection(m, actorType, actorId, baseVersion);
    if rejection.Some? then Err(rejection.value) else
      var parts :- NewParts(m.parts, payload);
      Ok(m.(parts := parts,
            state := if payload.Fix? then Fixed else m.state,
            deletedAt := if payload.Delete? then Some("") else m.deletedAt,
            version := m.version + 1))
  }

  method ApplyMessageEvent(original: Message, actorType: ActorType, actorId: string, baseVersion: int, payload: Payload)
    returns (r: Result<Message>)
    ensures r == Apply(original, actorType, actorId, baseVersion, payload)
  {
    var message := original;
    if message.actorType != actorType || message.actorId != actorId {
      return Err(InvalidInput("only the original actor may mutate a message"));
    }
    if message.version != baseVersion {
      return Err(InvalidInput("message version mismatch: expected " + Decimal(message.version) + ", got " + Decimal(baseVersion)));
    }
    if message.deletedAt.Some? {
      return Err(InvalidInput("deleted messages cannot be mutated"));
    }
    if message.state == Fixed {
      return Err(InvalidInput("fixed messages cannot be mutated"));
    }
    match payload {
      case Patch(patches) =>
        var parts := PatchLoop(message.parts, patches);
        if parts.Err? { return Err(parts.error); }
        message := message.(parts := parts.value);
      case Insert(items) =>
        var parts := InsertLoop(message.parts, SortItems(items));
        if parts.Err? { return Err(parts.error); }
        message := message.(parts := parts.value);
      case Remove(indexes) =>
        var parts := RemoveLoop(message.parts, indexes);
        if parts.Err? { return Err(parts.error); }
        message := message.(parts := parts.value);
      case Fix =>
        message := message.(state := Fixed);
      case Delete(_) =>
        message := message.(deletedAt := Some(""));
    }
    message := message.(version := message.version + 1);
    return Ok(message);
  }

  method PatchLoop(original: seq<Part>, patches: seq<PartPatch>) returns (r: Result<seq<Part>>)
    ensures r == PatchAll(original, patches)
  {
    var parts := original;
    for k := 0 to |patches|
      invariant PatchAll(original, patches[..k]) == Ok(parts)
    {
      var patch := patches[k];
      assert patches[..k + 1][..k] == patches[..k];
      if !(0 <= patch.index < |parts|) {
        PatchErrStops(original, patches, k + 1);
        return Err(OutOfBounds("patch", patch.index));
      }
      var part := MergePart(parts[patch.index], patch.merge);
      if part.Err? {
        PatchErrStops(original, patches, k + 1);
        return Err(part.error);
      }
      parts := parts[patch.index := part.value];
    }
    assert patches[..|patches|] == patches;
    return Ok(parts);
  }

  lemma {:induction false} PatchErrStops(parts: seq<Part>, patches: seq<PartPatch>, k: nat)
    requires k <= |patches| && PatchAll(parts, patches[..k]).Err?
    ensures PatchAll(parts, patches) == PatchAll(parts, patches[..k])
  {
    if k < |patches| {
      assert patches[..|patches| - 1][..k] == patches[..k];
      PatchErrStops(parts, patches[..|patches| - 1], k);
    } else {
      assert patches[..k] == patches;
    }
  }

  method InsertLoop(original: seq<Part>, items: seq<InsertItem>) returns (r: Result<seq<Part>>)
    ensures r == InsertAll(original, items)
  {
    var parts := original;
    for k := 0 to |items|
      invariant InsertAll(original, items[..k]) == Ok(parts)
    {
      var item := items[k];
      assert items[..k + 1][..k] == items[..k];
      if !(0 <= item.index <= |parts|) {
        InsertErrStops(original, items, k + 1);
        return Err(OutOfBounds("insert", item.index));
      }
      parts := InsertAt(parts, item.index, item.part);
    }
    assert items[..|items|] == items;
    return Ok(parts);
  }

  lemma {:induction false} InsertErrStops(parts: seq<Part>, items: seq<InsertItem>, k: nat)
    requires k <= |items| && InsertAll(parts, items[..k]).Err?
    ensures InsertAll(parts, items) == InsertAll(parts, items[..k])
  {
    if k < |items| {
      assert items[..|items| - 1][..k] == items[..k];
      InsertErrStops(parts, items[..|items| - 1], k);
    } else {
      assert items[..k] == items;
    }
  }

  method RemoveLoop(original: seq<Part>, indexes: seq<int>) returns (r: Result<seq<Part>>)
    ensures r == RemoveParts(original, indexes)
  {
    var unique := SortDistinct(indexes);
    SortDistinctSpec(indexes);
    for k := 0 to |unique|
      invariant forall j :: 0 <= j < k ==> 0 <= unique[j] < |original|
    {
      if !(0 <= unique[k] < |original|) {
        return Err(OutOfBounds("remove", unique[k]));
      }
    }
    var parts := RemoveDescending(original, unique);
    return Ok(parts);
  }

  method RemoveDescending(original: seq<Part>, unique: seq<int>) returns (parts: seq<Part>)
    requires StrictlyAscending(unique) && InBounds(unique, |original|)
    ensures parts == RemoveAll(original, unique)
  {
    parts := original;
    var todo := unique;
    while todo != []
      invariant StrictlyAscending(todo) && InBounds(todo, |parts|)
      invariant RemoveAll(original, unique) == RemoveAll(parts, todo)
      decreases |todo|
    {
      parts := RemoveAt(parts, todo[|todo| - 1]);
      todo := todo[..|todo| - 1];
    }
  }

  // ---------------------------------------------------------------------------------------
  // Which events are accepted, and what they leave alone

  /** A message that is fixed or deleted accepts nothing more, from anyone, at any version. */
  predicate Closed(m: Message) {
    m.state == Fixed || m.deletedAt.Some?
  }

  lemma ClosedRejects(m: Message, actorType: ActorType, actorId: string, baseVersion: int, payload: Payload)
    ensures Closed(m) ==> Apply(m, actorType, actorId, baseVersion, payload).Err?
    ensures var r := Apply(m, actorType, actorId, baseVersion, payload);
            r.Ok? ==> r.value.version == baseVersion + 1 && (Closed(r.value) <==> payload.Fix? || payload.Delete?)
  {
  }

  // ---------------------------------------------------------------------------------------
  // Insert and Remove undo each other

  function Indexes(items: seq<InsertItem>): (r: seq<int>)
    ensures |r| == |items| && forall i :: 0 <= i < |r| ==> r[i] == items[i].index
  {
    seq(|items|, i requires 0 <= i < |items| => items[i].index)
  }

  predicate Distinct(s: seq<int>) {
    forall i, j :: 0 <= i < j < |s| ==> s[i] != s[j]
  }

  predicate Ordered(items: seq<InsertItem>) {
    forall i, j :: 0 <= i < j < |items| ==> items[i].index < items[j].index
  }

  predicate HasIndex(items: seq<InsertItem>, k: int) {
    exists x :: x in items && x.index == k
  }

  lemma IndexMembers(items: seq<InsertItem>, k: int)
    ensures k in Indexes(items) <==> HasIndex(items, k)
  {
    if k in Indexes(items) {
      var i :| 0 <= i < |items| && Indexes(items)[i] == k;
      assert items[i] in items;
    }
    if HasIndex(items, k) {
      var x :| x in items && x.index == k;
      var i :| 0 <= i < |items| && items[i] == x;
      assert Indexes(items)[i] == k;
    }
  }

  lemma IndexesInit(items: seq<InsertItem>)
    requires items != []
    ensures Indexes(items) == Indexes(items[..|items| - 1]) + [items[|items| - 1].index]
  {
  }

  /** Placing an item whose index is new keeps the items ordered. */
  lemma {:induction false} PlaceItemSpec(sorted: seq<InsertItem>, item: InsertItem)
    requires Ordered(sorted) && !HasIndex(sorted, item.index)
    ensures Ordered(PlaceItem(sorted, item))
    ensures forall x :: x in PlaceItem(sorted, item) <==> x in sorted || x == item
  {
    if sorted != [] {
      var init, last := sorted[..|sorted| - 1], sorted[|sorted| - 1];
      assert sorted == init + [last];
      if last.index > item.index {
        forall x | x in init ensures x.index != item.index { assert x in sorted; }
        PlaceItemSpec(init, item);
        var r := PlaceItem(init, item);
        forall i | 0 <= i < |r| ensures r[i].index < last.index {
          assert r[i] in r;
        }
      } else {
        assert last in sorted;
      }
    }
  }

  lemma {:induction false} SortItemsSpec(items: seq<InsertItem>)
    requires Distinct(Indexes(items))
    ensures Ordered(SortItems(items))
    ensures forall x :: x in SortItems(items) <==> x in items
  {
    if items != [] {
      var init, last := items[..|items| - 1], items[|items| - 1];
      IndexesInit(items);
      assert items == init + [last];
      assert forall i :: 0 <= i < |init| ==> Indexes(items)[i] != Indexes(items)[|init|];
      SortItemsSpec(init);
      IndexMembers(init, last.index);
      PlaceItemSpec(SortItems(init), last);
    }
  }

  /** The head of an ordered list occurs nowhere else in it. */
  lemma OrderedTail(a: seq<InsertItem>)
    requires a != [] && Ordered(a)
    ensures Ordered(a[1..])
    ensures forall x :: x in a[1..] <==> x in a && x != a[0]
    ensures forall x :: x in a ==> a[0].index <= x.index
  {
    assert a == [a[0]] + a[1..];
  }

  /** Ordered lists of the same items are equal. */
  lemma {:induction false} OrderedUnique(a: seq<InsertItem>, b: seq<InsertItem>)
    requires Ordered(a) && Ordered(b)
    requires forall x :: x in a <==> x in b
    ensures a == b
  {
    assert a != [] ==> a[0] in a;
    assert b != [] ==> b[0] in b;
    if a != [] && b != [] {
      OrderedTail(a);
      OrderedTail(b);
      var i :| 0 <= i < |b| && b[i] == a[0];
      assert a[0] == b[0];
      OrderedUnique(a[1..], b[1..]);
      assert a == [a[0]] + a[1..] && b == [b[0]] + b[1..];
    }
  }

  /** With distinct indexes, the order of the items in the payload does not matter. */
  lemma InsertOrderDoesNotMatter(parts: seq<Part>, a: seq<InsertItem>, b: seq<InsertItem>)
    requires Distinct(Indexes(a)) && Distinct(Indexes(b))
    requires forall x :: x in a <==> x in b
    ensures InsertParts(parts, a) == InsertParts(parts, b)
  {
    SortItemsSpec(a);
    SortItemsSpec(b);
    OrderedUnique(SortItems(a), SortItems(b));
  }

  /** With equal indexes it does: of two items at one index, the later one ends up directly in front. */
  lemma EqualIndexesAreOrdered(parts: seq<Part>, k: nat, first: Part, second: Part)
    requires k <= |parts|
    ensures InsertParts(parts, [InsertItem(k, first), InsertItem(k, second)]) ==
            Ok(parts[..k] + [second, first] + parts[k..])
  {
    var a, b := InsertItem(k, first), InsertItem(k, second);
    assert [a, b][..1] == [a] && [a][..0] == [];
    assert SortItems([a]) == [a] && SortItems([a, b]) == [a, b];
    assert InsertAll(parts, []) == Ok(parts) && InsertAll(parts, [a]) == Ok(InsertAt(parts, k, first));
    assert InsertAt(InsertAt(parts, k, first), k, second) == parts[..k] + [second, first] + parts[k..];
  }

  lemma {:induction false} InsertAllSpec(parts: seq<Part>, items: seq<InsertItem>)
    requires InsertAll(parts, items).Ok?
    ensures |InsertAll(parts, items).value| == |parts| + |items|
    ensures InBounds(Indexes(items), |parts| + |items|)
  {
    if items != [] {
      IndexesInit(items);
      InsertAllSpec(parts, items[..|items| - 1]);
    }
  }

  lemma RemoveAtInsertAt<T>(s: seq<T>, i: nat, x: T)
    requires i <= |s|
    ensures RemoveAt(InsertAt(s, i, x), i) == s
  {
  }

  lemma InsertAtRemoveAt<T>(s: seq<T>, i: nat)
    requires i < |s|
    ensures InsertAt(RemoveAt(s, i), i, s[i]) == s
    ensures forall k :: 0 <= k < i ==> RemoveAt(s, i)[k] == s[k]
  {
  }

  lemma {:induction false} RemoveUndoesInsert(parts: seq<Part>, items: seq<InsertItem>)
    requires InsertAll(parts, items).Ok? && Ordered(items)
    ensures StrictlyAscending(Indexes(items))
    ensures InBounds(Indexes(items), |InsertAll(parts, items).value|)
    ensures RemoveAll(InsertAll(parts, items).value, Indexes(items)) == parts
  {
    InsertAllSpec(parts, items);
    if items != [] {
      var init, last := items[..|items| - 1], items[|items| - 1];
      IndexesInit(items);
      assert Indexes(items)[..|items| - 1] == Indexes(init);
      RemoveAtInsertAt(InsertAll(parts, init).value, last.index, last.part);
      RemoveUndoesInsert(parts, init);
    }
  }

  lemma {:induction false} PlaceIndexLength(sorted: seq<int>, x: int)
    requires StrictlyAscending(sorted)
    ensures |PlaceIndex(sorted, x)| == if x in sorted then |sorted| else |sorted| + 1
  {
    if sorted != [] {
      var init, last := sorted[..|sorted| - 1], sorted[|sorted| - 1];
      assert sorted == init + [last];
      if last > x { PlaceIndexLength(init, x); }
    }
  }

  lemma {:induction false} SortDistinctLength(s: seq<int>)
    ensures |SortDistinct(s)| <= |s|
    ensures |SortDistinct(s)| == |s| <==> Distinct(s)
  {
    if s != [] {
      var init, last := s[..|s| - 1], s[|s| - 1];
      assert s == init + [last];
      SortDistinctLength(init);
      SortDistinctSpec(init);
      PlaceIndexLength(SortDistinct(init), last);
      if Distinct(init) && last in init {
        var i :| 0 <= i < |init| && init[i] == last;
        assert s[i] == s[|s| - 1];
      }
    }
  }

  /**
   Removing the indexes of a successful insert restores the parts exactly when the indexes are
   distinct.
   */
  lemma InsertThenRemove(parts: seq<Part>, items: seq<InsertItem>)
    requires InsertParts(parts, items).Ok?
    ensures RemoveParts(InsertParts(parts, items).value, Indexes(items)) == Ok(parts) <==> Distinct(Indexes(items))
  {
    var inserted := InsertParts(parts, items).value;
    var sorted, ascending := SortItems(items), SortDistinct(Indexes(items));
    InsertAllSpec(parts, sorted);
    SortItemsLength(items);
    SortDistinctSpec(Indexes(items));
    SortDistinctLength(Indexes(items));
    if Distinct(Indexes(items)) {
      SortItemsSpec(items);
      forall k ensures k in Indexes(sorted) <==> k in ascending {
        IndexMembers(sorted, k);
        IndexMembers(items, k);
      }
      AscendingUnique(Indexes(sorted), ascending);
      RemoveUndoesInsert(parts, sorted);
    }
  }

  lemma {:induction false} PlaceItemLength(sorted: seq<InsertItem>, item: InsertItem)
    ensures |PlaceItem(sorted, item)| == |sorted| + 1
  {
    if sorted != [] && sorted[|sorted| - 1].index > item.index {
      PlaceItemLength(sorted[..|sorted| - 1], item);
    }
  }

  lemma {:induction false} SortItemsLength(items: seq<InsertItem>)
    ensures |SortItems(items)| == |items|
  {
    if items != [] {
      SortItemsLength(items[..|items| - 1]);
      PlaceItemLength(SortItems(items[..|items| - 1]), items[|items| - 1]);
    }
  }

  /** The parts at some indexes, as insert items. */
  function ItemsAt(parts: seq<Part>, ascending: seq<int>): (r: seq<InsertItem>)
    requires InBounds(ascending, |parts|)
    ensures |r| == |ascending|
    ensures forall i :: 0 <= i < |r| ==> r[i] == InsertItem(ascending[i], parts[ascending[i]])
  {
    seq(|ascending|, i requires 0 <= i < |ascending| => InsertItem(ascending[i], parts[ascending[i]]))
  }

  lemma {:induction false} InsertUndoesRemove(parts: seq<Part>, ascending: seq<int>)
    requires StrictlyAscending(ascending) && InBounds(ascending, |parts|)
    ensures InsertAll(RemoveAll(parts, ascending), ItemsAt(parts, ascending)) == Ok(parts)
    decreases |ascending|
  {
    if ascending != [] {
      var init, i := ascending[..|ascending| - 1], ascending[|ascending| - 1];
      InsertAtRemoveAt(parts, i);
      InsertUndoesRemove(RemoveAt(parts, i), init);
      var items := ItemsAt(parts, ascending);
      assert items[..|items| - 1] == ItemsAt(RemoveAt(parts, i), init);
    }
  }

  /**
   Removing parts and then inserting the removed parts at their indexes, in any order, is always
   accepted and restores the parts.
   */
  lemma RemoveThenInsert(parts: seq<Part>, indexes: seq<int>, items: seq<InsertItem>)
    requires RemoveParts(parts, indexes).Ok?
    requires Distinct(Indexes(items))
    requires forall x :: x in items <==> x.index in indexes && 0 <= x.index < |parts| && x.part == parts[x.index]
    ensures InsertParts(RemoveParts(parts, indexes).value, items) == Ok(parts)
  {
    hide InsertAll, RemoveAll, SortItems, SortDistinct, Indexes, Distinct;
    var ascending := SortDistinct(indexes);
    SortDistinctSpec(indexes);
    var removed := ItemsAt(parts, ascending);
    InsertUndoesRemove(parts, ascending);
    SortItemsSpec(items);
    forall x ensures x in SortItems(items) <==> x in removed {
      if x in removed {
        var i :| 0 <= i < |removed| && removed[i] == x;
        assert ascending[i] in ascending;
      }
      if x in items {
        assert x.index in ascending;
        var i :| 0 <= i < |ascending| && ascending[i] == x.index;
        assert removed[i] == x;
      }
    }
    OrderedUnique(SortItems(items), removed);
  }

  // ---------------------------------------------------------------------------------------
  // Successive patches

  function TypeOf(p: Part): Json {
    if p.TextPart? then Str("text") else Str("image")
  }

  /** Two patches of one part amount to their merge when the second does not change the part's type. */
  lemma PatchesCompose(p: Part, f: map<string, Json>, g: map<string, Json>)
    requires MergePart(p, Object(f)).Ok?
    requires "type" in g ==> g["type"] == TypeOf(MergePart(p, Object(f)).value)
    ensures MergePart(MergePart(p, Object(f)).value, Object(g)) == MergePart(p, Object(f + g))
  {
    var q := MergePart(p, Object(f)).value;
    var once, twice := PartToJson(p) + (f + g), PartToJson(q) + g;
    MergedKey(p, f, g, "type");
    if q.TextPart? {
      MergedKey(p, f, g, "text");
    } else {
      MergedKey(p, f, g, "mime_type");
      MergedKey(p, f, g, "data_base64");
    }
    ReadsSame(once, twice, q);
  }

  predicate SameAt(a: map<string, Json>, b: map<string, Json>, key: string) {
    (key in a <==> key in b) && (key in a ==> a[key] == b[key])
  }

  /** A field that the patched part has is the same whether the patches are merged or applied in turn. */
  lemma MergedKey(p: Part, f: map<string, Json>, g: map<string, Json>, key: string)
    requires MergePart(p, Object(f)).Ok? && key in PartToJson(MergePart(p, Object(f)).value)
    ensures SameAt(PartToJson(p) + (f + g), PartToJson(MergePart(p, Object(f)).value) + g, key)
  {
    var merged := PartToJson(p) + f;
    assert SameAt(merged, PartToJson(PartFromJson(merged).value), key);
  }

  lemma ReadsSame(a: map<string, Json>, b: map<string, Json>, q: Part)
    requires SameAt(a, b, "type") && "type" in a && a["type"] == TypeOf(q)
    requires q.TextPart? ==> SameAt(a, b, "text")
    requires q.ImagePart? ==> SameAt(a, b, "mime_type") && SameAt(a, b, "data_base64")
    ensures PartFromJson(a) == PartFromJson(b)
  {
    assert Str("text").s != Str("image").s;
  }

  /** The fields that a part of this type is read from. */
  function FieldsOf(type_: string): seq<string> {
    if type_ == "text" then ["text"] else if type_ == "image" then ["mime_type", "data_base64"] else []
  }

  predicate Supplies(fields: map<string, Json>, keys: seq<string>) {
    forall i :: 0 <= i < |keys| ==> HasString(fields, keys[i])
  }

  /**
   The second patch turns the part into another known type without giving all of that type's
   fields, and the missing ones are in the first patch or in the part as it was at first.
   */
  predicate NeedsLostFields(p: Part, f: map<string, Json>, g: map<string, Json>, q: Part) {
    && HasString(g, "type") && g["type"] != TypeOf(q) && FieldsOf(g["type"].s) != []
    && Supplies(PartToJson(p) + (f + g), FieldsOf(g["type"].s))
    && exists i :: 0 <= i < |FieldsOf(g["type"].s)| && FieldsOf(g["type"].s)[i] !in g
  }

  /** Two patches of one part amount to their merge exactly when the second needs no field that the first one lost. */
  lemma {:induction false} PatchesComposeExactly(p: Part, f: map<string, Json>, g: map<string, Json>)
    requires MergePart(p, Object(f)).Ok?
    ensures MergePart(MergePart(p, Object(f)).value, Object(g)) == MergePart(p, Object(f + g))
            <==> !NeedsLostFields(p, f, g, MergePart(p, Object(f)).value)
  {
    var q := MergePart(p, Object(f)).value;
    if "type" in g && g["type"] != TypeOf(q) {
      ComposeAcrossTypes(p, f, g, q);
    } else {
      PatchesCompose(p, f, g);
    }
  }

  lemma ComposeAcrossTypes(p: Part, f: map<string, Json>, g: map<string, Json>, q: Part)
    requires "type" in g && g["type"] != TypeOf(q)
    ensures PartFromJson(PartToJson(q) + g) == PartFromJson(PartToJson(p) + (f + g)) <==> !NeedsLostFields(p, f, g, q)
  {
    var once, twice := PartToJson(p) + (f + g), PartToJson(q) + g;
    assert once["type"] == g["type"] && twice["type"] == g["type"];
    if g["type"] == Str("text") {
      assert FieldsOf("text")[0] == "text";
      assert "text" in twice <==> "text" in g;
    } else if g["type"] == Str("image") {
      assert FieldsOf("image")[0] == "mime_type" && FieldsOf("image")[1] == "data_base64";
      assert "mime_type" in twice <==> "mime_type" in g;
      assert "data_base64" in twice <==> "data_base64" in g;
    }
  }

  /** Changing the type away and back loses the fields in between; the merged patch does not. */
  lemma RetypingLosesFields()
    ensures var toImage := map["type" := Str("image"), "mime_type" := Str("m"), "data_base64" := Str("d")];
            var back := map["type" := Str("text")];
            && MergePart(TextPart("t"), Object(toImage)) == Ok(ImagePart("m", "d"))
            && MergePart(ImagePart("m", "d"), Object(back)).Err?
            && MergePart(TextPart("t"), Object(toImage + back)) == Ok(TextPart("t"))
  {
    var toImage := map["type" := Str("image"), "mime_type" := Str("m"), "data_base64" := Str("d")];
    var back := map["type" := Str("text")];
    assert (PartToJson(ImagePart("m", "d")) + back)["type"] == Str("text");
    assert (PartToJson(TextPart("t")) + (toImage + back))["type"] == Str("text");
  }
}
