/**
 Turning a graph of live objects, cyclic or not, into JSON. An edge back to an object on the way
 becomes null; an object that is merely shared is written out wherever it occurs.
 */
module JsonConversion {
  import opened Wrappers

  type Ref = nat

  datatype Atom = None_ | Bool(b: bool) | Int(n: int) | Float(r: real) | Str(s: string)

  datatype Key = StrKey(s: string) | OtherKey

  datatype DictEntry = DictEntry(key: Key, value: Ref)

  datatype Attr = Attr(name: string, value: Ref)

  /** What a model's own dump does: there is none, it raises, or it answers. */
  datatype Dump = NoDump | DumpRaises | Dumps(json: string)

  datatype Node =
    | AtomNode(atom: Atom)
    | ListNode(items: seq<Ref>)
    | DictNode(entries: seq<DictEntry>)
    | Instance(dump: Dump, attrs: seq<Attr>, isCallable: bool)
    | Opaque(dump: Dump, isCallable: bool)   // no attributes to look into; a built-in function is one

  type Heap = map<Ref, Node>

  datatype Tree =
    | Null
    | Leaf(atom: Atom)
    | Dumped(json: string)
    | Unchanged(ref: Ref)
    | Array(items: seq<Tree>)
    | Object(fields: seq<Field>)

  datatype Field = Field(key: string, value: Tree)

  function Targets(node: Node): seq<Ref> {
    match node
    case ListNode(items) => items
    case DictNode(entries) => seq(|entries|, i requires 0 <= i < |entries| => entries[i].value)
    case Instance(_, attrs, _) => seq(|attrs|, i requires 0 <= i < |attrs| => attrs[i].value)
    case _ => []
  }

  /** Every edge ends at an object. */
  predicate IsHeap(heap: Heap) {
    forall ref :: ref in heap ==> AreRefs(heap, Targets(heap[ref]))
  }

  predicate AreRefs(heap: Heap, refs: seq<Ref>) {
    forall i :: 0 <= i < |refs| ==> refs[i] in heap
  }

  predicate IsVisible(key: string) { key == "" || key[0] != '_' }

  predicate HasOtherKey(entries: seq<DictEntry>) {
    exists i :: 0 <= i < |entries| && entries[i].key.OtherKey?
  }

  predicate IsCallable(node: Node) { (node.Instance? || node.Opaque?) && node.isCallable }

  /** The attributes that are written out. */
  function VisibleAttrs(heap: Heap, attrs: seq<Attr>): (r: seq<Attr>)
    requires forall i :: 0 <= i < |attrs| ==> attrs[i].value in heap
    ensures forall i :: 0 <= i < |r| ==> r[i].value in heap && IsVisible(r[i].name)
  {
    if attrs == [] then []
    else
      assert forall i :: 0 <= i < |attrs[1..]| ==> attrs[1..][i] == attrs[i + 1];
      (if IsVisible(attrs[0].name) && !IsCallable(heap[attrs[0].value]) then [attrs[0]] else [])
      + VisibleAttrs(heap, attrs[1..])
  }

  /** The dictionary that is made of the attributes. */
  function AsEntries(attrs: seq<Attr>): (r: seq<DictEntry>)
    ensures |r| == |attrs| && forall i :: 0 <= i < |r| ==> r[i] == DictEntry(StrKey(attrs[i].name), attrs[i].value)
  {
    seq(|attrs|, i requires 0 <= i < |attrs| => DictEntry(StrKey(attrs[i].name), attrs[i].value))
  }

  /** The entries of a dictionary, or of the one made for an instance; none if it is written otherwise. */
  function EntriesOf(heap: Heap, node: Node): (r: Option<seq<DictEntry>>)
    requires IsHeap(heap) && AreRefs(heap, Targets(node))
    ensures r.Some? ==> forall i :: 0 <= i < |r.value| ==> r.value[i].value in heap && r.value[i].key.StrKey?
  {
    match node
    case DictNode(entries) =>
      assert forall i :: 0 <= i < |entries| ==> Targets(node)[i] == entries[i].value;
      if HasOtherKey(entries) then None else Some(entries)
    case Instance(dump, attrs, _) =>
      assert forall i :: 0 <= i < |attrs| ==> Targets(node)[i] == attrs[i].value;
      var visible := VisibleAttrs(heap, attrs);
      if dump.Dumps? || visible == [] then None else Some(AsEntries(visible))
    case _ => None
  }

  // ---------- conversion ----------

  /** `seen` holds the objects on the way down; it grows with every object entered. */
  function Convert(heap: Heap, ref: Ref, seen: set<Ref>): Tree
    requires IsHeap(heap) && ref in heap
    decreases heap.Keys - seen, 0
  {
    if ref in seen then Null
    else
      var path := seen + {ref};
      assert heap.Keys - path < heap.Keys - seen by { assert ref in heap.Keys - seen; }
      var node := heap[ref];
      match node
      case AtomNode(atom) => Leaf(atom)
      case ListNode(items) => Array(ConvertItems(heap, items, path))
      case Opaque(dump, _) => if dump.Dumps? then Dumped(dump.json) else Unchanged(ref)
      case DictNode(_) =>
        var entries := EntriesOf(heap, node);
        if entries.Some? then Object(ConvertEntries(heap, entries.value, path)) else Null
      case Instance(dump, _, _) =>
        var entries := EntriesOf(heap, node);
        if dump.Dumps? then Dumped(dump.json)
        else if entries.Some? then Object(ConvertEntries(heap, entries.value, path))
        else Null
  }

  function ConvertItems(heap: Heap, items: seq<Ref>, seen: set<Ref>): (r: seq<Tree>)
    requires IsHeap(heap) && AreRefs(heap, items)
    ensures |r| == |items|
    decreases heap.Keys - seen, |items| + 1
  {
    if items == [] then []
    else
      assert forall i :: 0 <= i < |items[1..]| ==> items[1..][i] == items[i + 1];
      [Convert(heap, items[0], seen)] + ConvertItems(heap, items[1..], seen)
  }

  function ConvertEntries(heap: Heap, entries: seq<DictEntry>, seen: set<Ref>): seq<Field>
    requires IsHeap(heap) && forall i :: 0 <= i < |entries| ==> entries[i].value in heap && entries[i].key.StrKey?
    decreases heap.Keys - seen, |entries| + 1
  {
    if entries == [] then []
    else
      assert forall i :: 0 <= i < |entries[1..]| ==> entries[1..][i] == entries[i + 1];
      var key := entries[0].key.s;
      (if IsVisible(key) then [Field(key, Convert(heap, entries[0].value, seen))] else [])
      + ConvertEntries(heap, entries[1..], seen)
  }

  function ConvertToJson(heap: Heap, ref: Ref): Tree
    requires IsHeap(heap) && ref in heap
  {
    Convert(heap, ref, {})
  }

  // ---------- routes ----------

  datatype Step = Index(i: nat) | ByKey(key: string)

  function FindEntry(entries: seq<DictEntry>, key: string): (r: Option<Ref>)
    ensures r.Some? ==> exists i :: 0 <= i < |entries| && entries[i] == DictEntry(StrKey(key), r.value)
  {
    if entries == [] then None
    else if entries[0].key == StrKey(key) then Some(entries[0].value)
    else
      assert forall i :: 0 <= i < |entries[1..]| ==> entries[1..][i] == entries[i + 1];
      FindEntry(entries[1..], key)
  }

  /** The object one step further, if it is one that is written out. */
  function Child(heap: Heap, ref: Ref, step: Step): (r: Option<Ref>)
    requires IsHeap(heap) && ref in heap
    ensures r.Some? ==> r.value in heap
  {
    match step
    case Index(i) =>
      if heap[ref].ListNode? && i < |heap[ref].items| then
        assert Targets(heap[ref])[i] in heap;
        Some(heap[ref].items[i])
      else None
    case ByKey(key) =>
      var entries := EntriesOf(heap, heap[ref]);
      if entries.Some? && IsVisible(key) then FindEntry(entries.value, key) else None
  }

  /** The objects a route passes, the first and the last included. */
  function Walk(heap: Heap, ref: Ref, route: seq<Step>): (r: Option<seq<Ref>>)
    requires IsHeap(heap) && ref in heap
    ensures r.Some? ==> |r.value| == |route| + 1 && r.value[0] == ref && forall i :: 0 <= i < |r.value| ==> r.value[i] in heap
    decreases |route|
  {
    if route == [] then Some([ref])
    else
      var next := Child(heap, ref, route[0]);
      if next.None? then None
      else
        var rest := Walk(heap, next.value, route[1..]);
        if rest.None? then None else Some([ref] + rest.value)
  }

  function FindField(fields: seq<Field>, key: string): Option<Tree> {
    if fields == [] then None
    else if fields[0].key == key then Some(fields[0].value)
    else FindField(fields[1..], key)
  }

  function StepInto(t: Tree, step: Step): Option<Tree> {
    match step
    case Index(i) => if t.Array? && i < |t.items| then Some(t.items[i]) else None
    case ByKey(key) => if t.Object? then FindField(t.fields, key) else None
  }

  /** What the JSON has at a route. */
  function At(t: Tree, route: seq<Step>): Option<Tree>
    decreases |route|
  {
    if route == [] then Some(t)
    else
      var next := StepInto(t, route[0]);
      if next.None? then None else At(next.value, route[1..])
  }

  predicate NoRepeat(refs: seq<Ref>) {
    forall i, j :: 0 <= i < j < |refs| ==> refs[i] != refs[j]
  }

  lemma {:induction false} ItemsConvert(heap: Heap, items: seq<Ref>, seen: set<Ref>, i: nat)
    requires IsHeap(heap) && AreRefs(heap, items) && i < |items|
    ensures ConvertItems(heap, items, seen)[i] == Convert(heap, items[i], seen)
    decreases |items|
  {
    if i > 0 {
      assert forall j :: 0 <= j < |items[1..]| ==> items[1..][j] == items[j + 1];
      ItemsConvert(heap, items[1..], seen, i - 1);
    }
  }

  lemma {:induction false} EntriesConvert(heap: Heap, entries: seq<DictEntry>, seen: set<Ref>, key: string)
    requires IsHeap(heap) && forall i :: 0 <= i < |entries| ==> entries[i].value in heap && entries[i].key.StrKey?
    ensures var found := FindEntry(entries, key);
      FindField(ConvertEntries(heap, entries, seen), key)
      == if IsVisible(key) && found.Some? then Some(Convert(heap, found.value, seen)) else None
    decreases |entries|
  {
    if entries != [] {
      assert forall i :: 0 <= i < |entries[1..]| ==> entries[1..][i] == entries[i + 1];
      EntriesConvert(heap, entries[1..], seen, key);
      if IsVisible(entries[0].key.s) {
        assert ConvertEntries(heap, entries, seen)[1..] == ConvertEntries(heap, entries[1..], seen);
      } else {
        assert ConvertEntries(heap, entries, seen) == ConvertEntries(heap, entries[1..], seen);
      }
    }
  }

  /** One step in the JSON is one step in the graph, with the object just left on the way. */
  lemma StepsAgree(heap: Heap, ref: Ref, seen: set<Ref>, step: Step)
    requires IsHeap(heap) && ref in heap && ref !in seen
    ensures var next := Child(heap, ref, step);
      StepInto(Convert(heap, ref, seen), step)
      == if next.Some? then Some(Convert(heap, next.value, seen + {ref})) else None
  {
    var node := heap[ref];
    match step
    case Index(i) =>
      if node.ListNode? && i < |node.items| { ItemsConvert(heap, node.items, seen + {ref}, i); }
    case ByKey(key) =>
      var entries := EntriesOf(heap, node);
      if entries.Some? { EntriesConvert(heap, entries.value, seen + {ref}, key); }
  }

  /** What has been seen when a route ends: everything entered on it, but not the last object. */
  function Passed(heap: Heap, ref: Ref, seen: set<Ref>, route: seq<Step>): set<Ref>
    requires IsHeap(heap) && ref in heap && Walk(heap, ref, route).Some?
    decreases |route|
  {
    if route == [] then seen else Passed(heap, Child(heap, ref, route[0]).value, seen + {ref}, route[1..])
  }

  /** The route enters no object that has been seen. */
  predicate IsFresh(heap: Heap, ref: Ref, seen: set<Ref>, route: seq<Step>)
    requires IsHeap(heap) && ref in heap && Walk(heap, ref, route).Some?
    decreases |route|
  {
    route == [] || (ref !in seen && IsFresh(heap, Child(heap, ref, route[0]).value, seen + {ref}, route[1..]))
  }

  function Last(heap: Heap, ref: Ref, route: seq<Step>): (r: Ref)
    requires IsHeap(heap) && ref in heap && Walk(heap, ref, route).Some?
    ensures r in heap
    decreases |route|
  {
    if route == [] then ref else Last(heap, Child(heap, ref, route[0]).value, route[1..])
  }

  /** The JSON at a route is the conversion of the object there, with the route's objects on the way. */
  lemma {:induction false} RouteConverts(heap: Heap, ref: Ref, seen: set<Ref>, route: seq<Step>)
    requires IsHeap(heap) && ref in heap && Walk(heap, ref, route).Some? && IsFresh(heap, ref, seen, route)
    ensures At(Convert(heap, ref, seen), route) == Some(Convert(heap, Last(heap, ref, route), Passed(heap, ref, seen, route)))
    decreases |route|
  {
    if route != [] {
      StepsAgree(heap, ref, seen, route[0]);
      RouteConverts(heap, Child(heap, ref, route[0]).value, seen + {ref}, route[1..]);
    }
  }

  /** What the recursive description of a route says of the objects it passes. */
  lemma {:induction false} WalkPasses(heap: Heap, ref: Ref, seen: set<Ref>, route: seq<Step>)
    requires IsHeap(heap) && ref in heap && Walk(heap, ref, route).Some? && NoRepeat(Walk(heap, ref, route).value)
    requires forall x :: x in Walk(heap, ref, route).value ==> x !in seen
    ensures var refs := Walk(heap, ref, route).value; var last := Last(heap, ref, route);
      && IsFresh(heap, ref, seen, route) && last == refs[|route|]
      && last !in Passed(heap, ref, seen, route)
      && (forall x :: x in refs ==> x in Passed(heap, ref, seen, route) || x == last)
      && seen <= Passed(heap, ref, seen, route)
    decreases |route|
  {
    hide Walk, Passed, Last, IsFresh;
    if route == [] {
      RouteEnds(heap, ref, seen);
    } else {
      RouteGoesOn(heap, ref, seen, route);
      var next, behind := Child(heap, ref, route[0]).value, seen + {ref};
      var rest := Walk(heap, next, route[1..]).value;
      TailHasNoRepeat(ref, rest);
      assert forall x :: x in rest ==> x in [ref] + rest;
      WalkPasses(heap, next, behind, route[1..]);
      OneMorePassed(ref, rest, Passed(heap, next, behind, route[1..]), Last(heap, next, route[1..]));
    }
  }

  lemma RouteEnds(heap: Heap, ref: Ref, seen: set<Ref>)
    requires IsHeap(heap) && ref in heap
    ensures Walk(heap, ref, []) == Some([ref]) && Last(heap, ref, []) == ref
    ensures Passed(heap, ref, seen, []) == seen && IsFresh(heap, ref, seen, [])
  {
  }

  /** The four descriptions of a route, one object further. */
  lemma RouteGoesOn(heap: Heap, ref: Ref, seen: set<Ref>, route: seq<Step>)
    requires IsHeap(heap) && ref in heap && route != [] && Walk(heap, ref, route).Some?
    ensures Child(heap, ref, route[0]).Some?
    ensures var next, behind := Child(heap, ref, route[0]).value, seen + {ref};
      && Walk(heap, next, route[1..]).Some?
      && Walk(heap, ref, route).value == [ref] + Walk(heap, next, route[1..]).value
      && Passed(heap, ref, seen, route) == Passed(heap, next, behind, route[1..])
      && Last(heap, ref, route) == Last(heap, next, route[1..])
      && (IsFresh(heap, ref, seen, route) <==> ref !in seen && IsFresh(heap, next, behind, route[1..]))
  {
  }

  lemma OneMorePassed(ref: Ref, rest: seq<Ref>, passed: set<Ref>, last: Ref)
    requires ref in passed && forall x :: x in rest ==> x in passed || x == last
    ensures forall x :: x in [ref] + rest ==> x in passed || x == last
  {
  }

  lemma TailHasNoRepeat(ref: Ref, rest: seq<Ref>)
    requires NoRepeat([ref] + rest)
    ensures NoRepeat(rest) && ref !in rest
  {
    var all := [ref] + rest;
    forall i, j | 0 <= i < j < |rest| ensures rest[i] != rest[j] {
      assert all[i + 1] != all[j + 1];
    }
    forall i | 0 <= i < |rest| ensures rest[i] != ref {
      assert all[0] != all[i + 1];
    }
  }

  /** How an object is written, its parts aside. */
  predicate HasShape(heap: Heap, ref: Ref, t: Tree)
    requires IsHeap(heap) && ref in heap
  {
    match heap[ref]
    case AtomNode(atom) => t == Leaf(atom)
    case ListNode(items) => t.Array? && |t.items| == |items|
    case Opaque(dump, _) => t == if dump.Dumps? then Dumped(dump.json) else Unchanged(ref)
    case DictNode(entries) => if HasOtherKey(entries) then t == Null else t.Object?
    case Instance(dump, attrs, _) =>
      if dump.Dumps? then t == Dumped(dump.json)
      else if EntriesOf(heap, heap[ref]).None? then t == Null
      else t.Object?
  }

  /**
   At every route that does not come back to an object on it, the JSON has that object in full; a
   shared object is written out at each of its routes. A route that comes back for the first time
   ends in null, and goes no further. Where the graph has no such route, neither has the JSON.
   */
  lemma EveryRouteIsRight(heap: Heap, ref: Ref, route: seq<Step>, step: Step)
    requires IsHeap(heap) && ref in heap
    requires Walk(heap, ref, route).Some? && NoRepeat(Walk(heap, ref, route).value)
    ensures var last := Walk(heap, ref, route).value[|route|]; var t := At(ConvertToJson(heap, ref), route);
      && t.Some? && HasShape(heap, last, t.value)
      && var next := Child(heap, last, step); var further := StepInto(t.value, step);
        && (further.Some? <==> next.Some?)
        && (next.Some? && next.value in Walk(heap, ref, route).value ==> further.value == Null)
  {
    WalkPasses(heap, ref, {}, route);
    RouteConverts(heap, ref, {}, route);
    StepsAgree(heap, Last(heap, ref, route), Passed(heap, ref, {}, route), step);
  }

  // ---------- plain data ----------

  /** JSON-like data as a value. */
  datatype Data = DAtom(atom: Atom) | DList(items: seq<Data>) | DDict(fields: seq<DField>)

  datatype DField = DField(key: string, value: Data)

  /** The object graph below `ref` holds exactly this data. */
  predicate Stores(heap: Heap, ref: Ref, data: Data)
    decreases data
  {
    ref in heap && match data
      case DAtom(atom) => heap[ref] == AtomNode(atom)
      case DList(items) =>
        && heap[ref].ListNode? && |heap[ref].items| == |items|
        && forall i :: 0 <= i < |items| ==> Stores(heap, heap[ref].items[i], items[i])
      case DDict(fields) =>
        && heap[ref].DictNode? && |heap[ref].entries| == |fields|
        && forall i :: 0 <= i < |fields| ==>
          heap[ref].entries[i].key == StrKey(fields[i].key) && Stores(heap, heap[ref].entries[i].value, fields[i].value)
  }

  /** The data without the keys that start with an underscore, at every level. */
  function Stripped(data: Data): Tree {
    match data
    case DAtom(atom) => Leaf(atom)
    case DList(items) => Array(seq(|items|, i requires 0 <= i < |items| => Stripped(items[i])))
    case DDict(fields) => Object(StrippedFields(fields))
  }

  function StrippedFields(fields: seq<DField>): seq<Field> {
    if fields == [] then []
    else
      (if IsVisible(fields[0].key) then [Field(fields[0].key, Stripped(fields[0].value))] else [])
      + StrippedFields(fields[1..])
  }

  /** An object holds one value. */
  lemma {:induction false} StoresIsUnique(heap: Heap, ref: Ref, a: Data, b: Data)
    requires Stores(heap, ref, a) && Stores(heap, ref, b)
    ensures a == b
    decreases a
  {
    match a
    case DAtom(_) =>
    case DList(items) =>
      forall i | 0 <= i < |items| ensures items[i] == b.items[i] {
        StoresIsUnique(heap, heap[ref].items[i], items[i], b.items[i]);
      }
      assert items == b.items;
    case DDict(fields) =>
      forall i | 0 <= i < |fields| ensures fields[i] == b.fields[i] {
        StoresIsUnique(heap, heap[ref].entries[i].value, fields[i].value, b.fields[i].value);
      }
      assert fields == b.fields;
  }

  /** How deep the data is nested; what is inside is less deep. */
  function Depth(data: Data): nat {
    match data
    case DAtom(_) => 0
    case DList(items) => 1 + DepthOfItems(items)
    case DDict(fields) => 1 + DepthOfFields(fields)
  }

  function DepthOfItems(items: seq<Data>): (d: nat)
    ensures forall i :: 0 <= i < |items| ==> Depth(items[i]) <= d
  {
    if items == [] then 0
    else
      var first, rest := Depth(items[0]), DepthOfItems(items[1..]);
      assert forall i :: 0 < i < |items| ==> items[i] == items[1..][i - 1];
      if first > rest then first else rest
  }

  function DepthOfFields(fields: seq<DField>): (d: nat)
    ensures forall i :: 0 <= i < |fields| ==> Depth(fields[i].value) <= d
  {
    if fields == [] then 0
    else
      var first, rest := Depth(fields[0].value), DepthOfFields(fields[1..]);
      assert forall i :: 0 < i < |fields| ==> fields[i] == fields[1..][i - 1];
      if first > rest then first else rest
  }

  /** The objects on the way hold data that is nested deeper than `depth`. */
  predicate AreDeeper(heap: Heap, above: map<Ref, Data>, depth: nat) {
    forall s :: s in above ==> Stores(heap, s, above[s]) && Depth(above[s]) > depth
  }

  lemma NotOnTheWay(heap: Heap, ref: Ref, data: Data, above: map<Ref, Data>)
    requires Stores(heap, ref, data) && AreDeeper(heap, above, Depth(data))
    ensures ref !in above
  {
    if ref in above { StoresIsUnique(heap, ref, data, above[ref]); }
  }

  /** Data converts to itself without its underscore keys, wherever it stands. */
  lemma {:induction false} DataConverts(heap: Heap, ref: Ref, data: Data, above: map<Ref, Data>)
    requires IsHeap(heap) && Stores(heap, ref, data) && AreDeeper(heap, above, Depth(data))
    ensures Convert(heap, ref, above.Keys) == Stripped(data)
    decreases data, 2
  {
    NotOnTheWay(heap, ref, data, above);
    var more := above[ref := data];
    assert more.Keys == above.Keys + {ref};
    match data
    case DAtom(_) =>
    case DList(items) =>
      ItemsStrip(heap, heap[ref].items, items, more, data);
    case DDict(fields) =>
      assert !HasOtherKey(heap[ref].entries);
      FieldsStrip(heap, heap[ref].entries, fields, more, data);
  }

  lemma {:induction false} ItemsStrip(heap: Heap, refs: seq<Ref>, items: seq<Data>, above: map<Ref, Data>, whole: Data)
    requires IsHeap(heap) && AreRefs(heap, refs) && |refs| == |items| && AreDeeper(heap, above, DepthOfItems(items))
    requires forall i :: 0 <= i < |items| ==> Stores(heap, refs[i], items[i]) && items[i] < whole
    ensures ConvertItems(heap, refs, above.Keys) == seq(|items|, i requires 0 <= i < |items| => Stripped(items[i]))
    decreases whole, 1
  {
    forall i: nat | i < |items| ensures ConvertItems(heap, refs, above.Keys)[i] == Stripped(items[i]) {
      ItemsConvert(heap, refs, above.Keys, i);
      DataConverts(heap, refs[i], items[i], above);
    }
  }

  lemma {:induction false} FieldsStrip(heap: Heap, entries: seq<DictEntry>, fields: seq<DField>, above: map<Ref, Data>, whole: Data)
    requires IsHeap(heap) && |entries| == |fields| && AreDeeper(heap, above, DepthOfFields(fields))
    requires forall i :: 0 <= i < |fields| ==>
      && entries[i].key == StrKey(fields[i].key) && entries[i].value in heap
      && Stores(heap, entries[i].value, fields[i].value) && fields[i].value < whole
    ensures ConvertEntries(heap, entries, above.Keys) == StrippedFields(fields)
    decreases whole, 1, |fields|
  {
    if fields != [] {
      DataConverts(heap, entries[0].value, fields[0].value, above);
      assert forall i :: 0 <= i < |fields[1..]| ==> fields[1..][i] == fields[i + 1] && entries[1..][i] == entries[i + 1];
      FieldsStrip(heap, entries[1..], fields[1..], above, whole);
    }
  }

  /** Plain data comes back as it was, with exactly the underscore keys gone. */
  lemma PlainDataIsStripped(heap: Heap, ref: Ref, data: Data)
    requires IsHeap(heap) && Stores(heap, ref, data)
    ensures ConvertToJson(heap, ref) == Stripped(data)
  {
    var nothing: map<Ref, Data> := map[];
    DataConverts(heap, ref, data, nothing);
    assert nothing.Keys == {};
  }

  /** What is left of the keys of a dictionary. */
  lemma {:induction false} OnlyVisibleKeysRemain(fields: seq<DField>)
    ensures forall f :: f in StrippedFields(fields) ==> IsVisible(f.key)
    ensures forall i :: 0 <= i < |fields| && IsVisible(fields[i].key) ==>
      Field(fields[i].key, Stripped(fields[i].value)) in StrippedFields(fields)
    decreases |fields|
  {
    if fields != [] {
      OnlyVisibleKeysRemain(fields[1..]);
      assert forall i :: 0 < i < |fields| ==> fields[i] == fields[1..][i - 1];
    }
  }

  // ---------- the injected count ----------

  const INJECTED_COUNT := "_memori_injected_count"

  /** A dictionary with a key set; a key that is new goes last. */
  function WithField(fields: seq<Field>, key: string, value: Tree): seq<Field> {
    if fields == [] then [Field(key, value)]
    else if fields[0].key == key then [Field(key, value)] + fields[1..]
    else [fields[0]] + WithField(fields[1..], key, value)
  }

  /** The arguments of a call as they are stored: converted, and then given the count if there is one. */
  function FormatKwargs(heap: Heap, kwargs: Ref, count: nat): Tree
    requires IsHeap(heap) && kwargs in heap
  {
    var t := ConvertToJson(heap, kwargs);
    if count > 0 && t.Object? then Object(WithField(t.fields, INJECTED_COUNT, Leaf(Int(count)))) else t
  }

  /** What the adapter takes the count to be. */
  function ReadCount(t: Tree): int {
    if t.Object? && FindField(t.fields, INJECTED_COUNT).Some? then
      match FindField(t.fields, INJECTED_COUNT).value
      case Leaf(Int(n)) => n
      case _ => 0
    else 0
  }

  lemma {:induction false} FindWithField(fields: seq<Field>, key: string, value: Tree)
    ensures FindField(WithField(fields, key, value), key) == Some(value)
    decreases |fields|
  {
    if fields != [] && fields[0].key != key {
      FindWithField(fields[1..], key, value);
      assert WithField(fields, key, value)[1..] == WithField(fields[1..], key, value);
    }
  }

  /** The count arrives as it was sent, even if it is zero and the caller's arguments have a key of that name. */
  lemma CountArrives(heap: Heap, kwargs: Ref, count: nat)
    requires IsHeap(heap) && kwargs in heap && heap[kwargs].DictNode? && !HasOtherKey(heap[kwargs].entries)
    ensures ReadCount(FormatKwargs(heap, kwargs, count)) == count
  {
    var entries := EntriesOf(heap, heap[kwargs]).value;
    EntriesConvert(heap, entries, {} + {kwargs}, INJECTED_COUNT);
    assert INJECTED_COUNT[0] == '_';
    FindWithField(ConvertToJson(heap, kwargs).fields, INJECTED_COUNT, Leaf(Int(count)));
  }
}
