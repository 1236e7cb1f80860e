/**
 What is written out of a dictionary or an object, key by key, told from the graph alone: which
 entries and attributes there are in the JSON, and what they hold.
 */
module JsonContents {
  import opened Wrappers
  import opened JsonConversion

  /** Entry `i` is the first one under this key. */
  predicate IsFirstKey(entries: seq<DictEntry>, i: nat, key: string) {
    i < |entries| && entries[i].key == StrKey(key) && forall j :: 0 <= j < i ==> entries[j].key != StrKey(key)
  }

  lemma {:induction false} FindsFirst(entries: seq<DictEntry>, key: string)
    ensures match FindEntry(entries, key)
      case None => forall i :: 0 <= i < |entries| ==> entries[i].key != StrKey(key)
      case Some(value) => exists i: nat :: IsFirstKey(entries, i, key) && value == entries[i].value
    decreases |entries|
  {
    if entries != [] {
      if entries[0].key == StrKey(key) {
        assert IsFirstKey(entries, 0, key);
      } else {
        FindsFirst(entries[1..], key);
        assert forall i :: 0 < i < |entries| ==> entries[i] == entries[1..][i - 1];
        if FindEntry(entries[1..], key).Some? {
          var i: nat :| IsFirstKey(entries[1..], i, key) && FindEntry(entries, key).value == entries[1..][i].value;
          assert IsFirstKey(entries, i + 1, key);
        }
      }
    }
  }

  lemma DictChild(heap: Heap, ref: Ref, key: string)
    requires IsHeap(heap) && ref in heap && heap[ref].DictNode? && !HasOtherKey(heap[ref].entries)
    ensures Child(heap, ref, ByKey(key)) == if IsVisible(key) then FindEntry(heap[ref].entries, key) else None
  {
  }

  /**
   Of a dictionary whose keys are all strings exactly the entries are written whose key does not
   start with an underscore, each with the conversion of its own value.
   */
  lemma EntriesAreWritten(heap: Heap, ref: Ref, seen: set<Ref>, key: string)
    requires IsHeap(heap) && ref in heap && ref !in seen && heap[ref].DictNode? && !HasOtherKey(heap[ref].entries)
    ensures var entries := heap[ref].entries; var written := StepInto(Convert(heap, ref, seen), ByKey(key));
      && Convert(heap, ref, seen).Object?
      && (written.Some? <==> (key == "" || key[0] != '_') && exists i: nat :: IsFirstKey(entries, i, key))
      && (forall i: nat :: written.Some? && IsFirstKey(entries, i, key) ==>
            entries[i].value in heap && written.value == Convert(heap, entries[i].value, seen + {ref}))
  {
    hide Convert, FindEntry, HasOtherKey;
    StepsAgree(heap, ref, seen, ByKey(key));
    DictChild(heap, ref, key);
    FindsFirst(heap[ref].entries, key);
    DictIsObject(heap, ref, seen);
    assert forall i: nat :: i < |heap[ref].entries| ==> Targets(heap[ref])[i] == heap[ref].entries[i].value;
  }

  lemma DictIsObject(heap: Heap, ref: Ref, seen: set<Ref>)
    requires IsHeap(heap) && ref in heap && ref !in seen && heap[ref].DictNode? && !HasOtherKey(heap[ref].entries)
    ensures Convert(heap, ref, seen).Object?
  {
  }

  /** Attribute `i` is to be written: its name does not start with an underscore and its value is not callable. */
  predicate IsData(heap: Heap, attrs: seq<Attr>, i: nat) {
    && i < |attrs| && (attrs[i].name == "" || attrs[i].name[0] != '_')
    && attrs[i].value in heap
    && !((heap[attrs[i].value].Instance? || heap[attrs[i].value].Opaque?) && heap[attrs[i].value].isCallable)
  }

  predicate IsFirstData(heap: Heap, attrs: seq<Attr>, i: nat, name: string) {
    && IsData(heap, attrs, i) && attrs[i].name == name
    && forall j :: 0 <= j < i && attrs[j].name == name ==> !IsData(heap, attrs, j)
  }

  predicate AreInHeap(heap: Heap, attrs: seq<Attr>) {
    forall i :: 0 <= i < |attrs| ==> attrs[i].value in heap
  }

  lemma {:induction false} FindsFirstData(heap: Heap, attrs: seq<Attr>, name: string)
    requires AreInHeap(heap, attrs)
    ensures match FindEntry(AsEntries(VisibleAttrs(heap, attrs)), name)
      case None => forall i: nat :: !IsFirstData(heap, attrs, i, name)
      case Some(value) => exists i: nat :: IsFirstData(heap, attrs, i, name) && value == attrs[i].value
    decreases |attrs|
  {
    if attrs != [] {
      assert forall i :: 0 < i < |attrs| ==> attrs[i] == attrs[1..][i - 1];
      FindsFirstData(heap, attrs[1..], name);
      forall i: nat | 0 < i ensures IsData(heap, attrs, i) <==> IsData(heap, attrs[1..], i - 1) { }
      var rest := AsEntries(VisibleAttrs(heap, attrs[1..]));
      if IsData(heap, attrs, 0) {
        assert AsEntries(VisibleAttrs(heap, attrs)) == [DictEntry(StrKey(attrs[0].name), attrs[0].value)] + rest;
        FindBehind(DictEntry(StrKey(attrs[0].name), attrs[0].value), rest, name);
      } else {
        assert VisibleAttrs(heap, attrs) == VisibleAttrs(heap, attrs[1..]);
      }
      OneMoreAttr(heap, attrs, name);
    }
  }

  lemma FindBehind(first: DictEntry, rest: seq<DictEntry>, name: string)
    ensures FindEntry([first] + rest, name) == if first.key == StrKey(name) then Some(first.value) else FindEntry(rest, name)
  {
    assert ([first] + rest)[1..] == rest;
  }

  lemma OneMoreAttr(heap: Heap, attrs: seq<Attr>, name: string)
    requires attrs != [] && AreInHeap(heap, attrs)
    ensures IsFirstData(heap, attrs, 0, name) <==> IsData(heap, attrs, 0) && attrs[0].name == name
    ensures !IsFirstData(heap, attrs, 0, name) ==>
      forall i: nat :: 0 < i ==> (IsFirstData(heap, attrs, i, name) <==> IsFirstData(heap, attrs[1..], i - 1, name))
    ensures IsFirstData(heap, attrs, 0, name) ==> forall i: nat :: 0 < i ==> !IsFirstData(heap, attrs, i, name)
  {
    assert forall i :: 0 < i < |attrs| ==> attrs[i] == attrs[1..][i - 1];
    forall i: nat | 0 < i && !IsFirstData(heap, attrs, 0, name)
      ensures IsFirstData(heap, attrs, i, name) <==> IsFirstData(heap, attrs[1..], i - 1, name)
    {
      if IsFirstData(heap, attrs, i, name) {
        forall j | 0 <= j < i - 1 && attrs[1..][j].name == name ensures !IsData(heap, attrs[1..], j) {
          assert !IsData(heap, attrs, j + 1);
        }
      }
      if IsFirstData(heap, attrs[1..], i - 1, name) {
        forall j | 0 <= j < i && attrs[j].name == name ensures !IsData(heap, attrs, j) {
          if j > 0 { assert !IsData(heap, attrs[1..], j - 1); }
        }
      }
    }
  }

  lemma InstanceChild(heap: Heap, ref: Ref, key: string)
    requires IsHeap(heap) && ref in heap && heap[ref].Instance? && !heap[ref].dump.Dumps?
    ensures AreInHeap(heap, heap[ref].attrs)
    ensures var found := FindEntry(AsEntries(VisibleAttrs(heap, heap[ref].attrs)), key);
      Child(heap, ref, ByKey(key)) == if IsVisible(key) then found else None
  {
    var attrs := heap[ref].attrs;
    assert forall i :: 0 <= i < |attrs| ==> Targets(heap[ref])[i] == attrs[i].value;
  }

  /**
   Of an object without a dump of its own exactly the attributes are written whose name does not
   start with an underscore and whose value is not callable, each with the conversion of its value;
   an object without such an attribute becomes null.
   */
  lemma AttributesAreWritten(heap: Heap, ref: Ref, seen: set<Ref>, name: string)
    requires IsHeap(heap) && ref in heap && ref !in seen && heap[ref].Instance? && !heap[ref].dump.Dumps?
    ensures var attrs := heap[ref].attrs; var written := StepInto(Convert(heap, ref, seen), ByKey(name));
      && (written.Some? <==> exists i: nat :: IsFirstData(heap, attrs, i, name))
      && (forall i: nat :: IsFirstData(heap, attrs, i, name) ==>
            written.Some? && written.value == Convert(heap, attrs[i].value, seen + {ref}))
      && (Convert(heap, ref, seen) == Null <==> forall i: nat :: !IsData(heap, attrs, i))
  {
    hide Convert, FindEntry, IsFirstData, IsData, VisibleAttrs;
    StepsAgree(heap, ref, seen, ByKey(name));
    InstanceChild(heap, ref, name);
    FindsFirstData(heap, heap[ref].attrs, name);
    NullWithoutData(heap, ref, seen);
    forall i: nat, j: nat | IsFirstData(heap, heap[ref].attrs, i, name) && IsFirstData(heap, heap[ref].attrs, j, name) ensures i == j {
      FirstIsUnique(heap, heap[ref].attrs, name, i, j);
    }
    FirstIsVisible(heap, heap[ref].attrs, name);
  }

  lemma FirstIsUnique(heap: Heap, attrs: seq<Attr>, name: string, i: nat, j: nat)
    requires IsFirstData(heap, attrs, i, name) && IsFirstData(heap, attrs, j, name)
    ensures i == j
  {
  }

  lemma FirstIsVisible(heap: Heap, attrs: seq<Attr>, name: string)
    ensures forall i: nat :: IsFirstData(heap, attrs, i, name) ==> IsVisible(name)
  {
  }

  lemma {:induction false} NoneVisible(heap: Heap, attrs: seq<Attr>)
    requires AreInHeap(heap, attrs)
    ensures VisibleAttrs(heap, attrs) == [] <==> forall i: nat :: !IsData(heap, attrs, i)
    decreases |attrs|
  {
    if attrs != [] {
      assert forall i :: 0 < i < |attrs| ==> attrs[i] == attrs[1..][i - 1];
      NoneVisible(heap, attrs[1..]);
      forall i: nat | 0 < i ensures IsData(heap, attrs, i) <==> IsData(heap, attrs[1..], i - 1) { }
      forall i: nat ensures IsData(heap, attrs[1..], i) <==> IsData(heap, attrs, i + 1) { }
      assert !IsData(heap, attrs, 0) ==> VisibleAttrs(heap, attrs) == VisibleAttrs(heap, attrs[1..]);
    }
  }

  lemma NullWithoutData(heap: Heap, ref: Ref, seen: set<Ref>)
    requires IsHeap(heap) && ref in heap && ref !in seen && heap[ref].Instance? && !heap[ref].dump.Dumps?
    ensures Convert(heap, ref, seen) == Null <==> forall i: nat :: !IsData(heap, heap[ref].attrs, i)
  {
    InstanceChild(heap, ref, "");
    NoneVisible(heap, heap[ref].attrs);
    hide IsData;
  }

  // ---------- the other arguments ----------

  lemma {:induction false} OthersStay(fields: seq<Field>, key: string, value: Tree, other: string)
    requires other != key
    ensures FindField(WithField(fields, key, value), other) == FindField(fields, other)
    decreases |fields|
  {
    if fields != [] {
      OthersStay(fields[1..], key, value, other);
      assert fields[0].key != key ==> WithField(fields, key, value)[1..] == WithField(fields[1..], key, value);
    }
  }

  /** Every argument of the call other than the count is stored as it was converted. */
  lemma OtherArgumentsStay(heap: Heap, kwargs: Ref, count: nat, key: string)
    requires IsHeap(heap) && kwargs in heap && key != INJECTED_COUNT
    ensures StepInto(FormatKwargs(heap, kwargs, count), ByKey(key)) == StepInto(ConvertToJson(heap, kwargs), ByKey(key))
  {
    var t := ConvertToJson(heap, kwargs);
    if t.Object? { OthersStay(t.fields, INJECTED_COUNT, Leaf(Int(count)), key); }
  }
}
