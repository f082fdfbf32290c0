/** The deep copy of a value into a zone: objects on the heap, with arrays for what they point to. */
module Copies {
  import opened Basics
  import opened Values

  datatype Object =
    | OfNil
    | OfBool(b: bool)
    | OfInteger(i: int)
    | OfFloat(f: Double)
    | OfStr(ptr: array<char>)
    | OfBin(ptr: array<char>)
    | OfExt(ptr: array<char>)
    | OfArray(slots: array?<Object>)
    | OfMap(entries: array?<Entry>)

  /** object_kv */
  datatype Entry = Entry(key: Object, val: Object)

  /** The object stands for that value, and everything it points to is in the zone. */
  ghost predicate Stands(o: Object, v: Value, zone: set<object>)
    reads zone
    decreases v, 0
  {
    match v
    case Nil => o == OfNil
    case Bool(b) => o == OfBool(b)
    case Integer(i) => o == OfInteger(i)
    case Float(f) => o == OfFloat(f)
    case Str(s) => o.OfStr? && o.ptr in zone && o.ptr[..] == s
    case Bin(s) => o.OfBin? && o.ptr in zone && o.ptr[..] == s
    case Ext(s) => o.OfExt? && o.ptr in zone && o.ptr[..] == s
    case Array(items) =>
      && o.OfArray? && (items == [] <==> o.slots == null)
      && (items != [] ==>
            && o.slots in zone && o.slots.Length == |items|
            && forall k :: 0 <= k < |items| ==> Stands(o.slots[k], items[k], zone))
    case Map(pairs) =>
      && o.OfMap? && (pairs == [] <==> o.entries == null)
      && (pairs != [] ==>
            && o.entries in zone && o.entries.Length == |pairs|
            && forall k :: 0 <= k < |pairs| ==> StandsPair(o.entries[k], pairs[k], zone))
  }

  ghost predicate StandsPair(e: Entry, p: Pair, zone: set<object>)
    reads zone
    decreases p, 0
  {
    Stands(e.key, p.key, zone) && Stands(e.val, p.val, zone)
  }

  /** A larger zone does no harm. */
  lemma {:induction false} StandsMore(o: Object, v: Value, zone: set<object>, more: set<object>)
    requires Stands(o, v, zone) && zone <= more
    ensures Stands(o, v, more)
    decreases v, 0
  {
    match v
    case Array(items) =>
      forall k | 0 <= k < |items|
        ensures items != [] ==> Stands(o.slots[k], items[k], more)
      {
        StandsMore(o.slots[k], items[k], zone, more);
      }
    case Map(pairs) =>
      forall k | 0 <= k < |pairs|
        ensures pairs != [] ==> StandsPair(o.entries[k], pairs[k], more)
      {
        StandsPairMore(o.entries[k], pairs[k], zone, more);
      }
    case _ =>
  }

  lemma AllStandMore(slots: array<Object>, items: seq<Value>, n: nat, zone: set<object>, more: set<object>)
    requires n <= slots.Length && n <= |items| && zone <= more
    requires forall k :: 0 <= k < n ==> Stands(slots[k], items[k], zone)
    ensures forall k :: 0 <= k < n ==> Stands(slots[k], items[k], more)
  {
    forall k | 0 <= k < n
      ensures Stands(slots[k], items[k], more)
    {
      StandsMore(slots[k], items[k], zone, more);
    }
  }

  lemma {:induction false} StandsPairMore(e: Entry, p: Pair, zone: set<object>, more: set<object>)
    requires StandsPair(e, p, zone) && zone <= more
    ensures StandsPair(e, p, more)
    decreases p, 0
  {
    StandsMore(e.key, p.key, zone, more);
    StandsMore(e.val, p.val, zone, more);
  }

  /** An object stands for one value only. */
  lemma {:induction false} StandsForOne(o: Object, v: Value, w: Value, zone: set<object>)
    requires Stands(o, v, zone) && Stands(o, w, zone)
    ensures v == w
    decreases v, 0
  {
    match v
    case Array(items) =>
      if items != [] {
        forall k | 0 <= k < |items|
          ensures items[k] == w.items[k]
        {
          StandsForOne(o.slots[k], items[k], w.items[k], zone);
        }
      }
    case Map(pairs) =>
      if pairs != [] {
        forall k | 0 <= k < |pairs|
          ensures pairs[k] == w.pairs[k]
        {
          StandsForOnePair(o.entries[k], pairs[k], w.pairs[k], zone);
        }
      }
    case _ =>
  }

  lemma {:induction false} StandsForOnePair(e: Entry, p: Pair, q: Pair, zone: set<object>)
    requires StandsPair(e, p, zone) && StandsPair(e, q, zone)
    ensures p == q
    decreases p, 0
  {
    StandsForOne(e.key, p.key, q.key, zone);
    StandsForOne(e.val, p.val, q.val, zone);
  }

  /** memcpy into freshly allocated storage. */
  method CopyBytes(src: array<char>) returns (dst: array<char>)
    ensures fresh(dst) && dst[..] == src[..]
  {
    dst := new char[src.Length];
    for i := 0 to src.Length
      invariant dst[..i] == src[..i]
    {
      dst[i] := src[i];
    }
  }

  /**
    copy_msgpack_object: the copy stands for the same value, everything it points to is new, and
    nothing that was there before is touched.
  */
  method Copy(src: Object, ghost v: Value, ghost zone: set<object>) returns (dst: Object, ghost made: set<object>)
    requires Stands(src, v, zone)
    ensures Stands(dst, v, made) && fresh(made) && Stands(src, v, zone)
    decreases v, 0
  {
    made := {};
    match src {
      case OfNil => dst := OfNil;
      case OfBool(b) => dst := OfBool(b);
      case OfInteger(i) => dst := OfInteger(i);
      case OfFloat(f) => dst := OfFloat(f);
      case OfStr(ptr) =>
        var p := CopyBytes(ptr);
        dst, made := OfStr(p), {p};
      case OfBin(ptr) =>
        var p := CopyBytes(ptr);
        dst, made := OfBin(p), {p};
      case OfExt(ptr) =>
        var p := CopyBytes(ptr);
        dst, made := OfExt(p), {p};
      case OfArray(slots) =>
        if slots == null {
          dst := OfArray(null);
        } else {
          dst, made := CopyArray(slots, v.items, zone);
        }
      case OfMap(entries) =>
        if entries == null {
          dst := OfMap(null);
        } else {
          dst, made := CopyMap(entries, v.pairs, zone);
        }
    }
  }

  method CopyArray(src: array<Object>, ghost items: seq<Value>, ghost zone: set<object>)
    returns (dst: Object, ghost made: set<object>)
    requires src in zone && src.Length == |items| > 0
    requires forall k :: 0 <= k < |items| ==> Stands(src[k], items[k], zone)
    ensures Stands(dst, Array(items), made) && fresh(made)
    decreases items, 1
  {
    var slots := new Object[src.Length](_ => OfNil);
    made := {};
    ghost var parts: set<object> := {};
    var i := 0;
    while i < src.Length
      invariant i <= src.Length && fresh(slots) && fresh(parts) && slots !in parts
      invariant forall k :: 0 <= k < |items| ==> Stands(src[k], items[k], zone)
      invariant forall k :: 0 <= k < i ==> Stands(slots[k], items[k], parts)
    {
      var o, m := Copy(src[i], items[i], zone);
      slots[i] := o;
      AllStandMore(slots, items, i, parts, parts + m);
      StandsMore(o, items[i], m, parts + m);
      parts := parts + m;
      i := i + 1;
    }
    dst := OfArray(slots);
    made := parts + {slots};
    AllStandMore(slots, items, |items|, parts, made);
  }

  method CopyEntry(src: Entry, ghost p: Pair, ghost zone: set<object>) returns (dst: Entry, ghost made: set<object>)
    requires StandsPair(src, p, zone)
    ensures StandsPair(dst, p, made) && fresh(made)
    decreases p, 0
  {
    var key, m := Copy(src.key, p.key, zone);
    var val, n := Copy(src.val, p.val, zone);
    dst, made := Entry(key, val), m + n;
    StandsMore(key, p.key, m, made);
    StandsMore(val, p.val, n, made);
  }

  lemma EntriesMore(es: seq<Entry>, pairs: seq<Pair>, zone: set<object>, more: set<object>)
    requires |es| <= |pairs| && zone <= more && forall k :: 0 <= k < |es| ==> StandsPair(es[k], pairs[k], zone)
    ensures forall k :: 0 <= k < |es| ==> StandsPair(es[k], pairs[k], more)
  {
    forall k | 0 <= k < |es|
      ensures StandsPair(es[k], pairs[k], more)
    {
      StandsPairMore(es[k], pairs[k], zone, more);
    }
  }

  method CopyMap(src: array<Entry>, ghost pairs: seq<Pair>, ghost zone: set<object>)
    returns (dst: Object, ghost made: set<object>)
    requires src in zone && src.Length == |pairs| > 0
    requires forall k :: 0 <= k < |pairs| ==> StandsPair(src[k], pairs[k], zone)
    ensures Stands(dst, Map(pairs), made) && fresh(made)
    decreases pairs, 1
  {
    var entries := new Entry[src.Length](_ => Entry(OfNil, OfNil));
    made := {};
    ghost var parts: set<object> := {};
    var i := 0;
    while i < src.Length
      invariant i <= src.Length && fresh(entries) && fresh(parts) && entries !in parts
      invariant forall k :: 0 <= k < |pairs| ==> StandsPair(src[k], pairs[k], zone)
      invariant forall k :: 0 <= k < i ==> StandsPair(entries[k], pairs[k], parts)
    {
      var e, m := CopyEntry(src[i], pairs[i], zone);
      entries[i] := e;
      EntriesMore(entries[..i], pairs, parts, parts + m);
      StandsPairMore(e, pairs[i], m, parts + m);
      parts := parts + m;
      assert forall k :: 0 <= k < i ==> entries[..i][k] == entries[k];
      i := i + 1;
    }
    dst := OfMap(entries);
    made := parts + {entries};
    EntriesMore(entries[..], pairs, parts, made);
    assert forall k :: 0 <= k < i ==> entries[..][k] == entries[k];
  }
}
