/** Stripping debug fields from results: a copy of a tree of values, with the debug fields of its structs zeroed. */
module OutputFilter {
  import opened Basics

  /** Types as far as zero values need them: those of pointers and the like do not depend on what they refer to. */
  datatype Type =
    | TPrim(kind: nat)
    | TStruct(fields: seq<Field>)
    | TArray(n: nat, elem: Type)
    | TPtr
    | TInterface
    | TSlice
    | TMap

  datatype Field = Field(name: string, debug: bool, exported: bool, typ: Type)

  datatype Value =
    | Prim(kind: nat, x: int)
    | Struct(decl: seq<Field>, fields: seq<Value>)
    | Array(elem: Type, elems: seq<Value>)
    | Ptr(to: Option<Value>)
    | Interface(of: Option<Value>)
    | NilSlice
    | Slice(items: seq<Value>, bytes: bool)
    | NilMap
    | Map(entries: map<nat, Value>)

  /** reflect.Zero. */
  function Zero(t: Type): Value {
    match t
    case TPrim(k) => Prim(k, 0)
    case TStruct(fs) => Struct(fs, seq(|fs|, i requires 0 <= i < |fs| => Zero(fs[i].typ)))
    case TArray(n, e) => Array(e, seq(n, _ => Zero(e)))
    case TPtr => Ptr(None)
    case TInterface => Interface(None)
    case TSlice => NilSlice
    case TMap => NilMap
  }

  predicate HasType(v: Value, t: Type) {
    match t
    case TPrim(k) => v.Prim? && v.kind == k
    case TStruct(fs) =>
      v.Struct? && v.decl == fs && |v.fields| == |fs| && forall i :: 0 <= i < |fs| ==> HasType(v.fields[i], fs[i].typ)
    case TArray(n, e) => v.Array? && v.elem == e && |v.elems| == n && forall i :: 0 <= i < n ==> HasType(v.elems[i], e)
    case TPtr => v.Ptr?
    case TInterface => v.Interface?
    case TSlice => v.NilSlice? || v.Slice?
    case TMap => v.NilMap? || v.Map?
  }

  predicate IsNil(v: Value) {
    (v.Ptr? && v.to == None) || (v.Interface? && v.of == None) || v.NilSlice?
  }

  /** A debug field is wiped unless it is nil already, or output is verbose. */
  predicate ShouldWipe(verbose: bool, f: Field, v: Value) {
    !IsNil(v) && f.debug && !verbose
  }

  function Processed(verbose: bool, v: Value): Value
    decreases v, 1
  {
    if IsNil(v) then v
    else
      match v
      case Struct(decl, fields) => Struct(decl, ProcessedFields(verbose, decl, fields))
      case Ptr(to) => Ptr(Some(Processed(verbose, to.value)))
      case Slice(items, bytes) => if bytes then v else Slice(ProcessedItems(verbose, items), false)
      case Array(e, elems) => Array(e, ProcessedItems(verbose, elems))
      case Interface(of) => Interface(Some(Processed(verbose, of.value)))
      case Map(entries) => Map(ProcessedEntries(verbose, entries))
      case _ => v
  }

  /** Unexported fields cannot be set and keep what they hold. */
  function ProcessedField(verbose: bool, decl: seq<Field>, i: nat, v: Value): Value
    decreases v, 2
  {
    if i >= |decl| || !decl[i].exported then v
    else if ShouldWipe(verbose, decl[i], v) then Zero(decl[i].typ)
    else Processed(verbose, v)
  }

  function ProcessedFields(verbose: bool, decl: seq<Field>, vs: seq<Value>): (r: seq<Value>)
    ensures |r| == |vs|
    decreases vs, 0
  {
    seq(|vs|, i requires 0 <= i < |vs| => ProcessedField(verbose, decl, i, vs[i]))
  }

  function ProcessedItems(verbose: bool, vs: seq<Value>): (r: seq<Value>)
    ensures |r| == |vs|
    decreases vs, 0
  {
    seq(|vs|, i requires 0 <= i < |vs| => Processed(verbose, vs[i]))
  }

  function ProcessedEntries(verbose: bool, m: map<nat, Value>): map<nat, Value>
    decreases Map(m), 0
  {
    map k | k in m :: Processed(verbose, m[k])
  }

  // ----- what processing does -----

  /** Verbose output is an equal copy. */
  lemma {:induction false} VerboseIsCopy(v: Value)
    ensures Processed(true, v) == v
    decreases v
  {
    match v
    case Struct(decl, fields) =>
      forall i | 0 <= i < |fields| ensures ProcessedField(true, decl, i, fields[i]) == fields[i] {
        VerboseIsCopy(fields[i]);
      }
    case Ptr(to) =>
      if to.Some? {
        VerboseIsCopy(to.value);
      }
    case Interface(of) =>
      if of.Some? {
        VerboseIsCopy(of.value);
      }
    case Slice(items, bytes) =>
      forall i | 0 <= i < |items| ensures Processed(true, items[i]) == items[i] {
        VerboseIsCopy(items[i]);
      }
    case Array(_, elems) =>
      forall i | 0 <= i < |elems| ensures Processed(true, elems[i]) == elems[i] {
        VerboseIsCopy(elems[i]);
      }
    case Map(entries) =>
      forall k | k in entries ensures Processed(true, entries[k]) == entries[k] {
        VerboseIsCopy(entries[k]);
      }
    case _ =>
  }

  /** Structs have their declared fields, each of its type, wherever processing looks. */
  predicate WellTyped(v: Value) {
    match v
    case Struct(decl, fields) =>
      |fields| == |decl| && forall i :: 0 <= i < |fields| ==> HasType(fields[i], decl[i].typ) && WellTyped(fields[i])
    case Ptr(to) => to.Some? ==> WellTyped(to.value)
    case Interface(of) => of.Some? ==> WellTyped(of.value)
    case Slice(items, _) => forall i :: 0 <= i < |items| ==> WellTyped(items[i])
    case Array(_, elems) => forall i :: 0 <= i < |elems| ==> WellTyped(elems[i])
    case Map(entries) => forall k :: k in entries ==> WellTyped(entries[k])
    case _ => true
  }

  /** No debug field that is reached through exported fields holds anything. */
  predicate Clean(v: Value) {
    match v
    case Struct(decl, fields) =>
      forall i :: 0 <= i < |fields| && i < |decl| && decl[i].exported ==>
        (if decl[i].debug then fields[i] == Zero(decl[i].typ) else Clean(fields[i]))
    case Ptr(to) => to.Some? ==> Clean(to.value)
    case Interface(of) => of.Some? ==> Clean(of.value)
    case Slice(items, bytes) => !bytes ==> forall i :: 0 <= i < |items| ==> Clean(items[i])
    case Array(_, elems) => forall i :: 0 <= i < |elems| ==> Clean(elems[i])
    case Map(entries) => forall k :: k in entries ==> Clean(entries[k])
    case _ => true
  }

  lemma NilIsZero(v: Value, t: Type)
    requires HasType(v, t) && IsNil(v)
    ensures v == Zero(t)
  {
  }

  /** The output holds no debug data. */
  lemma {:induction false} OutputIsClean(v: Value)
    requires WellTyped(v)
    ensures Clean(Processed(false, v))
    decreases v
  {
    match v
    case Struct(decl, fields) =>
      forall i | 0 <= i < |fields| && decl[i].exported
        ensures var f := ProcessedField(false, decl, i, fields[i]);
                if decl[i].debug then f == Zero(decl[i].typ) else Clean(f)
      {
        if decl[i].debug {
          if IsNil(fields[i]) {
            NilIsZero(fields[i], decl[i].typ);
          }
        } else {
          OutputIsClean(fields[i]);
        }
      }
    case Ptr(to) =>
      if to.Some? {
        OutputIsClean(to.value);
      }
    case Interface(of) =>
      if of.Some? {
        OutputIsClean(of.value);
      }
    case Slice(items, bytes) =>
      forall i | 0 <= i < |items| ensures Clean(Processed(false, items[i])) {
        OutputIsClean(items[i]);
      }
    case Array(_, elems) =>
      forall i | 0 <= i < |elems| ensures Clean(Processed(false, elems[i])) {
        OutputIsClean(elems[i]);
      }
    case Map(entries) =>
      forall k | k in entries ensures Clean(Processed(false, entries[k])) {
        OutputIsClean(entries[k]);
      }
    case _ =>
  }

  /** A value that is clean already is output as it is. */
  lemma {:induction false} CleanIsFixed(v: Value)
    requires Clean(v)
    ensures Processed(false, v) == v
    decreases v
  {
    match v
    case Struct(decl, fields) =>
      forall i | 0 <= i < |fields| ensures ProcessedField(false, decl, i, fields[i]) == fields[i] {
        if i < |decl| && decl[i].exported && !decl[i].debug {
          CleanIsFixed(fields[i]);
        }
      }
    case Ptr(to) =>
      if to.Some? {
        CleanIsFixed(to.value);
      }
    case Interface(of) =>
      if of.Some? {
        CleanIsFixed(of.value);
      }
    case Slice(items, bytes) =>
      if !bytes {
        forall i | 0 <= i < |items| ensures Processed(false, items[i]) == items[i] {
          CleanIsFixed(items[i]);
        }
      }
    case Array(_, elems) =>
      forall i | 0 <= i < |elems| ensures Processed(false, elems[i]) == elems[i] {
        CleanIsFixed(elems[i]);
      }
    case Map(entries) =>
      forall k | k in entries ensures Processed(false, entries[k]) == entries[k] {
        CleanIsFixed(entries[k]);
      }
    case _ =>
  }

  /** Processing twice is processing once. */
  lemma Idempotent(v: Value)
    requires WellTyped(v)
    ensures Processed(false, Processed(false, v)) == Processed(false, v)
  {
    OutputIsClean(v);
    CleanIsFixed(Processed(false, v));
  }

  /** Two values that differ at most in debug fields reached through exported fields. */
  predicate SameButDebug(v: Value, w: Value)
    decreases v, 0
  {
    match v
    case Struct(decl, fields) =>
      && w.Struct? && w.decl == decl && |w.fields| == |fields|
      && forall i :: 0 <= i < |fields| ==> SameField(decl, i, fields[i], w.fields[i])
    case Ptr(to) => w.Ptr? && to.Some? == w.to.Some? && (to.Some? ==> SameButDebug(to.value, w.to.value))
    case Interface(of) => w.Interface? && of.Some? == w.of.Some? && (of.Some? ==> SameButDebug(of.value, w.of.value))
    case Slice(items, bytes) =>
      && w.Slice? && w.bytes == bytes && |w.items| == |items|
      && (if bytes then w.items == items else forall i :: 0 <= i < |items| ==> SameButDebug(items[i], w.items[i]))
    case Array(e, elems) =>
      && w.Array? && w.elem == e && |w.elems| == |elems|
      && forall i :: 0 <= i < |elems| ==> SameButDebug(elems[i], w.elems[i])
    case Map(entries) =>
      w.Map? && w.entries.Keys == entries.Keys && forall k :: k in entries ==> SameButDebug(entries[k], w.entries[k])
    case _ => w == v
  }

  predicate SameField(decl: seq<Field>, i: nat, v: Value, w: Value)
    decreases v, 1
  {
    if i >= |decl| || !decl[i].exported then v == w
    else decl[i].debug || SameButDebug(v, w)
  }

  lemma {:induction false} ItemsStripped(vs: seq<Value>, ws: seq<Value>)
    requires forall i :: 0 <= i < |vs| ==> WellTyped(vs[i])
    requires forall i :: 0 <= i < |ws| ==> WellTyped(ws[i])
    ensures ProcessedItems(false, vs) == ProcessedItems(false, ws)
       <==> |vs| == |ws| && forall i :: 0 <= i < |vs| ==> SameButDebug(vs[i], ws[i])
    decreases vs, 0
  {
    var a, b := ProcessedItems(false, vs), ProcessedItems(false, ws);
    if |vs| == |ws| {
      forall i | 0 <= i < |vs| ensures a[i] == b[i] <==> SameButDebug(vs[i], ws[i]) {
        StripsExactly(vs[i], ws[i]);
      }
    }
  }

  lemma {:induction false} FieldsStripped(decl: seq<Field>, vs: seq<Value>, ws: seq<Value>)
    requires |vs| == |ws| == |decl|
    requires forall i :: 0 <= i < |vs| ==> HasType(vs[i], decl[i].typ) && WellTyped(vs[i])
    requires forall i :: 0 <= i < |ws| ==> HasType(ws[i], decl[i].typ) && WellTyped(ws[i])
    ensures ProcessedFields(false, decl, vs) == ProcessedFields(false, decl, ws)
       <==> forall i :: 0 <= i < |vs| ==> SameField(decl, i, vs[i], ws[i])
    decreases vs, 0
  {
    var a, b := ProcessedFields(false, decl, vs), ProcessedFields(false, decl, ws);
    forall i | 0 <= i < |vs| ensures a[i] == b[i] <==> SameField(decl, i, vs[i], ws[i]) {
      if decl[i].exported && decl[i].debug {
        WipedField(decl[i], vs[i]);
        WipedField(decl[i], ws[i]);
      } else if decl[i].exported {
        StripsExactly(vs[i], ws[i]);
      }
    }
  }

  /** An exported debug field comes out as the zero value of its type, nil or not. */
  lemma WipedField(f: Field, v: Value)
    requires f.exported && f.debug && HasType(v, f.typ)
    ensures ProcessedField(false, [f], 0, v) == Zero(f.typ)
  {
    if IsNil(v) {
      NilIsZero(v, f.typ);
    }
  }

  function Shape(v: Value): nat {
    match v
    case Prim(_, _) => 0
    case Struct(_, _) => 1
    case Array(_, _) => 2
    case Ptr(_) => 3
    case Interface(_) => 4
    case NilSlice => 5
    case Slice(_, _) => 6
    case NilMap => 7
    case Map(_) => 8
  }

  /** Processing keeps the outermost constructor. */
  lemma ShapeKept(v: Value)
    ensures Shape(Processed(false, v)) == Shape(v)
  {
  }

  lemma ShapesDiffer(v: Value, w: Value)
    requires Shape(v) != Shape(w)
    ensures Processed(false, v) != Processed(false, w) && !SameButDebug(v, w)
  {
    ShapeKept(v);
    ShapeKept(w);
  }

  /** Two values have the same output exactly when they differ at most in debug fields. */
  lemma {:induction false} StripsExactly(v: Value, w: Value)
    requires WellTyped(v) && WellTyped(w)
    ensures Processed(false, v) == Processed(false, w) <==> SameButDebug(v, w)
    decreases v, 1
  {
    if Shape(v) != Shape(w) {
      ShapesDiffer(v, w);
    } else if v.Slice? {
      if !v.bytes && !w.bytes {
        ItemsStripped(v.items, w.items);
      }
    } else if v.Array? {
      ItemsStripped(v.elems, w.elems);
    } else if v.Struct? {
      if v.decl == w.decl {
        FieldsStripped(v.decl, v.fields, w.fields);
      }
    } else if v.Map? {
      EntriesStripped(v.entries, w.entries);
    } else {
      ReferenceStripped(v, w);
    }
  }

  lemma {:induction false} ReferenceStripped(v: Value, w: Value)
    requires WellTyped(v) && WellTyped(w) && Shape(v) == Shape(w)
    requires !v.Slice? && !v.Array? && !v.Struct? && !v.Map?
    ensures Processed(false, v) == Processed(false, w) <==> SameButDebug(v, w)
    decreases v, 0
  {
    if v.Ptr? && v.to.Some? && w.to.Some? {
      StripsExactly(v.to.value, w.to.value);
    } else if v.Interface? && v.of.Some? && w.of.Some? {
      StripsExactly(v.of.value, w.of.value);
    }
  }

  lemma {:induction false} EntriesStripped(m: map<nat, Value>, n: map<nat, Value>)
    requires forall k :: k in m ==> WellTyped(m[k])
    requires forall k :: k in n ==> WellTyped(n[k])
    ensures ProcessedEntries(false, m) == ProcessedEntries(false, n)
       <==> m.Keys == n.Keys && forall k :: k in m ==> SameButDebug(m[k], n[k])
    decreases Map(m), 0
  {
    var a, b := ProcessedEntries(false, m), ProcessedEntries(false, n);
    assert a.Keys == m.Keys && b.Keys == n.Keys;
    if m.Keys == n.Keys {
      forall k | k in m ensures a[k] == b[k] <==> SameButDebug(m[k], n[k]) {
        StripsExactly(m[k], n[k]);
      }
      if forall k :: k in m ==> SameButDebug(m[k], n[k]) {
        assert a == b;
      }
    }
  }

  // ----- the processor -----

  datatype Step = FieldStep(name: string, i: nat) | Deref | Of | Key(k: nat) | Index(i: nat)

  datatype PathEntry = PathEntry(field: Step, value: Value)

  /** Without a callback. The path from the root is kept while a value is being processed. */
  class Processor {
    const verbose: bool
    var path: seq<PathEntry>

    constructor (verbose: bool)
      ensures this.verbose == verbose && path == []
    {
      this.verbose, path := verbose, [];
    }

    method PushPath(key: Step, v: Value)
      modifies this
      ensures path == old(path) + [PathEntry(key, v)]
    {
      path := path + [PathEntry(key, v)];
    }

    method PopPath()
      requires path != []
      modifies this
      ensures path == old(path)[..|old(path)| - 1]
    {
      path := path[..|path| - 1];
    }

    /** A value under one more path entry, which is taken off again. */
    method ProcessUnder(key: Step, v: Value) returns (r: Value)
      modifies this
      ensures r == Processed(verbose, v) && path == old(path)
      decreases v, 2
    {
      PushPath(key, v);
      r := Process(v);
      PopPath();
    }

    method Process(v: Value) returns (r: Value)
      modifies this
      ensures r == Processed(verbose, v) && path == old(path)
      decreases v, 1
    {
      if IsNil(v) {
        return v;
      }
      match v
      case Struct(decl, fields) =>
        var fs := ProcessStruct(decl, fields);
        r := Struct(decl, fs);
      case Ptr(to) =>
        var c := ProcessUnder(Deref, to.value);
        r := Ptr(Some(c));
      case Slice(items, bytes) =>
        if bytes {
          r := v;
        } else {
          var c := ProcessItems(items);
          r := Slice(c, false);
        }
      case Array(e, elems) =>
        var c := ProcessItems(elems);
        r := Array(e, c);
      case Interface(of) =>
        var c := ProcessUnder(Of, of.value);
        r := Interface(Some(c));
      case Map(entries) =>
        var m := ProcessMap(entries);
        r := Map(m);
      case _ => r := v;
    }

    /** The struct is copied first; then each field that can be set is wiped or replaced by its copy. */
    method ProcessStruct(decl: seq<Field>, fields: seq<Value>) returns (r: seq<Value>)
      modifies this
      ensures r == ProcessedFields(verbose, decl, fields) && path == old(path)
      decreases fields, 0
    {
      r := fields;
      for i := 0 to |fields|
        invariant |r| == |fields| && path == old(path)
        invariant forall k :: 0 <= k < i ==> r[k] == ProcessedField(verbose, decl, k, fields[k])
        invariant forall k :: i <= k < |fields| ==> r[k] == fields[k]
      {
        if i >= |decl| || !decl[i].exported {
          continue;
        }
        if ShouldWipe(verbose, decl[i], fields[i]) {
          r := r[i := Zero(decl[i].typ)];
          continue;
        }
        var c := ProcessUnder(FieldStep(decl[i].name, i), fields[i]);
        r := r[i := c];
      }
    }

    /** The elements of an array or a slice. */
    method ProcessItems(items: seq<Value>) returns (r: seq<Value>)
      modifies this
      ensures r == ProcessedItems(verbose, items) && path == old(path)
      decreases items, 0
    {
      r := [];
      for i := 0 to |items|
        invariant |r| == i && path == old(path)
        invariant forall k :: 0 <= k < i ==> r[k] == Processed(verbose, items[k])
      {
        var c := ProcessUnder(Index(i), items[i]);
        r := r + [c];
      }
    }

    /** The entries of a map, whatever order its keys come in. */
    method ProcessMap(entries: map<nat, Value>) returns (r: map<nat, Value>)
      modifies this
      ensures r == ProcessedEntries(verbose, entries) && path == old(path)
      decreases Map(entries), 0
    {
      r := map[];
      var keys: set<nat> := entries.Keys;
      while keys != {}
        invariant keys <= entries.Keys && path == old(path) && Filled(verbose, entries, r, keys)
        decreases |keys|
      {
        var k :| k in keys;
        var c := ProcessUnder(Key(k), entries[k]);
        FillOne(verbose, entries, r, keys, k);
        r := r[k := c];
        keys := keys - {k};
      }
      FilledAll(verbose, entries, r);
    }
  }

  /** All entries but those of keys are done. */
  ghost predicate Filled(verbose: bool, entries: map<nat, Value>, r: map<nat, Value>, keys: set<nat>) {
    r.Keys == entries.Keys - keys && forall k :: k in r ==> k in entries && r[k] == Processed(verbose, entries[k])
  }

  lemma FillOne(verbose: bool, entries: map<nat, Value>, r: map<nat, Value>, keys: set<nat>, k: nat)
    requires Filled(verbose, entries, r, keys) && k in keys && k in entries
    ensures Filled(verbose, entries, r[k := Processed(verbose, entries[k])], keys - {k})
  {
  }

  lemma FilledAll(verbose: bool, entries: map<nat, Value>, r: map<nat, Value>)
    requires Filled(verbose, entries, r, {})
    ensures r == ProcessedEntries(verbose, entries)
  {
    assert r.Keys == entries.Keys;
  }
}
