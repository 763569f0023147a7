/** What the entity projectors share: the triple store they read through
    vivofoundation, and the "last binding wins" reading of a walk over the
    (predicate, object) bindings of one subject.

    Every projector starts from a record holding only its identifier and runs
    `while i < count` over the bindings of `get_triples(uri)`, overwriting a key
    each time a binding with that key's predicate comes by. So a single-valued key
    ends up holding the object of the LAST binding with its predicate. */
module Projection {
  import opened Records

  /** The parts of vivofoundation the projectors call; none of them is shown, so
      each is a parameter of the model. */
  datatype Store = Store(
    triples: string -> Option<Bindings>,            // get_triples: None when the bindings cannot be read
    isOrganization: string -> bool,                 // untag_predicate('foaf:Organization') in get_types(uri)
    vivoValue: (string, string) -> Value,           // get_vivo_value(uri, predicate)
    organization: string -> map<string, Value>,     // get_organization(uri)
    interval: string -> map<string, Value>)         // get_datetime_interval(uri)

  /** The bindings a projector walks: a fetch whose bindings cannot be read counts
      as no bindings at all (`count = 0` in the `except`). */
  function Fetch(store: Store, uri: string): (bs: Bindings)
    ensures store.triples(uri) == None ==> bs == []
    ensures store.triples(uri) != None ==> bs == store.triples(uri).value
  {
    var t := store.triples(uri);
    if t == None then [] else t.value
  }

  const Relates := "http://vivoweb.org/ontology/core#relates"

  /** Which bindings feed a key of a projected record. */
  datatype Feed =
    | Predicate(p: string)            // `if p == ...`
    | ObjectIn(classes: set<string>)  // `if o == ...` for each of the classes, whatever the predicate
    | Related(organization: bool)     // a `relates` binding whose object is, or is not, an organisation

  predicate Feeds(store: Store, f: Feed, b: (string, string))
  {
    match f
    case Predicate(p) => b.0 == p
    case ObjectIn(classes) => b.1 in classes
    case Related(organization) => b.0 == Relates && store.isOrganization(b.1) == organization
  }

  /** The object of the last binding that feeds `f`. */
  function Last(store: Store, bs: Bindings, f: Feed): Option<string>
  {
    if bs == [] then None
    else if Feeds(store, f, bs[|bs| - 1]) then Some(bs[|bs| - 1].1)
    else Last(store, bs[..|bs| - 1], f)
  }

  /** `Last` finds `o` exactly when a binding with object `o` feeds `f` and no later
      binding does, and finds nothing exactly when no binding feeds `f`. */
  lemma {:induction false} LastIs(store: Store, bs: Bindings, f: Feed)
    ensures Last(store, bs, f) == None <==> forall i :: 0 <= i < |bs| ==> !Feeds(store, f, bs[i])
    ensures Last(store, bs, f) != None ==>
      exists i :: 0 <= i < |bs| && Feeds(store, f, bs[i]) && bs[i].1 == Last(store, bs, f).value
        && forall j :: i < j < |bs| ==> !Feeds(store, f, bs[j])
  {
    if bs != [] {
      var front := bs[..|bs| - 1];
      LastIs(store, front, f);
      assert forall i :: 0 <= i < |front| ==> front[i] == bs[i];
      if !Feeds(store, f, bs[|bs| - 1]) && Last(store, front, f) != None {
        var i :| 0 <= i < |front| && Feeds(store, f, front[i]) && front[i].1 == Last(store, front, f).value
          && forall j :: i < j < |front| ==> !Feeds(store, f, front[j]);
        assert forall j :: i < j < |bs| ==> !Feeds(store, f, bs[j]);
      }
    }
  }

  lemma LastAppend(store: Store, bs: Bindings, b: (string, string), f: Feed)
    ensures Last(store, bs + [b], f) == if Feeds(store, f, b) then Some(b.1) else Last(store, bs, f)
  {
    assert (bs + [b])[..|bs|] == bs;
  }

  /** `Some(v)` as a one-key record; `None` as no key. */
  function Entry(key: string, v: Option<Value>): (r: Record)
    ensures v == None ==> r == map[]
    ensures v != None ==> r == map[key := v.value]
  {
    if v == None then map[] else map[key := v.value]
  }

  /** The keys of `table` that some binding feeds, each holding the object of the
      last binding that feeds it. */
  function Fields(store: Store, bs: Bindings, table: map<string, Feed>): (r: Record)
    ensures r.Keys <= table.Keys
    ensures forall k :: k in r ==> r[k].Str?
  {
    map k | k in table && Last(store, bs, table[k]) != None :: Str(Last(store, bs, table[k]).value)
  }

  /** No bindings, no fields. */
  lemma FieldsEmpty(store: Store, table: map<string, Feed>)
    ensures Fields(store, [], table) == map[]
  {
  }

  /** A binding overwrites exactly the keys it feeds. */
  lemma FieldsAppend(store: Store, bs: Bindings, b: (string, string), table: map<string, Feed>)
    ensures Fields(store, bs + [b], table) ==
      Fields(store, bs, table) + map k | k in table && Feeds(store, table[k], b) :: Str(b.1)
  {
    forall k | k in table {
      LastAppend(store, bs, b, table[k]);
    }
  }

  /** A binding that feeds no key of the table changes nothing. */
  lemma FieldsIgnore(store: Store, bs: Bindings, b: (string, string), table: map<string, Feed>)
    requires forall k :: k in table ==> !Feeds(store, table[k], b)
    ensures Fields(store, bs + [b], table) == Fields(store, bs, table)
  {
    var after := Fields(store, bs + [b], table);
    var before := Fields(store, bs, table);
    forall k | k in table
      ensures k in after && k in before ==> after[k] == before[k]
      ensures k in after <==> k in before
    {
      LastAppend(store, bs, b, table[k]);
    }
    assert after.Keys == before.Keys;
  }

  /** A binding that feeds exactly one key of the table overwrites that key alone. */
  lemma FieldsAppendOne(store: Store, bs: Bindings, b: (string, string), table: map<string, Feed>, k: string)
    requires k in table && Feeds(store, table[k], b)
    requires forall k' :: k' in table && k' != k ==> !Feeds(store, table[k'], b)
    ensures Fields(store, bs + [b], table) == Fields(store, bs, table)[k := Str(b.1)]
  {
    var after := Fields(store, bs + [b], table);
    var before := Fields(store, bs, table)[k := Str(b.1)];
    forall k' | k' in table
      ensures k' in after && k' in before ==> after[k'] == before[k']
      ensures k' in after <==> k' in before
    {
      LastAppend(store, bs, b, table[k']);
    }
    assert after.Keys == before.Keys;
  }

  /** The same step for a projected record: the identifier keys of `base` sit to
      the left of the fields. */
  lemma RecordAppendOne(store: Store, base: Record, bs: Bindings, b: (string, string),
                        table: map<string, Feed>, k: string)
    requires k in table && Feeds(store, table[k], b)
    requires forall k' :: k' in table && k' != k ==> !Feeds(store, table[k'], b)
    ensures base + Fields(store, bs + [b], table) == (base + Fields(store, bs, table))[k := Str(b.1)]
  {
    FieldsAppendOne(store, bs, b, table, k);
    UpdateRight(base, Fields(store, bs, table), k, Str(b.1));
  }

  lemma RecordIgnore(store: Store, base: Record, bs: Bindings, b: (string, string), table: map<string, Feed>)
    requires forall k :: k in table ==> !Feeds(store, table[k], b)
    ensures base + Fields(store, bs + [b], table) == base + Fields(store, bs, table)
  {
    FieldsIgnore(store, bs, b, table);
  }

  /** A binding that feeds exactly two keys of the table overwrites those two. */
  lemma RecordAppendTwo(store: Store, base: Record, bs: Bindings, b: (string, string),
                        table: map<string, Feed>, k1: string, k2: string)
    requires k1 in table && Feeds(store, table[k1], b)
    requires k2 in table && Feeds(store, table[k2], b) && k1 != k2
    requires forall k' :: k' in table && k' != k1 && k' != k2 ==> !Feeds(store, table[k'], b)
    ensures base + Fields(store, bs + [b], table) ==
      (base + Fields(store, bs, table))[k1 := Str(b.1)][k2 := Str(b.1)]
  {
    FieldsAppendTwo(store, bs, b, table, k1, k2);
    UpdateRight(base, Fields(store, bs, table), k1, Str(b.1));
    UpdateRight(base, Fields(store, bs, table)[k1 := Str(b.1)], k2, Str(b.1));
  }

  lemma FieldsAppendTwo(store: Store, bs: Bindings, b: (string, string),
                        table: map<string, Feed>, k1: string, k2: string)
    requires k1 in table && Feeds(store, table[k1], b)
    requires k2 in table && Feeds(store, table[k2], b) && k1 != k2
    requires forall k' :: k' in table && k' != k1 && k' != k2 ==> !Feeds(store, table[k'], b)
    ensures Fields(store, bs + [b], table) == Fields(store, bs, table)[k1 := Str(b.1)][k2 := Str(b.1)]
  {
    var after := Fields(store, bs + [b], table);
    var before := Fields(store, bs, table)[k1 := Str(b.1)][k2 := Str(b.1)];
    forall k | k in table
      ensures k in after && k in before ==> after[k] == before[k]
      ensures k in after <==> k in before
    {
      LastAppend(store, bs, b, table[k]);
    }
    assert after.Keys == before.Keys;
  }

  /** A key of the table is present exactly when some binding feeds it, and holds
      the object of the last such binding. */
  lemma FieldIs(store: Store, bs: Bindings, table: map<string, Feed>, k: string)
    requires k in table
    ensures k in Fields(store, bs, table) <==> exists i :: 0 <= i < |bs| && Feeds(store, table[k], bs[i])
    ensures k in Fields(store, bs, table) ==>
      exists i :: 0 <= i < |bs| && Feeds(store, table[k], bs[i]) && Fields(store, bs, table)[k] == Str(bs[i].1)
        && forall j :: i < j < |bs| ==> !Feeds(store, table[k], bs[j])
  {
    LastIs(store, bs, table[k]);
  }

  /** The objects of the bindings with predicate `p`, in binding order (a list the
      walk appends to). */
  function Objects(bs: Bindings, p: string): (os: seq<string>)
    ensures |os| <= |bs|
  {
    if bs == [] then []
    else Objects(bs[..|bs| - 1], p) + (if bs[|bs| - 1].0 == p then [bs[|bs| - 1].1] else [])
  }

  /** `Objects` keeps exactly the bindings with predicate `p`, in order: for any
      split of the bindings, the objects of the two parts are concatenated. */
  lemma {:induction false} ObjectsAppend(a: Bindings, b: Bindings, p: string)
    ensures Objects(a + b, p) == Objects(a, p) + Objects(b, p)
    decreases |b|
  {
    if b == [] {
      assert a + b == a;
    } else {
      var b' := b[..|b| - 1];
      assert (a + b)[..|a + b| - 1] == a + b';
      ObjectsAppend(a, b', p);
    }
  }

  /** An object is listed exactly when some binding with predicate `p` has it. */
  lemma {:induction false} ObjectsMember(bs: Bindings, p: string, o: string)
    ensures o in Objects(bs, p) <==> (p, o) in bs
  {
    if bs != [] {
      var front := bs[..|bs| - 1];
      ObjectsMember(front, p, o);
      assert bs == front + [bs[|bs| - 1]];
    }
  }

  /** `deref(o)[key]` for the last binding (p, o) whose dereferenced dict has `key`:
      the walk copies the key only when it is there, so a later dict without it
      leaves an earlier value in place. */
  function LastHaving(bs: Bindings, p: string, deref: string -> map<string, Value>, key: string): Option<Value>
  {
    if bs == [] then None
    else
      var b := bs[|bs| - 1];
      if b.0 == p && key in deref(b.1) then Some(deref(b.1)[key])
      else LastHaving(bs[..|bs| - 1], p, deref, key)
  }

  lemma LastHavingAppend(bs: Bindings, b: (string, string), p: string,
                         deref: string -> map<string, Value>, key: string)
    ensures LastHaving(bs + [b], p, deref, key) ==
      if b.0 == p && key in deref(b.1) then Some(deref(b.1)[key]) else LastHaving(bs, p, deref, key)
  {
    assert (bs + [b])[..|bs|] == bs;
  }

  /** `LastHaving` finds a value exactly when some binding with predicate `p`
      dereferences to a dict with `key`; the value comes from the last of them. */
  lemma {:induction false} LastHavingIs(bs: Bindings, p: string, deref: string -> map<string, Value>, key: string)
    ensures LastHaving(bs, p, deref, key) == None <==>
      forall i :: 0 <= i < |bs| && bs[i].0 == p ==> key !in deref(bs[i].1)
    ensures LastHaving(bs, p, deref, key) != None ==>
      exists i :: 0 <= i < |bs| && bs[i].0 == p && key in deref(bs[i].1)
        && LastHaving(bs, p, deref, key) == Some(deref(bs[i].1)[key])
        && forall j :: i < j < |bs| && bs[j].0 == p ==> key !in deref(bs[j].1)
  {
    if bs != [] {
      var front := bs[..|bs| - 1];
      LastHavingIs(front, p, deref, key);
      assert forall i :: 0 <= i < |front| ==> front[i] == bs[i];
      var b := bs[|bs| - 1];
      if !(b.0 == p && key in deref(b.1)) && LastHaving(front, p, deref, key) != None {
        var i :| 0 <= i < |front| && front[i].0 == p && key in deref(front[i].1)
          && LastHaving(front, p, deref, key) == Some(deref(front[i].1)[key])
          && forall j :: i < j < |front| && front[j].0 == p ==> key !in deref(front[j].1);
        assert forall j :: i < j < |bs| && bs[j].0 == p ==> key !in deref(bs[j].1);
      }
    }
  }

  /** What a `p` binding with interval `d` does to a record: the `if p == ...` block
      that dereferences the interval. */
  function WithInterval(r: Record, d: map<string, Value>): Record
  {
    var r0 := r["datetime_interval" := Dict(d)];
    var r1 := if "start_date" in d then r0["start_date" := d["start_date"]] else r0;
    if "end_date" in d then r1["end_date" := d["end_date"]] else r1
  }

  /** The keys a projector copies from the datetime intervals of its `p` bindings,
      one binding after the other. */
  function IntervalEntries(store: Store, bs: Bindings, p: string): (r: Record)
    ensures r.Keys <= {"datetime_interval", "start_date", "end_date"}
  {
    if bs == [] then map[]
    else
      var b := bs[|bs| - 1];
      var r := IntervalEntries(store, bs[..|bs| - 1], p);
      if b.0 == p then WithInterval(r, store.interval(b.1)) else r
  }

  lemma IntervalAppend(store: Store, bs: Bindings, b: (string, string), p: string)
    ensures IntervalEntries(store, bs + [b], p) ==
      if b.0 == p then WithInterval(IntervalEntries(store, bs, p), store.interval(b.1))
      else IntervalEntries(store, bs, p)
  {
    assert (bs + [b])[..|bs|] == bs;
  }

  /** `datetime_interval` is the interval of the last `p` binding, while `start_date`
      and `end_date` come from the last interval that has them: a later interval
      without one leaves the earlier date in place. */
  lemma {:induction false} IntervalIs(store: Store, bs: Bindings, p: string)
    ensures ("datetime_interval" in IntervalEntries(store, bs, p)) == (Last(store, bs, Predicate(p)) != None)
    ensures "datetime_interval" in IntervalEntries(store, bs, p) ==>
      IntervalEntries(store, bs, p)["datetime_interval"] == Dict(store.interval(Last(store, bs, Predicate(p)).value))
    ensures ("start_date" in IntervalEntries(store, bs, p)) == (LastHaving(bs, p, store.interval, "start_date") != None)
    ensures "start_date" in IntervalEntries(store, bs, p) ==>
      IntervalEntries(store, bs, p)["start_date"] == LastHaving(bs, p, store.interval, "start_date").value
    ensures ("end_date" in IntervalEntries(store, bs, p)) == (LastHaving(bs, p, store.interval, "end_date") != None)
    ensures "end_date" in IntervalEntries(store, bs, p) ==>
      IntervalEntries(store, bs, p)["end_date"] == LastHaving(bs, p, store.interval, "end_date").value
  {
    if bs != [] {
      IntervalIs(store, bs[..|bs| - 1], p);
    }
  }

  /** Updating a key the right operand lacks can be done before the union. */
  lemma UpdateOver(r: Record, e: Record, k: string, v: Value)
    requires k !in e
    ensures (r + e)[k := v] == r[k := v] + e
  {
  }

  /** Updating a key through the right operand of a union. */
  lemma UpdateRight(r: Record, e: Record, k: string, v: Value)
    ensures (r + e)[k := v] == r + e[k := v]
  {
  }

  /** The interval keys are written through the right operand of a union. */
  lemma WithIntervalOver(base: Record, r: Record, d: map<string, Value>)
    ensures base + WithInterval(r, d) == WithInterval(base + r, d)
  {
    UpdateRight(base, r, "datetime_interval", Dict(d));
    var r0 := r["datetime_interval" := Dict(d)];
    if "start_date" in d {
      UpdateRight(base, r0, "start_date", d["start_date"]);
    }
    var r1 := if "start_date" in d then r0["start_date" := d["start_date"]] else r0;
    if "end_date" in d {
      UpdateRight(base, r1, "end_date", d["end_date"]);
    }
  }
}
