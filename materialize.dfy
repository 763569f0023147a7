/** The materializers: add_position (vivopeople.py:623-651), add_vcard
    (vivopeople.py:653-738) and add_person (vivopeople.py:918-981). Each mints
    identifiers and builds the `ardf` text that creates an entity.

    Each is a function of the foundation's state before the call giving the result
    and the state after it, and a method on a `Foundation` proved to compute that
    function. A loop over a Python dict sees the keys in an order the program does
    not fix; that order is a parameter. */
module Materialize {
  import opened Records
  import opened Rdf

  // add_position

  /** The first of the keys add_position reads that `position` lacks. */
  function MissingPositionKey(position: Record): string
  {
    if "position_type" !in position then "position_type"
    else if "position_label" !in position then "position_label"
    else "position_orguri"
  }

  /** `[ardf, position_uri]` of add_position, or the KeyError of the first position
      key it reads and `position` lacks. The position's uri is minted and the
      interval created before any key is read. */
  function PositionAddition(e: Env, personUri: Value, position: Record): (r: Outcome<(Doc, Value)>)
    ensures r.env == Env(e.next + 1, e.log + [AddDti(Get(position, "start_date"), Get(position, "end_date"))])
    ensures r.result.Ok? <==>
      "position_type" in position && "position_label" in position && "position_orguri" in position
    ensures r.result.Err? ==> r.result.error == KeyError(MissingPositionKey(position))
    ensures r.result.Ok? ==>
      var (doc, uri) := r.result.value;
      && uri == Minted(e.next)
      && |doc| == 6
      && doc[0] == AddText(|e.log|)
      && (forall j :: 1 <= j < 6 ==> doc[j].Assert? && doc[j].triple.Resource? && doc[j].triple.subject == uri)
      && [doc[1].triple.pred, doc[2].triple.pred, doc[3].triple.pred, doc[4].triple.pred, doc[5].triple.pred] ==
         ["rdf:type", "rdfs:label", "vivo:dateTimeInterval", "vivo:relates", "vivo:relates"]
      && [doc[1].triple.obj, doc[2].triple.obj, doc[3].triple.obj, doc[4].triple.obj, doc[5].triple.obj] ==
         [position["position_type"], position["position_label"], DtiUri(|e.log|), personUri, position["position_orguri"]]
  {
    var (positionUri, e1) := Mint(e);
    var (i, e2) := Logged(e1, AddDti(Get(position, "start_date"), Get(position, "end_date")));
    if "position_type" !in position then Outcome(Err(KeyError("position_type")), e2)
    else if "position_label" !in position then Outcome(Err(KeyError("position_label")), e2)
    else if "position_orguri" !in position then Outcome(Err(KeyError("position_orguri")), e2)
    else
      Outcome(Ok(([AddText(i),
                   Assert(Resource(positionUri, "rdf:type", position["position_type"])),
                   Assert(Resource(positionUri, "rdfs:label", position["position_label"])),
                   Assert(Resource(positionUri, "vivo:dateTimeInterval", DtiUri(i))),
                   Assert(Resource(positionUri, "vivo:relates", personUri)),
                   Assert(Resource(positionUri, "vivo:relates", position["position_orguri"]))],
                  positionUri)), e2)
  }

  method AddPosition(f: Foundation, personUri: Value, position: Record) returns (r: Result<(Doc, Value)>)
    modifies f
    ensures Outcome(r, f.State()) == PositionAddition(old(f.State()), personUri, position)
  {
    var ardf: Doc := [];
    var positionUri := f.GetVivoUri();
    var add, dtiUri := f.AddDti(Get(position, "start_date"), Get(position, "end_date"));
    ardf := ardf + [add];
    if "position_type" !in position {
      return Err(KeyError("position_type"));
    }
    ardf := ardf + [Assert(Resource(positionUri, "rdf:type", position["position_type"]))];
    if "position_label" !in position {
      return Err(KeyError("position_label"));
    }
    ardf := ardf + [Assert(Resource(positionUri, "rdfs:label", position["position_label"]))];
    ardf := ardf + [Assert(Resource(positionUri, "vivo:dateTimeInterval", dtiUri))];
    ardf := ardf + [Assert(Resource(positionUri, "vivo:relates", personUri))];
    if "position_orguri" !in position {
      return Err(KeyError("position_orguri"));
    }
    ardf := ardf + [Assert(Resource(positionUri, "vivo:relates", position["position_orguri"]))];
    assert ardf == [add,
                    Assert(Resource(positionUri, "rdf:type", position["position_type"])),
                    Assert(Resource(positionUri, "rdfs:label", position["position_label"])),
                    Assert(Resource(positionUri, "vivo:dateTimeInterval", dtiUri)),
                    Assert(Resource(positionUri, "vivo:relates", personUri)),
                    Assert(Resource(positionUri, "vivo:relates", position["position_orguri"]))];
    r := Ok((ardf, positionUri));
  }

  // add_vcard

  /** name_table: the vcard keys asserted on the name entity, with their predicates
      as the source spells them. */
  const NameTable: map<string, string> := map[
    "first_name" := "vcard:givenName",
    "last_name" := "vcard:familyName",
    "middle_name" := "vcard:additionalName",
    "name_prefix" := "vcard:honoraryPrefix",
    "name_suffix" := "vcard:honorarySuffix"
  ]

  /** One row of single_entry: the vcard's link to the entity, the entity's type and
      the predicate carrying the value. */
  datatype EntryKind = EntryKind(resource: string, kind: string, pred: string)

  const SingleEntry: map<string, EntryKind> := map[
    "primary_email" := EntryKind("vcard:hasEmail", "vcard:Email", "vcard:email"),
    "email" := EntryKind("vcard:hasEmail", "vcard:Email", "vcard:email"),
    "fax" := EntryKind("vcard:hasTelephone", "vcard:Fax", "vcard:telephone"),
    "telephone" := EntryKind("vcard:hasTelephone", "vcard:Telephone", "vcard:telephone"),
    "preferred_title" := EntryKind("vcard:hasTitle", "vcard:Title", "vcard:title"),
    "title" := EntryKind("vcard:hasTitle", "vcard:Title", "vcard:title")
  ]

  /** The five triples add_vcard asserts before looking at the vcard's keys. */
  function VcardHeader(personUri: Value, vcardUri: Value, nameUri: Value): Doc
  {
    [Assert(Resource(vcardUri, "rdf:type", Untag("vcard:Individual"))),
     Assert(Resource(personUri, "obo:ARG2000028", vcardUri)),
     Assert(Resource(vcardUri, "obo:ARG2000029", personUri)),
     Assert(Resource(nameUri, "rdf:type", Untag("vcard:Name"))),
     Assert(Resource(vcardUri, "vcard:hasName", nameUri))]
  }

  /** The vcard's name key `key` on the name entity, through the table `names`. */
  function NamePiece(names: map<string, string>, nameUri: Value, vcard: Record, key: string): Doc
  {
    if key in names && key in vcard then [Assert(Data(nameUri, names[key], vcard[key]))] else []
  }

  /** What the first key loop of add_vcard adds, over the keys `order`. */
  function NamePieces(names: map<string, string>, nameUri: Value, vcard: Record, order: seq<string>): Doc
  {
    if order == [] then []
    else NamePieces(names, nameUri, vcard, order[..|order| - 1]) + NamePiece(names, nameUri, vcard, order[|order| - 1])
  }

  /** How many of the keys `order` are single-entry keys of the vcard. */
  function Entries(entries: map<string, EntryKind>, vcard: Record, order: seq<string>): nat
  {
    if order == [] then 0
    else
      var key := order[|order| - 1];
      Entries(entries, vcard, order[..|order| - 1]) + (if key in entries && key in vcard then 1 else 0)
  }

  function EntryPiece(entries: map<string, EntryKind>, entryUri: Value, vcardUri: Value, vcard: Record,
                      key: string): Doc
  {
    if key in entries && key in vcard then
      var entry := entries[key];
      [Assert(Resource(entryUri, "rdf:type", Untag(entry.kind))),
       Assert(Data(entryUri, entry.pred, vcard[key])),
       Assert(Resource(vcardUri, entry.resource, entryUri))]
    else []
  }

  /** What the second key loop of add_vcard adds, minting from `next` on. */
  function EntryPieces(entries: map<string, EntryKind>, next: nat, vcardUri: Value, vcard: Record,
                       order: seq<string>): Doc
  {
    if order == [] then []
    else
      var front := order[..|order| - 1];
      EntryPieces(entries, next, vcardUri, vcard, front)
        + EntryPiece(entries, Minted(next + Entries(entries, vcard, front)), vcardUri, vcard, order[|order| - 1])
  }

  /** `[ardf, vcard_uri]` of add_vcard when its loops see the keys in `order`. */
  function VcardAddition(e: Env, personUri: Value, vcard: Record, order: seq<string>): (r: Outcome<(Doc, Value)>)
    ensures r.result.Ok? && r.result.value.1 == Minted(e.next)
    ensures r.env == Env(e.next + 2 + Entries(SingleEntry, vcard, order), e.log)
  {
    var vcardUri := Minted(e.next);
    var nameUri := Minted(e.next + 1);
    Outcome(Ok((VcardHeader(personUri, vcardUri, nameUri) + NamePieces(NameTable, nameUri, vcard, order)
                + EntryPieces(SingleEntry, e.next + 2, vcardUri, vcard, order), vcardUri)),
            Env(e.next + 2 + Entries(SingleEntry, vcard, order), e.log))
  }

  /** add_vcard's text starts with its five fixed triples on the vcard and the name. */
  lemma VcardAdditionHeader(e: Env, personUri: Value, vcard: Record, order: seq<string>)
    ensures |VcardAddition(e, personUri, vcard, order).result.value.0| >= 5
    ensures VcardAddition(e, personUri, vcard, order).result.value.0[..5] ==
      VcardHeader(personUri, Minted(e.next), Minted(e.next + 1))
  {
    var text := VcardAddition(e, personUri, vcard, order).result.value.0;
    assert text == VcardHeader(personUri, Minted(e.next), Minted(e.next + 1))
      + (NamePieces(NameTable, Minted(e.next + 1), vcard, order)
         + EntryPieces(SingleEntry, e.next + 2, Minted(e.next), vcard, order));
  }

  /** The first key loop of add_vcard, over name_table. */
  method AssertNames(nameTable: map<string, string>, nameUri: Value, vcard: Record, order: seq<string>)
    returns (doc: Doc)
    requires Enumerates(order, vcard.Keys)
    ensures doc == NamePieces(nameTable, nameUri, vcard, order)
  {
    doc := [];
    var i := 0;
    while i < |order|
      invariant 0 <= i <= |order|
      invariant doc == NamePieces(nameTable, nameUri, vcard, order[..i])
    {
      var key := order[i];
      assert order[..i + 1][..i] == order[..i];
      if key in nameTable {
        var pred := nameTable[key];
        var val := vcard[key];
        doc := doc + [Assert(Data(nameUri, pred, val))];
      }
      i := i + 1;
    }
    assert order[..i] == order;
  }

  /** The second key loop of add_vcard, over single_entry: one minted entity per
      single-entry key. */
  method AssertEntries(f: Foundation, singleEntry: map<string, EntryKind>, vcardUri: Value, vcard: Record,
                       order: seq<string>) returns (doc: Doc)
    requires forall i | 0 <= i < |order| :: order[i] in vcard
    modifies f
    ensures doc == EntryPieces(singleEntry, old(f.next), vcardUri, vcard, order)
    ensures f.State() == Env(old(f.next) + Entries(singleEntry, vcard, order), old(f.log))
  {
    ghost var next0, log0 := f.next, f.log;
    doc := [];
    var i := 0;
    while i < |order|
      invariant 0 <= i <= |order|
      invariant doc == EntryPieces(singleEntry, next0, vcardUri, vcard, order[..i])
      invariant f.next == next0 + Entries(singleEntry, vcard, order[..i]) && f.log == log0
    {
      ghost var n := f.next;
      var pieces := VisitEntry(f, singleEntry, vcardUri, vcard, order[i]);
      EntriesStep(singleEntry, next0, vcardUri, vcard, order, i, doc, pieces, n);
      doc := doc + pieces;
      i := i + 1;
    }
    assert order[..i] == order;
  }

  /** One pass of the second key loop. */
  method VisitEntry(f: Foundation, singleEntry: map<string, EntryKind>, vcardUri: Value, vcard: Record,
                    key: string) returns (doc: Doc)
    requires key in vcard
    modifies f
    ensures doc == EntryPiece(singleEntry, Minted(old(f.next)), vcardUri, vcard, key)
    ensures f.next == old(f.next) + (if key in singleEntry then 1 else 0) && f.log == old(f.log)
  {
    doc := [];
    if key in singleEntry {
      var val := vcard[key];
      var entry := singleEntry[key];
      var entryUri := f.GetVivoUri();
      doc := doc + [Assert(Resource(entryUri, "rdf:type", Untag(entry.kind)))];
      doc := doc + [Assert(Data(entryUri, entry.pred, val))];
      doc := doc + [Assert(Resource(vcardUri, entry.resource, entryUri))];
    }
  }

  /** One pass of the second key loop extends its text and its count by the next key. */
  lemma EntriesStep(entries: map<string, EntryKind>, next: nat, vcardUri: Value, vcard: Record,
                    order: seq<string>, i: nat, doc: Doc, pieces: Doc, n: nat)
    requires i < |order| && order[i] in vcard
    requires doc == EntryPieces(entries, next, vcardUri, vcard, order[..i])
    requires n == next + Entries(entries, vcard, order[..i])
    requires pieces == EntryPiece(entries, Minted(n), vcardUri, vcard, order[i])
    ensures doc + pieces == EntryPieces(entries, next, vcardUri, vcard, order[..i + 1])
    ensures n + (if order[i] in entries then 1 else 0) == next + Entries(entries, vcard, order[..i + 1])
  {
    EntriesSnoc(entries, next, vcardUri, vcard, order, i);
  }

  lemma EntriesSnoc(entries: map<string, EntryKind>, next: nat, vcardUri: Value, vcard: Record,
                    order: seq<string>, i: nat)
    requires i < |order|
    ensures Entries(entries, vcard, order[..i + 1]) ==
      Entries(entries, vcard, order[..i]) + (if order[i] in entries && order[i] in vcard then 1 else 0)
    ensures EntryPieces(entries, next, vcardUri, vcard, order[..i + 1]) ==
      EntryPieces(entries, next, vcardUri, vcard, order[..i])
        + EntryPiece(entries, Minted(next + Entries(entries, vcard, order[..i])), vcardUri, vcard, order[i])
  {
    assert order[..i + 1][..i] == order[..i];
  }

  method AddVcard(f: Foundation, personUri: Value, vcard: Record, order: seq<string>)
    returns (ardf: Doc, vcardUri: Value)
    requires Enumerates(order, vcard.Keys)
    modifies f
    ensures Outcome(Ok((ardf, vcardUri)), f.State()) == VcardAddition(old(f.State()), personUri, vcard, order)
  {
    ardf := [];
    vcardUri := f.GetVivoUri();
    ardf := ardf + [Assert(Resource(vcardUri, "rdf:type", Untag("vcard:Individual")))];
    ardf := ardf + [Assert(Resource(personUri, "obo:ARG2000028", vcardUri))];
    ardf := ardf + [Assert(Resource(vcardUri, "obo:ARG2000029", personUri))];
    var nameUri := f.GetVivoUri();
    ardf := ardf + [Assert(Resource(nameUri, "rdf:type", Untag("vcard:Name")))];
    ardf := ardf + [Assert(Resource(vcardUri, "vcard:hasName", nameUri))];
    assert ardf == VcardHeader(personUri, vcardUri, nameUri);
    var names := AssertNames(NameTable, nameUri, vcard, order);
    ardf := ardf + names;
    var entries := AssertEntries(f, SingleEntry, vcardUri, vcard, order);
    ardf := ardf + entries;
  }

  lemma {:induction false} NamePiecesAsserts(names: map<string, string>, nameUri: Value, vcard: Record,
                                             order: seq<string>)
    ensures AssertsOnly(NamePieces(names, nameUri, vcard, order))
  {
    if order != [] {
      NamePiecesAsserts(names, nameUri, vcard, order[..|order| - 1]);
    }
  }

  lemma {:induction false} EntryPiecesAsserts(entries: map<string, EntryKind>, next: nat, vcardUri: Value,
                                              vcard: Record, order: seq<string>)
    ensures AssertsOnly(EntryPieces(entries, next, vcardUri, vcard, order))
  {
    if order != [] {
      EntryPiecesAsserts(entries, next, vcardUri, vcard, order[..|order| - 1]);
    }
  }

  /** add_vcard only asserts: it never emits removals, nor text from any other call. */
  lemma VcardAdditionAsserts(e: Env, personUri: Value, vcard: Record, order: seq<string>)
    ensures AssertsOnly(VcardAddition(e, personUri, vcard, order).result.value.0)
    ensures NoRemovals(VcardAddition(e, personUri, vcard, order).result.value.0)
  {
    NamePiecesAsserts(NameTable, Minted(e.next + 1), vcard, order);
    EntryPiecesAsserts(SingleEntry, e.next + 2, Minted(e.next), vcard, order);
  }

  /** The single-entry keys among `order`, as a set. */
  ghost function EntryKeys(entries: map<string, EntryKind>, vcard: Record, order: seq<string>): set<string>
  {
    set k | k in order && k in vcard && k in entries
  }

  lemma {:induction false} EntriesCounted(entries: map<string, EntryKind>, vcard: Record, order: seq<string>)
    requires forall i, j :: 0 <= i < j < |order| ==> order[i] != order[j]
    ensures Entries(entries, vcard, order) == |EntryKeys(entries, vcard, order)|
  {
    if order != [] {
      var front := order[..|order| - 1];
      var key := order[|order| - 1];
      EntriesCounted(entries, vcard, front);
      assert order == front + [key];
      assert key !in front;
      if key in entries && key in vcard {
        assert EntryKeys(entries, vcard, order) == EntryKeys(entries, vcard, front) + {key};
      } else {
        assert EntryKeys(entries, vcard, order) == EntryKeys(entries, vcard, front);
      }
    }
  }

  lemma EntryKeysAll(entries: map<string, EntryKind>, vcard: Record, order: seq<string>)
    requires Enumerates(order, vcard.Keys)
    ensures EntryKeys(entries, vcard, order) == vcard.Keys * entries.Keys
  {
  }

  /** add_vcard mints exactly two identifiers, the vcard and its name, and one more
      for each single-entry key the vcard has, and makes no other call. */
  lemma VcardAdditionMints(e: Env, personUri: Value, vcard: Record, order: seq<string>)
    requires Enumerates(order, vcard.Keys)
    ensures VcardAddition(e, personUri, vcard, order).env ==
      Env(e.next + 2 + |vcard.Keys * SingleEntry.Keys|, e.log)
  {
    EntriesCounted(SingleEntry, vcard, order);
    EntryKeysAll(SingleEntry, vcard, order);
  }

  /** The identifier the second key loop mints for the key `k`: the next one when
      the loop reaches `k`. */
  function EntryUri(entries: map<string, EntryKind>, next: nat, vcard: Record, order: seq<string>, k: string): Value
    requires k in order
  {
    var front := order[..|order| - 1];
    if order[|order| - 1] == k then Minted(next + Entries(entries, vcard, front))
    else EntryUri(entries, next, vcard, front, k)
  }

  /** `v` is one of the identifiers minted from `lo` up to `hi`. */
  predicate MintedIn(v: Value, lo: nat, hi: nat)
  {
    v.Minted? && lo <= v.n < hi
  }

  /** Every triple of `doc` is about `owner` or about an identifier minted from `lo`
      up to `hi`. */
  predicate SubjectsAmong(doc: Doc, owner: Value, lo: nat, hi: nat)
  {
    forall j :: 0 <= j < |doc| && doc[j].Assert? ==> doc[j].triple.subject == owner || MintedIn(doc[j].triple.subject, lo, hi)
  }

  /** A single-entry key gets one of the identifiers the loop mints. */
  lemma {:induction false} EntryUriMinted(entries: map<string, EntryKind>, next: nat, vcard: Record,
                                          order: seq<string>, k: string)
    requires k in order && k in entries && k in vcard
    ensures MintedIn(EntryUri(entries, next, vcard, order, k), next, next + Entries(entries, vcard, order))
  {
    var front := order[..|order| - 1];
    if order[|order| - 1] != k {
      assert order == front + [order[|order| - 1]];
      EntryUriMinted(entries, next, vcard, front, k);
    }
  }

  /** For each single-entry key of the vcard, the second key loop types the entity
      minted for it, gives it the key's value and links the vcard to it. */
  lemma {:induction false} EntryTriples(entries: map<string, EntryKind>, next: nat, vcardUri: Value, vcard: Record,
                                        order: seq<string>, k: string)
    requires k in order && k in entries && k in vcard
    ensures var u := EntryUri(entries, next, vcard, order, k);
      && Assert(Resource(u, "rdf:type", Untag(entries[k].kind))) in EntryPieces(entries, next, vcardUri, vcard, order)
      && Assert(Data(u, entries[k].pred, vcard[k])) in EntryPieces(entries, next, vcardUri, vcard, order)
      && Assert(Resource(vcardUri, entries[k].resource, u)) in EntryPieces(entries, next, vcardUri, vcard, order)
  {
    var front := order[..|order| - 1];
    if order[|order| - 1] != k {
      assert order == front + [order[|order| - 1]];
      EntryTriples(entries, next, vcardUri, vcard, front, k);
    }
  }

  /** Different single-entry keys get different identifiers. */
  lemma {:induction false} EntryUrisDistinct(entries: map<string, EntryKind>, next: nat, vcard: Record,
                                             order: seq<string>, k1: string, k2: string)
    requires forall i, j :: 0 <= i < j < |order| ==> order[i] != order[j]
    requires k1 in order && k1 in entries && k1 in vcard
    requires k2 in order && k2 in entries && k2 in vcard
    requires k1 != k2
    ensures EntryUri(entries, next, vcard, order, k1) != EntryUri(entries, next, vcard, order, k2)
  {
    var front := order[..|order| - 1];
    var last := order[|order| - 1];
    assert order == front + [last];
    if last == k1 {
      EntryUriMinted(entries, next, vcard, front, k2);
    } else if last == k2 {
      EntryUriMinted(entries, next, vcard, front, k1);
    } else {
      EntryUrisDistinct(entries, next, vcard, front, k1, k2);
    }
  }

  /** The second key loop emits nothing but the three triples of each single-entry
      key, on the identifier minted for it. */
  lemma {:induction false} EntryPiecesOnly(entries: map<string, EntryKind>, next: nat, vcardUri: Value, vcard: Record,
                                           order: seq<string>, p: Piece)
    requires forall i, j :: 0 <= i < j < |order| ==> order[i] != order[j]
    requires p in EntryPieces(entries, next, vcardUri, vcard, order)
    ensures exists k ::
      k in order && k in entries && k in vcard &&
      p in EntryPiece(entries, EntryUri(entries, next, vcard, order, k), vcardUri, vcard, k)
  {
    var front := order[..|order| - 1];
    var last := order[|order| - 1];
    assert order == front + [last];
    if p in EntryPieces(entries, next, vcardUri, vcard, front) {
      EntryPiecesOnly(entries, next, vcardUri, vcard, front, p);
      var k :| k in front && k in entries && k in vcard &&
        p in EntryPiece(entries, EntryUri(entries, next, vcard, front, k), vcardUri, vcard, k);
      EntryUriFront(entries, next, vcard, order, k);
      assert k in order;
    } else {
      assert p in EntryPiece(entries, EntryUri(entries, next, vcard, order, last), vcardUri, vcard, last);
    }
  }

  /** A key before the last one keeps the identifier it had. */
  lemma EntryUriFront(entries: map<string, EntryKind>, next: nat, vcard: Record, order: seq<string>, k: string)
    requires order != [] && k in order[..|order| - 1] && k != order[|order| - 1]
    ensures EntryUri(entries, next, vcard, order, k) == EntryUri(entries, next, vcard, order[..|order| - 1], k)
  {
  }

  /** The second key loop speaks only of the vcard and of the identifiers it mints. */
  lemma {:induction false} EntrySubjects(entries: map<string, EntryKind>, next: nat, vcardUri: Value, vcard: Record,
                                         order: seq<string>)
    ensures SubjectsAmong(EntryPieces(entries, next, vcardUri, vcard, order), vcardUri, next,
                          next + Entries(entries, vcard, order))
  {
    if order != [] {
      var front := order[..|order| - 1];
      EntrySubjects(entries, next, vcardUri, vcard, front);
      SubjectsAppend(EntryPieces(entries, next, vcardUri, vcard, front),
                     EntryPiece(entries, Minted(next + Entries(entries, vcard, front)), vcardUri, vcard, order[|order| - 1]),
                     vcardUri, next, next + Entries(entries, vcard, order));
    }
  }

  /** The name loop speaks only of the name. */
  lemma {:induction false} NameSubjects(names: map<string, string>, nameUri: Value, vcard: Record, order: seq<string>)
    ensures forall j :: 0 <= j < |NamePieces(names, nameUri, vcard, order)| ==>
      NamePieces(names, nameUri, vcard, order)[j].Assert? && NamePieces(names, nameUri, vcard, order)[j].triple.subject == nameUri
  {
    if order != [] {
      NameSubjects(names, nameUri, vcard, order[..|order| - 1]);
    }
  }

  lemma SubjectsAppend(a: Doc, b: Doc, owner: Value, lo: nat, hi: nat)
    requires forall j :: 0 <= j < |a| && a[j].Assert? ==> a[j].triple.subject == owner || MintedIn(a[j].triple.subject, lo, hi)
    requires forall j :: 0 <= j < |b| && b[j].Assert? ==> b[j].triple.subject == owner || MintedIn(b[j].triple.subject, lo, hi)
    ensures SubjectsAmong(a + b, owner, lo, hi)
  {
    forall j | 0 <= j < |a + b| && (a + b)[j].Assert?
      ensures (a + b)[j].triple.subject == owner || MintedIn((a + b)[j].triple.subject, lo, hi)
    {
      if j >= |a| {
        assert (a + b)[j] == b[j - |a|];
      }
    }
  }

  /** add_vcard speaks only of the person and of the identifiers it mints: the
      vcard, the name and one entity per single-entry key. */
  lemma VcardAdditionFresh(e: Env, personUri: Value, vcard: Record, order: seq<string>)
    ensures var r := VcardAddition(e, personUri, vcard, order);
      SubjectsAmong(r.result.value.0, personUri, e.next, r.env.next)
  {
    var r := VcardAddition(e, personUri, vcard, order);
    var hi := r.env.next;
    var header := VcardHeader(personUri, Minted(e.next), Minted(e.next + 1));
    var names := NamePieces(NameTable, Minted(e.next + 1), vcard, order);
    var entries := EntryPieces(SingleEntry, e.next + 2, Minted(e.next), vcard, order);
    NameSubjects(NameTable, Minted(e.next + 1), vcard, order);
    EntrySubjects(SingleEntry, e.next + 2, Minted(e.next), vcard, order);
    SubjectsAppend(header, names, personUri, e.next, hi);
    SubjectsAppend(header + names, entries, personUri, e.next, hi);
  }

  /** add_vcard's text: the header, the name loop's triples, then the entry loop's. */
  lemma VcardAdditionParts(e: Env, personUri: Value, vcard: Record, order: seq<string>)
    ensures VcardAddition(e, personUri, vcard, order).result.value.0 ==
      VcardHeader(personUri, Minted(e.next), Minted(e.next + 1))
        + NamePieces(NameTable, Minted(e.next + 1), vcard, order)
        + EntryPieces(SingleEntry, e.next + 2, Minted(e.next), vcard, order)
    ensures VcardAddition(e, personUri, vcard, order).env.next == e.next + 2 + Entries(SingleEntry, vcard, order)
  {
  }

  /** In add_vcard's text, each single-entry key of the vcard has its own fresh
      entity, typed, holding the key's value and linked from the vcard. */
  lemma VcardAdditionEntry(e: Env, personUri: Value, vcard: Record, order: seq<string>, k: string)
    requires Enumerates(order, vcard.Keys)
    requires k in vcard && k in SingleEntry
    ensures var r := VcardAddition(e, personUri, vcard, order);
      var u := EntryUri(SingleEntry, e.next + 2, vcard, order, k);
      var entry := SingleEntry[k];
      && MintedIn(u, e.next + 2, r.env.next)
      && Assert(Resource(u, "rdf:type", Untag(entry.kind))) in r.result.value.0
      && Assert(Data(u, entry.pred, vcard[k])) in r.result.value.0
      && Assert(Resource(Minted(e.next), entry.resource, u)) in r.result.value.0
  {
    VcardAdditionParts(e, personUri, vcard, order);
    EntryUriMinted(SingleEntry, e.next + 2, vcard, order, k);
    EntryTriples(SingleEntry, e.next + 2, Minted(e.next), vcard, order, k);
  }

  /** In add_vcard's text, different single-entry keys have different entities. */
  lemma VcardAdditionEntriesDistinct(e: Env, personUri: Value, vcard: Record, order: seq<string>, k1: string, k2: string)
    requires Enumerates(order, vcard.Keys)
    requires k1 in vcard && k1 in SingleEntry && k2 in vcard && k2 in SingleEntry && k1 != k2
    ensures EntryUri(SingleEntry, e.next + 2, vcard, order, k1) != EntryUri(SingleEntry, e.next + 2, vcard, order, k2)
  {
    EntryUrisDistinct(SingleEntry, e.next + 2, vcard, order, k1, k2);
  }

  /** The name loop asserts one `Data` triple on the name for each name key of the
      vcard, and nothing else. */
  lemma {:induction false} NamePiecesIs(names: map<string, string>, nameUri: Value, vcard: Record,
                                        order: seq<string>, p: Piece)
    ensures p in NamePieces(names, nameUri, vcard, order) <==>
      exists k :: k in order && k in names && k in vcard && p == Assert(Data(nameUri, names[k], vcard[k]))
  {
    if order != [] {
      var front := order[..|order| - 1];
      NamePiecesIs(names, nameUri, vcard, front, p);
      assert order == front + [order[|order| - 1]];
    }
  }

  /** `order` without `k`. */
  function Without(order: seq<string>, k: string): (r: seq<string>)
    ensures forall x :: x in r <==> x in order && x != k
  {
    if order == [] then []
    else Without(order[..|order| - 1], k) + (if order[|order| - 1] == k then [] else [order[|order| - 1]])
  }

  /** `Without` drops the last key exactly when it is `k`. */
  lemma WithoutSnoc(order: seq<string>, k: string)
    requires order != []
    ensures order[|order| - 1] == k ==> Without(order, k) == Without(order[..|order| - 1], k)
    ensures order[|order| - 1] != k ==>
      Without(order, k) == Without(order[..|order| - 1], k) + [order[|order| - 1]]
  {
  }

  lemma WithoutAppend(front: seq<string>, key: string, k: string)
    ensures key == k ==> Without(front + [key], k) == Without(front, k)
    ensures key != k ==> Without(front + [key], k) == Without(front, k) + [key]
  {
    assert (front + [key])[..|front|] == front;
  }

  /** The name pieces skip a key no name row has: dropping it from the order changes nothing. */
  lemma {:induction false} NamesDropped(names: map<string, string>, nameUri: Value, vcard: Record,
                                        order: seq<string>, k: string)
    requires k !in names
    ensures NamePieces(names, nameUri, vcard, order) == NamePieces(names, nameUri, vcard, Without(order, k))
  {
    if order != [] {
      var front := order[..|order| - 1];
      var key := order[|order| - 1];
      assert order == front + [key];
      NamesDropped(names, nameUri, vcard, front, k);
      WithoutSnoc(order, k);
      NamePiecesAppend(names, nameUri, vcard, front, key);
      if key != k {
        NamePiecesAppend(names, nameUri, vcard, Without(front, k), key);
      }
    }
  }

  /** A key the order never visits may leave the vcard. */
  lemma {:induction false} NamesUnvisited(names: map<string, string>, nameUri: Value, vcard: Record,
                                          order: seq<string>, k: string)
    requires k !in order
    ensures NamePieces(names, nameUri, vcard, order) == NamePieces(names, nameUri, vcard - {k}, order)
  {
    if order != [] {
      NamesUnvisited(names, nameUri, vcard, order[..|order| - 1], k);
    }
  }

  lemma NamePiecesAppend(names: map<string, string>, nameUri: Value, vcard: Record, order: seq<string>, key: string)
    ensures NamePieces(names, nameUri, vcard, order + [key]) ==
      NamePieces(names, nameUri, vcard, order) + NamePiece(names, nameUri, vcard, key)
  {
    assert (order + [key])[..|order|] == order;
  }

  lemma EntriesAppend(entries: map<string, EntryKind>, vcard: Record, order: seq<string>, key: string)
    ensures Entries(entries, vcard, order + [key]) ==
      Entries(entries, vcard, order) + (if key in entries && key in vcard then 1 else 0)
  {
    assert (order + [key])[..|order|] == order;
  }

  /** The count of identifiers minted skips a key no single-entry row has. */
  lemma {:induction false} EntryCountDropped(entries: map<string, EntryKind>, vcard: Record, order: seq<string>,
                                             k: string)
    requires k !in entries
    ensures Entries(entries, vcard, order) == Entries(entries, vcard, Without(order, k))
  {
    if order != [] {
      var front := order[..|order| - 1];
      var key := order[|order| - 1];
      assert order == front + [key];
      EntryCountDropped(entries, vcard, front, k);
      WithoutSnoc(order, k);
      EntriesAppend(entries, vcard, front, key);
      if key != k {
        EntriesAppend(entries, vcard, Without(front, k), key);
      }
    }
  }

  /** The entry pieces skip a key no single-entry row has: dropping it from the
      order changes nothing. */
  lemma {:induction false} EntriesDropped(entries: map<string, EntryKind>, next: nat, vcardUri: Value,
                                          vcard: Record, order: seq<string>, k: string)
    requires k !in entries
    ensures EntryPieces(entries, next, vcardUri, vcard, order) ==
      EntryPieces(entries, next, vcardUri, vcard, Without(order, k))
  {
    if order != [] {
      var front := order[..|order| - 1];
      var key := order[|order| - 1];
      assert order == front + [key];
      EntriesDropped(entries, next, vcardUri, vcard, front, k);
      EntriesDroppedStep(entries, next, vcardUri, vcard, front, key, k);
    }
  }

  lemma EntriesDroppedStep(entries: map<string, EntryKind>, next: nat, vcardUri: Value,
                           vcard: Record, front: seq<string>, key: string, k: string)
    requires k !in entries
    requires EntryPieces(entries, next, vcardUri, vcard, front) ==
      EntryPieces(entries, next, vcardUri, vcard, Without(front, k))
    ensures EntryPieces(entries, next, vcardUri, vcard, front + [key]) ==
      EntryPieces(entries, next, vcardUri, vcard, Without(front + [key], k))
  {
    WithoutAppend(front, key, k);
    if key == k {
      EntryPiecesAppend(entries, next, vcardUri, vcard, front, key);
    } else {
      EntryCountDropped(entries, vcard, front, k);
      EntryPiecesCongruent(entries, next, vcardUri, vcard, front, Without(front, k), key);
    }
  }

  /** Two orders that add the same pieces and mint as many entries still do
      after one more key. */
  lemma EntryPiecesCongruent(entries: map<string, EntryKind>, next: nat, vcardUri: Value, vcard: Record,
                             a: seq<string>, b: seq<string>, key: string)
    requires EntryPieces(entries, next, vcardUri, vcard, a) == EntryPieces(entries, next, vcardUri, vcard, b)
    requires Entries(entries, vcard, a) == Entries(entries, vcard, b)
    ensures EntryPieces(entries, next, vcardUri, vcard, a + [key]) == EntryPieces(entries, next, vcardUri, vcard, b + [key])
  {
    var piece := EntryPiece(entries, Minted(next + Entries(entries, vcard, a)), vcardUri, vcard, key);
    var pieces := EntryPieces(entries, next, vcardUri, vcard, a);
    EntryPiecesAppend(entries, next, vcardUri, vcard, a, key);
    EntryPiecesAppend(entries, next, vcardUri, vcard, b, key);
    assert EntryPieces(entries, next, vcardUri, vcard, a + [key]) == pieces + piece;
  }

  lemma {:induction false} EntryCountUnvisited(entries: map<string, EntryKind>, vcard: Record, order: seq<string>,
                                               k: string)
    requires k !in order
    ensures Entries(entries, vcard, order) == Entries(entries, vcard - {k}, order)
  {
    if order != [] {
      EntryCountUnvisited(entries, vcard, order[..|order| - 1], k);
    }
  }

  /** A key the order never visits may leave the vcard. */
  lemma {:induction false} EntriesUnvisited(entries: map<string, EntryKind>, next: nat, vcardUri: Value,
                                            vcard: Record, order: seq<string>, k: string)
    requires k !in order
    ensures EntryPieces(entries, next, vcardUri, vcard, order) == EntryPieces(entries, next, vcardUri, vcard - {k}, order)
  {
    if order != [] {
      EntriesUnvisited(entries, next, vcardUri, vcard, order[..|order| - 1], k);
      EntryCountUnvisited(entries, vcard, order[..|order| - 1], k);
    }
  }

  lemma EntryPiecesAppend(entries: map<string, EntryKind>, next: nat, vcardUri: Value, vcard: Record,
                          order: seq<string>, key: string)
    ensures EntryPieces(entries, next, vcardUri, vcard, order + [key]) ==
      EntryPieces(entries, next, vcardUri, vcard, order)
        + EntryPiece(entries, Minted(next + Entries(entries, vcard, order)), vcardUri, vcard, key)
  {
    assert (order + [key])[..|order|] == order;
  }

  lemma PhoneInNoTable()
    ensures "phone" !in NameTable && "phone" !in SingleEntry
  {
  }

  /** A key in neither table changes nothing add_vcard does; so a `phone` key
      emits nothing, single_entry knowing only `telephone`. */
  lemma PhoneIgnored(e: Env, personUri: Value, vcard: Record, order: seq<string>)
    ensures VcardAddition(e, personUri, vcard, order) ==
      VcardAddition(e, personUri, vcard - {"phone"}, Without(order, "phone"))
  {
    PhoneInNoTable();
    IgnoredKeyAddition(e, personUri, vcard, order, "phone");
  }

  lemma IgnoredKeyAddition(e: Env, personUri: Value, vcard: Record, order: seq<string>, k: string)
    requires k !in NameTable && k !in SingleEntry
    ensures VcardAddition(e, personUri, vcard, order) == VcardAddition(e, personUri, vcard - {k}, Without(order, k))
  {
    IgnoredKeyPieces(NameTable, SingleEntry, e.next, vcard, order, k);
  }

  /** Both key loops of add_vcard, for any tables that lack `k`. */
  lemma IgnoredKeyPieces(names: map<string, string>, entries: map<string, EntryKind>, next: nat, vcard: Record,
                         order: seq<string>, k: string)
    requires k !in names && k !in entries
    ensures NamePieces(names, Minted(next + 1), vcard, order) ==
      NamePieces(names, Minted(next + 1), vcard - {k}, Without(order, k))
    ensures EntryPieces(entries, next + 2, Minted(next), vcard, order) ==
      EntryPieces(entries, next + 2, Minted(next), vcard - {k}, Without(order, k))
    ensures Entries(entries, vcard, order) == Entries(entries, vcard - {k}, Without(order, k))
  {
    var kept := Without(order, k);
    NamesDropped(names, Minted(next + 1), vcard, order, k);
    NamesUnvisited(names, Minted(next + 1), vcard, kept, k);
    EntriesDropped(entries, next + 2, Minted(next), vcard, order, k);
    EntryCountDropped(entries, vcard, order, k);
    EntryCountUnvisited(entries, vcard, kept, k);
    EntriesUnvisited(entries, next + 2, Minted(next), vcard, kept, k);
  }

  // add_person

  const DirectDataPreds: map<string, string> := map[
    "ufid" := "ufv:ufid",
    "privacy_flag" := "ufv:privacyFlag",
    "display_name" := "rdfs:label",
    "gatorlink" := "ufv:gatorlink"
  ]

  const DirectResourcePreds: map<string, string> := map["homedept_uri" := "ufv:homeDept"]

  /** The person keys copied into the vcard, and into the position. */
  const VcardCopyKeys: seq<string> :=
    ["last_name", "first_name", "middle_name", "primary_email", "name_prefix", "name_suffix", "fax",
     "phone", "preferred_title"]
  const PositionCopyKeys: seq<string> := ["start_date", "position_label", "end_date", "position_orguri", "position_type"]
  const VcardCopySet: set<string> := KeySet(VcardCopyKeys)
  const PositionCopySet: set<string> := KeySet(PositionCopyKeys)

  /** The three `rdf:type` triples add_person asserts first. */
  function PersonTypes(personUri: Value, personType: Value): Doc
  {
    [Assert(Resource(personUri, "rdf:type", personType)),
     Assert(Resource(personUri, "rdf:type", Untag("ufv:UFEntity"))),
     Assert(Resource(personUri, "rdf:type", Untag("ufv:UFCurrentEntity")))]
  }

  /** A loop over a table of direct predicates: one triple for each key the person
      has, a data triple or a resource triple. */
  function DirectPieces(personUri: Value, person: Record, table: map<string, string>, order: seq<string>,
                        resource: bool): Doc
  {
    if order == [] then []
    else
      var key := order[|order| - 1];
      DirectPieces(personUri, person, table, order[..|order| - 1], resource)
        + if key in table && key in person then
            [Assert(if resource then Resource(personUri, table[key], person[key])
                    else Data(personUri, table[key], person[key]))]
          else []
  }

  /** The person's own triples: its types, then the direct properties. */
  function PersonHead(personUri: Value, person: Record, dataOrder: seq<string>): Doc
    requires "person_type" in person
  {
    PersonTypes(personUri, person["person_type"])
      + DirectPieces(personUri, person, DirectDataPreds, dataOrder, false)
      + DirectPieces(personUri, person, DirectResourcePreds, ["homedept_uri"], true)
  }

  /** `[ardf, person_uri]` of add_person, when its loop over direct_data_preds sees
      the keys in `dataOrder` and add_vcard sees the copied vcard's keys in
      `vcardOrder`; or the KeyError of `person_type` or of a position key. */
  function PersonAddition(e: Env, person: Record, dataOrder: seq<string>, vcardOrder: seq<string>)
    : Outcome<(Doc, Value)>
  {
    var (personUri, e1) := Mint(e);
    if "person_type" !in person then Outcome(Err(KeyError("person_type")), e1)
    else
      PersonParts(e1, personUri, PersonHead(personUri, person, dataOrder),
                  Restrict(person, VcardCopySet), vcardOrder, Restrict(person, PositionCopySet))
  }

  /** add_person fails exactly when the person lacks `person_type` or one of the
      position keys, with the KeyError of the first of them it reads. */
  lemma PersonAdditionFails(e: Env, person: Record, dataOrder: seq<string>, vcardOrder: seq<string>)
    ensures PersonAddition(e, person, dataOrder, vcardOrder).result.Ok? <==>
              && "person_type" in person
              && "position_type" in person && "position_label" in person && "position_orguri" in person
    ensures PersonAddition(e, person, dataOrder, vcardOrder).result.Err? ==>
              PersonAddition(e, person, dataOrder, vcardOrder).result.error ==
                KeyError(if "person_type" !in person then "person_type" else MissingPositionKey(person))
  {
    if "person_type" in person {
      PersonAdditionParts(e, person, dataOrder, vcardOrder);
      PositionCopied(person);
    }
  }

  /** The uri add_person returns is the first one it mints, and its text starts with
      the person's three types. */
  lemma PersonAdditionHead(e: Env, person: Record, dataOrder: seq<string>, vcardOrder: seq<string>)
    requires PersonAddition(e, person, dataOrder, vcardOrder).result.Ok?
    ensures "person_type" in person
    ensures PersonAddition(e, person, dataOrder, vcardOrder).result.value.1 == Minted(e.next)
    ensures |PersonAddition(e, person, dataOrder, vcardOrder).result.value.0| >= 3
    ensures PersonAddition(e, person, dataOrder, vcardOrder).result.value.0[..3] ==
              PersonTypes(Minted(e.next), person["person_type"])
  {
    PersonAdditionParts(e, person, dataOrder, vcardOrder);
    var personUri := Minted(e.next);
    var head := PersonHead(personUri, person, dataOrder);
    PersonHeadStarts(personUri, person, dataOrder);
    PrefixOfPrefix(PersonAddition(e, person, dataOrder, vcardOrder).result.value.0, head, 3);
  }

  lemma PersonHeadStarts(personUri: Value, person: Record, dataOrder: seq<string>)
    requires "person_type" in person
    ensures |PersonHead(personUri, person, dataOrder)| >= 3
    ensures PersonHead(personUri, person, dataOrder)[..3] == PersonTypes(personUri, person["person_type"])
  {
    var types := PersonTypes(personUri, person["person_type"]);
    var rest := DirectPieces(personUri, person, DirectDataPreds, dataOrder, false)
      + DirectPieces(personUri, person, DirectResourcePreds, ["homedept_uri"], true);
    assert PersonHead(personUri, person, dataOrder) == types + rest;
    assert (types + rest)[..3] == types;
  }

  lemma PrefixOfPrefix(s: Doc, head: Doc, n: nat)
    requires |head| <= |s| && s[..|head|] == head && n <= |head|
    ensures s[..n] == head[..n]
  {
    assert forall i | 0 <= i < n :: s[i] == s[..|head|][i];
  }

  /** The position add_person builds has the person's position keys. */
  lemma PositionCopied(person: Record)
    ensures MissingPositionKey(Restrict(person, PositionCopySet)) == MissingPositionKey(person)
    ensures ("position_type" in Restrict(person, PositionCopySet)) == ("position_type" in person)
    ensures ("position_label" in Restrict(person, PositionCopySet)) == ("position_label" in person)
    ensures ("position_orguri" in Restrict(person, PositionCopySet)) == ("position_orguri" in person)
    ensures Get(Restrict(person, PositionCopySet), "start_date") == Get(person, "start_date")
    ensures Get(Restrict(person, PositionCopySet), "end_date") == Get(person, "end_date")
  {
    PositionCopySetIs();
  }

  lemma PositionCopySetIs()
    ensures PositionCopySet == {"start_date", "position_label", "end_date", "position_orguri", "position_type"}
  {
  }

  /** The rest of add_person, once the person's own triples `head` are written:
      the vcard, then the position. */
  function PersonParts(e: Env, personUri: Value, head: Doc, vcard: Record, vcardOrder: seq<string>,
                       position: Record): (r: Outcome<(Doc, Value)>)
    ensures r.result.Ok? <==> "position_type" in position && "position_label" in position && "position_orguri" in position
    ensures r.result.Err? ==> r.result.error == KeyError(MissingPositionKey(position))
    ensures r.result.Ok? ==> r.result.value.1 == personUri && |r.result.value.0| >= |head| &&
                             r.result.value.0[..|head|] == head
  {
    var v := VcardAddition(e, personUri, vcard, vcardOrder);
    var p := PositionAddition(v.env, personUri, position);
    if p.result.Err? then Outcome(Err(p.result.error), p.env)
    else
      assert (head + v.result.value.0 + p.result.value.0)[..|head|] == head;
      Outcome(Ok((head + v.result.value.0 + p.result.value.0, personUri)), p.env)
  }

  /** The `for key in direct_data_preds` and `for key in direct_resource_preds` loops. */
  method AssertDirect(personUri: Value, person: Record, table: map<string, string>, order: seq<string>,
                      resource: bool) returns (doc: Doc)
    requires Enumerates(order, table.Keys)
    ensures doc == DirectPieces(personUri, person, table, order, resource)
  {
    doc := [];
    var i := 0;
    while i < |order|
      invariant 0 <= i <= |order|
      invariant doc == DirectPieces(personUri, person, table, order[..i], resource)
    {
      var key := order[i];
      assert order[..i + 1][..i] == order[..i];
      if key in person {
        var pred := table[key];
        var val := person[key];
        if resource {
          doc := doc + [Assert(Resource(personUri, pred, val))];
        } else {
          doc := doc + [Assert(Data(personUri, pred, val))];
        }
      }
      i := i + 1;
    }
    assert order[..i] == order;
  }

  /** A fresh record holding those of `keys` the person has, with the person's values. */
  method CopyKeys(person: Record, keys: seq<string>) returns (copy: Record)
    ensures copy == Restrict(person, KeySet(keys))
  {
    copy := map[];
    var i := 0;
    while i < |keys|
      invariant 0 <= i <= |keys|
      invariant forall k :: k in copy <==> k in person && k in keys[..i]
      invariant forall k :: k in copy ==> copy[k] == person[k]
    {
      var key := keys[i];
      assert keys[..i + 1] == keys[..i] + [key];
      if key in person {
        copy := copy[key := person[key]];
      }
      i := i + 1;
    }
    assert keys[..i] == keys;
  }

  method AddPerson(f: Foundation, person: Record, dataOrder: seq<string>, vcardOrder: seq<string>)
    returns (r: Result<(Doc, Value)>)
    requires Enumerates(dataOrder, DirectDataPreds.Keys)
    requires Enumerates(vcardOrder, Restrict(person, VcardCopySet).Keys)
    modifies f
    ensures Outcome(r, f.State()) == PersonAddition(old(f.State()), person, dataOrder, vcardOrder)
  {
    ghost var e0 := f.State();
    var ardf: Doc;
    var personUri := f.GetVivoUri();
    if "person_type" !in person {
      return Err(KeyError("person_type"));
    }
    PersonAdditionParts(e0, person, dataOrder, vcardOrder);
    ardf := AssertPerson(personUri, person, dataOrder);
    r := AddContactAndPosition(f, personUri, ardf, person, vcardOrder);
  }

  /** The person's own triples: the three types, then the two direct loops. */
  method AssertPerson(personUri: Value, person: Record, dataOrder: seq<string>) returns (ardf: Doc)
    requires "person_type" in person
    requires Enumerates(dataOrder, DirectDataPreds.Keys)
    ensures ardf == PersonHead(personUri, person, dataOrder)
  {
    var personType := person["person_type"];
    ardf := [Assert(Resource(personUri, "rdf:type", personType))];
    ardf := ardf + [Assert(Resource(personUri, "rdf:type", Untag("ufv:UFEntity")))];
    ardf := ardf + [Assert(Resource(personUri, "rdf:type", Untag("ufv:UFCurrentEntity")))];
    assert ardf == PersonTypes(personUri, personType);
    var data := AssertDirect(personUri, person, DirectDataPreds, dataOrder, false);
    ardf := ardf + data;
    var resources := AssertDirect(personUri, person, DirectResourcePreds, ["homedept_uri"], true);
    ardf := ardf + resources;
  }

  /** The rest of add_person: the copied vcard and its text, then the copied
      position and its text. */
  method AddContactAndPosition(f: Foundation, personUri: Value, head: Doc, person: Record, vcardOrder: seq<string>)
    returns (r: Result<(Doc, Value)>)
    requires Enumerates(vcardOrder, Restrict(person, VcardCopySet).Keys)
    modifies f
    ensures Outcome(r, f.State()) ==
      PersonParts(old(f.State()), personUri, head, Restrict(person, VcardCopySet), vcardOrder,
                  Restrict(person, PositionCopySet))
  {
    var ardf := head;
    var vcard := CopyKeys(person, VcardCopyKeys);
    var add, vcardUri := AddVcard(f, personUri, vcard, vcardOrder);
    ardf := ardf + add;
    var position := CopyKeys(person, PositionCopyKeys);
    var added := AddPosition(f, personUri, position);
    if added.Err? {
      return Err(added.error);
    }
    ardf := ardf + added.value.0;
    r := Ok((ardf, personUri));
  }

  /** Making up a person mints its uri, the vcard's, the name's, one uri for each of
      `primary_email`, `fax` and `preferred_title` the person has, and the position's;
      and creates the position's interval from the person's dates. */
  lemma PersonAdditionMints(e: Env, person: Record, dataOrder: seq<string>, vcardOrder: seq<string>)
    requires "person_type" in person
    requires Enumerates(vcardOrder, Restrict(person, VcardCopySet).Keys)
    ensures PersonAddition(e, person, dataOrder, vcardOrder).env ==
      Env(e.next + 4 + |person.Keys * {"primary_email", "fax", "preferred_title"}|,
          e.log + [AddDti(Get(person, "start_date"), Get(person, "end_date"))])
  {
    PersonAdditionParts(e, person, dataOrder, vcardOrder);
    VcardAdditionMints(Env(e.next + 1, e.log), Minted(e.next), Restrict(person, VcardCopySet), vcardOrder);
    CopiedEntryKeys();
    RestrictKeys(person, VcardCopySet, SingleEntry.Keys);
    PositionCopied(person);
  }

  /** The direct loops speak only of the person. */
  lemma {:induction false} DirectSubjects(personUri: Value, person: Record, table: map<string, string>,
                                          order: seq<string>, resource: bool)
    ensures forall j :: 0 <= j < |DirectPieces(personUri, person, table, order, resource)| ==>
      DirectPieces(personUri, person, table, order, resource)[j].Assert? &&
      DirectPieces(personUri, person, table, order, resource)[j].triple.subject == personUri
  {
    if order != [] {
      DirectSubjects(personUri, person, table, order[..|order| - 1], resource);
    }
  }

  /** The person's own triples are all about the person. */
  lemma HeadSubjects(personUri: Value, person: Record, dataOrder: seq<string>)
    requires "person_type" in person
    ensures SubjectsAmong(PersonHead(personUri, person, dataOrder), personUri, 0, 0)
  {
    var types := PersonTypes(personUri, person["person_type"]);
    var data := DirectPieces(personUri, person, DirectDataPreds, dataOrder, false);
    var resources := DirectPieces(personUri, person, DirectResourcePreds, ["homedept_uri"], true);
    DirectSubjects(personUri, person, DirectDataPreds, dataOrder, false);
    DirectSubjects(personUri, person, DirectResourcePreds, ["homedept_uri"], true);
    SubjectsAppend(types, data, personUri, 0, 0);
    SubjectsAppend(types + data, resources, personUri, 0, 0);
  }

  /** The vcard and the position that follow the person's own triples bring only
      identifiers minted on the way. */
  lemma PartsFresh(e: Env, personUri: Value, head: Doc, vcard: Record, vcardOrder: seq<string>, position: Record,
                   lo: nat)
    requires lo <= e.next && MintedIn(personUri, lo, e.next)
    requires SubjectsAmong(head, personUri, 0, 0)
    ensures var r := PersonParts(e, personUri, head, vcard, vcardOrder, position);
      r.result.Ok? ==> SubjectsAmong(r.result.value.0, personUri, lo, r.env.next)
  {
    var v := VcardAddition(e, personUri, vcard, vcardOrder);
    var p := PositionAddition(v.env, personUri, position);
    if p.result.Ok? {
      var hi := p.env.next;
      VcardAdditionFresh(e, personUri, vcard, vcardOrder);
      SubjectsAppend(head, v.result.value.0, personUri, lo, hi);
      SubjectsAppend(head + v.result.value.0, p.result.value.0, personUri, lo, hi);
    }
  }

  /** Every triple add_person asserts is about an identifier it minted itself: the
      person, the vcard, the name, the single entries or the position. */
  lemma PersonAdditionFresh(e: Env, person: Record, dataOrder: seq<string>, vcardOrder: seq<string>)
    ensures var r := PersonAddition(e, person, dataOrder, vcardOrder);
      r.result.Ok? ==>
        forall j :: 0 <= j < |r.result.value.0| && r.result.value.0[j].Assert? ==>
          MintedIn(r.result.value.0[j].triple.subject, e.next, r.env.next)
  {
    if "person_type" in person {
      var personUri := Minted(e.next);
      PersonAdditionParts(e, person, dataOrder, vcardOrder);
      HeadSubjects(personUri, person, dataOrder);
      PartsFresh(Env(e.next + 1, e.log), personUri, PersonHead(personUri, person, dataOrder),
                 Restrict(person, VcardCopySet), vcardOrder, Restrict(person, PositionCopySet), e.next);
    }
  }

  lemma RestrictKeys(r: Record, keep: set<string>, other: set<string>)
    ensures Restrict(r, keep).Keys * other == r.Keys * (keep * other)
  {
  }

  /** Of the keys add_person copies into the vcard, single_entry knows three. */
  lemma CopiedEntryKeys()
    ensures VcardCopySet * SingleEntry.Keys == {"primary_email", "fax", "preferred_title"}
  {
    assert SingleEntry.Keys == {"primary_email", "email", "fax", "telephone", "preferred_title", "title"};
    forall k | k in VcardCopySet && k in SingleEntry.Keys
      ensures k in {"primary_email", "fax", "preferred_title"}
    {
    }
  }

  /** A direct triple is emitted exactly for each key of the table, in the loop's
      order, that the person has. */
  lemma {:induction false} DirectPiecesIs(personUri: Value, person: Record, table: map<string, string>,
                                          order: seq<string>, resource: bool, piece: Piece)
    ensures piece in DirectPieces(personUri, person, table, order, resource) <==>
      exists key :: key in order && key in table && key in person &&
        piece == Assert(if resource then Resource(personUri, table[key], person[key])
                        else Data(personUri, table[key], person[key]))
  {
    if order != [] {
      var front := order[..|order| - 1];
      var key := order[|order| - 1];
      DirectPiecesIs(personUri, person, table, front, resource, piece);
      assert order == front + [key];
      assert forall x :: x in order <==> x in front || x == key;
    }
  }

  /** The `phone` key add_person copies into the vcard emits nothing: the person
      comes out of add_person as it would without it. */
  lemma PersonPhoneIgnored(e: Env, person: Record, dataOrder: seq<string>, vcardOrder: seq<string>)
    ensures PersonAddition(e, person, dataOrder, vcardOrder) ==
      PersonAddition(e, person - {"phone"}, dataOrder, Without(vcardOrder, "phone"))
  {
    PhoneInNoPersonTable();
    PhoneInNoTable();
    IgnoredPersonKey(e, person, dataOrder, vcardOrder, "phone");
  }

  lemma PhoneInNoPersonTable()
    ensures "phone" != "person_type" && "phone" !in DirectDataPreds && "phone" !in DirectResourcePreds
    ensures "phone" !in PositionCopySet
  {
    PositionCopySetIs();
  }

  /** A key that none of add_person's tables names changes nothing add_person does. */
  lemma IgnoredPersonKey(e: Env, person: Record, dataOrder: seq<string>, vcardOrder: seq<string>, k: string)
    requires k != "person_type" && k !in DirectDataPreds && k !in DirectResourcePreds && k !in PositionCopySet
    requires k !in NameTable && k !in SingleEntry
    ensures PersonAddition(e, person, dataOrder, vcardOrder) ==
      PersonAddition(e, person - {k}, dataOrder, Without(vcardOrder, k))
  {
    var less := person - {k};
    if "person_type" in person {
      var personUri := Minted(e.next);
      PersonAdditionParts(e, person, dataOrder, vcardOrder);
      PersonAdditionParts(e, less, dataOrder, Without(vcardOrder, k));
      HeadWithout(personUri, person, dataOrder, k);
      RestrictWithout(person, VcardCopySet, k);
      RestrictUnkept(person, PositionCopySet, k);
      PartsIgnored(Env(e.next + 1, e.log), personUri, PersonHead(personUri, person, dataOrder),
                   Restrict(person, VcardCopySet), vcardOrder, Restrict(person, PositionCopySet), k);
    }
  }

  lemma HeadWithout(personUri: Value, person: Record, dataOrder: seq<string>, k: string)
    requires "person_type" in person && k != "person_type" && k !in DirectDataPreds && k !in DirectResourcePreds
    ensures "person_type" in person - {k}
    ensures PersonHead(personUri, person - {k}, dataOrder) == PersonHead(personUri, person, dataOrder)
  {
    assert (person - {k})["person_type"] == person["person_type"];
    DirectPiecesWithout(personUri, person, DirectDataPreds, dataOrder, false, k);
    DirectPiecesWithout(personUri, person, DirectResourcePreds, ["homedept_uri"], true, k);
  }

  lemma PersonAdditionParts(e: Env, person: Record, dataOrder: seq<string>, vcardOrder: seq<string>)
    requires "person_type" in person
    ensures PersonAddition(e, person, dataOrder, vcardOrder) ==
      PersonParts(Env(e.next + 1, e.log), Minted(e.next), PersonHead(Minted(e.next), person, dataOrder),
                  Restrict(person, VcardCopySet), vcardOrder, Restrict(person, PositionCopySet))
  {
    assert Mint(e) == (Minted(e.next), Env(e.next + 1, e.log));
  }

  lemma PartsIgnored(e: Env, personUri: Value, head: Doc, vcard: Record, vcardOrder: seq<string>,
                     position: Record, k: string)
    requires k !in NameTable && k !in SingleEntry
    ensures PersonParts(e, personUri, head, vcard, vcardOrder, position) ==
      PersonParts(e, personUri, head, vcard - {k}, Without(vcardOrder, k), position)
  {
    IgnoredKeyAddition(e, personUri, vcard, vcardOrder, k);
  }

  lemma RestrictUnkept(r: Record, keep: set<string>, k: string)
    requires k !in keep
    ensures Restrict(r - {k}, keep) == Restrict(r, keep)
  {
  }

  lemma RestrictWithout(r: Record, keep: set<string>, k: string)
    ensures Restrict(r - {k}, keep) == Restrict(r, keep) - {k}
  {
  }

  lemma {:induction false} DirectPiecesWithout(personUri: Value, person: Record, table: map<string, string>,
                                               order: seq<string>, resource: bool, k: string)
    requires k !in table
    ensures DirectPieces(personUri, person, table, order, resource) ==
      DirectPieces(personUri, person - {k}, table, order, resource)
  {
    if order != [] {
      DirectPiecesWithout(personUri, person, table, order[..|order| - 1], resource, k);
    }
  }
}
