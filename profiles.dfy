/** The person, position and degree projectors: get_person
    (vivopeople.py:454-499), get_degree (vivopeople.py:501-550) and get_position
    (vivopeople.py:552-621). */
module Profiles {
  import opened Records
  import opened Projection
  import opened Contacts

  const MostSpecificType := "http://vitro.mannlib.cornell.edu/ns/vitro/0.7#mostSpecificType"
  const HasContactInfo := "http://purl.obolibrary.org/obo/ARG_2000028"
  const RdfsLabel := "http://www.w3.org/2000/01/rdf-schema#label"
  const UfvUfid := "http://vivo.ufl.edu/ontology/vivo-ufl/ufid"
  const UfvHomeDept := "http://vivo.ufl.edu/ontology/vivo-ufl/homeDept"
  const UfvPrivacyFlag := "http://vivo.ufl.edu/ontology/vivo-ufl/privacyFlag"
  const UfvGatorlink := "http://vivo.ufl.edu/ontology/vivo-ufl/gatorlink"
  const ERACommonsId := "http://vivoweb.org/ontology/core#eRACommonsId"
  const UfvHrJobTitle := "http://vivo.ufl.edu/ontology/vivo-ufl/hrJobTitle"
  const DateTimeInterval := "http://vivoweb.org/ontology/core#dateTimeInterval"
  const MajorField := "http://vivoweb.org/ontology/core#majorField"
  const DegreeEarned := "http://vivoweb.org/ontology/core#degreeEarned"
  const TrainingAtOrganization := "http://vivoweb.org/ontology/core#trainingAtOrganization"

  // get_person

  const PersonFields: map<string, Feed> := map[
    "person_type" := Predicate(MostSpecificType),
    "vcard_uri" := Predicate(HasContactInfo),
    "display_name" := Predicate(RdfsLabel),
    "ufid" := Predicate(UfvUfid),
    "homedept_uri" := Predicate(UfvHomeDept),
    "privacy_flag" := Predicate(UfvPrivacyFlag),
    "gatorlink" := Predicate(UfvGatorlink),
    "eracommonsid" := Predicate(ERACommonsId)
  ]

  /** The person after the walk over its bindings. */
  function PersonBase(store: Store, uri: string, bs: Bindings): Record
  {
    map["person_uri" := Str(uri)] + Fields(store, bs, PersonFields)
  }

  /** What get_person returns: the walk's record, with the vcard dereferenced when
      `get_contact` is set; reading `person['vcard_uri']` then fails when no
      ARG_2000028 binding set it. */
  function PersonRecord(store: Store, uri: string, getContact: bool): Result<Record>
  {
    var person := PersonBase(store, uri, Fetch(store, uri));
    if !getContact then Ok(person)
    else if "vcard_uri" !in person then Err(KeyError("vcard_uri"))
    else Ok(person["vcard" := Dict(VcardRecord(store, person["vcard_uri"].s))])
  }

  lemma PersonStepOne(store: Store, uri: string, bs: Bindings, b: (string, string), k: string)
    requires k in PersonFields && b.0 == PersonFields[k].p
    requires forall k' :: k' in PersonFields && k' != k ==> b.0 != PersonFields[k'].p
    ensures PersonBase(store, uri, bs + [b]) == PersonBase(store, uri, bs)[k := Str(b.1)]
  {
    RecordAppendOne(store, map["person_uri" := Str(uri)], bs, b, PersonFields, k);
  }

  /** The `if`s of one pass of get_person's walk, one after the other. */
  function PersonUpdate(r: Record, b: (string, string)): Record
  {
    var (p, o) := b;
    var r1 := if p == MostSpecificType then r["person_type" := Str(o)] else r;
    var r2 := if p == HasContactInfo then r1["vcard_uri" := Str(o)] else r1;
    var r3 := if p == RdfsLabel then r2["display_name" := Str(o)] else r2;
    var r4 := if p == UfvUfid then r3["ufid" := Str(o)] else r3;
    var r5 := if p == UfvHomeDept then r4["homedept_uri" := Str(o)] else r4;
    var r6 := if p == UfvPrivacyFlag then r5["privacy_flag" := Str(o)] else r5;
    var r7 := if p == UfvGatorlink then r6["gatorlink" := Str(o)] else r6;
    if p == ERACommonsId then r7["eracommonsid" := Str(o)] else r7
  }

  /** What one binding does to the person. */
  lemma PersonStep(store: Store, uri: string, bs: Bindings, b: (string, string))
    ensures PersonBase(store, uri, bs + [b]) == PersonUpdate(PersonBase(store, uri, bs), b)
  {
    if b.0 == MostSpecificType {
      PersonStepOne(store, uri, bs, b, "person_type");
    } else if b.0 == HasContactInfo {
      PersonStepOne(store, uri, bs, b, "vcard_uri");
    } else if b.0 == RdfsLabel {
      PersonStepOne(store, uri, bs, b, "display_name");
    } else if b.0 == UfvUfid {
      PersonStepOne(store, uri, bs, b, "ufid");
    } else if b.0 == UfvHomeDept {
      PersonStepOne(store, uri, bs, b, "homedept_uri");
    } else if b.0 == UfvPrivacyFlag {
      PersonStepOne(store, uri, bs, b, "privacy_flag");
    } else if b.0 == UfvGatorlink {
      PersonStepOne(store, uri, bs, b, "gatorlink");
    } else if b.0 == ERACommonsId {
      PersonStepOne(store, uri, bs, b, "eracommonsid");
    } else {
      RecordIgnore(store, map["person_uri" := Str(uri)], bs, b, PersonFields);
    }
  }

  /** One pass of the `while i < count` walk of get_person. */
  method VisitPersonBinding(person: Record, p: string, o: string) returns (next: Record)
    ensures next == PersonUpdate(person, (p, o))
  {
    next := person;
    if p == MostSpecificType {
      next := next["person_type" := Str(o)];
    }
    if p == HasContactInfo {
      next := next["vcard_uri" := Str(o)];
    }
    if p == RdfsLabel {
      next := next["display_name" := Str(o)];
    }
    if p == UfvUfid {
      next := next["ufid" := Str(o)];
    }
    if p == UfvHomeDept {
      next := next["homedept_uri" := Str(o)];
    }
    if p == UfvPrivacyFlag {
      next := next["privacy_flag" := Str(o)];
    }
    if p == UfvGatorlink {
      next := next["gatorlink" := Str(o)];
    }
    if p == ERACommonsId {
      next := next["eracommonsid" := Str(o)];
    }
  }

  /** The `while i < count` walk of get_person. */
  method WalkPerson(store: Store, personUri: string) returns (person: Record)
    ensures person == PersonBase(store, personUri, Fetch(store, personUri))
  {
    person := map["person_uri" := Str(personUri)];
    var triples := Fetch(store, personUri);
    var i := 0;
    assert triples[..i] == [];
    FieldsEmpty(store, PersonFields);
    while i < |triples|
      invariant 0 <= i <= |triples|
      invariant person == PersonBase(store, personUri, triples[..i])
    {
      PersonStep(store, personUri, triples[..i], triples[i]);
      assert triples[..i + 1] == triples[..i] + [triples[i]];
      person := VisitPersonBinding(person, triples[i].0, triples[i].1);
      i := i + 1;
    }
    assert triples[..i] == triples;
  }

  method GetPerson(store: Store, personUri: string, getContact: bool) returns (r: Result<Record>)
    ensures r == PersonRecord(store, personUri, getContact)
  {
    var person := WalkPerson(store, personUri);
    if getContact {
      if "vcard_uri" !in person {
        return Err(KeyError("vcard_uri"));
      }
      var vcard := GetVcard(store, person["vcard_uri"].s);
      person := person["vcard" := Dict(vcard)];
    }
    r := Ok(person);
  }

  /** Without contact details and without bindings, the person holds only its uri. */
  lemma PersonWithoutBindings(store: Store, uri: string)
    requires Fetch(store, uri) == []
    ensures PersonRecord(store, uri, false) == Ok(map["person_uri" := Str(uri)])
  {
    FieldsEmpty(store, PersonFields);
    assert PersonBase(store, uri, []) == map["person_uri" := Str(uri)];
  }

  /** With contact details asked for, get_person fails exactly when no binding has
      the ARG_2000028 (has contact info) predicate. */
  lemma PersonNeedsVcard(store: Store, uri: string)
    ensures PersonRecord(store, uri, true).Err? <==>
      forall i :: 0 <= i < |Fetch(store, uri)| ==> Fetch(store, uri)[i].0 != HasContactInfo
    ensures PersonRecord(store, uri, true).Err? ==>
      PersonRecord(store, uri, true).error == KeyError("vcard_uri")
  {
    FieldIs(store, Fetch(store, uri), PersonFields, "vcard_uri");
  }

  /** The `except` of every projector sets `count = 0`: a store whose bindings for
      `uri` cannot be read gives each projector the record a store with no bindings
      for `uri` gives. */
  lemma FailedFetchLikeEmpty(failed: Store, empty: Store, uri: string)
    requires failed.triples(uri) == None && empty.triples(uri) == Some([])
    ensures TelephoneRecord(failed, uri, Fetch(failed, uri)) == TelephoneRecord(empty, uri, Fetch(empty, uri))
    ensures NameRecord(failed, uri, Fetch(failed, uri)) == NameRecord(empty, uri, Fetch(empty, uri))
    ensures VcardRecord(failed, uri) == VcardRecord(empty, uri)
    ensures PersonRecord(failed, uri, false) == PersonRecord(empty, uri, false)
    ensures PersonRecord(failed, uri, true) == PersonRecord(empty, uri, true)
    ensures PositionRecord(failed, uri) == PositionRecord(empty, uri)
    ensures DegreeRecord(failed, uri) == DegreeRecord(empty, uri)
  {
    TelephoneWithoutBindings(failed, uri);
    TelephoneWithoutBindings(empty, uri);
    NameWithoutBindings(failed, uri);
    NameWithoutBindings(empty, uri);
    VcardWithoutBindings(failed, uri);
    VcardWithoutBindings(empty, uri);
    PersonWithoutBindings(failed, uri);
    PersonWithoutBindings(empty, uri);
    PersonNeedsVcard(failed, uri);
    PersonNeedsVcard(empty, uri);
    PositionWithoutBindings(failed, uri);
    PositionWithoutBindings(empty, uri);
    DegreeWithoutBindings(failed, uri);
    DegreeWithoutBindings(empty, uri);
  }

  // get_position

  /** The class uris whose appearance as an object sets `position_type`, one `if o == ...`
      each in get_position. */
  const PositionClasses: set<string> := {
    "http://vivoweb.org/ontology/core#FacultyPosition",
    "http://vivoweb.org/ontology/core#Non-FacultyAcademicPosition",
    "http://vivoweb.org/ontology/vivo-ufl/ClinicalFacultyPosition",
    "http://vivoweb.org/ontology/vivo-ufl/PostDocPosition",
    "http://vivoweb.org/ontology/core#LibrarianPosition",
    "http://vivoweb.org/ontology/core#Non-AcademicPosition",
    "http://vivoweb.org/ontology/vivo-ufl/StudentAssistant",
    "http://vivoweb.org/ontology/vivo-ufl/GraduateAssistant",
    "http://vivoweb.org/ontology/vivo-ufl/Housestaff",
    "http://vivoweb.org/ontology/vivo-ufl/TemporaryFaculty",
    "http://vivoweb.org/ontology/core#FacultyAdministrativePosition"
  }

  const PositionFields: map<string, Feed> := map[
    "position_orguri" := Related(true),
    "person_uri" := Related(false),
    "hr_title" := Predicate(UfvHrJobTitle),
    "position_label" := Predicate(RdfsLabel),
    "position_type" := ObjectIn(PositionClasses),
    "dti_uri" := Predicate(DateTimeInterval)
  ]

  function PositionBase(store: Store, uri: string, bs: Bindings): (r: Record)
    ensures r.Keys <= {"position_uri", "position_orguri", "person_uri", "hr_title", "position_label",
                       "position_type", "dti_uri"}
  {
    map["position_uri" := Str(uri)] + Fields(store, bs, PositionFields)
  }

  /** The position after the walk over the bindings `bs`. */
  function PositionOf(store: Store, uri: string, bs: Bindings): Record
  {
    PositionBase(store, uri, bs) + IntervalEntries(store, bs, DateTimeInterval)
  }

  /** What get_position returns. */
  function PositionRecord(store: Store, uri: string): Record
  {
    PositionOf(store, uri, Fetch(store, uri))
  }

  /** The `if`s of one pass of the walk before the datetime interval block. */
  function PositionFieldsUpdate(store: Store, r: Record, b: (string, string)): Record
  {
    var (p, o) := b;
    var r1 :=
      if p == Relates then
        if store.isOrganization(o) then r["position_orguri" := Str(o)] else r["person_uri" := Str(o)]
      else r;
    var r2 := if p == UfvHrJobTitle then r1["hr_title" := Str(o)] else r1;
    var r3 := if p == RdfsLabel then r2["position_label" := Str(o)] else r2;
    var r4 := if o in PositionClasses then r3["position_type" := Str(o)] else r3;
    if p == DateTimeInterval then r4["dti_uri" := Str(o)] else r4
  }

  /** The table's keys stay apart from the interval keys. */
  lemma PositionFieldsUpdateOver(store: Store, r: Record, e: Record, b: (string, string))
    requires e.Keys <= {"datetime_interval", "start_date", "end_date"}
    ensures PositionFieldsUpdate(store, r + e, b) == PositionFieldsUpdate(store, r, b) + e
  {
    var (p, o) := b;
    var r1 :=
      if p == Relates then
        if store.isOrganization(o) then r["position_orguri" := Str(o)] else r["person_uri" := Str(o)]
      else r;
    var r2 := if p == UfvHrJobTitle then r1["hr_title" := Str(o)] else r1;
    var r3 := if p == RdfsLabel then r2["position_label" := Str(o)] else r2;
    var r4 := if o in PositionClasses then r3["position_type" := Str(o)] else r3;
    if p == Relates {
      if store.isOrganization(o) {
        UpdateOver(r, e, "position_orguri", Str(o));
      } else {
        UpdateOver(r, e, "person_uri", Str(o));
      }
    }
    if p == UfvHrJobTitle {
      UpdateOver(r1, e, "hr_title", Str(o));
    }
    if p == RdfsLabel {
      UpdateOver(r2, e, "position_label", Str(o));
    }
    if o in PositionClasses {
      UpdateOver(r3, e, "position_type", Str(o));
    }
    if p == DateTimeInterval {
      UpdateOver(r4, e, "dti_uri", Str(o));
    }
  }

  lemma PositionBaseStep(store: Store, uri: string, bs: Bindings, b: (string, string))
    ensures PositionBase(store, uri, bs + [b]) == PositionFieldsUpdate(store, PositionBase(store, uri, bs), b)
  {
    var base := map["position_uri" := Str(uri)];
    var (p, o) := b;
    var typed := o in PositionClasses;
    var k :=
      if p == Relates then (if store.isOrganization(o) then "position_orguri" else "person_uri")
      else if p == UfvHrJobTitle then "hr_title"
      else if p == RdfsLabel then "position_label"
      else if p == DateTimeInterval then "dti_uri"
      else "";
    if k == "" && !typed {
      RecordIgnore(store, base, bs, b, PositionFields);
    } else if k == "" {
      RecordAppendOne(store, base, bs, b, PositionFields, "position_type");
    } else if !typed {
      RecordAppendOne(store, base, bs, b, PositionFields, k);
    } else if k == "dti_uri" {
      RecordAppendTwo(store, base, bs, b, PositionFields, "position_type", k);
    } else {
      RecordAppendTwo(store, base, bs, b, PositionFields, k, "position_type");
    }
  }

  /** What one binding does to the position: the `if`s of the walk in source order. */
  lemma PositionStep(store: Store, uri: string, bs: Bindings, b: (string, string))
    ensures PositionOf(store, uri, bs + [b]) ==
      var q := PositionFieldsUpdate(store, PositionOf(store, uri, bs), b);
      if b.0 == DateTimeInterval then WithInterval(q, store.interval(b.1)) else q
  {
    var e := IntervalEntries(store, bs, DateTimeInterval);
    PositionBaseStep(store, uri, bs, b);
    IntervalAppend(store, bs, b, DateTimeInterval);
    PositionFieldsUpdateOver(store, PositionBase(store, uri, bs), e, b);
    if b.0 == DateTimeInterval {
      WithIntervalOver(PositionBase(store, uri, bs + [b]), e, store.interval(b.1));
    }
  }

  /** The `while i < count` walk of get_position; the eleven `if o == ...` tests are
      one membership test in `PositionClasses`. */
  method GetPosition(store: Store, positionUri: string) returns (position: Record)
    ensures position == PositionRecord(store, positionUri)
  {
    position := map["position_uri" := Str(positionUri)];
    var triples := Fetch(store, positionUri);
    var i := 0;
    assert triples[..i] == [];
    FieldsEmpty(store, PositionFields);
    while i < |triples|
      invariant 0 <= i <= |triples|
      invariant position == PositionOf(store, positionUri, triples[..i])
    {
      var (p, o) := triples[i];
      PositionStep(store, positionUri, triples[..i], triples[i]);
      assert triples[..i + 1] == triples[..i] + [triples[i]];
      if p == Relates {
        if store.isOrganization(o) {
          position := position["position_orguri" := Str(o)];
        } else {
          position := position["person_uri" := Str(o)];
        }
      }
      if p == UfvHrJobTitle {
        position := position["hr_title" := Str(o)];
      }
      if p == RdfsLabel {
        position := position["position_label" := Str(o)];
      }
      if o in PositionClasses {
        position := position["position_type" := Str(o)];
      }
      if p == DateTimeInterval {
        position := position["dti_uri" := Str(o)];
        var datetimeInterval := store.interval(o);
        position := position["datetime_interval" := Dict(datetimeInterval)];
        if "start_date" in datetimeInterval {
          position := position["start_date" := datetimeInterval["start_date"]];
        }
        if "end_date" in datetimeInterval {
          position := position["end_date" := datetimeInterval["end_date"]];
        }
      }
      i := i + 1;
    }
    assert triples[..i] == triples;
  }

  /** Without bindings the position holds only its uri. */
  lemma PositionWithoutBindings(store: Store, uri: string)
    requires Fetch(store, uri) == []
    ensures PositionRecord(store, uri) == map["position_uri" := Str(uri)]
  {
    FieldsEmpty(store, PositionFields);
    assert PositionBase(store, uri, []) == map["position_uri" := Str(uri)];
  }

  /** A key of the table reads the same in the position as in its fields. */
  lemma PositionKey(store: Store, uri: string, k: string)
    requires k in PositionFields
    ensures (k in PositionRecord(store, uri)) == (k in Fields(store, Fetch(store, uri), PositionFields))
    ensures k in PositionRecord(store, uri) ==>
      PositionRecord(store, uri)[k] == Fields(store, Fetch(store, uri), PositionFields)[k]
  {
    PositionPart(PositionBase(store, uri, Fetch(store, uri)), IntervalEntries(store, Fetch(store, uri), DateTimeInterval), k);
  }

  /** `position_type` is set by any binding whose object is one of the position
      classes, whatever its predicate, and holds the object of the last of them. */
  lemma PositionTypeFromClass(store: Store, uri: string)
    ensures "position_type" in PositionRecord(store, uri) <==>
      exists i :: 0 <= i < |Fetch(store, uri)| && Fetch(store, uri)[i].1 in PositionClasses
    ensures "position_type" in PositionRecord(store, uri) ==>
      exists i :: 0 <= i < |Fetch(store, uri)| && Fetch(store, uri)[i].1 in PositionClasses
        && PositionRecord(store, uri)["position_type"] == Str(Fetch(store, uri)[i].1)
        && forall j :: i < j < |Fetch(store, uri)| ==> Fetch(store, uri)[j].1 !in PositionClasses
  {
    PositionKey(store, uri, "position_type");
    FieldIs(store, Fetch(store, uri), PositionFields, "position_type");
  }

  /** A `relates` object goes to `position_orguri` when it is an organisation and to
      `person_uri` otherwise; each holds the last object routed to it. */
  lemma RelatesRouted(store: Store, uri: string)
    ensures "position_orguri" in PositionRecord(store, uri) <==>
      exists i :: 0 <= i < |Fetch(store, uri)| && Fetch(store, uri)[i].0 == Relates
        && store.isOrganization(Fetch(store, uri)[i].1)
    ensures "position_orguri" in PositionRecord(store, uri) ==>
      exists i :: 0 <= i < |Fetch(store, uri)| && Fetch(store, uri)[i].0 == Relates
        && store.isOrganization(Fetch(store, uri)[i].1)
        && PositionRecord(store, uri)["position_orguri"] == Str(Fetch(store, uri)[i].1)
    ensures "person_uri" in PositionRecord(store, uri) <==>
      exists i :: 0 <= i < |Fetch(store, uri)| && Fetch(store, uri)[i].0 == Relates
        && !store.isOrganization(Fetch(store, uri)[i].1)
    ensures "person_uri" in PositionRecord(store, uri) ==>
      exists i :: 0 <= i < |Fetch(store, uri)| && Fetch(store, uri)[i].0 == Relates
        && !store.isOrganization(Fetch(store, uri)[i].1)
        && PositionRecord(store, uri)["person_uri"] == Str(Fetch(store, uri)[i].1)
  {
    PositionKey(store, uri, "position_orguri");
    FieldIs(store, Fetch(store, uri), PositionFields, "position_orguri");
    PositionKey(store, uri, "person_uri");
    FieldIs(store, Fetch(store, uri), PositionFields, "person_uri");
  }

  /** `datetime_interval` is present exactly with `dti_uri` and is the interval that
      uri names; `start_date` is present exactly when some interval has one. */
  lemma PositionInterval(store: Store, uri: string)
    ensures ("datetime_interval" in PositionRecord(store, uri)) == ("dti_uri" in PositionRecord(store, uri))
    ensures "dti_uri" in PositionRecord(store, uri) ==>
      && PositionRecord(store, uri)["dti_uri"].Str?
      && PositionRecord(store, uri)["datetime_interval"] ==
           Dict(store.interval(PositionRecord(store, uri)["dti_uri"].s))
    ensures "start_date" in PositionRecord(store, uri) <==>
      exists i :: 0 <= i < |Fetch(store, uri)| && Fetch(store, uri)[i].0 == DateTimeInterval
        && "start_date" in store.interval(Fetch(store, uri)[i].1)
    ensures "end_date" in PositionRecord(store, uri) <==>
      exists i :: 0 <= i < |Fetch(store, uri)| && Fetch(store, uri)[i].0 == DateTimeInterval
        && "end_date" in store.interval(Fetch(store, uri)[i].1)
  {
    var bs := Fetch(store, uri);
    PositionKey(store, uri, "dti_uri");
    PositionPart(PositionBase(store, uri, bs), IntervalEntries(store, bs, DateTimeInterval), "datetime_interval");
    PositionPart(PositionBase(store, uri, bs), IntervalEntries(store, bs, DateTimeInterval), "start_date");
    PositionPart(PositionBase(store, uri, bs), IntervalEntries(store, bs, DateTimeInterval), "end_date");
    IntervalIs(store, bs, DateTimeInterval);
    LastHavingIs(bs, DateTimeInterval, store.interval, "start_date");
    LastHavingIs(bs, DateTimeInterval, store.interval, "end_date");
  }

  /** Where a key of a position lives: the walk's fields, or the interval keys. */
  lemma PositionPart(a: Record, e: Record, k: string)
    requires a.Keys <= {"position_uri", "position_orguri", "person_uri", "hr_title", "position_label",
                        "position_type", "dti_uri"}
    requires e.Keys <= {"datetime_interval", "start_date", "end_date"}
    ensures k !in {"datetime_interval", "start_date", "end_date"} ==>
      (k in a + e) == (k in a) && (k in a ==> (a + e)[k] == a[k])
    ensures k in {"datetime_interval", "start_date", "end_date"} ==>
      (k in a + e) == (k in e) && (k in e ==> (a + e)[k] == e[k])
  {
  }

  // get_degree

  const DegreeFields: map<string, Feed> := map[
    "major_field" := Predicate(MajorField),
    "earned_uri" := Predicate(DegreeEarned),
    "training_institution_uri" := Predicate(TrainingAtOrganization)
  ]

  /** What one binding does to the keys get_degree dereferences: the abbreviation of
      an earned degree, and the label of a training organisation when it has one. */
  function NamesUpdate(store: Store, r: Record, b: (string, string)): Record
  {
    var (p, o) := b;
    if p == DegreeEarned then r["degree_name" := store.vivoValue(o, "core:abbreviation")]
    else if p == TrainingAtOrganization && "label" in store.organization(o) then
      r["institution_name" := store.organization(o)["label"]]
    else r
  }

  /** The dereferenced keys after the walk over `bs`. */
  function DegreeNames(store: Store, bs: Bindings): (r: Record)
    ensures r.Keys <= {"degree_name", "institution_name"}
  {
    if bs == [] then map[] else NamesUpdate(store, DegreeNames(store, bs[..|bs| - 1]), bs[|bs| - 1])
  }

  lemma DegreeNamesAppend(store: Store, bs: Bindings, b: (string, string))
    ensures DegreeNames(store, bs + [b]) == NamesUpdate(store, DegreeNames(store, bs), b)
  {
    assert (bs + [b])[..|bs|] == bs;
  }

  /** `degree_name` is the abbreviation of the last earned degree; `institution_name`
      is the label of the last training organisation that has one. */
  lemma {:induction false} DegreeNamesIs(store: Store, bs: Bindings)
    ensures ("degree_name" in DegreeNames(store, bs)) == (Last(store, bs, Predicate(DegreeEarned)) != None)
    ensures "degree_name" in DegreeNames(store, bs) ==>
      DegreeNames(store, bs)["degree_name"] ==
        store.vivoValue(Last(store, bs, Predicate(DegreeEarned)).value, "core:abbreviation")
    ensures ("institution_name" in DegreeNames(store, bs)) ==
      (LastHaving(bs, TrainingAtOrganization, store.organization, "label") != None)
    ensures "institution_name" in DegreeNames(store, bs) ==>
      DegreeNames(store, bs)["institution_name"] ==
        LastHaving(bs, TrainingAtOrganization, store.organization, "label").value
  {
    if bs != [] {
      DegreeNamesIs(store, bs[..|bs| - 1]);
    }
  }

  function DegreeBase(store: Store, uri: string, bs: Bindings): (r: Record)
    ensures r.Keys <= {"degree_uri", "major_field", "earned_uri", "training_institution_uri"}
  {
    map["degree_uri" := Str(uri)] + Fields(store, bs, DegreeFields)
  }

  /** The degree after the walk over the bindings `bs`. */
  function DegreeOf(store: Store, uri: string, bs: Bindings): Record
  {
    DegreeBase(store, uri, bs) + DegreeNames(store, bs) + IntervalEntries(store, bs, DateTimeInterval)
  }

  /** What get_degree returns. */
  function DegreeRecord(store: Store, uri: string): Record
  {
    DegreeOf(store, uri, Fetch(store, uri))
  }

  /** The `if`s of one pass of the walk before the datetime interval block. */
  function DegreeUpdate(store: Store, r: Record, b: (string, string)): Record
  {
    var (p, o) := b;
    var r1 := if p == MajorField then r["major_field" := Str(o)] else r;
    var r2 :=
      if p == DegreeEarned then
        r1["earned_uri" := Str(o)]["degree_name" := store.vivoValue(o, "core:abbreviation")]
      else r1;
    if p == TrainingAtOrganization then
      var t := r2["training_institution_uri" := Str(o)];
      if "label" in store.organization(o) then t["institution_name" := store.organization(o)["label"]] else t
    else r2
  }

  lemma DegreeUpdateOver(store: Store, r: Record, e: Record, b: (string, string))
    requires e.Keys <= {"datetime_interval", "start_date", "end_date"}
    ensures DegreeUpdate(store, r + e, b) == DegreeUpdate(store, r, b) + e
  {
    var (p, o) := b;
    if p == MajorField {
      UpdateOver(r, e, "major_field", Str(o));
    } else if p == DegreeEarned {
      UpdateOver(r, e, "earned_uri", Str(o));
      UpdateOver(r["earned_uri" := Str(o)], e, "degree_name", store.vivoValue(o, "core:abbreviation"));
    } else if p == TrainingAtOrganization {
      UpdateOver(r, e, "training_institution_uri", Str(o));
      if "label" in store.organization(o) {
        UpdateOver(r["training_institution_uri" := Str(o)], e, "institution_name", store.organization(o)["label"]);
      }
    }
  }

  /** The walk's keys before the interval keys, one binding further. */
  lemma DegreeHeadStep(store: Store, uri: string, bs: Bindings, b: (string, string))
    ensures DegreeBase(store, uri, bs + [b]) + DegreeNames(store, bs + [b]) ==
      DegreeUpdate(store, DegreeBase(store, uri, bs) + DegreeNames(store, bs), b)
  {
    DegreeNamesAppend(store, bs, b);
    if b.0 == MajorField {
      DegreeMajorStep(store, uri, bs, b);
    } else if b.0 == DegreeEarned {
      DegreeEarnedStep(store, uri, bs, b);
    } else if b.0 == TrainingAtOrganization {
      DegreeTrainingStep(store, uri, bs, b);
    } else {
      RecordIgnore(store, map["degree_uri" := Str(uri)], bs, b, DegreeFields);
    }
  }

  lemma DegreeMajorStep(store: Store, uri: string, bs: Bindings, b: (string, string))
    requires b.0 == MajorField
    ensures DegreeBase(store, uri, bs + [b]) + DegreeNames(store, bs) ==
      (DegreeBase(store, uri, bs) + DegreeNames(store, bs))["major_field" := Str(b.1)]
  {
    RecordAppendOne(store, map["degree_uri" := Str(uri)], bs, b, DegreeFields, "major_field");
    UpdateOver(DegreeBase(store, uri, bs), DegreeNames(store, bs), "major_field", Str(b.1));
  }

  lemma DegreeEarnedStep(store: Store, uri: string, bs: Bindings, b: (string, string))
    requires b.0 == DegreeEarned
    ensures DegreeBase(store, uri, bs + [b]) + DegreeNames(store, bs)["degree_name" := store.vivoValue(b.1, "core:abbreviation")] ==
      (DegreeBase(store, uri, bs) + DegreeNames(store, bs))["earned_uri" := Str(b.1)]["degree_name" := store.vivoValue(b.1, "core:abbreviation")]
  {
    RecordAppendOne(store, map["degree_uri" := Str(uri)], bs, b, DegreeFields, "earned_uri");
    UpdateOver(DegreeBase(store, uri, bs), DegreeNames(store, bs), "earned_uri", Str(b.1));
    UpdateRight(DegreeBase(store, uri, bs)["earned_uri" := Str(b.1)], DegreeNames(store, bs),
      "degree_name", store.vivoValue(b.1, "core:abbreviation"));
  }

  lemma DegreeTrainingStep(store: Store, uri: string, bs: Bindings, b: (string, string))
    requires b.0 == TrainingAtOrganization
    ensures DegreeBase(store, uri, bs + [b]) + NamesUpdate(store, DegreeNames(store, bs), b) ==
      var t := (DegreeBase(store, uri, bs) + DegreeNames(store, bs))["training_institution_uri" := Str(b.1)];
      if "label" in store.organization(b.1) then t["institution_name" := store.organization(b.1)["label"]] else t
  {
    RecordAppendOne(store, map["degree_uri" := Str(uri)], bs, b, DegreeFields, "training_institution_uri");
    UpdateOver(DegreeBase(store, uri, bs), DegreeNames(store, bs), "training_institution_uri", Str(b.1));
    if "label" in store.organization(b.1) {
      UpdateRight(DegreeBase(store, uri, bs)["training_institution_uri" := Str(b.1)], DegreeNames(store, bs),
        "institution_name", store.organization(b.1)["label"]);
    }
  }

  /** What one binding does to the degree: the `if`s of the walk in source order. */
  lemma DegreeStep(store: Store, uri: string, bs: Bindings, b: (string, string))
    ensures DegreeOf(store, uri, bs + [b]) ==
      var q := DegreeUpdate(store, DegreeOf(store, uri, bs), b);
      if b.0 == DateTimeInterval then WithInterval(q, store.interval(b.1)) else q
  {
    var h := DegreeBase(store, uri, bs) + DegreeNames(store, bs);
    var e := IntervalEntries(store, bs, DateTimeInterval);
    DegreeHeadStep(store, uri, bs, b);
    IntervalAppend(store, bs, b, DateTimeInterval);
    DegreeUpdateOver(store, h, e, b);
    if b.0 == DateTimeInterval {
      WithIntervalOver(DegreeBase(store, uri, bs + [b]) + DegreeNames(store, bs + [b]), e, store.interval(b.1));
    }
  }

  /** The `while i < count` walk of get_degree. */
  method GetDegree(store: Store, degreeUri: string) returns (degree: Record)
    ensures degree == DegreeRecord(store, degreeUri)
  {
    degree := map["degree_uri" := Str(degreeUri)];
    var triples := Fetch(store, degreeUri);
    var i := 0;
    assert triples[..i] == [];
    FieldsEmpty(store, DegreeFields);
    while i < |triples|
      invariant 0 <= i <= |triples|
      invariant degree == DegreeOf(store, degreeUri, triples[..i])
    {
      var (p, o) := triples[i];
      DegreeStep(store, degreeUri, triples[..i], triples[i]);
      assert triples[..i + 1] == triples[..i] + [triples[i]];
      if p == MajorField {
        degree := degree["major_field" := Str(o)];
      }
      if p == DegreeEarned {
        degree := degree["earned_uri" := Str(o)];
        degree := degree["degree_name" := store.vivoValue(o, "core:abbreviation")];
      }
      if p == TrainingAtOrganization {
        degree := degree["training_institution_uri" := Str(o)];
        var institution := store.organization(o);
        if "label" in institution {
          degree := degree["institution_name" := institution["label"]];
        }
      }
      if p == DateTimeInterval {
        var datetimeInterval := store.interval(o);
        degree := degree["datetime_interval" := Dict(datetimeInterval)];
        if "start_date" in datetimeInterval {
          degree := degree["start_date" := datetimeInterval["start_date"]];
        }
        if "end_date" in datetimeInterval {
          degree := degree["end_date" := datetimeInterval["end_date"]];
        }
      }
      i := i + 1;
    }
    assert triples[..i] == triples;
  }

  /** Which of the three parts of a degree a key lives in. */
  lemma DegreePart(a: Record, n: Record, e: Record, k: string)
    requires a.Keys <= {"degree_uri", "major_field", "earned_uri", "training_institution_uri"}
    requires n.Keys <= {"degree_name", "institution_name"}
    requires e.Keys <= {"datetime_interval", "start_date", "end_date"}
    ensures k in {"degree_uri", "major_field", "earned_uri", "training_institution_uri"} ==>
      (k in a + n + e) == (k in a) && (k in a ==> (a + n + e)[k] == a[k])
    ensures k in {"degree_name", "institution_name"} ==>
      (k in a + n + e) == (k in n) && (k in n ==> (a + n + e)[k] == n[k])
    ensures k in {"datetime_interval", "start_date", "end_date"} ==>
      (k in a + n + e) == (k in e) && (k in e ==> (a + n + e)[k] == e[k])
  {
  }

  /** Without bindings the degree holds only its uri. */
  lemma DegreeWithoutBindings(store: Store, uri: string)
    requires Fetch(store, uri) == []
    ensures DegreeRecord(store, uri) == map["degree_uri" := Str(uri)]
  {
    FieldsEmpty(store, DegreeFields);
    assert DegreeBase(store, uri, []) == map["degree_uri" := Str(uri)];
  }

  /** `degree_name` is present exactly with `earned_uri` and is the abbreviation of
      the degree that uri names. */
  lemma DegreeNameFollowsEarned(store: Store, uri: string)
    ensures ("degree_name" in DegreeRecord(store, uri)) == ("earned_uri" in DegreeRecord(store, uri))
    ensures "earned_uri" in DegreeRecord(store, uri) ==>
      && "degree_name" in DegreeRecord(store, uri)
      && DegreeRecord(store, uri)["earned_uri"].Str?
      && DegreeRecord(store, uri)["degree_name"] ==
           store.vivoValue(DegreeRecord(store, uri)["earned_uri"].s, "core:abbreviation")
  {
    var bs := Fetch(store, uri);
    DegreeNamesIs(store, bs);
    DegreePart(DegreeBase(store, uri, bs), DegreeNames(store, bs), IntervalEntries(store, bs, DateTimeInterval), "degree_name");
    DegreePart(DegreeBase(store, uri, bs), DegreeNames(store, bs), IntervalEntries(store, bs, DateTimeInterval), "earned_uri");
  }

  /** `institution_name` is present exactly when some training organisation has a
      label, and is the label of the last such organisation, which need not be the
      one `training_institution_uri` names. */
  lemma InstitutionNameKept(store: Store, uri: string)
    ensures "institution_name" in DegreeRecord(store, uri) <==>
      exists i :: 0 <= i < |Fetch(store, uri)| && Fetch(store, uri)[i].0 == TrainingAtOrganization
        && "label" in store.organization(Fetch(store, uri)[i].1)
    ensures "institution_name" in DegreeRecord(store, uri) ==>
      exists i :: 0 <= i < |Fetch(store, uri)| && Fetch(store, uri)[i].0 == TrainingAtOrganization
        && "label" in store.organization(Fetch(store, uri)[i].1)
        && DegreeRecord(store, uri)["institution_name"] == store.organization(Fetch(store, uri)[i].1)["label"]
        && forall j :: i < j < |Fetch(store, uri)| && Fetch(store, uri)[j].0 == TrainingAtOrganization ==>
             "label" !in store.organization(Fetch(store, uri)[j].1)
  {
    var bs := Fetch(store, uri);
    DegreeNamesIs(store, bs);
    DegreePart(DegreeBase(store, uri, bs), DegreeNames(store, bs), IntervalEntries(store, bs, DateTimeInterval), "institution_name");
    LastHavingIs(bs, TrainingAtOrganization, store.organization, "label");
  }

  /** A degree has `datetime_interval` exactly when some binding names one, and
      `start_date` exactly when one of those intervals has a start date. */
  lemma DegreeInterval(store: Store, uri: string)
    ensures "datetime_interval" in DegreeRecord(store, uri) <==>
      exists i :: 0 <= i < |Fetch(store, uri)| && Fetch(store, uri)[i].0 == DateTimeInterval
    ensures "start_date" in DegreeRecord(store, uri) <==>
      exists i :: 0 <= i < |Fetch(store, uri)| && Fetch(store, uri)[i].0 == DateTimeInterval
        && "start_date" in store.interval(Fetch(store, uri)[i].1)
    ensures "end_date" in DegreeRecord(store, uri) <==>
      exists i :: 0 <= i < |Fetch(store, uri)| && Fetch(store, uri)[i].0 == DateTimeInterval
        && "end_date" in store.interval(Fetch(store, uri)[i].1)
  {
    var bs := Fetch(store, uri);
    IntervalIs(store, bs, DateTimeInterval);
    LastIs(store, bs, Predicate(DateTimeInterval));
    DegreePart(DegreeBase(store, uri, bs), DegreeNames(store, bs), IntervalEntries(store, bs, DateTimeInterval), "datetime_interval");
    DegreePart(DegreeBase(store, uri, bs), DegreeNames(store, bs), IntervalEntries(store, bs, DateTimeInterval), "start_date");
    DegreePart(DegreeBase(store, uri, bs), DegreeNames(store, bs), IntervalEntries(store, bs, DateTimeInterval), "end_date");
    LastHavingIs(bs, DateTimeInterval, store.interval, "start_date");
    LastHavingIs(bs, DateTimeInterval, store.interval, "end_date");
  }
}
