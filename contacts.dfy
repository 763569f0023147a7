/** The vcard projectors: get_telephone (vivopeople.py:340-367), get_name
    (vivopeople.py:369-397) and get_vcard (vivopeople.py:399-452). */
module Contacts {
  import opened Records
  import opened Text
  import opened Projection

  const RdfType := "http://www.w3.org/1999/02/22-rdf-syntax-ns#type"
  const VcardNamespace := "http://www.w3.org/2006/vcard"
  const VcardTelephone := "http://www.w3.org/2006/vcard/ns#telephone"
  const VcardGivenName := "http://www.w3.org/2006/vcard/ns#givenName"
  const VcardFamilyName := "http://www.w3.org/2006/vcard/ns#familyName"
  const VcardAdditionalName := "http://www.w3.org/2006/vcard/ns#additionalName"
  const VcardHonorificPrefix := "http://www.w3.org/2006/vcard/ns#honorificPrefix"
  const VcardHonorificSuffix := "http://www.w3.org/2006/vcard/ns#honorificSuffix"
  const VcardHasTitle := "http://www.w3.org/2006/vcard/ns#hasTitle"
  const ContactInfoOf := "http://purl.obolibrary.org/obo/ARG_2000029"
  const VcardHasTelephone := "http://www.w3.org/2006/vcard/ns#hasTelephone"
  const VcardHasName := "http://www.w3.org/2006/vcard/ns#hasName"
  const VcardHasEmail := "http://www.w3.org/2006/vcard/ns#hasEmail"

  // get_telephone

  /** `s[n:]`: empty when `s` is no longer than `n`. */
  function Suffix(s: string, n: nat): (t: string)
    ensures |s| <= n ==> t == []
    ensures |s| > n ==> t == s[n..]
  {
    if |s| <= n then [] else s[n..]
  }

  /** The type a binding names: the text past the 32nd character of an rdf:type
      object in the vcard namespace, and "" for every other binding. */
  function BindingType(b: (string, string)): string
  {
    if b.0 == RdfType && StartsWith(b.1, VcardNamespace) then Suffix(b.1, 32) else ""
  }

  /** One step of the `type` variable. */
  function TypeStep(t: string, ptype: string): (u: string)
    ensures ptype == "Telephone" ==> u == "Telephone"
    ensures t == "" ==> u == ptype
    ensures ptype == "" ==> u == t
  {
    if t == "" || (t == "Telephone" && ptype == "Fax") || ptype == "Telephone" then ptype else t
  }

  /** The value of `type` after the walk over `bs`. */
  function TelephoneType(bs: Bindings): string
  {
    if bs == [] then ""
    else
      var b := bs[|bs| - 1];
      var t := TelephoneType(bs[..|bs| - 1]);
      if b.0 == RdfType && StartsWith(b.1, VcardNamespace) then TypeStep(t, Suffix(b.1, 32)) else t
  }

  /** The first non-empty type named, or "". */
  function FirstType(bs: Bindings): (t: string)
    ensures t == "" <==> forall i :: 0 <= i < |bs| ==> BindingType(bs[i]) == ""
    ensures t != "" ==> exists i :: 0 <= i < |bs| && BindingType(bs[i]) == t
  {
    if bs == [] then ""
    else
      var front := bs[..|bs| - 1];
      assert forall i :: 0 <= i < |front| ==> front[i] == bs[i];
      if FirstType(front) != "" then FirstType(front)
      else BindingType(bs[|bs| - 1])
  }

  predicate TelephoneOrFax(t: string)
  {
    t == "Telephone" || t == "Fax"
  }

  /** The last "Telephone" or "Fax" named, or "". */
  function LastTelephoneOrFax(bs: Bindings): (t: string)
    ensures t == "" || TelephoneOrFax(t)
    ensures t == "" <==> forall i :: 0 <= i < |bs| ==> !TelephoneOrFax(BindingType(bs[i]))
  {
    if bs == [] then ""
    else
      var last := BindingType(bs[|bs| - 1]);
      if TelephoneOrFax(last) then last
      else
        var front := bs[..|bs| - 1];
        assert forall i :: 0 <= i < |front| ==> front[i] == bs[i];
        LastTelephoneOrFax(front)
  }

  predicate NamesTelephone(bs: Bindings)
  {
    exists i :: 0 <= i < |bs| && BindingType(bs[i]) == "Telephone"
  }

  /** The telephone type, read off the bindings without replaying the walk: the
      first type named wins unless it is "Telephone" or "Fax" or a "Telephone"
      comes later; from then on the last "Telephone" or "Fax" wins. */
  function TypeReference(bs: Bindings): string
  {
    if NamesTelephone(bs) || TelephoneOrFax(FirstType(bs)) then LastTelephoneOrFax(bs) else FirstType(bs)
  }

  /** How the parts of the reference change when a binding is appended. */
  lemma ReferenceAppend(bs: Bindings, b: (string, string))
    ensures FirstType(bs + [b]) == if FirstType(bs) != "" then FirstType(bs) else BindingType(b)
    ensures LastTelephoneOrFax(bs + [b]) ==
      if TelephoneOrFax(BindingType(b)) then BindingType(b) else LastTelephoneOrFax(bs)
    ensures NamesTelephone(bs + [b]) <==> NamesTelephone(bs) || BindingType(b) == "Telephone"
  {
    var s := bs + [b];
    assert s[..|s| - 1] == bs;
    assert forall i :: 0 <= i < |bs| ==> s[i] == bs[i];
    if NamesTelephone(s) && BindingType(b) != "Telephone" {
      var i :| 0 <= i < |s| && BindingType(s[i]) == "Telephone";
      assert i < |bs| && BindingType(bs[i]) == "Telephone";
    }
  }

  /** What the reference type of some bindings can be. */
  lemma ReferenceCases(bs: Bindings)
    ensures FirstType(bs) == "" ==> TypeReference(bs) == ""
    ensures NamesTelephone(bs) || TelephoneOrFax(FirstType(bs)) ==> TelephoneOrFax(TypeReference(bs))
  {
    if FirstType(bs) != "" {
      var i :| 0 <= i < |bs| && BindingType(bs[i]) == FirstType(bs);
    }
    if NamesTelephone(bs) {
      var i :| 0 <= i < |bs| && BindingType(bs[i]) == "Telephone";
    }
  }

  /** The reference type follows the step of the walk. */
  lemma ReferenceStep(bs: Bindings, b: (string, string))
    ensures TypeReference(bs + [b]) == TypeStep(TypeReference(bs), BindingType(b))
  {
    ReferenceAppend(bs, b);
    ReferenceCases(bs);
  }

  /** The walk computes the reference type. */
  lemma {:induction false} TelephoneTypeIsReference(bs: Bindings)
    ensures TelephoneType(bs) == TypeReference(bs)
  {
    if bs != [] {
      var front := bs[..|bs| - 1];
      var b := bs[|bs| - 1];
      TelephoneTypeIsReference(front);
      ReferenceStep(front, b);
      assert bs == front + [b];
    }
  }

  const TelephoneFields: map<string, Feed> := map["telephone_number" := Predicate(VcardTelephone)]

  /** The dict get_telephone returns for `uri` with bindings `bs`. */
  function TelephoneRecord(store: Store, uri: string, bs: Bindings): (r: Record)
    ensures r.Keys == {"telephone_uri", "telephone_type"} + Fields(store, bs, TelephoneFields).Keys
    ensures r["telephone_uri"] == Str(uri) && r["telephone_type"] == Str(TypeReference(bs))
  {
    TelephoneTypeIsReference(bs);
    map["telephone_uri" := Str(uri)] + Fields(store, bs, TelephoneFields)
      + map["telephone_type" := Str(TelephoneType(bs))]
  }

  /** What one binding does to the telephone and to `type`. */
  lemma TelephoneStep(store: Store, uri: string, bs: Bindings, b: (string, string))
    ensures map["telephone_uri" := Str(uri)] + Fields(store, bs + [b], TelephoneFields) ==
      var t := map["telephone_uri" := Str(uri)] + Fields(store, bs, TelephoneFields);
      if b.0 == VcardTelephone then t["telephone_number" := Str(b.1)] else t
    ensures TelephoneType(bs + [b]) ==
      if b.0 == RdfType && StartsWith(b.1, VcardNamespace)
      then TypeStep(TelephoneType(bs), Suffix(b.1, 32))
      else TelephoneType(bs)
  {
    assert (bs + [b])[..|bs|] == bs;
    if b.0 == VcardTelephone {
      FieldsAppendOne(store, bs, b, TelephoneFields, "telephone_number");
    } else {
      FieldsIgnore(store, bs, b, TelephoneFields);
    }
  }

  method GetTelephone(store: Store, telephoneUri: string) returns (telephone: Record)
    ensures telephone == TelephoneRecord(store, telephoneUri, Fetch(store, telephoneUri))
  {
    telephone := map["telephone_uri" := Str(telephoneUri)];
    var kind := "";
    var triples := Fetch(store, telephoneUri);
    var i := 0;
    assert triples[..i] == [];
    FieldsEmpty(store, TelephoneFields);
    while i < |triples|
      invariant 0 <= i <= |triples|
      invariant telephone == map["telephone_uri" := Str(telephoneUri)] + Fields(store, triples[..i], TelephoneFields)
      invariant kind == TelephoneType(triples[..i])
    {
      TelephoneStep(store, telephoneUri, triples[..i], triples[i]);
      assert triples[..i + 1] == triples[..i] + [triples[i]];
      telephone, kind := VisitTelephoneBinding(telephone, kind, triples[i].0, triples[i].1);
      i := i + 1;
    }
    assert triples[..i] == triples;
    telephone := telephone["telephone_type" := Str(kind)];
  }

  /** One pass of get_telephone's loop, on the telephone and on `type`. */
  method VisitTelephoneBinding(telephone: Record, kind: string, p: string, o: string)
    returns (next: Record, nextKind: string)
    ensures next == if p == VcardTelephone then telephone["telephone_number" := Str(o)] else telephone
    ensures nextKind == if p == RdfType && StartsWith(o, VcardNamespace) then TypeStep(kind, Suffix(o, 32)) else kind
  {
    next, nextKind := telephone, kind;
    if p == VcardTelephone {
      next := next["telephone_number" := Str(o)];
    }
    if p == RdfType {
      if StartsWith(o, VcardNamespace) {
        var ptype := Suffix(o, 32);
        if nextKind == "" || (nextKind == "Telephone" && ptype == "Fax") || ptype == "Telephone" {
          nextKind := ptype;
        }
      }
    }
  }

  /** With no bindings the telephone has no number and an empty type. */
  lemma TelephoneWithoutBindings(store: Store, uri: string)
    ensures TelephoneRecord(store, uri, []) ==
      map["telephone_uri" := Str(uri), "telephone_type" := Str("")]
  {
  }

  // get_name

  const NameFields: map<string, Feed> := map[
    "given_name" := Predicate(VcardGivenName),
    "family_name" := Predicate(VcardFamilyName),
    "additional_name" := Predicate(VcardAdditionalName),
    "honorific_prefix" := Predicate(VcardHonorificPrefix),
    "honorific_suffix" := Predicate(VcardHonorificSuffix)
  ]

  /** The dict get_name returns for `uri` with bindings `bs`. */
  function NameRecord(store: Store, uri: string, bs: Bindings): (r: Record)
    ensures r.Keys == {"name_uri"} + Fields(store, bs, NameFields).Keys
    ensures r["name_uri"] == Str(uri)
    ensures forall k :: k in NameFields ==> (k in r <==> Last(store, bs, NameFields[k]) != None)
  {
    map["name_uri" := Str(uri)] + Fields(store, bs, NameFields)
  }

  /** A binding feeding one key of the name sets that key alone. */
  lemma NameStepOne(store: Store, uri: string, bs: Bindings, b: (string, string), k: string)
    requires k in NameFields && b.0 == NameFields[k].p
    requires forall k' :: k' in NameFields && k' != k ==> b.0 != NameFields[k'].p
    ensures NameRecord(store, uri, bs + [b]) == NameRecord(store, uri, bs)[k := Str(b.1)]
  {
    RecordAppendOne(store, map["name_uri" := Str(uri)], bs, b, NameFields, k);
  }

  /** What one binding does to a name, one `if` of the walk after the other. */
  lemma NameStep(store: Store, uri: string, bs: Bindings, b: (string, string))
    ensures NameRecord(store, uri, bs + [b]) ==
      var n0 := NameRecord(store, uri, bs);
      var n1 := if b.0 == VcardGivenName then n0["given_name" := Str(b.1)] else n0;
      var n2 := if b.0 == VcardFamilyName then n1["family_name" := Str(b.1)] else n1;
      var n3 := if b.0 == VcardAdditionalName then n2["additional_name" := Str(b.1)] else n2;
      var n4 := if b.0 == VcardHonorificPrefix then n3["honorific_prefix" := Str(b.1)] else n3;
      if b.0 == VcardHonorificSuffix then n4["honorific_suffix" := Str(b.1)] else n4
  {
    if b.0 == VcardGivenName {
      NameStepOne(store, uri, bs, b, "given_name");
    } else if b.0 == VcardFamilyName {
      NameStepOne(store, uri, bs, b, "family_name");
    } else if b.0 == VcardAdditionalName {
      NameStepOne(store, uri, bs, b, "additional_name");
    } else if b.0 == VcardHonorificPrefix {
      NameStepOne(store, uri, bs, b, "honorific_prefix");
    } else if b.0 == VcardHonorificSuffix {
      NameStepOne(store, uri, bs, b, "honorific_suffix");
    } else {
      FieldsIgnore(store, bs, b, NameFields);
    }
  }

  method GetName(store: Store, nameUri: string) returns (name: Record)
    ensures name == NameRecord(store, nameUri, Fetch(store, nameUri))
  {
    name := map["name_uri" := Str(nameUri)];
    var triples := Fetch(store, nameUri);
    var i := 0;
    assert triples[..i] == [];
    FieldsEmpty(store, NameFields);
    while i < |triples|
      invariant 0 <= i <= |triples|
      invariant name == NameRecord(store, nameUri, triples[..i])
    {
      var (p, o) := triples[i];
      NameStep(store, nameUri, triples[..i], triples[i]);
      assert triples[..i + 1] == triples[..i] + [triples[i]];
      if p == VcardGivenName {
        name := name["given_name" := Str(o)];
      }
      if p == VcardFamilyName {
        name := name["family_name" := Str(o)];
      }
      if p == VcardAdditionalName {
        name := name["additional_name" := Str(o)];
      }
      if p == VcardHonorificPrefix {
        name := name["honorific_prefix" := Str(o)];
      }
      if p == VcardHonorificSuffix {
        name := name["honorific_suffix" := Str(o)];
      }
      i := i + 1;
    }
    assert triples[..i] == triples;
  }

  /** With no bindings the name holds only its uri. */
  lemma NameWithoutBindings(store: Store, uri: string)
    ensures NameRecord(store, uri, []) == map["name_uri" := Str(uri)]
  {
    FieldsEmpty(store, NameFields);
  }

  // get_vcard

  const VcardFields: map<string, Feed> := map[
    "title_uri" := Predicate(VcardHasTitle),
    "person_uri" := Predicate(ContactInfoOf),
    "name_uri" := Predicate(VcardHasName)
  ]

  /** The single-valued part of the vcard after the walk over its bindings. */
  function VcardBase(store: Store, uri: string, bs: Bindings): Record
  {
    map["vcard_uri" := Str(uri)] + Fields(store, bs, VcardFields)
  }

  /** What one binding does to the single-valued part of the vcard. */
  lemma VcardStep(store: Store, uri: string, bs: Bindings, b: (string, string))
    ensures VcardBase(store, uri, bs + [b]) ==
      var v0 := VcardBase(store, uri, bs);
      var v1 := if b.0 == VcardHasTitle then v0["title_uri" := Str(b.1)] else v0;
      var v2 := if b.0 == ContactInfoOf then v1["person_uri" := Str(b.1)] else v1;
      if b.0 == VcardHasName then v2["name_uri" := Str(b.1)] else v2
    ensures Objects(bs + [b], VcardHasTelephone) ==
      Objects(bs, VcardHasTelephone) + if b.0 == VcardHasTelephone then [b.1] else []
    ensures Objects(bs + [b], VcardHasEmail) ==
      Objects(bs, VcardHasEmail) + if b.0 == VcardHasEmail then [b.1] else []
  {
    var base := map["vcard_uri" := Str(uri)];
    assert (bs + [b])[..|bs|] == bs;
    if b.0 == VcardHasTitle {
      RecordAppendOne(store, base, bs, b, VcardFields, "title_uri");
    } else if b.0 == ContactInfoOf {
      RecordAppendOne(store, base, bs, b, VcardFields, "person_uri");
    } else if b.0 == VcardHasName {
      RecordAppendOne(store, base, bs, b, VcardFields, "name_uri");
    } else {
      RecordIgnore(store, base, bs, b, VcardFields);
    }
  }

  /** The telephone dicts of `uris`, in order. */
  function Telephones(store: Store, uris: seq<string>): seq<Value>
  {
    seq(|uris|, i requires 0 <= i < |uris| => Dict(TelephoneRecord(store, uris[i], Fetch(store, uris[i]))))
  }

  lemma TelephonesAppend(store: Store, uris: seq<string>, u: string)
    ensures Telephones(store, uris + [u]) ==
      Telephones(store, uris) + [Dict(TelephoneRecord(store, u, Fetch(store, u)))]
  {
    var s := uris + [u];
    assert forall i :: 0 <= i < |uris| ==> s[i] == uris[i];
  }

  /** The `{'email_uri': ..., 'email_address': ...}` dict of one email uri. */
  function EmailEntry(store: Store, uri: string): Value
  {
    Dict(map["email_uri" := Str(uri), "email_address" := store.vivoValue(uri, "vcard:email")])
  }

  function EmailAddresses(store: Store, uris: seq<string>): seq<Value>
  {
    seq(|uris|, i requires 0 <= i < |uris| => EmailEntry(store, uris[i]))
  }

  lemma EmailAddressesAppend(store: Store, uris: seq<string>, u: string)
    ensures EmailAddresses(store, uris + [u]) == EmailAddresses(store, uris) + [EmailEntry(store, u)]
  {
    var s := uris + [u];
    assert forall i :: 0 <= i < |uris| ==> s[i] == uris[i];
  }

  /** The dict get_vcard returns: the walk's single-valued keys, the name and the
      title dereferenced when their uris were bound, and one telephone and one email
      dict per hasTelephone and hasEmail binding, in binding order. The
      `telephone_uris` and `email_uris` lists are deleted before it returns. */
  function VcardRecord(store: Store, uri: string): (r: Record)
  {
    var bs := Fetch(store, uri);
    VcardHead(store, uri)
      ["telephones" := List(Telephones(store, Objects(bs, VcardHasTelephone)))]
      ["email_addresses" := List(EmailAddresses(store, Objects(bs, VcardHasEmail)))]
  }

  /** The vcard once its name and title are dereferenced. */
  function VcardHead(store: Store, uri: string): Record
  {
    var v := VcardBase(store, uri, Fetch(store, uri));
    VcardBaseUris(store, uri, Fetch(store, uri));
    WithTitle(store, WithName(store, v))
  }

  /** Every value of the single-valued part is a string. */
  lemma VcardBaseUris(store: Store, uri: string, bs: Bindings)
    ensures forall k | k in VcardBase(store, uri, bs) :: VcardBase(store, uri, bs)[k].Str?
  {
  }

  /** The name dict, added when the walk bound `name_uri`. */
  function WithName(store: Store, v: Record): (r: Record)
    requires "name_uri" in v ==> v["name_uri"].Str?
    ensures Get(r, "title_uri") == Get(v, "title_uri")
    ensures r.Keys == v.Keys + (if "name_uri" in v then {"name"} else {})
  {
    if "name_uri" in v
    then v["name" := Dict(NameRecord(store, v["name_uri"].s, Fetch(store, v["name_uri"].s)))]
    else v
  }

  /** The title, read when the walk bound `title_uri`. */
  function WithTitle(store: Store, v: Record): (r: Record)
    requires Get(v, "title_uri") != Null ==> v["title_uri"].Str?
    ensures r.Keys == v.Keys + (if Get(v, "title_uri") != Null then {"title"} else {})
  {
    if Get(v, "title_uri") != Null then v["title" := store.vivoValue(v["title_uri"].s, "vcard:title")] else v
  }

  /** The `while i < count` walk of get_vcard, with the two uri lists it fills. */
  method WalkVcard(store: Store, vcardUri: string)
    returns (vcard: Record, telephoneUris: seq<string>, emailUris: seq<string>)
    ensures vcard == VcardBase(store, vcardUri, Fetch(store, vcardUri))
    ensures telephoneUris == Objects(Fetch(store, vcardUri), VcardHasTelephone)
    ensures emailUris == Objects(Fetch(store, vcardUri), VcardHasEmail)
  {
    vcard := map["vcard_uri" := Str(vcardUri)];
    telephoneUris := [];
    emailUris := [];
    var triples := Fetch(store, vcardUri);
    var i := 0;
    assert triples[..i] == [];
    FieldsEmpty(store, VcardFields);
    while i < |triples|
      invariant 0 <= i <= |triples|
      invariant vcard == VcardBase(store, vcardUri, triples[..i])
      invariant telephoneUris == Objects(triples[..i], VcardHasTelephone)
      invariant emailUris == Objects(triples[..i], VcardHasEmail)
    {
      var (p, o) := triples[i];
      VcardStep(store, vcardUri, triples[..i], triples[i]);
      assert triples[..i + 1] == triples[..i] + [triples[i]];
      if p == VcardHasTitle {
        vcard := vcard["title_uri" := Str(o)];
      }
      if p == ContactInfoOf {
        vcard := vcard["person_uri" := Str(o)];
      }
      if p == VcardHasTelephone {
        telephoneUris := telephoneUris + [o];
      }
      if p == VcardHasName {
        vcard := vcard["name_uri" := Str(o)];
      }
      if p == VcardHasEmail {
        emailUris := emailUris + [o];
      }
      i := i + 1;
    }
    assert triples[..i] == triples;
  }

  method GetVcard(store: Store, vcardUri: string) returns (vcard: Record)
    ensures vcard == VcardRecord(store, vcardUri)
  {
    var telephoneUris, emailUris;
    vcard, telephoneUris, emailUris := DereferenceVcard(store, vcardUri);
    var telephones := GetTelephones(store, telephoneUris);
    vcard := vcard["telephones" := List(telephones)];
    var emails := GetEmailAddresses(store, emailUris);
    vcard := vcard["email_addresses" := List(emails)];
  }

  /** The walk of get_vcard, then the name and the title dereferenced. */
  method DereferenceVcard(store: Store, vcardUri: string)
    returns (vcard: Record, telephoneUris: seq<string>, emailUris: seq<string>)
    ensures vcard == VcardHead(store, vcardUri)
    ensures telephoneUris == Objects(Fetch(store, vcardUri), VcardHasTelephone)
    ensures emailUris == Objects(Fetch(store, vcardUri), VcardHasEmail)
  {
    vcard, telephoneUris, emailUris := WalkVcard(store, vcardUri);
    VcardBaseUris(store, vcardUri, Fetch(store, vcardUri));
    ghost var base := vcard;
    if "name_uri" in vcard {
      var name := GetName(store, vcard["name_uri"].s);
      vcard := vcard["name" := Dict(name)];
    }
    assert vcard == WithName(store, base);
    ghost var named := vcard;
    if Get(vcard, "title_uri") != Null {
      vcard := vcard["title" := store.vivoValue(vcard["title_uri"].s, "vcard:title")];
    }
    assert vcard == WithTitle(store, named);
  }

  /** The loop of get_vcard over the vcard's telephone uris, dereferencing each. */
  method GetTelephones(store: Store, telephoneUris: seq<string>) returns (telephones: seq<Value>)
    ensures telephones == Telephones(store, telephoneUris)
  {
    telephones := [];
    var j := 0;
    while j < |telephoneUris|
      invariant 0 <= j <= |telephoneUris|
      invariant telephones == Telephones(store, telephoneUris[..j])
    {
      var telephone := VisitTelephone(store, telephoneUris, j);
      telephones := telephones + [telephone];
      j := j + 1;
    }
    assert telephoneUris[..j] == telephoneUris;
  }

  /** One pass of that loop: the telephone dict of the j-th uri. */
  method VisitTelephone(store: Store, telephoneUris: seq<string>, j: nat) returns (telephone: Value)
    requires j < |telephoneUris|
    ensures Telephones(store, telephoneUris[..j + 1]) == Telephones(store, telephoneUris[..j]) + [telephone]
  {
    var uri := telephoneUris[j];
    assert telephoneUris[..j + 1] == telephoneUris[..j] + [uri];
    TelephonesAppend(store, telephoneUris[..j], uri);
    var record := GetTelephone(store, uri);
    telephone := Dict(record);
  }

  /** The loop of get_vcard over the vcard's email uris, reading each address. */
  method GetEmailAddresses(store: Store, emailUris: seq<string>) returns (emails: seq<Value>)
    ensures emails == EmailAddresses(store, emailUris)
  {
    emails := [];
    var j := 0;
    while j < |emailUris|
      invariant 0 <= j <= |emailUris|
      invariant emails == EmailAddresses(store, emailUris[..j])
    {
      EmailAddressesAppend(store, emailUris[..j], emailUris[j]);
      assert emailUris[..j + 1] == emailUris[..j] + [emailUris[j]];
      emails := emails + [Dict(map["email_uri" := Str(emailUris[j]),
                                   "email_address" := store.vivoValue(emailUris[j], "vcard:email")])];
      j := j + 1;
    }
    assert emailUris[..j] == emailUris;
  }

  /** With no bindings the vcard holds its uri and two empty lists. */
  lemma VcardWithoutBindings(store: Store, uri: string)
    requires Fetch(store, uri) == []
    ensures VcardRecord(store, uri) ==
      map["vcard_uri" := Str(uri), "telephones" := List([]), "email_addresses" := List([])]
  {
    FieldsEmpty(store, VcardFields);
    assert VcardBase(store, uri, []) == map["vcard_uri" := Str(uri)];
    assert Objects([], VcardHasTelephone) == [] && Objects([], VcardHasEmail) == [];
    assert Telephones(store, []) == [] && EmailAddresses(store, []) == [];
  }

  lemma VcardHeadKeys(store: Store, uri: string)
    ensures var f := Fields(store, Fetch(store, uri), VcardFields);
      VcardHead(store, uri).Keys ==
        {"vcard_uri"} + f.Keys
        + (if "name_uri" in f then {"name"} else {})
        + (if "title_uri" in f then {"title"} else {})
  {
    var bs := Fetch(store, uri);
    var f := Fields(store, bs, VcardFields);
    var v := VcardBase(store, uri, bs);
    VcardBaseUris(store, uri, bs);
    assert v.Keys == {"vcard_uri"} + f.Keys;
    assert ("name_uri" in v) == ("name_uri" in f);
    assert (Get(WithName(store, v), "title_uri") != Null) == ("title_uri" in f);
  }

  /** The keys of a vcard: its uri, the two lists, the uris that were bound, and
      the name and title exactly when their uris were bound. The `telephone_uris`
      and `email_uris` lists the walk fills are not among them. */
  lemma VcardKeys(store: Store, uri: string)
    ensures var f := Fields(store, Fetch(store, uri), VcardFields);
      VcardRecord(store, uri).Keys ==
        {"vcard_uri", "telephones", "email_addresses"} + f.Keys
        + (if "name_uri" in f then {"name"} else {})
        + (if "title_uri" in f then {"title"} else {})
  {
    VcardHeadKeys(store, uri);
  }

  /** One telephone dict per hasTelephone binding and one email dict per hasEmail
      binding. */
  lemma VcardListLengths(store: Store, uri: string)
    ensures |VcardRecord(store, uri)["telephones"].items| == |Objects(Fetch(store, uri), VcardHasTelephone)|
    ensures |VcardRecord(store, uri)["email_addresses"].items| == |Objects(Fetch(store, uri), VcardHasEmail)|
  {
  }

  /** The k-th telephone of the vcard is the dict of the k-th hasTelephone object. */
  lemma VcardTelephoneAt(store: Store, uri: string, k: int)
    requires 0 <= k < |Objects(Fetch(store, uri), VcardHasTelephone)|
    ensures VcardRecord(store, uri)["telephones"].items[k] ==
      var u := Objects(Fetch(store, uri), VcardHasTelephone)[k];
      Dict(TelephoneRecord(store, u, Fetch(store, u)))
  {
  }
}
