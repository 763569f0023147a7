/** update_vcard, update_position and update_person: the decisions that turn a
    record read from VIVO and a record from the source systems into the add and
    sub texts that bring VIVO in line.

    update_entity, update_data_property, update_resource_property and add_dti
    are the logged calls of `Foundation`; what they emit is not shown, so the
    texts hold references to their results. The model follows the code as it
    is written, failures included: the names the code reads but never defines,
    the locals it may read unbound, and the result it drops. */
module Reconcile {
  import opened Records
  import opened Rdf
  import opened Projection
  import opened Profiles
  import opened Queries
  import opened Materialize

  // update_vcard

  const NameKeys: KeyTable := map[
    "given_name" := KeySpec("vcard:givenName", "literal"),
    "family_name" := KeySpec("vcard:familyName", "literal"),
    "additional_name" := KeySpec("vcard:additionalName", "literal"),
    "honorific_prefix" := KeySpec("vcard:honorificPrefix", "literal"),
    "honorific_suffix" := KeySpec("vcard:honorificSuffix", "literal")
  ]

  /** What update_vcard carries from one sub-entity to the next: the vivo vcard as
      it has been changed in place so far, the two texts, and the locals
      `telephone_uri` and `telephone_value` once they are bound. */
  datatype Pass = Pass(vivo: Record, ardf: Doc, srdf: Doc, telephone: Option<(Value, Value)>)

  /** The state only grows: identifiers are not handed back and logged calls stay. */
  predicate Extends(e: Env, later: Env)
  {
    e.next <= later.next && e.log <= later.log
  }

  /** An add text: triple assertions and the add texts of logged calls. */
  predicate AddsOnly(doc: Doc)
  {
    forall j :: 0 <= j < |doc| ==> doc[j].Assert? || doc[j].AddText?
  }

  /** A sub text: the sub texts of logged calls only. */
  predicate SubsOnly(doc: Doc)
  {
    forall j :: 0 <= j < |doc| ==> doc[j].SubText?
  }

  /** `doc` extends a text of length `n` and its last piece is a sub text. */
  predicate ClosesOnSub(doc: Doc, n: nat)
  {
    |doc| > n && doc[|doc| - 1].SubText?
  }

  /** Both texts of a pass hold what their names promise. */
  predicate Sorted(p: Pass)
  {
    AddsOnly(p.ardf) && SubsOnly(p.srdf)
  }

  /** A logged call whose add and sub texts are appended to the texts of `p`. */
  function Applied(e: Env, p: Pass, c: Call): (r: Outcome<Pass>)
    ensures r.env == Env(e.next, e.log + [c])
    ensures r.result == Ok(p.(ardf := p.ardf + [AddText(|e.log|)], srdf := p.srdf + [SubText(|e.log|)]))
  {
    var (i, e1) := Logged(e, c);
    Outcome(Ok(p.(ardf := p.ardf + [AddText(i)], srdf := p.srdf + [SubText(i)])), e1)
  }

  /** update_vcard acts on the source key `key`: `name` and `title` when present,
      the others when present and not None. */
  predicate ActsOn(source: Record, key: string)
  {
    if key == "name" || key == "title" then key in source else Given(source, key)
  }

  /** The source holds a value, not None, under `key`. */
  predicate Given(source: Record, key: string)
  {
    key in source && source[key] != Null
  }

  /** `[key]` when update_vcard acts on it, and nothing otherwise. */
  function Step(source: Record, key: string): seq<string>
  {
    if ActsOn(source, key) then [key] else []
  }

  /** The source keys update_vcard acts on, in the order it visits them. */
  function StageKeys(source: Record): seq<string>
  {
    Step(source, "name") + LaterKeys(source)
  }

  /** `c` is the call update_vcard makes for the source key `key`: update_entity with
      name_keys for the name, update_data_property towards the source value otherwise,
      from no old value for a new email. */
  predicate CallFor(c: Call, key: string, source: Record)
  {
    && key in source
    && if key == "name" then c.UpdateEntity? && c.source == source[key] && c.keys == NameKeys
       else
         && c.UpdateDataProperty?
         && c.now == source[key]
         && c.pred == (if key == "title" then "vcard:title" else if key == "primary_email" then "vcard:email"
                       else "vcard:telephone")
         && (key == "primary_email" ==> c.was == Null)
  }

  /** From `e` to `later` the calls logged are those for `keys`, one each, in order. */
  predicate Calls(e: Env, later: Env, keys: seq<string>, source: Record)
  {
    && e.log <= later.log
    && |later.log| == |e.log| + |keys|
    && forall i :: 0 <= i < |keys| ==> CallFor(later.log[|e.log| + i], keys[i], source)
  }

  /** The name entity. Without a name in the vivo vcard, a name uri is minted and
      the code then reads `vcard`, a name it never defines. */
  function NameStage(e: Env, p: Pass, source: Record): (r: Outcome<Pass>)
    ensures Extends(e, r.env)
    ensures "name" !in source ==> r == Outcome(Ok(p), e)
    ensures "name" in source && "name" !in p.vivo ==> r == Outcome(Err(NameError("vcard")), Env(e.next + 1, e.log))
    ensures "name" in source && "name" in p.vivo && "name_uri" !in p.vivo ==> r == Outcome(Err(KeyError("name_uri")), e)
    ensures r.result.Err? <==>
      "name" in source && ("name" !in p.vivo || "name_uri" !in p.vivo || !p.vivo["name"].Dict?)
    ensures r.result.Ok? && "name" in source ==>
              var name := Dict(p.vivo["name"].fields["uri" := p.vivo["name_uri"]]);
              && r.env == Env(e.next, e.log + [UpdateEntity(name, source["name"], NameKeys)])
              && r.result.value.vivo == p.vivo["name" := name]
              && r.result.value.ardf == p.ardf + [AddText(|e.log|)]
              && r.result.value.srdf == p.srdf + [SubText(|e.log|)]
    ensures r.result.Ok? ==> p.ardf <= r.result.value.ardf && p.srdf <= r.result.value.srdf
    ensures r.result.Ok? && Sorted(p) ==> Sorted(r.result.value)
  {
    if "name" !in source then Outcome(Ok(p), e)
    else if "name" !in p.vivo then
      var (nameUri, e1) := Mint(e);
      Outcome(Err(NameError("vcard")), e1)
    else if "name_uri" !in p.vivo then Outcome(Err(KeyError("name_uri")), e)
    else if !p.vivo["name"].Dict? then Outcome(Err(TypeError), e)
    else
      var name := Dict(p.vivo["name"].fields["uri" := p.vivo["name_uri"]]);
      Applied(e, p.(vivo := p.vivo["name" := name]), UpdateEntity(name, source["name"], NameKeys))
  }

  /** The title entity: minted, with no old value, when the vivo vcard has none. */
  function TitleStage(e: Env, p: Pass, source: Record): (r: Outcome<Pass>)
    ensures Extends(e, r.env)
    ensures "title" !in source ==> r == Outcome(Ok(p), e)
    ensures "title" in source && "title" !in p.vivo && "vcard_uri" in p.vivo ==>
              && r.env == Env(e.next + 1, e.log + [UpdateDataProperty(Minted(e.next), "vcard:title", Null, source["title"])])
              && r.result.Ok?
              && r.result.value.vivo == p.vivo["title_uri" := Minted(e.next)]["title" := Null]
              && r.result.value.ardf ==
                 p.ardf + [Assert(Resource(Minted(e.next), "rdf:type", Untag("vcard:Title"))),
                           Assert(Resource(p.vivo["vcard_uri"], "vcard:hasTitle", Minted(e.next))),
                           AddText(|e.log|)]
    ensures "title" in source && "title" in p.vivo && "title_uri" in p.vivo ==>
              && r.env == Env(e.next, e.log + [UpdateDataProperty(p.vivo["title_uri"], "vcard:title", p.vivo["title"], source["title"])])
              && r.result.Ok?
              && r.result.value.vivo == p.vivo
              && r.result.value.ardf == p.ardf + [AddText(|e.log|)]
    ensures r.result.Err? <==>
      "title" in source && (if "title" in p.vivo then "title_uri" !in p.vivo else "vcard_uri" !in p.vivo)
    ensures r.result.Err? ==>
      r.result.error == KeyError(if "title" in p.vivo then "title_uri" else "vcard_uri") &&
      r.env.next == e.next + (if "title" in p.vivo then 0 else 1) && r.env.log == e.log
    ensures "title" in source && r.result.Ok? ==> r.result.value.srdf == p.srdf + [SubText(|e.log|)]
    ensures r.result.Ok? ==> p.ardf <= r.result.value.ardf && p.srdf <= r.result.value.srdf
    ensures r.result.Ok? && Sorted(p) ==> Sorted(r.result.value)
  {
    if "title" !in source then Outcome(Ok(p), e)
    else if "title" !in p.vivo then
      var (titleUri, e1) := Mint(e);
      if "vcard_uri" !in p.vivo then Outcome(Err(KeyError("vcard_uri")), e1)
      else
        var q := p.(vivo := p.vivo["title_uri" := titleUri]["title" := Null],
                    ardf := p.ardf + [Assert(Resource(titleUri, "rdf:type", Untag("vcard:Title"))),
                                      Assert(Resource(p.vivo["vcard_uri"], "vcard:hasTitle", titleUri))]);
        Applied(e1, q, UpdateDataProperty(titleUri, "vcard:title", Null, source["title"]))
    else if "title_uri" !in p.vivo then Outcome(Err(KeyError("title_uri")), e)
    else Applied(e, p, UpdateDataProperty(p.vivo["title_uri"], "vcard:title", p.vivo["title"], source["title"]))
  }

  /** What `for telephone in v` visits. A list gives its items; an empty string or
      dict gives nothing; any other string or dict gives an item that cannot be
      indexed by a key, and the remaining values cannot be iterated at all. */
  function Iterated(v: Value): (r: Result<seq<Value>>)
    ensures r.Ok? <==> v.List? || v == Str("") || v == Dict(map[])
    ensures r.Err? ==> r.error == TypeError
    ensures v.List? ==> r == Ok(v.items)
    ensures r.Ok? && !v.List? ==> r == Ok([])
  {
    match v
    case List(items) => Ok(items)
    case Str(s) => if s == "" then Ok([]) else Err(TypeError)
    case Dict(m) => if m == map[] then Ok([]) else Err(TypeError)
    case _ => Err(TypeError)
  }

  /** A telephone of type `kind` in the loop's sense. */
  predicate OfKind(telephone: Value, kind: string)
  {
    telephone.Dict? && "telephone_type" in telephone.fields && telephone.fields["telephone_type"] == Str(kind)
  }

  /** A telephone the loop reads without failing. */
  predicate Readable(telephone: Value, kind: string)
  {
    && telephone.Dict?
    && "telephone_type" in telephone.fields
    && (OfKind(telephone, kind) ==> "telephone_uri" in telephone.fields && "telephone_number" in telephone.fields)
  }

  /** One pass of the telephone loop: a telephone of type `kind` binds the two
      locals, and the loop goes on (`continue`, not `break`). */
  function Visit(telephone: Value, kind: string, bound: Option<(Value, Value)>): (r: Result<Option<(Value, Value)>>)
    ensures r.Ok? <==> Readable(telephone, kind)
    ensures r.Ok? && OfKind(telephone, kind) ==>
      r.value == Some((telephone.fields["telephone_uri"], telephone.fields["telephone_number"]))
    ensures r.Ok? && !OfKind(telephone, kind) ==> r.value == bound
  {
    if !telephone.Dict? then Err(TypeError)
    else
      var t := telephone.fields;
      if "telephone_type" !in t then Err(KeyError("telephone_type"))
      else if t["telephone_type"] != Str(kind) then Ok(bound)
      else if "telephone_uri" !in t then Err(KeyError("telephone_uri"))
      else if "telephone_number" !in t then Err(KeyError("telephone_number"))
      else Ok(Some((t["telephone_uri"], t["telephone_number"])))
  }

  /** The telephone loop over `telephones`, from the locals as `bound` left them. */
  function Scan(telephones: seq<Value>, kind: string, bound: Option<(Value, Value)>): Result<Option<(Value, Value)>>
  {
    if telephones == [] then Ok(bound)
    else
      match Scan(telephones[..|telephones| - 1], kind, bound)
      case Err(x) => Err(x)
      case Ok(b) => Visit(telephones[|telephones| - 1], kind, b)
  }

  /** The phone or the fax entity: `key` names the source value, `kind` the
      telephone type the loop looks for, `tag` the type a minted entity gets. */
  function PhoneStage(e: Env, p: Pass, source: Record, key: string, kind: string, tag: string): (r: Outcome<Pass>)
    ensures Extends(e, r.env)
    ensures key !in source || source[key] == Null ==> r == Outcome(Ok(p), e)
    ensures r.env.next ==
      e.next + if key in source && source[key] != Null && ("telephones" !in p.vivo || p.vivo["telephones"] == List([]))
               then 1 else 0
    ensures r.result.Ok? && key in source && source[key] != Null ==>
              var t := r.result.value.telephone;
              t.Some? && r.env.log == e.log + [UpdateDataProperty(t.value.0, "vcard:telephone", t.value.1, source[key])]
    ensures key in source && source[key] != Null && ("telephones" !in p.vivo || p.vivo["telephones"] == List([])) ==>
              if "vcard_uri" !in p.vivo then r == Outcome(Err(KeyError("vcard_uri")), Env(e.next + 1, e.log))
              else
                && r.env == Env(e.next + 1, e.log + [UpdateDataProperty(Minted(e.next), "vcard:telephone", Null, source[key])])
                && r.result.Ok?
                && r.result.value.telephone == Some((Minted(e.next), Null))
                && r.result.value.ardf ==
                   p.ardf + [Assert(Resource(p.vivo["vcard_uri"], "vcard:hasTelephone", Minted(e.next))),
                             Assert(Resource(Minted(e.next), "rdf:type", Untag(tag))),
                             AddText(|e.log|)]
    ensures r.result.Ok? && key in source && source[key] != Null &&
            "telephones" in p.vivo && p.vivo["telephones"] != List([]) ==>
              r.result.value.ardf == p.ardf + [AddText(|e.log|)]
    ensures r.result.Ok? && key in source && source[key] != Null ==> r.result.value.srdf == p.srdf + [SubText(|e.log|)]
    ensures r.result.Ok? ==> r.result.value.vivo == p.vivo
    ensures r.result.Ok? ==> p.ardf <= r.result.value.ardf && p.srdf <= r.result.value.srdf
    ensures r.result.Ok? && Sorted(p) ==> Sorted(r.result.value)
  {
    if key !in source || source[key] == Null then Outcome(Ok(p), e)
    else if "telephones" !in p.vivo || p.vivo["telephones"] == List([]) then
      var (telephoneUri, e1) := Mint(e);
      if "vcard_uri" !in p.vivo then Outcome(Err(KeyError("vcard_uri")), e1)
      else
        var q := p.(ardf := p.ardf + [Assert(Resource(p.vivo["vcard_uri"], "vcard:hasTelephone", telephoneUri)),
                                      Assert(Resource(telephoneUri, "rdf:type", Untag(tag)))],
                    telephone := Some((telephoneUri, Null)));
        Applied(e1, q, UpdateDataProperty(telephoneUri, "vcard:telephone", Null, source[key]))
    else
      match Iterated(p.vivo["telephones"])
      case Err(x) => Outcome(Err(x), e)
      case Ok(telephones) =>
        match Scan(telephones, kind, p.telephone)
        case Err(x) => Outcome(Err(x), e)
        case Ok(None) => Outcome(Err(UnboundLocalError("telephone_uri")), e)
        case Ok(Some(t)) =>
          Applied(e, p.(telephone := Some(t)), UpdateDataProperty(t.0, "vcard:telephone", t.1, source[key]))
  }

  /** The email entity: minted when the vivo vcard has no email address; otherwise
      the code reads `email_addresses`, a name it never defines. */
  function EmailStage(e: Env, p: Pass, source: Record): (r: Outcome<Pass>)
    ensures Extends(e, r.env)
    ensures "primary_email" !in source || source["primary_email"] == Null ==> r == Outcome(Ok(p), e)
    ensures "primary_email" in source && source["primary_email"] != Null &&
            "email_addresses" in p.vivo && p.vivo["email_addresses"] != List([]) ==>
              r == Outcome(Err(NameError("email_addresses")), e)
    ensures "primary_email" in source && source["primary_email"] != Null &&
            ("email_addresses" !in p.vivo || p.vivo["email_addresses"] == List([])) ==>
              if "vcard_uri" !in p.vivo then r == Outcome(Err(KeyError("vcard_uri")), Env(e.next + 1, e.log))
              else
                && r.env == Env(e.next + 1, e.log + [UpdateDataProperty(Minted(e.next), "vcard:email", Null, source["primary_email"])])
                && r.result.Ok?
                && r.result.value.ardf ==
                   p.ardf + [Assert(Resource(p.vivo["vcard_uri"], "vcard:hasEmail", Minted(e.next))),
                             Assert(Resource(Minted(e.next), "rdf:type", Untag("vcard:Email"))),
                             AddText(|e.log|)]
                && r.result.value.srdf == p.srdf + [SubText(|e.log|)]
    ensures r.result.Ok? ==> r.result.value.vivo == p.vivo
    ensures r.result.Ok? ==> p.ardf <= r.result.value.ardf && p.srdf <= r.result.value.srdf
    ensures r.result.Ok? && Sorted(p) ==> Sorted(r.result.value)
  {
    if "primary_email" !in source || source["primary_email"] == Null then Outcome(Ok(p), e)
    else if "email_addresses" !in p.vivo || p.vivo["email_addresses"] == List([]) then
      var (emailUri, e1) := Mint(e);
      if "vcard_uri" !in p.vivo then Outcome(Err(KeyError("vcard_uri")), e1)
      else
        var q := p.(ardf := p.ardf + [Assert(Resource(p.vivo["vcard_uri"], "vcard:hasEmail", emailUri)),
                                      Assert(Resource(emailUri, "rdf:type", Untag("vcard:Email")))]);
        Applied(e1, q, UpdateDataProperty(emailUri, "vcard:email", Null, source["primary_email"]))
    else Outcome(Err(NameError("email_addresses")), e)
  }

  /** update_vcard: the sub-entities in the order name, title, phone, fax, email,
      each starting from the state the previous one left; the first failure ends it. */
  function VcardDelta(e: Env, vivo: Record, source: Record): (r: Outcome<Pass>)
    ensures Extends(e, r.env)
    ensures "name" in source && "name" !in vivo ==> r == Outcome(Err(NameError("vcard")), Env(e.next + 1, e.log))
    ensures r.result.Ok? ==> Sorted(r.result.value)
  {
    var n := NameStage(e, Pass(vivo, [], [], None), source);
    if n.result.Err? then n else TitleOnward(n.env, n.result.value, source)
  }

  /** The keys update_vcard acts on after the name. */
  function LaterKeys(source: Record): seq<string>
  {
    Step(source, "title") + TelephoneKeys(source)
  }

  /** The keys update_vcard acts on after the title. */
  function TelephoneKeys(source: Record): seq<string>
  {
    Step(source, "phone") + (Step(source, "fax") + Step(source, "primary_email"))
  }

  /** The stages of update_vcard after the name. */
  function TitleOnward(e: Env, p: Pass, source: Record): (r: Outcome<Pass>)
    ensures Extends(e, r.env)
    ensures r.result.Ok? && Sorted(p) ==> Sorted(r.result.value)
  {
    var t := TitleStage(e, p, source);
    if t.result.Err? then t else TelephonesOnward(t.env, t.result.value, source)
  }

  /** The stages of update_vcard after the title: phone, fax, then email. */
  function TelephonesOnward(e: Env, p: Pass, source: Record): (r: Outcome<Pass>)
    ensures Extends(e, r.env)
    ensures r.result.Ok? && Sorted(p) ==> Sorted(r.result.value)
  {
    var ph := PhoneStage(e, p, source, "phone", "Telephone", "vcard:telephone");
    if ph.result.Err? then ph
    else
      var fx := PhoneStage(ph.env, ph.result.value, source, "fax", "Fax", "vcard:Fax");
      if fx.result.Err? then fx
      else EmailStage(fx.env, fx.result.value, source)
  }

  /** The name stage logs the call for the name, if it acts on it. */
  lemma NameStageCalls(e: Env, p: Pass, source: Record)
    ensures var r := NameStage(e, p, source); r.result.Ok? ==> Calls(e, r.env, Step(source, "name"), source)
  {
  }

  /** The title stage logs the call for the title, if it acts on it. */
  lemma TitleStageCalls(e: Env, p: Pass, source: Record)
    ensures var r := TitleStage(e, p, source); r.result.Ok? ==> Calls(e, r.env, Step(source, "title"), source)
  {
  }

  /** The phone and fax stages log the call for their key, if they act on it. */
  lemma PhoneStageCalls(e: Env, p: Pass, source: Record, key: string, kind: string, tag: string)
    requires key == "phone" || key == "fax"
    ensures var r := PhoneStage(e, p, source, key, kind, tag);
      r.result.Ok? ==> Calls(e, r.env, Step(source, key), source)
  {
  }

  /** The email stage logs the call for the email, if it acts on it. */
  lemma EmailStageCalls(e: Env, p: Pass, source: Record)
    ensures var r := EmailStage(e, p, source);
      r.result.Ok? ==> Calls(e, r.env, Step(source, "primary_email"), source)
  {
  }

  lemma TelephonesCalls(e: Env, p: Pass, source: Record)
    ensures var r := TelephonesOnward(e, p, source); r.result.Ok? ==> Calls(e, r.env, TelephoneKeys(source), source)
  {
    var ph := PhoneStage(e, p, source, "phone", "Telephone", "vcard:telephone");
    if ph.result.Ok? {
      PhoneStageCalls(e, p, source, "phone", "Telephone", "vcard:telephone");
      var fx := PhoneStage(ph.env, ph.result.value, source, "fax", "Fax", "vcard:Fax");
      if fx.result.Ok? {
        PhoneStageCalls(ph.env, ph.result.value, source, "fax", "Fax", "vcard:Fax");
        var em := EmailStage(fx.env, fx.result.value, source);
        if em.result.Ok? {
          EmailStageCalls(fx.env, fx.result.value, source);
          CallsTrans(ph.env, fx.env, em.env, Step(source, "fax"), Step(source, "primary_email"), source);
          CallsTrans(e, ph.env, em.env, Step(source, "phone"), Step(source, "fax") + Step(source, "primary_email"), source);
        }
      }
    }
  }

  lemma TitleOnwardCalls(e: Env, p: Pass, source: Record)
    ensures var r := TitleOnward(e, p, source); r.result.Ok? ==> Calls(e, r.env, LaterKeys(source), source)
  {
    var t := TitleStage(e, p, source);
    if t.result.Ok? {
      TitleStageCalls(e, p, source);
      TelephonesCalls(t.env, t.result.value, source);
      var r := TelephonesOnward(t.env, t.result.value, source);
      if r.result.Ok? {
        CallsTrans(e, t.env, r.env, Step(source, "title"), TelephoneKeys(source), source);
      }
    }
  }

  /** A successful update_vcard logs one call for each source key it acts on, in
      the order name, title, phone, fax, email, and no other call. */
  lemma VcardDeltaCalls(e: Env, vivo: Record, source: Record)
    ensures var r := VcardDelta(e, vivo, source); r.result.Ok? ==> Calls(e, r.env, StageKeys(source), source)
  {
    var n := NameStage(e, Pass(vivo, [], [], None), source);
    if n.result.Ok? {
      NameStageCalls(e, Pass(vivo, [], [], None), source);
      TitleOnwardCalls(n.env, n.result.value, source);
      var r := TitleOnward(n.env, n.result.value, source);
      if r.result.Ok? {
        CallsTrans(e, n.env, r.env, Step(source, "name"), LaterKeys(source), source);
      }
    }
  }

  /** Calls logged over two stretches in a row are those of the two key lists joined. */
  lemma CallsTrans(e1: Env, e2: Env, e3: Env, k1: seq<string>, k2: seq<string>, source: Record)
    requires Calls(e1, e2, k1, source) && Calls(e2, e3, k2, source)
    ensures Calls(e1, e3, k1 + k2, source)
  {
    forall i | 0 <= i < |k1 + k2|
      ensures CallFor(e3.log[|e1.log| + i], (k1 + k2)[i], source)
    {
      if i < |k1| {
        assert e3.log[|e1.log| + i] == e2.log[|e1.log| + i];
      } else {
        assert e3.log[|e1.log| + i] == e3.log[|e2.log| + (i - |k1|)];
      }
    }
  }

  /** A vcard with a name, a title and no telephones or emails in VIVO, and all five
      source values: the name is updated, the title changed in place, and a
      telephone, a fax and an email minted, in that order. */
  lemma FreshContactsRun(e: Env, vivo: Record, source: Record)
    requires "name" in vivo && vivo["name"].Dict? && "name_uri" in vivo
    requires "title" in vivo && "title_uri" in vivo && "vcard_uri" in vivo
    requires "telephones" !in vivo && "email_addresses" !in vivo
    requires "name" in source && "title" in source
    requires Given(source, "phone") && Given(source, "fax") && Given(source, "primary_email")
    ensures var r := VcardDelta(e, vivo, source);
      && r.result.Ok?
      && r.env.next == e.next + 3
      && r.env.log == e.log +
         [UpdateEntity(Dict(vivo["name"].fields["uri" := vivo["name_uri"]]), source["name"], NameKeys),
          UpdateDataProperty(vivo["title_uri"], "vcard:title", vivo["title"], source["title"]),
          UpdateDataProperty(Minted(e.next), "vcard:telephone", Null, source["phone"]),
          UpdateDataProperty(Minted(e.next + 1), "vcard:telephone", Null, source["fax"]),
          UpdateDataProperty(Minted(e.next + 2), "vcard:email", Null, source["primary_email"])]
  {
  }

  /** Once the loop has failed, the later telephones do not matter. */
  lemma {:induction false} ScanStops(telephones: seq<Value>, kind: string, bound: Option<(Value, Value)>, j: nat)
    requires j <= |telephones|
    requires Scan(telephones[..j], kind, bound).Err?
    ensures Scan(telephones, kind, bound) == Scan(telephones[..j], kind, bound)
    decreases |telephones|
  {
    if j < |telephones| {
      var front := telephones[..|telephones| - 1];
      assert front[..j] == telephones[..j];
      ScanStops(front, kind, bound, j);
    } else {
      assert telephones[..j] == telephones;
    }
  }

  method ScanTelephones(telephones: seq<Value>, kind: string, bound: Option<(Value, Value)>)
    returns (r: Result<Option<(Value, Value)>>)
    ensures r == Scan(telephones, kind, bound)
  {
    var b := bound;
    var i := 0;
    while i < |telephones|
      invariant 0 <= i <= |telephones|
      invariant Scan(telephones[..i], kind, bound) == Ok(b)
    {
      var telephone := telephones[i];
      assert telephones[..i + 1][..i] == telephones[..i];
      if !telephone.Dict? {
        ScanStops(telephones, kind, bound, i + 1);
        return Err(TypeError);
      }
      if "telephone_type" !in telephone.fields {
        ScanStops(telephones, kind, bound, i + 1);
        return Err(KeyError("telephone_type"));
      }
      if telephone.fields["telephone_type"] == Str(kind) {
        if "telephone_uri" !in telephone.fields {
          ScanStops(telephones, kind, bound, i + 1);
          return Err(KeyError("telephone_uri"));
        }
        if "telephone_number" !in telephone.fields {
          ScanStops(telephones, kind, bound, i + 1);
          return Err(KeyError("telephone_number"));
        }
        b := Some((telephone.fields["telephone_uri"], telephone.fields["telephone_number"]));
      }
      i := i + 1;
    }
    assert telephones[..i] == telephones;
    r := Ok(b);
  }

  method UpdateName(f: Foundation, p: Pass, source: Record) returns (r: Result<Pass>)
    modifies f
    ensures Outcome(r, f.State()) == NameStage(old(f.State()), p, source)
  {
    if "name" !in source {
      return Ok(p);
    }
    if "name" !in p.vivo {
      var nameUri := f.GetVivoUri();
      return Err(NameError("vcard"));
    }
    if "name_uri" !in p.vivo {
      return Err(KeyError("name_uri"));
    }
    if !p.vivo["name"].Dict? {
      return Err(TypeError);
    }
    var name := Dict(p.vivo["name"].fields["uri" := p.vivo["name_uri"]]);
    var add, sub := f.UpdateEntity(name, source["name"], NameKeys);
    r := Ok(Pass(p.vivo["name" := name], p.ardf + [add], p.srdf + [sub], p.telephone));
  }

  method UpdateTitle(f: Foundation, p: Pass, source: Record) returns (r: Result<Pass>)
    modifies f
    ensures Outcome(r, f.State()) == TitleStage(old(f.State()), p, source)
  {
    if "title" !in source {
      return Ok(p);
    }
    var vivo, ardf := p.vivo, p.ardf;
    if "title" !in vivo {
      var titleUri := f.GetVivoUri();
      ardf := ardf + [Assert(Resource(titleUri, "rdf:type", Untag("vcard:Title")))];
      if "vcard_uri" !in vivo {
        return Err(KeyError("vcard_uri"));
      }
      ardf := ardf + [Assert(Resource(vivo["vcard_uri"], "vcard:hasTitle", titleUri))];
      assert ardf == p.ardf + [Assert(Resource(titleUri, "rdf:type", Untag("vcard:Title"))),
                               Assert(Resource(vivo["vcard_uri"], "vcard:hasTitle", titleUri))];
      vivo := vivo["title_uri" := titleUri];
      vivo := vivo["title" := Null];
    }
    if "title_uri" !in vivo {
      return Err(KeyError("title_uri"));
    }
    var add, sub := f.UpdateDataProperty(vivo["title_uri"], "vcard:title", vivo["title"], source["title"]);
    r := Ok(Pass(vivo, ardf + [add], p.srdf + [sub], p.telephone));
  }

  method UpdateTelephone(f: Foundation, p: Pass, source: Record, key: string, kind: string, tag: string)
    returns (r: Result<Pass>)
    modifies f
    ensures Outcome(r, f.State()) == PhoneStage(old(f.State()), p, source, key, kind, tag)
  {
    if key !in source || source[key] == Null {
      return Ok(p);
    }
    var ardf := p.ardf;
    var telephone: (Value, Value);
    if "telephones" !in p.vivo || p.vivo["telephones"] == List([]) {
      var telephoneUri := f.GetVivoUri();
      if "vcard_uri" !in p.vivo {
        return Err(KeyError("vcard_uri"));
      }
      ardf := ardf + [Assert(Resource(p.vivo["vcard_uri"], "vcard:hasTelephone", telephoneUri))];
      ardf := ardf + [Assert(Resource(telephoneUri, "rdf:type", Untag(tag)))];
      assert ardf == p.ardf + [Assert(Resource(p.vivo["vcard_uri"], "vcard:hasTelephone", telephoneUri)),
                               Assert(Resource(telephoneUri, "rdf:type", Untag(tag)))];
      telephone := (telephoneUri, Null);
    } else {
      var telephones := Iterated(p.vivo["telephones"]);
      if telephones.Err? {
        return Err(telephones.error);
      }
      var bound := ScanTelephones(telephones.value, kind, p.telephone);
      if bound.Err? {
        return Err(bound.error);
      }
      if bound.value == None {
        return Err(UnboundLocalError("telephone_uri"));
      }
      telephone := bound.value.value;
    }
    var add, sub := f.UpdateDataProperty(telephone.0, "vcard:telephone", telephone.1, source[key]);
    r := Ok(Pass(p.vivo, ardf + [add], p.srdf + [sub], Some(telephone)));
  }

  method UpdateEmail(f: Foundation, p: Pass, source: Record) returns (r: Result<Pass>)
    modifies f
    ensures Outcome(r, f.State()) == EmailStage(old(f.State()), p, source)
  {
    if "primary_email" !in source || source["primary_email"] == Null {
      return Ok(p);
    }
    if "email_addresses" in p.vivo && p.vivo["email_addresses"] != List([]) {
      return Err(NameError("email_addresses"));
    }
    var emailUri := f.GetVivoUri();
    if "vcard_uri" !in p.vivo {
      return Err(KeyError("vcard_uri"));
    }
    var ardf := p.ardf + [Assert(Resource(p.vivo["vcard_uri"], "vcard:hasEmail", emailUri))];
    ardf := ardf + [Assert(Resource(emailUri, "rdf:type", Untag("vcard:Email")))];
    assert ardf == p.ardf + [Assert(Resource(p.vivo["vcard_uri"], "vcard:hasEmail", emailUri)),
                             Assert(Resource(emailUri, "rdf:type", Untag("vcard:Email")))];
    var add, sub := f.UpdateDataProperty(emailUri, "vcard:email", Null, source["primary_email"]);
    r := Ok(Pass(p.vivo, ardf + [add], p.srdf + [sub], p.telephone));
  }

  /** update_vcard, returning the two texts with the vivo vcard as it changed it. */
  method UpdateVcard(f: Foundation, vivo: Record, source: Record) returns (r: Result<Pass>)
    modifies f
    ensures Outcome(r, f.State()) == VcardDelta(old(f.State()), vivo, source)
  {
    r := UpdateName(f, Pass(vivo, [], [], None), source);
    if r.Err? {
      return;
    }
    r := UpdateTitle(f, r.value, source);
    if r.Err? {
      return;
    }
    r := UpdateTelephone(f, r.value, source, "phone", "Telephone", "vcard:telephone");
    if r.Err? {
      return;
    }
    r := UpdateTelephone(f, r.value, source, "fax", "Fax", "vcard:Fax");
    if r.Err? {
      return;
    }
    r := UpdateEmail(f, r.value, source);
  }

  /** The loop fails exactly when some telephone cannot be read; otherwise the
      locals hold the last telephone of the kind, or what they held before when
      there is none. */
  lemma ScanLastWins(telephones: seq<Value>, kind: string, bound: Option<(Value, Value)>)
    ensures Scan(telephones, kind, bound).Ok? <==> forall j :: 0 <= j < |telephones| ==> Readable(telephones[j], kind)
    ensures Scan(telephones, kind, bound).Ok? && (forall j :: 0 <= j < |telephones| ==> !OfKind(telephones[j], kind)) ==>
              Scan(telephones, kind, bound).value == bound
    ensures forall j :: 0 <= j < |telephones| && Scan(telephones, kind, bound).Ok? && OfKind(telephones[j], kind) &&
                        (forall k :: j < k < |telephones| ==> !OfKind(telephones[k], kind)) ==>
              Scan(telephones, kind, bound).value ==
                Some((telephones[j].fields["telephone_uri"], telephones[j].fields["telephone_number"]))
  {
    ScanOkIff(telephones, kind, bound);
    ScanKeepsBound(telephones, kind, bound);
    forall j | 0 <= j < |telephones| && Scan(telephones, kind, bound).Ok? && OfKind(telephones[j], kind) &&
               (forall k :: j < k < |telephones| ==> !OfKind(telephones[k], kind))
    {
      ScanLastAt(telephones, kind, bound, j);
    }
  }

  /** The scan fails exactly when some telephone cannot be read. */
  lemma {:induction false} ScanOkIff(telephones: seq<Value>, kind: string, bound: Option<(Value, Value)>)
    ensures Scan(telephones, kind, bound).Ok? <==> forall j :: 0 <= j < |telephones| ==> Readable(telephones[j], kind)
  {
    if telephones != [] {
      var front := telephones[..|telephones| - 1];
      ScanOkIff(front, kind, bound);
      assert forall j :: 0 <= j < |front| ==> front[j] == telephones[j];
    }
  }

  /** With no telephone of the kind, the scan leaves the locals as they were. */
  lemma {:induction false} ScanKeepsBound(telephones: seq<Value>, kind: string, bound: Option<(Value, Value)>)
    ensures Scan(telephones, kind, bound).Ok? && (forall j :: 0 <= j < |telephones| ==> !OfKind(telephones[j], kind)) ==>
              Scan(telephones, kind, bound).value == bound
  {
    if telephones != [] {
      var front := telephones[..|telephones| - 1];
      ScanKeepsBound(front, kind, bound);
      assert forall j :: 0 <= j < |front| ==> front[j] == telephones[j];
    }
  }

  /** The scan ends on the last telephone of the kind. */
  lemma {:induction false} ScanLastAt(telephones: seq<Value>, kind: string, bound: Option<(Value, Value)>, j: nat)
    requires j < |telephones| && Scan(telephones, kind, bound).Ok? && OfKind(telephones[j], kind)
    requires Readable(telephones[j], kind)
    requires forall k :: j < k < |telephones| ==> !OfKind(telephones[k], kind)
    ensures Scan(telephones, kind, bound).value ==
              Some((telephones[j].fields["telephone_uri"], telephones[j].fields["telephone_number"]))
  {
    var front := telephones[..|telephones| - 1];
    if j < |front| {
      assert forall k :: j < k < |front| ==> front[k] == telephones[k];
      assert front[j] == telephones[j];
      ScanLastAt(front, kind, bound, j);
    }
  }

  /** With telephones in VIVO, the update goes to the last telephone of the kind. */
  lemma PhoneUsesLastOfKind(e: Env, p: Pass, source: Record, key: string, kind: string, tag: string,
                            telephones: seq<Value>, j: nat)
    requires key in source && source[key] != Null
    requires "telephones" in p.vivo && p.vivo["telephones"] == List(telephones) && telephones != []
    requires forall i :: 0 <= i < |telephones| ==> Readable(telephones[i], kind)
    requires j < |telephones| && OfKind(telephones[j], kind) && Readable(telephones[j], kind)
    requires forall k :: j < k < |telephones| ==> !OfKind(telephones[k], kind)
    ensures PhoneStage(e, p, source, key, kind, tag).result.Ok?
    ensures PhoneStage(e, p, source, key, kind, tag).env ==
      Env(e.next, e.log + [UpdateDataProperty(telephones[j].fields["telephone_uri"], "vcard:telephone",
                                              telephones[j].fields["telephone_number"], source[key])])
  {
    ScanLastWins(telephones, kind, p.telephone);
  }

  /** With telephones in VIVO but none of the kind, the update reads the locals:
      unbound at the phone step, left by the phone step at the fax step. */
  lemma PhoneWithoutKind(e: Env, p: Pass, source: Record, key: string, kind: string, tag: string,
                         telephones: seq<Value>)
    requires key in source && source[key] != Null
    requires "telephones" in p.vivo && p.vivo["telephones"] == List(telephones) && telephones != []
    requires forall i :: 0 <= i < |telephones| ==> Readable(telephones[i], kind) && !OfKind(telephones[i], kind)
    ensures p.telephone == None ==>
      PhoneStage(e, p, source, key, kind, tag) == Outcome(Err(UnboundLocalError("telephone_uri")), e)
    ensures p.telephone != None ==>
      && PhoneStage(e, p, source, key, kind, tag).result.Ok?
      && PhoneStage(e, p, source, key, kind, tag).env ==
           Env(e.next, e.log + [UpdateDataProperty(p.telephone.value.0, "vcard:telephone", p.telephone.value.1, source[key])])
  {
    ScanLastWins(telephones, kind, p.telephone);
  }

  /** A vcard whose telephones hold a Telephone and no Fax: the fax number is
      written over the number of that same telephone, right after the phone. */
  lemma FaxOverwritesPhone(e: Env, p: Pass, source: Record, telephones: seq<Value>, j: nat)
    requires "phone" in source && source["phone"] != Null && "fax" in source && source["fax"] != Null
    requires "telephones" in p.vivo && p.vivo["telephones"] == List(telephones) && telephones != []
    requires forall i :: 0 <= i < |telephones| ==>
      Readable(telephones[i], "Telephone") && Readable(telephones[i], "Fax") && !OfKind(telephones[i], "Fax")
    requires j < |telephones| && OfKind(telephones[j], "Telephone") && Readable(telephones[j], "Telephone")
    requires forall k :: j < k < |telephones| ==> !OfKind(telephones[k], "Telephone")
    ensures var ph := PhoneStage(e, p, source, "phone", "Telephone", "vcard:telephone");
      && ph.result.Ok?
      && var fx := PhoneStage(ph.env, ph.result.value, source, "fax", "Fax", "vcard:Fax");
      && fx.result.Ok?
      && var (uri, number) := (telephones[j].fields["telephone_uri"], telephones[j].fields["telephone_number"]);
         fx.env == Env(e.next, e.log + [UpdateDataProperty(uri, "vcard:telephone", number, source["phone"]),
                                        UpdateDataProperty(uri, "vcard:telephone", number, source["fax"])])
  {
    var ph := PhoneStage(e, p, source, "phone", "Telephone", "vcard:telephone");
    PhoneUsesLastOfKind(e, p, source, "phone", "Telephone", "vcard:telephone", telephones, j);
    ScanLastWins(telephones, "Telephone", p.telephone);
    var q := ph.result.value;
    assert q.vivo == p.vivo;
    assert q.telephone == Some((telephones[j].fields["telephone_uri"], telephones[j].fields["telephone_number"]));
    PhoneWithoutKind(ph.env, q, source, "fax", "Fax", "vcard:Fax", telephones);
  }

  // update_position

  const UpdateKeys: KeyTable := map[
    "position_label" := KeySpec("rdfs:label", "literal"),
    "position_rank" := KeySpec("vivo:rank", "literal"),
    "position_type" := KeySpec("rdf:type", "resource"),
    "position_orguri" := KeySpec("vivo:relates", "resource"),
    "person_uri" := KeySpec("vivo:relates", "resource")
  ]

  /** The start or the end date of the two positions differ (absent reads as None). */
  predicate DatesDiffer(vivo: Record, source: Record)
  {
    Get(vivo, "start_date") != Get(source, "start_date") || Get(vivo, "end_date") != Get(source, "end_date")
  }

  /** update_position: update_entity on the position, then, when a date changed, a
      new interval whose add text is kept, and a re-link of the position to it whose
      texts are dropped. The re-link reads the position's `uri`. */
  function PositionDelta(e: Env, vivo: Record, source: Record): (r: Outcome<(Doc, Doc)>)
    ensures r.env.next == e.next
    ensures |r.env.log| > |e.log| && r.env.log[..|e.log| + 1] == e.log + [UpdateEntity(Dict(vivo), Dict(source), UpdateKeys)]
    ensures forall k :: |e.log| < k < |r.env.log| ==> !r.env.log[k].UpdateEntity?
    ensures r.result.Err? <==> DatesDiffer(vivo, source) && "uri" !in vivo
    ensures r.result.Err? ==> r.result.error == KeyError("uri")
    ensures !DatesDiffer(vivo, source) ==> r.result == Ok(([AddText(|e.log|)], [SubText(|e.log|)]))
    ensures DatesDiffer(vivo, source) && "uri" in vivo ==>
              && r.result == Ok(([AddText(|e.log|), AddText(|e.log| + 1)], [SubText(|e.log|)]))
              && r.env.log == e.log + [UpdateEntity(Dict(vivo), Dict(source), UpdateKeys),
                                       AddDti(Get(source, "start_date"), Get(source, "end_date")),
                                       UpdateResourceProperty(vivo["uri"], "vivo:dateTimeInterval",
                                                              Get(vivo, "dti_uri"), DtiUri(|e.log| + 1))]
  {
    var (i, e1) := Logged(e, UpdateEntity(Dict(vivo), Dict(source), UpdateKeys));
    if !DatesDiffer(vivo, source) then Outcome(Ok(([AddText(i)], [SubText(i)])), e1)
    else
      var (j, e2) := Logged(e1, AddDti(Get(source, "start_date"), Get(source, "end_date")));
      if "uri" !in vivo then Outcome(Err(KeyError("uri")), e2)
      else
        var (k, e3) := Logged(e2, UpdateResourceProperty(vivo["uri"], "vivo:dateTimeInterval", Get(vivo, "dti_uri"), DtiUri(j)));
        Outcome(Ok(([AddText(i), AddText(j)], [SubText(i)])), e3)
  }

  /** No text returned by update_position comes from update_resource_property. */
  lemma RelinkDropped(e: Env, vivo: Record, source: Record)
    ensures var r := PositionDelta(e, vivo, source);
      r.result.Ok? ==>
        forall piece :: piece in r.result.value.0 + r.result.value.1 ==>
          |e.log| <= piece.call < |r.env.log| && !r.env.log[piece.call].UpdateResourceProperty?
  {
    var r := PositionDelta(e, vivo, source);
    if r.result.Ok? {
      var i := |e.log|;
      assert r.env.log[i] == UpdateEntity(Dict(vivo), Dict(source), UpdateKeys) by {
        assert r.env.log[..i + 1][i] == r.env.log[i];
      }
    }
  }

  method UpdatePosition(f: Foundation, vivo: Record, source: Record) returns (r: Result<(Doc, Doc)>)
    modifies f
    ensures Outcome(r, f.State()) == PositionDelta(old(f.State()), vivo, source)
  {
    var add, sub := f.UpdateEntity(Dict(vivo), Dict(source), UpdateKeys);
    var ardf, srdf := [add], [sub];
    if Get(vivo, "start_date") != Get(source, "start_date") || Get(vivo, "end_date") != Get(source, "end_date") {
      var dti, dtiUri := f.AddDti(Get(source, "start_date"), Get(source, "end_date"));
      ardf := ardf + [dti];
      assert ardf == [add, dti];
      if "uri" !in vivo {
        return Err(KeyError("uri"));
      }
      add, sub := f.UpdateResourceProperty(vivo["uri"], "vivo:dateTimeInterval", Get(vivo, "dti_uri"), dtiUri);
    }
    r := Ok((ardf, srdf));
  }

  /** What get_position returns has no `uri` key. */
  lemma PositionRecordHasNoUri(store: Store, positionUri: string)
    ensures "uri" !in PositionRecord(store, positionUri)
  {
    var bs := Fetch(store, positionUri);
    assert "uri" !in PositionBase(store, positionUri, bs);
    assert "uri" !in IntervalEntries(store, bs, DateTimeInterval);
  }

  /** So update_position on what get_position returns fails whenever a date changed. */
  lemma DatesChangeFails(e: Env, store: Store, positionUri: string, source: Record)
    requires DatesDiffer(PositionRecord(store, positionUri), source)
    ensures PositionDelta(e, PositionRecord(store, positionUri), source).result == Err(KeyError("uri"))
  {
    PositionRecordHasNoUri(store, positionUri);
  }

  // update_person

  const DirectKeyTable: KeyTable := map[
    "privacy_flag" := KeySpec("ufv:privacyFlag", "literal"),
    "homedept_uri" := KeySpec("ufv:homeDept", "resource"),
    "display_name" := KeySpec("rdfs:label", "literal"),
    "ufid" := KeySpec("ufv:ufid", "literal"),
    "gatorlink" := KeySpec("ufv:gatorlink", "literal"),
    "person_type" := KeySpec("rdf:type", "literal"),
    "date_harvested" := KeySpec("ufv:dateHarvested", "literal"),
    "harvested_by" := KeySpec("ufv:harvestedBy", "literal")
  ]

  /** The source keys copied into the source vcard's name, as spelled in the code,
      then into the source vcard itself, then into the source position. */
  const VcardNames: seq<string> := ["given_name", "honorfic_prefix", "honorific_suffix", "additional_name", "family_name"]
  const VcardFlat: seq<string> := ["fax", "phone", "title"]
  const PositionKeys: seq<string> := ["position_label", "end_date", "position_type", "position_orguri", "start_date"]
  const VcardNameSet: set<string> := KeySet(VcardNames)
  const VcardFlatSet: set<string> := KeySet(VcardFlat)
  const PositionKeySet: set<string> := KeySet(PositionKeys)

  /** The key table for the person: without `person_type` when the source is not
      an HR position. */
  function PersonKeyTable(hrPosition: Value): (t: KeyTable)
    ensures "person_type" in t <==> hrPosition != Flag(false)
    ensures forall k :: k != "person_type" ==> (k in t <==> k in DirectKeyTable)
    ensures forall k :: k in t ==> t[k] == DirectKeyTable[k]
  {
    if hrPosition == Flag(false) then DirectKeyTable - {"person_type"} else DirectKeyTable
  }

  /** The flat source record reshaped as a vcard: a name of the name keys the
      source has, the person's uri, and the flat keys the source has. */
  function SourceVcard(source: Record, personUri: Value): (v: Record)
    ensures "name" in v && v["name"] == Dict(Restrict(source, VcardNameSet))
    ensures "person_uri" in v && v["person_uri"] == personUri
    ensures forall k :: k in VcardFlatSet ==> (k in v <==> k in source) && (k in v ==> v[k] == source[k])
    ensures forall k :: k in v ==> k in VcardFlatSet || k == "name" || k == "person_uri"
  {
    map["name" := Dict(Restrict(source, VcardNameSet)), "person_uri" := personUri] + Restrict(source, VcardFlatSet)
  }

  /** The misspelt key: the name update_vcard receives never holds `honorific_prefix`,
      which its name table updates, and holds `honorfic_prefix` whenever the source does. */
  lemma HonorificPrefixLost(source: Record, personUri: Value)
    ensures "honorific_prefix" in NameKeys
    ensures "honorific_prefix" !in SourceVcard(source, personUri)["name"].fields
    ensures "honorfic_prefix" in source ==>
      SourceVcard(source, personUri)["name"].fields["honorfic_prefix"] == source["honorfic_prefix"]
  {
    assert "honorific_prefix" !in VcardNames;
    assert "honorfic_prefix" in VcardNames;
  }

  /** The first of `keys` that `r` lacks. */
  function FirstMissing(keys: seq<string>, r: Record): (m: Option<string>)
    ensures m == None <==> forall k :: k in keys ==> k in r
    ensures m != None ==> m.value in keys && m.value !in r
  {
    if keys == [] then None
    else if keys[0] !in r then Some(keys[0])
    else FirstMissing(keys[1..], r)
  }

  /** The source position: the position keys, which the source must have, and the
      person's uri. */
  function SourcePosition(source: Record, personUri: Value): (p: Record)
    ensures "person_uri" in p && p["person_uri"] == personUri
    ensures forall k :: k in PositionKeySet && k in source ==> k in p && p[k] == source[k]
  {
    Restrict(source, PositionKeySet)["person_uri" := personUri]
  }

  /** A VIVO position the source position matches: same type, same organization. */
  predicate Matching(vivo: Record, source: Record)
  {
    Get(vivo, "position_type") == Get(source, "position_type") &&
    Get(vivo, "position_orguri") == Get(source, "position_orguri")
  }

  /** The loop over the person's positions in VIVO, given as get_position returns
      them: each one the source position matches is updated, not just the first.
      `updated` records whether one was. */
  function PositionsDelta(e: Env, vivos: seq<Record>, source: Record, ardf: Doc, srdf: Doc)
    : (r: Outcome<(Doc, Doc, bool)>)
    ensures Extends(e, r.env)
  {
    if vivos == [] then Outcome(Ok((ardf, srdf, false)), e)
    else PositionsStep(PositionsDelta(e, vivos[..|vivos| - 1], source, ardf, srdf), vivos[|vivos| - 1], source)
  }

  /** One pass of the loop: a matching VIVO position is updated and its texts
      appended; a failure stays. */
  function PositionsStep(prev: Outcome<(Doc, Doc, bool)>, vivo: Record, source: Record)
    : (r: Outcome<(Doc, Doc, bool)>)
    ensures Extends(prev.env, r.env)
  {
    if prev.result.Err? || !Matching(vivo, source) then prev
    else
      var (a, s, updated) := prev.result.value;
      var d := PositionDelta(prev.env, vivo, source);
      if d.result.Err? then Outcome(Err(d.result.error), d.env)
      else Outcome(Ok((a + d.result.value.0, s + d.result.value.1, true)), d.env)
  }

  /** The loop over one more position is one more pass. */
  lemma PositionsSnoc(e: Env, vivos: seq<Record>, source: Record, ardf: Doc, srdf: Doc, i: nat)
    requires i < |vivos|
    ensures PositionsDelta(e, vivos[..i + 1], source, ardf, srdf) ==
            PositionsStep(PositionsDelta(e, vivos[..i], source, ardf, srdf), vivos[i], source)
  {
    assert vivos[..i + 1][..i] == vivos[..i];
  }

  /** The loop only appends to the texts; when it updated nothing it changed
      nothing, when it updated a position the sub text ends with that update's, and
      the only way it fails is update_position's KeyError on `uri`. */
  lemma {:induction false} PositionsDeltaShape(e: Env, vivos: seq<Record>, source: Record, ardf: Doc, srdf: Doc)
    ensures var r := PositionsDelta(e, vivos, source, ardf, srdf);
      && (r.result.Ok? ==> ardf <= r.result.value.0 && srdf <= r.result.value.1)
      && (r.result.Ok? && !r.result.value.2 ==> r == Outcome(Ok((ardf, srdf, false)), e))
      && (r.result.Ok? && r.result.value.2 ==> ClosesOnSub(r.result.value.1, |srdf|))
      && (r.result.Err? ==> r.result.error == KeyError("uri"))
  {
    if vivos != [] {
      PositionsDeltaShape(e, vivos[..|vivos| - 1], source, ardf, srdf);
    }
  }

  /** `updated` is set exactly when some VIVO position matches. */
  lemma {:induction false} PositionsUpdatedIff(e: Env, vivos: seq<Record>, source: Record, ardf: Doc, srdf: Doc)
    ensures var r := PositionsDelta(e, vivos, source, ardf, srdf);
      r.result.Ok? ==> (r.result.value.2 <==> exists j :: 0 <= j < |vivos| && Matching(vivos[j], source))
  {
    if vivos != [] {
      var front := vivos[..|vivos| - 1];
      PositionsUpdatedIff(e, front, source, ardf, srdf);
      assert forall j :: 0 <= j < |front| ==> front[j] == vivos[j];
    }
  }

  /** A matching VIVO position without `uri` whose dates differ from the source's
      makes the loop fail on `uri`. */
  lemma {:induction false} PositionsFailOnDates(e: Env, vivos: seq<Record>, source: Record, ardf: Doc, srdf: Doc,
                                                j: nat)
    requires j < |vivos| && Matching(vivos[j], source) && DatesDiffer(vivos[j], source) && "uri" !in vivos[j]
    ensures PositionsDelta(e, vivos, source, ardf, srdf).result == Err(KeyError("uri"))
  {
    var front := vivos[..|vivos| - 1];
    if j < |front| {
      assert front[j] == vivos[j];
      PositionsFailOnDates(e, front, source, ardf, srdf, j);
    } else {
      PositionsDeltaShape(e, front, source, ardf, srdf);
    }
  }

  /** The update_entity calls the loop makes: one for each matching VIVO position,
      in order. */
  function UpdateCalls(vivos: seq<Record>, source: Record): seq<Call>
  {
    if vivos == [] then []
    else
      var vivo := vivos[|vivos| - 1];
      UpdateCalls(vivos[..|vivos| - 1], source)
        + if Matching(vivo, source) then [UpdateEntity(Dict(vivo), Dict(source), UpdateKeys)] else []
  }

  /** When no position has a `uri` and the loop succeeds, it has made exactly those
      calls, and its sub text is theirs. */
  lemma {:induction false} PositionsDeltaLog(e: Env, vivos: seq<Record>, source: Record, ardf: Doc, srdf: Doc)
    requires forall j :: 0 <= j < |vivos| ==> "uri" !in vivos[j]
    ensures var r := PositionsDelta(e, vivos, source, ardf, srdf);
      r.result.Ok? ==>
        && r.env == Env(e.next, e.log + UpdateCalls(vivos, source))
        && |r.result.value.1| == |srdf| + |UpdateCalls(vivos, source)|
        && forall k :: |srdf| <= k < |r.result.value.1| ==> r.result.value.1[k] == SubText(|e.log| + k - |srdf|)
  {
    if vivos != [] {
      var front := vivos[..|vivos| - 1];
      PositionsDeltaLog(e, front, source, ardf, srdf);
    }
  }

  /** Once the loop has failed, the later positions do not matter. */
  lemma {:induction false} PositionsStop(e: Env, vivos: seq<Record>, source: Record, ardf: Doc, srdf: Doc, j: nat)
    requires j <= |vivos|
    requires PositionsDelta(e, vivos[..j], source, ardf, srdf).result.Err?
    ensures PositionsDelta(e, vivos, source, ardf, srdf) == PositionsDelta(e, vivos[..j], source, ardf, srdf)
    decreases |vivos|
  {
    if j < |vivos| {
      var front := vivos[..|vivos| - 1];
      assert front[..j] == vivos[..j];
      PositionsStop(e, front, source, ardf, srdf, j);
    } else {
      assert vivos[..j] == vivos;
    }
  }

  /** The positions get_position returns for `uris`, in order. */
  function VivoPositions(store: Store, uris: seq<string>): (vivos: seq<Record>)
    ensures |vivos| == |uris|
  {
    if uris == [] then [] else VivoPositions(store, uris[..|uris| - 1]) + [PositionRecord(store, uris[|uris| - 1])]
  }

  /** The j-th of them is get_position on the j-th uri. */
  lemma {:induction false} VivoPositionsAt(store: Store, uris: seq<string>, j: nat)
    requires j < |uris|
    ensures VivoPositions(store, uris)[j] == PositionRecord(store, uris[j])
  {
    var front := uris[..|uris| - 1];
    if j < |front| {
      VivoPositionsAt(store, front, j);
    }
  }

  /** None of them has a `uri`. */
  lemma VivoPositionsHaveNoUri(store: Store, uris: seq<string>)
    ensures forall j :: 0 <= j < |uris| ==> "uri" !in VivoPositions(store, uris)[j]
  {
    forall j | 0 <= j < |uris|
      ensures "uri" !in VivoPositions(store, uris)[j]
    {
      VivoPositionsAt(store, uris, j);
      PositionRecordHasNoUri(store, uris[j]);
    }
  }

  /** The position part of update_person, once the person and the vcard are done:
      the source position, the loop, and add_position when nothing matched, whose
      position uri is appended to the sub text. */
  function PersonPositions(e: Env, personUri: Value, source: Record, query: Option<seq<Solution>>, store: Store,
                           ardf: Doc, srdf: Doc): (r: Outcome<(Doc, Doc)>)
    ensures Extends(e, r.env)
  {
    match FirstMissing(PositionKeys, source)
    case Some(k) => Outcome(Err(KeyError(k)), e)
    case None =>
      var position := SourcePosition(source, personUri);
      match PositionUris(Rows(query))
      case Err(x) => Outcome(Err(x), e)
      case Ok(uris) =>
        var ps := PositionsDelta(e, VivoPositions(store, uris), position, ardf, srdf);
        if ps.result.Err? then Outcome(Err(ps.result.error), ps.env)
        else
          var (a, s, updated) := ps.result.value;
          if updated then Outcome(Ok((a, s)), ps.env)
          else
            var added := PositionAddition(ps.env, personUri, position);
            if added.result.Err? then Outcome(Err(added.result.error), added.env)
            else Outcome(Ok((a + added.result.value.0, s + [Raw(added.result.value.1)])), added.env)
  }

  /** update_person: update_entity on the person (under the key `uri` it sets), the
      vcard, then the positions. */
  function PersonDelta(e: Env, vivo: Record, source: Record, query: Option<seq<Solution>>, store: Store)
    : Outcome<(Doc, Doc)>
  {
    if "person_uri" !in vivo then Outcome(Err(KeyError("person_uri")), e)
    else
      var personUri := vivo["person_uri"];
      if "hr_position" !in source then Outcome(Err(KeyError("hr_position")), e)
      else
        var keys := PersonKeyTable(source["hr_position"]);
        var (i, e1) := Logged(e, UpdateEntity(Dict(vivo["uri" := personUri]), Dict(source), keys));
        if "vcard" !in vivo then Outcome(Err(KeyError("vcard")), e1)
        else if !vivo["vcard"].Dict? then Outcome(Err(TypeError), e1)
        else
          var v := VcardDelta(e1, vivo["vcard"].fields, SourceVcard(source, personUri));
          if v.result.Err? then Outcome(Err(v.result.error), v.env)
          else
            PersonPositions(v.env, personUri, source, query, store,
                            [AddText(i)] + v.result.value.ardf, [SubText(i)] + v.result.value.srdf)
  }

  /** The first missing key is the first one, in order, that is missing. */
  lemma {:induction false} FirstMissingAt(keys: seq<string>, r: Record, i: nat)
    requires i < |keys| && keys[i] !in r
    requires forall j :: 0 <= j < i ==> keys[j] in r
    ensures FirstMissing(keys, r) == Some(keys[i])
  {
    if i > 0 {
      FirstMissingAt(keys[1..], r, i - 1);
    }
  }

  /** get_position on the i-th position uri. */
  method GetVivoPosition(store: Store, uris: seq<string>, i: nat) returns (vivo: Record)
    requires i < |uris|
    ensures vivo == VivoPositions(store, uris)[i]
  {
    vivo := GetPosition(store, uris[i]);
    VivoPositionsAt(store, uris, i);
  }

  /** The `for position_uri in position_uris` loop of update_person. */
  method UpdatePositions(f: Foundation, store: Store, uris: seq<string>, source: Record, ardf: Doc, srdf: Doc)
    returns (r: Result<(Doc, Doc, bool)>)
    modifies f
    ensures Outcome(r, f.State()) == PositionsDelta(old(f.State()), VivoPositions(store, uris), source, ardf, srdf)
  {
    ghost var e0 := f.State();
    ghost var vivos := VivoPositions(store, uris);
    var a, s, updated := ardf, srdf, false;
    var i := 0;
    while i < |uris|
      invariant 0 <= i <= |uris|
      invariant PositionsDelta(e0, vivos[..i], source, ardf, srdf) == Outcome(Ok((a, s, updated)), f.State())
    {
      var vivo := GetVivoPosition(store, uris, i);
      var step := VisitPosition(f, vivo, source, a, s, updated);
      PositionsSnoc(e0, vivos, source, ardf, srdf, i);
      if step.Err? {
        PositionsStop(e0, vivos, source, ardf, srdf, i + 1);
        return Err(step.error);
      }
      a, s, updated := step.value.0, step.value.1, step.value.2;
      i := i + 1;
    }
    assert vivos[..i] == vivos;
    r := Ok((a, s, updated));
  }

  /** The body of that loop. */
  method VisitPosition(f: Foundation, vivo: Record, source: Record, a: Doc, s: Doc, updated: bool)
    returns (r: Result<(Doc, Doc, bool)>)
    modifies f
    ensures Outcome(r, f.State()) == PositionsStep(Outcome(Ok((a, s, updated)), old(f.State())), vivo, source)
  {
    if !Matching(vivo, source) {
      return Ok((a, s, updated));
    }
    var d := UpdatePosition(f, vivo, source);
    if d.Err? {
      return Err(d.error);
    }
    r := Ok((a + d.value.0, s + d.value.1, true));
  }

  /** The source position: every position key read from the source person, failing
      on the first one missing, and then the person's uri. */
  method CopyPosition(source: Record, personUri: Value) returns (r: Result<Record>)
    ensures FirstMissing(PositionKeys, source) == None ==> r == Ok(SourcePosition(source, personUri))
    ensures FirstMissing(PositionKeys, source) != None ==> r == Err(KeyError(FirstMissing(PositionKeys, source).value))
  {
    var position: Record := map[];
    var i := 0;
    while i < |PositionKeys|
      invariant 0 <= i <= |PositionKeys|
      invariant forall j :: 0 <= j < i ==> PositionKeys[j] in source
      invariant position == Restrict(source, KeySet(PositionKeys[..i]))
    {
      var key := PositionKeys[i];
      if key !in source {
        FirstMissingAt(PositionKeys, source, i);
        return Err(KeyError(key));
      }
      RestrictExtend(source, PositionKeys, i);
      position := position[key := source[key]];
      i := i + 1;
    }
    assert PositionKeys[..i] == PositionKeys;
    r := Ok(position["person_uri" := personUri]);
  }

  /** The position part of update_person. */
  method UpdatePersonPositions(f: Foundation, personUri: Value, source: Record, query: Option<seq<Solution>>,
                               store: Store, ardf: Doc, srdf: Doc) returns (r: Result<(Doc, Doc)>)
    modifies f
    ensures Outcome(r, f.State()) == PersonPositions(old(f.State()), personUri, source, query, store, ardf, srdf)
  {
    var position := CopyPosition(source, personUri);
    if position.Err? {
      return Err(position.error);
    }
    var uris := GetPositionUris(query);
    if uris.Err? {
      return Err(uris.error);
    }
    var ps := UpdatePositions(f, store, uris.value, position.value, ardf, srdf);
    if ps.Err? {
      return Err(ps.error);
    }
    var a, s, updated := ps.value.0, ps.value.1, ps.value.2;
    if !updated {
      var added := AddPosition(f, personUri, position.value);
      if added.Err? {
        return Err(added.error);
      }
      a := a + added.value.0;
      s := s + [Raw(added.value.1)];
    }
    r := Ok((a, s));
  }

  method UpdatePerson(f: Foundation, vivo: Record, source: Record, query: Option<seq<Solution>>, store: Store)
    returns (r: Result<(Doc, Doc)>)
    modifies f
    ensures Outcome(r, f.State()) == PersonDelta(old(f.State()), vivo, source, query, store)
  {
    if "person_uri" !in vivo {
      return Err(KeyError("person_uri"));
    }
    var personUri := vivo["person_uri"];
    var person := vivo["uri" := personUri];
    if "hr_position" !in source {
      return Err(KeyError("hr_position"));
    }
    var keys := DirectKeyTable;
    if source["hr_position"] == Flag(false) {
      keys := keys - {"person_type"};
    }
    var add, sub := f.UpdateEntity(Dict(person), Dict(source), keys);
    var ardf, srdf := [add], [sub];
    if "vcard" !in vivo {
      return Err(KeyError("vcard"));
    }
    var vivoVcard := vivo["vcard"];
    if !vivoVcard.Dict? {
      return Err(TypeError);
    }
    var name := CopyKeys(source, VcardNames);
    var flat := CopyKeys(source, VcardFlat);
    var sourceVcard := map["name" := Dict(name), "person_uri" := personUri] + flat;
    var v := UpdateVcard(f, vivoVcard.fields, sourceVcard);
    if v.Err? {
      return Err(v.error);
    }
    ardf := ardf + v.value.ardf;
    srdf := srdf + v.value.srdf;
    r := UpdatePersonPositions(f, personUri, source, query, store, ardf, srdf);
  }

  /** With the position keys present, matching against the source position is
      matching against the source, and so is comparing dates. */
  lemma SourcePositionAgrees(vivo: Record, source: Record, personUri: Value)
    requires FirstMissing(PositionKeys, source) == None
    ensures Matching(vivo, SourcePosition(source, personUri)) <==> Matching(vivo, source)
    ensures DatesDiffer(vivo, SourcePosition(source, personUri)) <==> DatesDiffer(vivo, source)
  {
    var p := SourcePosition(source, personUri);
    forall k | k in PositionKeys
      ensures Get(p, k) == Get(source, k)
    {
      assert k in PositionKeySet;
    }
    assert "position_type" in PositionKeys && "position_orguri" in PositionKeys;
    assert "start_date" in PositionKeys && "end_date" in PositionKeys;
  }

  /** With no VIVO position matching, the loop changes nothing. */
  lemma {:induction false} PositionsUnmatched(e: Env, vivos: seq<Record>, source: Record, ardf: Doc, srdf: Doc)
    requires forall j :: 0 <= j < |vivos| ==> !Matching(vivos[j], source)
    ensures PositionsDelta(e, vivos, source, ardf, srdf) == Outcome(Ok((ardf, srdf, false)), e)
  {
    if vivos != [] {
      var front := vivos[..|vivos| - 1];
      assert forall j :: 0 <= j < |front| ==> front[j] == vivos[j];
      PositionsUnmatched(e, front, source, ardf, srdf);
    }
  }

  /** The person's own update is the first call update_person makes, and its key
      table has `person_type` exactly when the source is an HR position. */
  lemma PersonUpdatedFirst(e: Env, vivo: Record, source: Record, query: Option<seq<Solution>>, store: Store)
    requires "person_uri" in vivo && "hr_position" in source
    ensures var r := PersonDelta(e, vivo, source, query, store);
      && |r.env.log| > |e.log|
      && r.env.log[|e.log|] ==
         UpdateEntity(Dict(vivo["uri" := vivo["person_uri"]]), Dict(source), PersonKeyTable(source["hr_position"]))
      && ("person_type" in r.env.log[|e.log|].keys <==> source["hr_position"] != Flag(false))
  {
    var personUri := vivo["person_uri"];
    var c := UpdateEntity(Dict(vivo["uri" := personUri]), Dict(source), PersonKeyTable(source["hr_position"]));
    var e1 := Env(e.next, e.log + [c]);
    assert Logged(e, c) == (|e.log|, e1);
    var r := PersonDelta(e, vivo, source, query, store);
    assert e1.log <= r.env.log by {
      if "vcard" in vivo && vivo["vcard"].Dict? {
        var v := VcardDelta(e1, vivo["vcard"].fields, SourceVcard(source, personUri));
        assert Extends(e1, v.env);
      }
    }
    assert r.env.log[|e.log|] == e1.log[|e.log|];
  }

  /** Once the source position and its uris are known, a loop that fails or
      updates a position decides the outcome of the position part. */
  lemma PersonPositionsByLoop(e: Env, personUri: Value, source: Record, query: Option<seq<Solution>>,
                              store: Store, ardf: Doc, srdf: Doc, uris: seq<string>)
    requires FirstMissing(PositionKeys, source) == None
    requires PositionUris(Rows(query)) == Ok(uris)
    ensures var ps := PositionsDelta(e, VivoPositions(store, uris), SourcePosition(source, personUri), ardf, srdf);
      var r := PersonPositions(e, personUri, source, query, store, ardf, srdf);
      && (ps.result.Err? ==> r == Outcome(Err(ps.result.error), ps.env))
      && (ps.result.Ok? && ps.result.value.2 ==> r == Outcome(Ok((ps.result.value.0, ps.result.value.1)), ps.env))
  {
  }

  /** Otherwise add_position decides it. */
  lemma PersonPositionsByAddition(e: Env, personUri: Value, source: Record, query: Option<seq<Solution>>,
                                  store: Store, ardf: Doc, srdf: Doc, uris: seq<string>)
    requires FirstMissing(PositionKeys, source) == None
    requires PositionUris(Rows(query)) == Ok(uris)
    requires PositionsDelta(e, VivoPositions(store, uris), SourcePosition(source, personUri), ardf, srdf) ==
             Outcome(Ok((ardf, srdf, false)), e)
    ensures var added := PositionAddition(e, personUri, SourcePosition(source, personUri));
      var r := PersonPositions(e, personUri, source, query, store, ardf, srdf);
      r == if added.result.Err? then Outcome(Err(added.result.error), added.env)
           else Outcome(Ok((ardf + added.result.value.0, srdf + [Raw(added.result.value.1)])), added.env)
  {
  }

  /** No VIVO position matching the source is none matching the source position. */
  lemma UnmatchedSourcePosition(store: Store, uris: seq<string>, source: Record, personUri: Value)
    requires FirstMissing(PositionKeys, source) == None
    requires forall j :: 0 <= j < |uris| ==> !Matching(PositionRecord(store, uris[j]), source)
    ensures forall j :: 0 <= j < |uris| ==> !Matching(VivoPositions(store, uris)[j], SourcePosition(source, personUri))
  {
    forall j | 0 <= j < |uris|
      ensures !Matching(VivoPositions(store, uris)[j], SourcePosition(source, personUri))
    {
      VivoPositionsAt(store, uris, j);
      SourcePositionAgrees(VivoPositions(store, uris)[j], source, personUri);
    }
  }

  /** A new position is added, its uri closing the sub text, when no VIVO position
      matches the source. */
  lemma PositionAddedWhenUnmatched(e: Env, personUri: Value, source: Record, query: Option<seq<Solution>>,
                                   store: Store, ardf: Doc, srdf: Doc, uris: seq<string>)
    requires FirstMissing(PositionKeys, source) == None
    requires PositionUris(Rows(query)) == Ok(uris)
    requires forall j :: 0 <= j < |uris| ==> !Matching(PositionRecord(store, uris[j]), source)
    ensures var r := PersonPositions(e, personUri, source, query, store, ardf, srdf);
      && r.result.Ok?
      && ardf <= r.result.value.0 && |r.result.value.0| == |ardf| + 6
      && r.result.value.1 == srdf + [Raw(Minted(e.next))]
      && r.env == Env(e.next + 1, e.log + [AddDti(Get(source, "start_date"), Get(source, "end_date"))])
  {
    UnmatchedSourcePosition(store, uris, source, personUri);
    PositionsUnmatched(e, VivoPositions(store, uris), SourcePosition(source, personUri), ardf, srdf);
    SourcePositionAdded(e, personUri, source);
    PersonPositionsByAddition(e, personUri, source, query, store, ardf, srdf, uris);
  }

  /** add_position on the source position succeeds. */
  lemma SourcePositionAdded(e: Env, personUri: Value, source: Record)
    requires FirstMissing(PositionKeys, source) == None
    ensures var added := PositionAddition(e, personUri, SourcePosition(source, personUri));
      && added.result.Ok?
      && |added.result.value.0| == 6
      && added.result.value.1 == Minted(e.next)
      && added.env == Env(e.next + 1, e.log + [AddDti(Get(source, "start_date"), Get(source, "end_date"))])
  {
    SourcePositionKeys(source, personUri);
  }

  /** The source position holds every position key, with the source's value. */
  lemma SourcePositionKeys(source: Record, personUri: Value)
    requires FirstMissing(PositionKeys, source) == None
    ensures var p := SourcePosition(source, personUri);
      && "position_type" in p && "position_label" in p && "position_orguri" in p
      && Get(p, "start_date") == source["start_date"] && Get(p, "end_date") == source["end_date"]
  {
    assert "position_type" in PositionKeySet && "position_label" in PositionKeySet;
    assert "position_orguri" in PositionKeySet && "start_date" in PositionKeySet && "end_date" in PositionKeySet;
  }

  /** When a VIVO position matches, nothing is added and nothing minted: the result
      is the loop's, one update_entity call per match, its sub text closing on the
      last one's. */
  lemma PositionUpdatedWhenMatched(e: Env, personUri: Value, source: Record, query: Option<seq<Solution>>,
                                   store: Store, ardf: Doc, srdf: Doc, uris: seq<string>, j: nat)
    requires FirstMissing(PositionKeys, source) == None
    requires PositionUris(Rows(query)) == Ok(uris)
    requires j < |uris| && Matching(PositionRecord(store, uris[j]), source)
    ensures var r := PersonPositions(e, personUri, source, query, store, ardf, srdf);
      r.result.Ok? ==>
        && ClosesOnSub(r.result.value.1, |srdf|)
        && r.env == Env(e.next, e.log + UpdateCalls(VivoPositions(store, uris), SourcePosition(source, personUri)))
  {
    var vivos := VivoPositions(store, uris);
    var position := SourcePosition(source, personUri);
    VivoPositionsHaveNoUri(store, uris);
    VivoPositionsAt(store, uris, j);
    SourcePositionAgrees(vivos[j], source, personUri);
    assert Matching(vivos[j], position);
    assert |vivos| == |uris|;
    var ps := PositionsDelta(e, vivos, position, ardf, srdf);
    MatchedDelta(e, vivos, position, ardf, srdf, j, ps);
    PersonPositionsByLoop(e, personUri, source, query, store, ardf, srdf, uris);
    var r := PersonPositions(e, personUri, source, query, store, ardf, srdf);
    if ps.result.Ok? {
      assert r == Outcome(Ok((ps.result.value.0, ps.result.value.1)), ps.env);
    }
  }

  /** The loop of update_person over VIVO positions, one of which matches. */
  lemma MatchedDelta(e: Env, vivos: seq<Record>, position: Record, ardf: Doc, srdf: Doc, j: nat,
                     ps: Outcome<(Doc, Doc, bool)>)
    requires forall i :: 0 <= i < |vivos| ==> "uri" !in vivos[i]
    requires j < |vivos| && Matching(vivos[j], position)
    requires ps == PositionsDelta(e, vivos, position, ardf, srdf)
    ensures ps.result.Ok? ==>
      && ps.result.value.2
      && ClosesOnSub(ps.result.value.1, |srdf|)
      && ps.env == Env(e.next, e.log + UpdateCalls(vivos, position))
  {
    PositionsUpdatedIff(e, vivos, position, ardf, srdf);
    PositionsDeltaShape(e, vivos, position, ardf, srdf);
    PositionsDeltaLog(e, vivos, position, ardf, srdf);
  }

  /** A VIVO position that matches the source but has other dates makes
      update_person fail on `uri`: get_position gives no `uri` for update_position
      to relink the interval under. */
  lemma PersonPositionsFailOnDates(e: Env, personUri: Value, source: Record, query: Option<seq<Solution>>,
                                   store: Store, ardf: Doc, srdf: Doc, uris: seq<string>, j: nat)
    requires FirstMissing(PositionKeys, source) == None
    requires PositionUris(Rows(query)) == Ok(uris)
    requires j < |uris|
    requires Matching(PositionRecord(store, uris[j]), source) && DatesDiffer(PositionRecord(store, uris[j]), source)
    ensures PersonPositions(e, personUri, source, query, store, ardf, srdf).result == Err(KeyError("uri"))
  {
    var vivos := VivoPositions(store, uris);
    VivoPositionsAt(store, uris, j);
    SourcePositionAgrees(vivos[j], source, personUri);
    PositionRecordHasNoUri(store, uris[j]);
    PositionsFailOnDates(e, vivos, SourcePosition(source, personUri), ardf, srdf, j);
  }

  /** update_person as a whole: once the person's update_entity and update_vcard
      have gone through, a matching VIVO position with other dates makes it fail
      with KeyError('uri'). */
  lemma PersonDeltaFailsOnDates(e: Env, vivo: Record, source: Record, query: Option<seq<Solution>>,
                                store: Store, uris: seq<string>, j: nat)
    requires "person_uri" in vivo && "hr_position" in source && "vcard" in vivo && vivo["vcard"].Dict?
    requires var e1 := Logged(e, UpdateEntity(Dict(vivo["uri" := vivo["person_uri"]]), Dict(source),
                                              PersonKeyTable(source["hr_position"]))).1;
             VcardDelta(e1, vivo["vcard"].fields, SourceVcard(source, vivo["person_uri"])).result.Ok?
    requires FirstMissing(PositionKeys, source) == None
    requires PositionUris(Rows(query)) == Ok(uris)
    requires j < |uris|
    requires Matching(PositionRecord(store, uris[j]), source) && DatesDiffer(PositionRecord(store, uris[j]), source)
    ensures PersonDelta(e, vivo, source, query, store).result == Err(KeyError("uri"))
  {
    var personUri := vivo["person_uri"];
    var (i, e1) := Logged(e, UpdateEntity(Dict(vivo["uri" := personUri]), Dict(source), PersonKeyTable(source["hr_position"])));
    var v := VcardDelta(e1, vivo["vcard"].fields, SourceVcard(source, personUri));
    var ardf, srdf := [AddText(i)] + v.result.value.ardf, [SubText(i)] + v.result.value.srdf;
    PersonDeltaAfterVcard(e, vivo, source, query, store);
    PersonPositionsFailOnDates(v.env, personUri, source, query, store, ardf, srdf, uris, j);
  }

  /** Past update_vcard, update_person's outcome is that of its position part. */
  lemma PersonDeltaAfterVcard(e: Env, vivo: Record, source: Record, query: Option<seq<Solution>>, store: Store)
    requires "person_uri" in vivo && "hr_position" in source && "vcard" in vivo && vivo["vcard"].Dict?
    requires var e1 := Logged(e, UpdateEntity(Dict(vivo["uri" := vivo["person_uri"]]), Dict(source),
                                              PersonKeyTable(source["hr_position"]))).1;
             VcardDelta(e1, vivo["vcard"].fields, SourceVcard(source, vivo["person_uri"])).result.Ok?
    ensures var personUri := vivo["person_uri"];
            var (i, e1) := Logged(e, UpdateEntity(Dict(vivo["uri" := personUri]), Dict(source),
                                                  PersonKeyTable(source["hr_position"])));
            var v := VcardDelta(e1, vivo["vcard"].fields, SourceVcard(source, personUri));
            PersonDelta(e, vivo, source, query, store) ==
              PersonPositions(v.env, personUri, source, query, store,
                              [AddText(i)] + v.result.value.ardf, [SubText(i)] + v.result.value.srdf)
  {
  }
}
