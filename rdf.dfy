/** The RDF text the materializers and the deltas build, and the vivofoundation
    calls they make.

    None of vivofoundation is shown, so its calls are modelled by what the callers
    can see of them: `assert_resource_property` and `assert_data_property` give the
    text of one triple, kept here as the triple itself; `get_vivo_uri` hands out a
    fresh identifier; `update_entity`, `update_data_property`,
    `update_resource_property` and `add_dti` are recorded in a call log, and the
    text they return is a symbolic reference to the call that produced it. An
    `ardf` or `srdf` string is the sequence of the pieces concatenated into it. */
module Rdf {
  import opened Records

  datatype Triple =
    | Resource(subject: Value, pred: string, obj: Value)  // assert_resource_property
    | Data(subject: Value, pred: string, obj: Value)      // assert_data_property

  /** One piece of an `ardf` / `srdf` string. */
  datatype Piece =
    | Assert(triple: Triple)  // the text asserting one triple
    | AddText(call: nat)      // the add text returned by the logged call with that index
    | SubText(call: nat)      // the sub text returned by the logged call with that index
    | Raw(value: Value)       // a value concatenated into the text as it is

  type Doc = seq<Piece>

  /** One row of a key table passed to update_entity. */
  datatype KeySpec = KeySpec(pred: string, action: string)

  type KeyTable = map<string, KeySpec>

  /** A call into vivofoundation whose effect on the store is not shown. */
  datatype Call =
    | UpdateEntity(vivo: Value, source: Value, keys: KeyTable)
    | UpdateDataProperty(uri: Value, pred: string, was: Value, now: Value)
    | UpdateResourceProperty(uri: Value, pred: string, was: Value, now: Value)
    | AddDti(start: Value, end: Value)

  /** What the library can observe of vivofoundation: how many identifiers it has
      handed out, and the calls made so far. */
  datatype Env = Env(next: nat, log: seq<Call>)

  /** A result together with the state after it, error or not. */
  datatype Outcome<T> = Outcome(result: Result<T>, env: Env)

  /** get_vivo_uri: the next identifier. */
  function Mint(e: Env): (r: (Value, Env))
    ensures r.0 == Minted(e.next) && r.1.next == e.next + 1 && r.1.log == e.log
  {
    (Minted(e.next), Env(e.next + 1, e.log))
  }

  /** A logged call; its results are referred to by its index. */
  function Logged(e: Env, c: Call): (r: (nat, Env))
    ensures r.0 == |e.log| && r.1.next == e.next && r.1.log == e.log + [c]
  {
    (|e.log|, Env(e.next, e.log + [c]))
  }

  /** A document with no removal text in it. */
  predicate NoRemovals(doc: Doc)
  {
    forall j :: 0 <= j < |doc| ==> !doc[j].SubText?
  }

  /** A document made of triple assertions only. */
  predicate AssertsOnly(doc: Doc)
  {
    forall j :: 0 <= j < |doc| ==> doc[j].Assert?
  }

  /** The part of vivofoundation the library depends on, as an object whose state
      the calls advance. */
  class Foundation {
    var next: nat
    var log: seq<Call>

    function State(): Env
      reads this
    {
      Env(next, log)
    }

    constructor ()
      ensures State() == Env(0, [])
    {
      next := 0;
      log := [];
    }

    method GetVivoUri() returns (uri: Value)
      modifies this
      ensures (uri, State()) == Mint(old(State()))
    {
      uri := Minted(next);
      next := next + 1;
    }

    method UpdateEntity(vivo: Value, source: Value, keys: KeyTable) returns (add: Piece, sub: Piece)
      modifies this
      ensures var (i, e) := Logged(old(State()), Call.UpdateEntity(vivo, source, keys));
        add == AddText(i) && sub == SubText(i) && State() == e
    {
      add, sub := AddText(|log|), SubText(|log|);
      log := log + [Call.UpdateEntity(vivo, source, keys)];
    }

    method UpdateDataProperty(uri: Value, pred: string, was: Value, now: Value)
      returns (add: Piece, sub: Piece)
      modifies this
      ensures var (i, e) := Logged(old(State()), Call.UpdateDataProperty(uri, pred, was, now));
        add == AddText(i) && sub == SubText(i) && State() == e
    {
      add, sub := AddText(|log|), SubText(|log|);
      log := log + [Call.UpdateDataProperty(uri, pred, was, now)];
    }

    method UpdateResourceProperty(uri: Value, pred: string, was: Value, now: Value)
      returns (add: Piece, sub: Piece)
      modifies this
      ensures var (i, e) := Logged(old(State()), Call.UpdateResourceProperty(uri, pred, was, now));
        add == AddText(i) && sub == SubText(i) && State() == e
    {
      add, sub := AddText(|log|), SubText(|log|);
      log := log + [Call.UpdateResourceProperty(uri, pred, was, now)];
    }

    /** add_dti: the text creating a datetime interval, and the interval's uri. */
    method AddDti(start: Value, end: Value) returns (add: Piece, dtiUri: Value)
      modifies this
      ensures var (i, e) := Logged(old(State()), Call.AddDti(start, end));
        add == AddText(i) && dtiUri == DtiUri(i) && State() == e
    {
      add, dtiUri := AddText(|log|), DtiUri(|log|);
      log := log + [Call.AddDti(start, end)];
    }
  }
}
