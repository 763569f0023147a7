/** The walks over SPARQL result bindings in get_position_uris
    (vivopeople.py:310-338) and make_ufid_dictionary (vivopeople.py:1099-1126), and
    the lookup find_person (vivopeople.py:1128-1139).

    A query result is `Some(rows)` when `result["results"]["bindings"]` can be read
    and `None` when it cannot; both walks then treat the result as empty. A row maps
    each bound variable to its value; reading a variable the row lacks raises
    KeyError. */
module Queries {
  import opened Records

  /** The rows to walk: `count` is 0 when the bindings cannot be read. */
  function Rows(result: Option<seq<Solution>>): (rows: seq<Solution>)
    ensures result == None ==> rows == []
    ensures result != None ==> rows == result.value
  {
    if result == None then [] else result.value
  }

  /** `b[name]['value']` */
  function Read(b: Solution, name: string): (r: Result<string>)
    ensures name in b <==> r.Ok?
    ensures r.Ok? ==> r.value == b[name]
    ensures r.Err? ==> r.error == KeyError(name)
  {
    if name in b then Ok(b[name]) else Err(KeyError(name))
  }

  // get_position_uris

  /** The position uris of `rows`, in order, or the KeyError of the first row
      without `position_uri`. */
  function PositionUris(rows: seq<Solution>): Result<seq<string>>
  {
    if rows == [] then Ok([])
    else
      match PositionUris(rows[..|rows| - 1])
      case Err(e) => Err(e)
      case Ok(uris) =>
        match Read(rows[|rows| - 1], "position_uri")
        case Err(e) => Err(e)
        case Ok(u) => Ok(uris + [u])
  }

  /** Every row gives one uri, in row order, when every row binds `position_uri`,
      and the walk fails on `position_uri` otherwise. */
  lemma {:induction false} PositionUrisRead(rows: seq<Solution>)
    ensures PositionUris(rows).Ok? <==> forall i :: 0 <= i < |rows| ==> "position_uri" in rows[i]
    ensures PositionUris(rows).Err? ==> PositionUris(rows).error == KeyError("position_uri")
    ensures PositionUris(rows).Ok? ==>
      && |PositionUris(rows).value| == |rows|
      && forall i :: 0 <= i < |rows| ==> PositionUris(rows).value[i] == rows[i]["position_uri"]
  {
    if rows != [] {
      var front := rows[..|rows| - 1];
      PositionUrisRead(front);
      assert forall i :: 0 <= i < |front| ==> front[i] == rows[i];
    }
  }

  /** The `while i < count` loop of get_position_uris. */
  method GetPositionUris(result: Option<seq<Solution>>) returns (r: Result<seq<string>>)
    ensures r == PositionUris(Rows(result))
  {
    var rows := Rows(result);
    var uris: seq<string> := [];
    var i := 0;
    while i < |rows|
      invariant 0 <= i <= |rows|
      invariant PositionUris(rows[..i]) == Ok(uris)
    {
      var b := rows[i];
      if "position_uri" !in b {
        assert rows[..i + 1][..i] == rows[..i];
        r := Err(KeyError("position_uri"));
        PositionUrisFailed(rows, i + 1);
        return;
      }
      assert rows[..i + 1][..i] == rows[..i];
      uris := uris + [b["position_uri"]];
      i := i + 1;
    }
    assert rows[..i] == rows;
    r := Ok(uris);
  }

  /** Once a prefix fails, the whole walk fails the same way. */
  lemma {:induction false} PositionUrisFailed(rows: seq<Solution>, n: nat)
    requires n <= |rows| && PositionUris(rows[..n]).Err?
    ensures PositionUris(rows) == PositionUris(rows[..n])
    decreases |rows| - n
  {
    if n == |rows| {
      assert rows[..n] == rows;
    } else {
      assert rows[..n + 1][..n] == rows[..n];
      PositionUrisFailed(rows, n + 1);
    }
  }

  // make_ufid_dictionary

  /** The dictionary the loop of make_ufid_dictionary builds from `rows`, or the
      KeyError of the first row lacking `ufid` (read first) or `x`. */
  function UfidDictionary(rows: seq<Solution>): Result<map<string, string>>
  {
    if rows == [] then Ok(map[])
    else
      match UfidDictionary(rows[..|rows| - 1])
      case Err(e) => Err(e)
      case Ok(d) =>
        var b := rows[|rows| - 1];
        match Read(b, "ufid")
        case Err(e) => Err(e)
        case Ok(ufid) =>
          match Read(b, "x")
          case Err(e) => Err(e)
          case Ok(uri) => Ok(d[ufid := uri])
  }

  predicate Complete(b: Solution)
  {
    "ufid" in b && "x" in b
  }

  /** The row binds `ufid` to the given value. */
  predicate Binds(b: Solution, ufid: string)
  {
    "ufid" in b && b["ufid"] == ufid
  }

  /** The walk succeeds exactly when every row binds both variables; otherwise it
      fails on the variable missing from the first incomplete row, `ufid` first. */
  lemma {:induction false} UfidDictionaryFails(rows: seq<Solution>)
    ensures UfidDictionary(rows).Ok? <==> forall i :: 0 <= i < |rows| ==> Complete(rows[i])
    ensures UfidDictionary(rows).Err? ==>
      exists k :: 0 <= k < |rows| && !Complete(rows[k])
        && (forall i :: 0 <= i < k ==> Complete(rows[i]))
        && UfidDictionary(rows).error == KeyError(if "ufid" in rows[k] then "x" else "ufid")
  {
    if rows != [] {
      var front := rows[..|rows| - 1];
      UfidDictionaryFails(front);
      assert forall i :: 0 <= i < |front| ==> front[i] == rows[i];
    }
  }

  /** The keys are the ufids of the rows, and each maps to the uri of the LAST row
      with that ufid: a later binding overwrites an earlier one. */
  lemma {:induction false} LastBindingWins(rows: seq<Solution>, ufid: string)
    requires UfidDictionary(rows).Ok?
    ensures ufid in UfidDictionary(rows).value <==>
      exists i :: 0 <= i < |rows| && Complete(rows[i]) && rows[i]["ufid"] == ufid
    ensures ufid in UfidDictionary(rows).value ==>
      exists i :: 0 <= i < |rows| && Complete(rows[i]) && rows[i]["ufid"] == ufid
        && UfidDictionary(rows).value[ufid] == rows[i]["x"]
        && forall j :: i < j < |rows| ==> !Binds(rows[j], ufid)
  {
    if rows != [] {
      var front := rows[..|rows| - 1];
      LastBindingWins(front, ufid);
      UfidDictionaryFails(rows);
      assert forall i :: 0 <= i < |front| ==> front[i] == rows[i];
      var b := rows[|rows| - 1];
      assert Complete(b);
      if b["ufid"] != ufid && ufid in UfidDictionary(rows).value {
        var i :| 0 <= i < |front| && Complete(front[i]) && front[i]["ufid"] == ufid
          && UfidDictionary(front).value[ufid] == front[i]["x"]
          && forall j :: i < j < |front| ==> !Binds(front[j], ufid);
        assert forall j :: i < j < |rows| ==> !Binds(rows[j], ufid);
      }
    }
  }

  /** The `while i < count` loop of make_ufid_dictionary. */
  method MakeUfidDictionary(result: Option<seq<Solution>>) returns (r: Result<map<string, string>>)
    ensures r == UfidDictionary(Rows(result))
  {
    var rows := Rows(result);
    var dictionary: map<string, string> := map[];
    var i := 0;
    while i < |rows|
      invariant 0 <= i <= |rows|
      invariant UfidDictionary(rows[..i]) == Ok(dictionary)
    {
      var b := rows[i];
      assert rows[..i + 1][..i] == rows[..i];
      if "ufid" !in b {
        r := Err(KeyError("ufid"));
        UfidDictionaryFailed(rows, i + 1);
        return;
      }
      var ufid := b["ufid"];
      if "x" !in b {
        r := Err(KeyError("x"));
        UfidDictionaryFailed(rows, i + 1);
        return;
      }
      var uri := b["x"];
      dictionary := dictionary[ufid := uri];
      i := i + 1;
    }
    assert rows[..i] == rows;
    r := Ok(dictionary);
  }

  lemma {:induction false} UfidDictionaryFailed(rows: seq<Solution>, n: nat)
    requires n <= |rows| && UfidDictionary(rows[..n]).Err?
    ensures UfidDictionary(rows) == UfidDictionary(rows[..n])
    decreases |rows| - n
  {
    if n == |rows| {
      assert rows[..n] == rows;
    } else {
      assert rows[..n + 1][..n] == rows[..n];
      UfidDictionaryFailed(rows, n + 1);
    }
  }

  // find_person

  /** The pair `[found, uri]` find_person returns. */
  datatype Lookup = Lookup(found: bool, uri: Option<string>)

  /** `ufid_dictionary[ufid]`, with the missing key caught. */
  function FindPerson(ufid: string, dictionary: map<string, string>): (r: Lookup)
    ensures r.found <==> ufid in dictionary
    ensures r.found ==> r.uri == Some(dictionary[ufid])
    ensures !r.found ==> r.uri == None
  {
    if ufid in dictionary then Lookup(true, Some(dictionary[ufid])) else Lookup(false, None)
  }

  /** Looking a ufid up in the dictionary of a query result finds the uri of the last
      row with that ufid, and finds nothing when no row has it. */
  lemma FindInUfidDictionary(rows: seq<Solution>, ufid: string)
    requires UfidDictionary(rows).Ok?
    ensures FindPerson(ufid, UfidDictionary(rows).value).found <==>
      exists i :: 0 <= i < |rows| && Complete(rows[i]) && rows[i]["ufid"] == ufid
    ensures FindPerson(ufid, UfidDictionary(rows).value).found ==>
      exists i :: 0 <= i < |rows| && Complete(rows[i]) && rows[i]["ufid"] == ufid
        && FindPerson(ufid, UfidDictionary(rows).value).uri == Some(rows[i]["x"])
        && forall j :: i < j < |rows| ==> !Binds(rows[j], ufid)
  {
    LastBindingWins(rows, ufid);
  }
}
