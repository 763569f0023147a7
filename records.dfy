/** Values, records and errors shared by every part of the model.

    The library works on Python dictionaries with optional keys.  A record is a
    finite map from key to value: a key that is not in the map is absent, a key
    mapped to `Null` holds Python's `None`, and a key mapped to `Str("")` holds the
    empty string.  The three states stay distinct throughout. */
module Records {

  datatype Option<+T> = None | Some(value: T)

  /** A value held in a record or written into a triple. */
  datatype Value =
    | Null                 // Python None
    | Str(s: string)       // a string: a literal, a URI read from the store, a date
    | Flag(b: bool)        // a Python bool (the source's hr_position flag)
    | Minted(n: nat)       // the n-th identifier handed out by get_vivo_uri
    | Untag(tag: string)   // untag_predicate(tag): the full URI of a short tag
    | DtiUri(call: nat)    // the interval URI returned by the add_dti call with that log index
    | Dict(fields: map<string, Value>)  // a nested dict (a name, a telephone, an interval)
    | List(items: seq<Value>)           // a list (the telephones of a vcard)

  type Record = map<string, Value>

  /** `d.get(key, None)` */
  function Get(r: Record, key: string): (v: Value)
    ensures key !in r ==> v == Null
    ensures key in r ==> v == r[key]
  {
    if key in r then r[key] else Null
  }

  /** The exceptions the library raises (none is caught by the update functions). */
  datatype PyError =
    | KeyError(key: string)            // d[key] on a missing key
    | NameError(name: string)          // a name that is not defined in scope
    | UnboundLocalError(name: string)  // a local read before any assignment
    | TypeError                        // indexing or iterating a value that is not a dict or a list

  datatype Result<+T> = Ok(value: T) | Err(error: PyError)

  /** (predicate, object) pairs, as get_triples returns them for one subject, in order. */
  type Bindings = seq<(string, string)>

  /** One SPARQL solution: variable name to value. */
  type Solution = map<string, string>

  /** The keys `keep` of `r` that `r` has (a dict comprehension guarded by `key in r`). */
  function Restrict(r: Record, keep: set<string>): (q: Record)
    ensures q.Keys == r.Keys * keep
    ensures forall k :: k in q ==> q[k] == r[k]
  {
    map k | k in r && k in keep :: r[k]
  }

  /** `order` lists every key of `keys` exactly once: one possible iteration order of a dict. */
  ghost predicate Enumerates(order: seq<string>, keys: set<string>)
  {
    && (forall i, j :: 0 <= i < j < |order| ==> order[i] != order[j])
    && (forall k :: k in order <==> k in keys)
  }

  /** The keys a list of keys names. */
  function KeySet(keys: seq<string>): (r: set<string>)
    ensures forall k :: k in r <==> k in keys
  {
    set k | k in keys
  }

  /** Restricting to one more listed key that `r` has adds exactly that key. */
  lemma RestrictExtend(r: Record, keys: seq<string>, i: nat)
    requires i < |keys| && keys[i] in r
    ensures Restrict(r, KeySet(keys[..i + 1])) == Restrict(r, KeySet(keys[..i]))[keys[i] := r[keys[i]]]
  {
    assert keys[..i + 1] == keys[..i] + [keys[i]];
  }
}
