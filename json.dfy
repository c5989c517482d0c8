/**
 * A decoded JSON document, as Go's encoding/json sees it before it fills a
 * struct. The byte-level parser itself is not part of this model; the
 * plugin's view of it is a function from output text to Option<Json>, where
 * None stands for text that is not well-formed JSON.
 */
module JsonValue {

  datatype Json =
    | Null
    | Boolean(b: bool)
    | Number(n: real)
    | Text(s: string)
    | Array(items: seq<Json>)
    | Object(members: map<string, Json>)

  /**
   * The value under `key` when decoding into a struct field. A document that
   * is not an object (null included) or lacks the key leaves the field as
   * it was, which the model expresses as Null.
   */
  function Member(j: Json, key: string): Json {
    if j.Object? && key in j.members then j.members[key] else Null
  }

  /**
   * Decoding into a float64 field that starts at zero: a number is taken,
   * null leaves the zero, and any other kind of value is a type error that
   * encoding/json records and skips, again leaving the zero.
   */
  function Float(j: Json): real {
    if j.Number? then j.n else 0.0
  }

  /** The value reached by following `path` from `j`, Null where it breaks off. */
  function Lookup(j: Json, path: seq<string>): Json
    decreases |path|
  {
    if path == [] then j else Lookup(Member(j, path[0]), path[1..])
  }

  /** The float64 field that `path` fills: the number found there, or zero. */
  function NumberAt(j: Json, path: seq<string>): real {
    Float(Lookup(j, path))
  }

  /** A chain of one-member objects leading along `path` to `leaf`. */
  function Nest(path: seq<string>, leaf: Json): Json
    decreases |path|
  {
    if path == [] then leaf else Object(map[path[0] := Nest(path[1..], leaf)])
  }

  /** Following a path through the chain built along it reaches the leaf. */
  lemma {:induction false} LookupNest(path: seq<string>, leaf: Json)
    ensures Lookup(Nest(path, leaf), path) == leaf
    decreases |path|
  {
    if path != [] {
      LookupNest(path[1..], leaf);
    }
  }

  /** Once a path breaks off (a missing key, a non-object), every longer path reads zero. */
  lemma {:induction false} BrokenPathReadsZero(j: Json, path: seq<string>, more: seq<string>)
    requires Lookup(j, path) == Null
    ensures NumberAt(j, path + more) == 0.0
    decreases |path|
  {
    if path == [] {
      assert path + more == more;
      NullLookup(more);
    } else {
      assert (path + more)[1..] == path[1..] + more;
      BrokenPathReadsZero(Member(j, path[0]), path[1..], more);
    }
  }

  lemma {:induction false} NullLookup(path: seq<string>)
    ensures Lookup(Null, path) == Null
    decreases |path|
  {
    if path != [] {
      NullLookup(path[1..]);
    }
  }
}
