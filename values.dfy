/**
 * The PHP values that travel through a span: nullable values, numbers that
 * are either PHP integers or floats, and free-form (JSON-encodable) arrays.
 * A PHP array keeps its keys in insertion order, so a keyed array is an
 * ordered list of key/value pairs.
 */
module Values {

  /** A PHP value that may be `null`. */
  datatype Option<+T> = None | Some(value: T)

  /** A PHP number: an `int` or a `float` (floats as exact reals). */
  datatype Num = IntNum(i: int) | FloatNum(f: real)

  /** A JSON-encodable PHP value. */
  datatype Json =
    | Null
    | Bool(b: bool)
    | Number(n: Num)
    | Str(s: string)
    | List(items: seq<Json>)
    | Object(members: seq<(string, Json)>)

  /**
   * A PHP `array`: either a list or a keyed array. The empty array `[]` is
   * the empty list, so a keyed array has at least one entry.
   */
  type PhpArray = j: Json | j.List? || (j.Object? && j.members != []) witness List([])

  /** A keyed array as a PHP value: with no entries it is the empty array `[]`. */
  function FromMembers(members: seq<(string, Json)>): (j: PhpArray)
    ensures members == [] ==> j == List([])
    ensures members != [] ==> j.Object? && j.members == members
  {
    if members == [] then List([]) else Object(members)
  }

  /** The keys of a keyed array, in order. */
  function Keys(members: seq<(string, Json)>): seq<string> {
    seq(|members|, i requires 0 <= i < |members| => members[i].0)
  }

  /** `$a[$key]` on a keyed array: the value under the first occurrence of `key`. */
  function Lookup(members: seq<(string, Json)>, key: string): Option<Json> {
    if members == [] then None
    else if members[0].0 == key then Some(members[0].1)
    else Lookup(members[1..], key)
  }

  /** A nullable string as a PHP value. */
  function FromOptionalString(o: Option<string>): Json {
    match o
    case None => Null
    case Some(s) => Str(s)
  }

  /**
   * Lookup finds the entry at position `i` when no earlier entry has the
   * same key.
   */
  lemma {:induction false} LookupAt(members: seq<(string, Json)>, i: nat)
    requires i < |members|
    requires forall j :: 0 <= j < i ==> members[j].0 != members[i].0
    ensures Lookup(members, members[i].0) == Some(members[i].1)
  {
    if i > 0 {
      var rest := members[1..];
      assert rest[i - 1] == members[i];
      forall j | 0 <= j < i - 1 ensures rest[j].0 != rest[i - 1].0 {
        assert rest[j] == members[j + 1];
      }
      LookupAt(rest, i - 1);
    }
  }

  /** In a keyed array whose keys are distinct, every entry is found under its own key. */
  lemma LookupDistinct(members: seq<(string, Json)>, i: nat)
    requires i < |members|
    requires forall a, b :: 0 <= a < b < |Keys(members)| ==> Keys(members)[a] != Keys(members)[b]
    ensures Lookup(members, members[i].0) == Some(members[i].1)
  {
    forall j | 0 <= j < i ensures members[j].0 != members[i].0 {
      assert Keys(members)[j] != Keys(members)[i];
    }
    LookupAt(members, i);
  }
}
