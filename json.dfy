/** The optional value used throughout the model (Swift's `T?`). */
module Wrappers {

  datatype Option<+T> = None | Some(value: T)
}

/**
 * The values JSONSerialization hands to the parsers: a JSON document as
 * Foundation objects (`[String: Any]`, `[Any]`, `String`, `NSNumber`,
 * `NSNull`), and the conditional and forced casts the parsers apply to them.
 */
module Json {
  import opened Wrappers

  datatype Json =
    | JNull
    | JBool(b: bool)
    | JNum(n: real)
    | JStr(s: string)
    | JArr(items: seq<Json>)
    | JObj(fields: map<string, Json>)

  /** A JSON object as a Swift dictionary `[String: Any]`. */
  type Dict = map<string, Json>

  /** `dict[key] as? String`: present and a string. */
  function StringAt(d: Dict, key: string): (r: Option<string>)
    ensures r.Some? <==> key in d && d[key].JStr?
    ensures r.Some? ==> d[key] == JStr(r.value)
  {
    if key in d && d[key].JStr? then Some(d[key].s) else None
  }

  /** `dict[key] as? Double`: present and a number. */
  function NumberAt(d: Dict, key: string): (r: Option<real>)
    ensures r.Some? <==> key in d && d[key].JNum?
    ensures r.Some? ==> d[key] == JNum(r.value)
  {
    if key in d && d[key].JNum? then Some(d[key].n) else None
  }

  /** `value as! [String]`: succeeds exactly when every element is a string. */
  function StringsOf(items: seq<Json>): (r: Option<seq<string>>)
    ensures r.Some? <==> forall i :: 0 <= i < |items| ==> items[i].JStr?
    ensures r.Some? ==> |r.value| == |items|
    ensures r.Some? ==> forall i :: 0 <= i < |items| ==> items[i] == JStr(r.value[i])
  {
    if items == [] then Some([])
    else if !items[0].JStr? then None
    else
      match StringsOf(items[1..])
      case None => None
      case Some(rest) => Some([items[0].s] + rest)
  }

  /** `parts.joined(separator: sep)`. */
  function Join(parts: seq<string>, sep: string): string
  {
    if parts == [] then ""
    else if |parts| == 1 then parts[0]
    else parts[0] + sep + Join(parts[1..], sep)
  }

  /** Sum of the lengths of the parts. */
  function TotalLength(parts: seq<string>): nat
  {
    if parts == [] then 0 else |parts[0]| + TotalLength(parts[1..])
  }

  /**
   * Joining builds the string part by part: one part joins to itself, and
   * appending a part to a non-empty list appends one separator and that
   * part to the joined string.
   */
  lemma {:induction false} JoinAppend(parts: seq<string>, sep: string, p: string)
    ensures Join([p], sep) == p
    ensures parts != [] ==> Join(parts + [p], sep) == Join(parts, sep) + sep + p
  {
    if |parts| > 1 {
      JoinAppend(parts[1..], sep, p);
      assert (parts + [p])[1..] == parts[1..] + [p];
    } else if |parts| == 1 {
      assert (parts + [p])[1..] == [p];
    }
  }

  /** The joined string is as long as the parts plus one separator between each neighbouring pair. */
  lemma {:induction false} JoinLength(parts: seq<string>, sep: string)
    ensures parts == [] ==> Join(parts, sep) == ""
    ensures parts != [] ==> |Join(parts, sep)| == TotalLength(parts) + (|parts| - 1) * |sep|
  {
    if |parts| > 1 {
      JoinLength(parts[1..], sep);
    }
  }
}
