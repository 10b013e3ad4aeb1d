/**
 * The parts of the JavaScript runtime that the request-admission layer relies on:
 * `undefined` (as `Option`), JSON values, and the string and array built-ins
 * `String.prototype.startsWith`, `String.prototype.slice`, `Array.prototype.includes`
 * and `Array.prototype.join`. `startsWith` and `includes` are written element by
 * element, as the ECMAScript standard defines them, and proved to agree with
 * Dafny's prefix test and sequence membership; `slice` is a suffix of the string;
 * `join` is written from the right and proved equal to the standard's
 * left-to-right construction (`JoinSnoc`).
 * Strings are sequences of characters; the strings that matter here are ASCII, so
 * characters and UTF-16 code units coincide.
 */
module Js {

  /** A value that may be `undefined` (or `null`, where the source treats both alike). */
  datatype Option<+T> = None | Some(value: T) {
    function GetOr(default: T): T {
      match this
      case Some(v) => v
      case None => default
    }
  }

  /** A JSON value, as produced by a service and passed through by `res.json`. */
  datatype Json =
    | JNull
    | JBool(b: bool)
    | JNumber(n: int)
    | JString(s: string)
    | JArray(items: seq<Json>)
    | JObject(fields: seq<(string, Json)>)

  /** `s` begins with `p`: the specification of `startsWith`. */
  ghost predicate HasPrefix(s: string, p: string) {
    |p| <= |s| && s[..|p|] == p
  }

  /**
   * `s.startsWith(p)`: false when `p` is longer than `s`, otherwise compares `p`
   * with the start of `s` one character at a time.
   */
  function StartsWith(s: string, p: string): (r: bool)
    ensures r <==> HasPrefix(s, p)
  {
    if |p| > |s| then false
    else if |p| == 0 then true
    else if s[0] != p[0] then false
    else
      var r := StartsWith(s[1..], p[1..]);
      assert s[..|p|] == [s[0]] + s[1..][..|p| - 1];
      assert p == [p[0]] + p[1..];
      r
  }

  /** `s.slice(start)` for a non-negative `start`: the suffix from `start`, or "" past the end. */
  function Slice(s: string, start: nat): (r: string)
    ensures start <= |s| ==> s[..start] + r == s && |r| == |s| - start
    ensures start >= |s| ==> r == ""
  {
    if start >= |s| then "" else s[start..]
  }

  /** `list.includes(x)` for strings: scans the list in order for an equal element. */
  function Includes(list: seq<string>, x: string): (r: bool)
    ensures r <==> x in list
  {
    if |list| == 0 then false
    else if list[0] == x then true
    else
      var r := Includes(list[1..], x);
      assert x in list <==> x in list[1..] by {
        assert list == [list[0]] + list[1..];
      }
      r
  }

  /** `items.join(",")` over strings. */
  function Join(items: seq<string>): (r: string)
    ensures |items| == 0 ==> r == ""
    ensures |items| == 1 ==> r == items[0]
    ensures |items| >= 2 ==> ',' in r
  {
    if |items| == 0 then ""
    else if |items| == 1 then items[0]
    else
      var rest := Join(items[1..]);
      var r := items[0] + "," + rest;
      assert r[|items[0]|] == ',';
      r
  }

  /**
   * The ECMAScript definition of `join` builds the result from the left, appending
   * "," and the next element; the right-recursive `Join` agrees with it.
   */
  lemma {:induction false} JoinSnoc(items: seq<string>, x: string)
    requires |items| >= 1
    ensures Join(items + [x]) == Join(items) + "," + x
  {
    if |items| == 1 {
      assert (items + [x])[1..] == [x];
    } else {
      assert (items + [x])[1..] == items[1..] + [x];
      JoinSnoc(items[1..], x);
    }
  }
}
