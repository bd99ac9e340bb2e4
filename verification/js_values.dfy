/** The small part of JavaScript's value semantics the admin handlers rely on:
    truthiness, strict comparison with `true`, property access on plain
    objects, `Array.prototype.includes` on a list of strings, and
    `String.prototype.split(sep)[0]`.
 */
module JsValues {

  /** An optional property: `undefined` when absent. */
  datatype Option<+T> = None | Some(value: T)

  /** A JavaScript value as far as the handlers inspect it. Numbers are
      integers here (NaN and fractions are not represented); `Obj` stands for
      any object or array, whose contents the handlers never look into. */
  datatype JsValue = Undefined | Null | Bool(b: bool) | Num(n: int) | Str(s: string) | Obj

  /** A plain object: a finite map from property names to values. */
  type Object = map<string, JsValue>

  /** `o[key]`: a missing property reads as `undefined`. */
  function Get(o: Object, key: string): JsValue {
    if key in o then o[key] else Undefined
  }

  /** JavaScript truthiness (`if (v)`, `v || w`, `v && w`): every value is
      truthy except `undefined`, `null`, `false`, `0` and `""`. */
  function Truthy(v: JsValue): (r: bool)
    ensures r <==> v != Undefined && v != Null && v != Bool(false) && v != Num(0) && v != Str("")
  {
    match v
    case Undefined => false
    case Null => false
    case Bool(b) => b
    case Num(n) => n != 0
    case Str(s) => s != ""
    case Obj => true
  }

  /** `v === true`: only the boolean `true` itself. */
  function IsTrue(v: JsValue): (r: bool)
    ensures r <==> v == Bool(true)
  {
    v.Bool? && v.b
  }

  /** `list.includes(v)` for a list of strings: SameValueZero comparison, so
      only a string equal to an element matches. */
  function Includes(list: seq<string>, v: JsValue): (r: bool)
    ensures r <==> v.Str? && v.s in list
  {
    if |list| == 0 then false
    else (v.Str? && list[0] == v.s) || Includes(list[1..], v)
  }

  /** `s.split(sep)[0]` for a one-character separator: the longest prefix of
      `s` that does not contain `sep` (all of `s` when `sep` does not occur). */
  function BeforeFirst(s: string, sep: char): (r: string)
    ensures r <= s
    ensures sep !in r
    ensures |r| < |s| ==> s[|r|] == sep
  {
    if |s| == 0 || s[0] == sep then []
    else [s[0]] + BeforeFirst(s[1..], sep)
  }

  /** The three properties of `BeforeFirst` pin its result down: any prefix
      that avoids `sep` and stops at `sep` (or at the end) is that result. */
  lemma BeforeFirstUnique(s: string, sep: char, p: string)
    requires p <= s
    requires sep !in p
    requires |p| < |s| ==> s[|p|] == sep
    ensures p == BeforeFirst(s, sep)
  {
  }

  /** When `sep` occurs, `s` is the prefix, the separator and the rest:
      splitting and re-joining the first piece loses nothing. */
  lemma BeforeFirstRejoins(s: string, sep: char)
    requires sep in s
    ensures var r := BeforeFirst(s, sep);
            |r| < |s| && s == r + [sep] + s[|r| + 1..]
  {
  }
}
