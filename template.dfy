/**
  The attribute-name tests of the template binder: which attributes are
  directives (`h-text`, `h-html`, `h-model`) and which are event bindings
  (`@click`), and the names taken from them. Dafny strings are sequences
  of Unicode scalar values, so indices here count scalar values, where
  JavaScript counts UTF-16 code units; the two agree on text without
  characters outside the Basic Multilingual Plane.
 */
module Template {

  /** `search` occurs in `s` starting at index `i`. */
  predicate OccursAt(s: string, search: string, i: nat)
  {
    i + |search| <= |s| && s[i..i + |search|] == search
  }

  /**
    `s.indexOf(search, from)`: the first index at or after `from` where
    `search` occurs, or -1 when there is none. As in JavaScript, a `from`
    past the end is clamped to the length, so an empty `search` is found
    at the end.
   */
  function IndexOfFrom(s: string, search: string, from: nat): (r: int)
    ensures r == -1 || ((if from <= |s| then from else |s|) <= r && OccursAt(s, search, r))
    ensures forall i: nat :: (if from <= |s| then from else |s|) <= i && (r == -1 || i < r) ==> !OccursAt(s, search, i)
    decreases if from <= |s| then 0 else 1, if from <= |s| then |s| - from else 0
  {
    if from > |s| then IndexOfFrom(s, search, |s|)
    else if from + |search| > |s| then -1
    else if s[from..from + |search|] == search then from
    else IndexOfFrom(s, search, from + 1)
  }

  /** `s.indexOf(search)`. */
  function IndexOf(s: string, search: string): (r: int)
    ensures r >= -1
    ensures r == -1 <==> forall i: nat :: !OccursAt(s, search, i)
    ensures r != -1 ==> OccursAt(s, search, r) && forall i: nat :: i < r ==> !OccursAt(s, search, i)
  {
    IndexOfFrom(s, search, 0)
  }

  /**
    `s.substring(start)` with a single argument: the characters from
    `start` on; a start past the end gives the empty string.
   */
  function Substring(s: string, start: nat): (r: string)
    ensures start <= |s| ==> s[..start] + r == s
    ensures start >= |s| ==> r == ""
  {
    if start <= |s| then s[start..] else ""
  }

  /** `isDirective`: the attribute name starts with `h-`. */
  function IsDirective(attr: string): (r: bool)
    ensures r <==> "h-" <= attr
  {
    IndexOf(attr, "h-") == 0
  }

  /** `isEvent`: the attribute name starts with `@`. */
  function IsEvent(attr: string): (r: bool)
    ensures r <==> "@" <= attr
  {
    IndexOf(attr, "@") == 0
  }

  /** No attribute is both a directive and an event binding. */
  lemma NotBoth(attr: string)
    ensures !(IsDirective(attr) && IsEvent(attr))
  {
    if IsDirective(attr) {
      assert attr[0] == "h-"[0];
    }
  }

  /** The directive of a directive attribute: its name without the `h-`. */
  function DirectiveName(attrName: string): (r: string)
    ensures IsDirective(attrName) ==> "h-" + r == attrName
    ensures |attrName| <= 2 ==> r == ""
  {
    Substring(attrName, 2)
  }

  /** The event of an event attribute: its name without the `@`. */
  function EventName(attrName: string): (r: string)
    ensures IsEvent(attrName) ==> "@" + r == attrName
    ensures |attrName| <= 1 ==> r == ""
  {
    Substring(attrName, 1)
  }
}
