/**
 * The few Python standard-library operations on strings and POSIX paths that the
 * plugin relies on, with their Python semantics written out.
 */
module Builtins {

  /** `s.startswith(prefix)` */
  predicate StartsWith(s: string, prefix: string) {
    |prefix| <= |s| && s[..|prefix|] == prefix
  }

  /** `s.endswith(suffix)` */
  predicate EndsWith(s: string, suffix: string) {
    |suffix| <= |s| && s[|s| - |suffix|..] == suffix
  }

  /** `sub` occurs in `s` starting at index `k`. */
  predicate OccursAt(s: string, k: int, sub: string) {
    0 <= k && k + |sub| <= |s| && s[k..k + |sub|] == sub
  }

  /** `sub in s` */
  predicate Contains(s: string, sub: string) {
    exists k :: 0 <= k <= |s| && OccursAt(s, k, sub)
  }

  /** A suffix of a suffix is a suffix. */
  lemma EndsWithTransitive(s: string, t: string, u: string)
    requires EndsWith(s, t) && EndsWith(t, u)
    ensures EndsWith(s, u)
  {
    assert s[|s| - |u|..] == s[|s| - |t|..][|t| - |u|..];
  }

  /** A concatenation starts with its left part and ends with its right part. */
  lemma ConcatBounds(a: string, b: string)
    ensures StartsWith(a + b, a) && EndsWith(a + b, b)
  {
    assert (a + b)[..|a|] == a;
    assert (a + b)[|a|..] == b;
  }

  /** A string ends with the right end of its right part. */
  lemma ConcatEndsWith(a: string, b: string, c: string)
    ensures EndsWith(a + (b + c), c)
  {
    assert (a + (b + c))[|a + (b + c)| - |c|..] == c;
  }

  /** An occurrence stays where it is when more text is appended. */
  lemma OccursAtExtended(s: string, t: string, k: int, sub: string)
    requires OccursAt(s, k, sub)
    ensures OccursAt(s + t, k, sub)
  {
    assert (s + t)[k..k + |sub|] == s[k..k + |sub|];
  }

  /** A prefix stays a prefix when more text is appended. */
  lemma StartsWithExtended(s: string, t: string, prefix: string)
    requires StartsWith(s, prefix)
    ensures StartsWith(s + t, prefix)
  {
    assert (s + t)[..|prefix|] == s[..|prefix|];
  }

  /** The middle part of a three-part concatenation occurs right after the first part. */
  lemma OccursInMiddle(a: string, b: string, c: string)
    ensures OccursAt(a + b + c, |a|, b) && Contains(a + b + c, b)
  {
    assert (a + b + c)[|a|..|a| + |b|] == b;
    assert OccursAt(a + b + c, |a|, b);
  }

  predicate IsUpper(c: char) {
    'A' <= c <= 'Z'
  }

  /** The letters `str.lower()` changes in the ASCII range. */
  function LowerChar(c: char): (r: char)
    ensures !IsUpper(r)
    ensures !IsUpper(c) ==> r == c
    ensures IsUpper(c) ==> r as int == c as int + ('a' as int - 'A' as int)
  {
    if IsUpper(c) then (c as int - 'A' as int + 'a' as int) as char else c
  }

  /** `s.lower()`, restricted to ASCII letters. */
  function Lower(s: string): (r: string)
    ensures |r| == |s|
    ensures forall i :: 0 <= i < |r| ==> !IsUpper(r[i])
    ensures forall i :: 0 <= i < |s| && !IsUpper(s[i]) ==> r[i] == s[i]
    ensures forall i :: 0 <= i < |s| ==> r[i] == LowerChar(s[i])
  {
    seq(|s|, i requires 0 <= i < |s| => LowerChar(s[i]))
  }

  /** A string with no upper-case letter is its own lower-case form. */
  lemma LowerOfLower(s: string)
    requires forall i :: 0 <= i < |s| ==> !IsUpper(s[i])
    ensures Lower(s) == s
  {
  }

  /** `posixpath.join(dir, name)`: an absolute `name` replaces `dir`, otherwise one separator is inserted unless `dir` is empty or already ends in one. */
  function Join(dir: string, name: string): (r: string)
    ensures EndsWith(r, name)
    ensures StartsWith(name, "/") ==> r == name
    ensures !StartsWith(name, "/") ==> StartsWith(r, dir) && |dir| + |name| <= |r| <= |dir| + 1 + |name|
    ensures !StartsWith(name, "/") && (dir == "" || EndsWith(dir, "/")) ==> r == dir + name
    ensures !StartsWith(name, "/") && dir != "" && !EndsWith(dir, "/") ==> r == dir + "/" + name
  {
    if StartsWith(name, "/") then name
    else if dir == "" || dir[|dir| - 1] == '/' then dir + name
    else dir + "/" + name
  }

  /** `dir.rstrip("/")` */
  function TrimTrailingSlashes(dir: string): (r: string)
    ensures StartsWith(dir, r)
    ensures !EndsWith(r, "/")
    ensures forall i :: |r| <= i < |dir| ==> dir[i] == '/'
  {
    if |dir| > 0 && dir[|dir| - 1] == '/' then TrimTrailingSlashes(dir[..|dir| - 1]) else dir
  }

  /**
   * `os.path.expanduser(path)` with `home` the value of `$HOME`: a leading `~` that
   * stands alone or is followed by `/` becomes the home directory without its
   * trailing separators (or `/` when nothing is left). Any other path is returned
   * unchanged; this includes `~user`, whose entry in the user database is outside the model.
   */
  function ExpandUser(path: string, home: string): (r: string)
    ensures !StartsWith(path, "~") ==> r == path
    ensures (path == "~" || StartsWith(path, "~/")) && TrimTrailingSlashes(home) + path[1..] != "" ==>
              r == TrimTrailingSlashes(home) + path[1..]
    ensures path == "~" && TrimTrailingSlashes(home) == "" ==> r == "/"
    ensures |path| >= 2 && path[0] == '~' && path[1] != '/' ==> r == path
  {
    if |path| == 0 || path[0] != '~' then path
    else if |path| == 1 || path[1] == '/' then
      var expanded := TrimTrailingSlashes(home) + path[1..];
      if expanded == "" then "/" else expanded
    else path
  }

  /** `", ".join(parts)` */
  function CommaJoin(parts: seq<string>): string {
    if |parts| == 0 then ""
    else if |parts| == 1 then parts[0]
    else parts[0] + ", " + CommaJoin(parts[1..])
  }

  function Quote(s: string): string {
    "'" + s + "'"
  }

  /**
   * `str(items)` for a list of strings: `['a', 'b']`. Python's escaping of quote
   * characters inside the items is not modelled.
   */
  function ListStr(items: seq<string>): (r: string)
    ensures StartsWith(r, "[") && EndsWith(r, "]")
  {
    "[" + CommaJoin(seq(|items|, i requires 0 <= i < |items| => Quote(items[i]))) + "]"
  }
}
