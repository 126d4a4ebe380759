/** Shared vocabulary of the model: optional values, callers and their roles,
    and the few JavaScript string operations the core relies on
    (`toLowerCase`, `toUpperCase`, `includes`, `startsWith`, `trim`,
    `length`), with case mapping restricted to ASCII. */
module Common {

  datatype Option<T> = None | Some(value: T) {
    function GetOr(default: T): T {
      if Some? then value else default
    }

    /** `a ?? b` on optional values: this one when present, else `other`. */
    function OrElse(other: Option<T>): Option<T> {
      if Some? then this else other
    }
  }

  /** The outcome of a route or of a validating save: a value or an error. */
  datatype Result<T, E> = Ok(value: T) | Err(error: E)

  type UserId = nat

  /** The role carried by an authenticated user. */
  datatype Role = Patient | Pharmacist | Admin

  /** The authenticated caller of a route: its user id and role. */
  datatype Caller = Caller(id: UserId, role: Role)

  function LowerChar(c: char): char {
    if 'A' <= c <= 'Z' then (c as int + 32) as char else c
  }

  function UpperChar(c: char): char {
    if 'a' <= c <= 'z' then (c as int - 32) as char else c
  }

  /** `s.toLowerCase()`, character by character. */
  function ToLower(s: string): (r: string)
    ensures |r| == |s|
    ensures forall i :: 0 <= i < |s| ==> r[i] == LowerChar(s[i])
  {
    seq(|s|, i requires 0 <= i < |s| => LowerChar(s[i]))
  }

  /** `s.startsWith(p)`. */
  predicate StartsWith(s: string, p: string) {
    |p| <= |s| && s[..|p|] == p
  }

  /** `sub` stands in `s` starting at position `i`. */
  predicate OccursAt(s: string, sub: string, i: int) {
    0 <= i <= |s| - |sub| && s[i..i + |sub|] == sub
  }

  /** `s.includes(sub)`: `sub` occurs at some position of `s`. */
  predicate Contains(s: string, sub: string) {
    exists i :: 0 <= i <= |s| && OccursAt(s, sub, i)
  }

  lemma EmptyIsContained(s: string)
    ensures Contains(s, "")
  {
    assert OccursAt(s, "", 0);
  }

  /** What `String.prototype.trim` removes: the ECMAScript white-space
      characters (tab, vertical tab, form feed, space, no-break space, the
      byte-order mark and the other space separators) and the line
      terminators (line feed, carriage return, line and paragraph
      separators). */
  predicate IsSpace(c: char) {
    || c == '\t' || c == '\U{000B}' || c == '\U{000C}' || c == ' '
    || c == '\U{00A0}' || c == '\U{FEFF}' || c == '\U{1680}'
    || ('\U{2000}' <= c <= '\U{200A}') || c == '\U{202F}' || c == '\U{205F}' || c == '\U{3000}'
    || c == '\n' || c == '\r' || c == '\U{2028}' || c == '\U{2029}'
  }

  /** Drops leading white space. */
  function TrimStart(s: string): (r: string)
    ensures |r| <= |s| && r == s[|s| - |r|..]
    ensures r == [] || !IsSpace(r[0])
    ensures forall i :: 0 <= i < |s| - |r| ==> IsSpace(s[i])
  {
    if s != [] && IsSpace(s[0]) then TrimStart(s[1..]) else s
  }

  /** Drops trailing white space. */
  function TrimEnd(s: string): (r: string)
    ensures |r| <= |s| && r == s[..|r|]
    ensures r == [] || !IsSpace(r[|r| - 1])
    ensures forall i :: |r| <= i < |s| ==> IsSpace(s[i])
  {
    if s != [] && IsSpace(s[|s| - 1]) then TrimEnd(s[..|s| - 1]) else s
  }

  /** The number of white-space characters `s` starts with. */
  function LeadingSpaces(s: string): (n: nat)
    ensures n <= |s|
    ensures forall i :: 0 <= i < n ==> IsSpace(s[i])
    ensures n == |s| || !IsSpace(s[n])
  {
    |s| - |TrimStart(s)|
  }

  /** `s.trim()`: the longest infix of `s` that neither starts nor ends
      with white space, obtained by dropping only white space. */
  function Trim(s: string): (r: string)
    ensures LeadingSpaces(s) + |r| <= |s|
    ensures r == s[LeadingSpaces(s)..LeadingSpaces(s) + |r|]
    ensures r == [] || (!IsSpace(r[0]) && !IsSpace(r[|r| - 1]))
    ensures forall i :: LeadingSpaces(s) + |r| <= i < |s| ==> IsSpace(s[i])
  {
    TrimEnd(TrimStart(s))
  }

  /** `s.length` in JavaScript: the number of UTF-16 code units, one for a
      character of the Basic Multilingual Plane and two (a surrogate pair)
      for a character above U+FFFF. */
  function Utf16Length(s: string): (n: nat)
    ensures |s| <= n <= 2 * |s|
    ensures n == |s| <==> forall c :: c in s ==> c < '\U{10000}'
    ensures (forall c :: c in s ==> c >= '\U{10000}') ==> n == 2 * |s|
  {
    if s == [] then 0
    else
      var rest := Utf16Length(s[1..]);
      assert forall c :: c in s[1..] ==> c in s;
      assert s == [s[0]] + s[1..];
      assert s[0] in s;
      (if s[0] < '\U{10000}' then 1 else 2) + rest
  }

  /** `b` keeps the elements of `a` in order, possibly with gaps. */
  ghost predicate IsSubsequence<T>(a: seq<T>, b: seq<T>)
    decreases |b|
  {
    if a == [] then true
    else if b == [] then false
    else (a[0] == b[0] && IsSubsequence(a[1..], b[1..])) || IsSubsequence(a, b[1..])
  }

  /** `s.filter(keep)`: the elements of `s` that `keep` accepts, in their
      order and with their multiplicity, and nothing else. */
  function Filter<T>(s: seq<T>, keep: T -> bool): (r: seq<T>)
    ensures |r| <= |s|
    ensures IsSubsequence(r, s)
    ensures forall x :: x in r ==> x in s && keep(x)
    ensures forall x :: x in s && keep(x) ==> multiset(r)[x] == multiset(s)[x]
  {
    if s == [] then []
    else
      var rest := Filter(s[1..], keep);
      assert s == [s[0]] + s[1..];
      if keep(s[0]) then
        assert ([s[0]] + rest)[1..] == rest;
        [s[0]] + rest
      else
        assert rest == [] || IsSubsequence(rest, s[1..]);
        rest
  }

  /** Filtering a sequence with a given first element. */
  lemma FilterCons<T>(h: T, rest: seq<T>, keep: T -> bool)
    ensures Filter([h] + rest, keep) == (if keep(h) then [h] else []) + Filter(rest, keep)
  {
    assert ([h] + rest)[1..] == rest;
  }

  /** Filtering a sequence extended by one element extends the filtered
      sequence by that element when it is kept. */
  lemma {:induction false} FilterAppendOne<T>(s: seq<T>, x: T, keep: T -> bool)
    ensures Filter(s + [x], keep) == Filter(s, keep) + (if keep(x) then [x] else [])
    decreases |s|
  {
    if s == [] {
      assert s + [x] == [x] + [];
      FilterCons(x, [], keep);
    } else {
      var h, rest := s[0], s[1..];
      var head := if keep(h) then [h] else [];
      var tail := if keep(x) then [x] else [];
      assert s == [h] + rest;
      calc {
        Filter(s + [x], keep);
        { assert s + [x] == [h] + (rest + [x]); }
        Filter([h] + (rest + [x]), keep);
        { FilterCons(h, rest + [x], keep); }
        head + Filter(rest + [x], keep);
        { FilterAppendOne(rest, x, keep); }
        head + (Filter(rest, keep) + tail);
        (head + Filter(rest, keep)) + tail;
        { FilterCons(h, rest, keep); }
        Filter(s, keep) + tail;
      }
    }
  }
}
