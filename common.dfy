/** Shared vocabulary: optional values, results with the errors the program raises,
    and the small string operations (ASCII lower-casing, suffix tests, splitting)
    that the path and format logic is built from. */
module Common {

  datatype Option<T> = None | Some(value: T)

  /** The exceptions the modelled code raises, one constructor per kind. */
  datatype Error =
    | FileNotFound(path: string)        // FileNotFoundError
    | UnexpectedKeyword(keys: set<string>) // TypeError from EnhancementParams(**d)
    | WrongType(keys: set<string>)      // values of the wrong JSON kind for their fields
    | KeyError(key: string)             // a dictionary lookup of a missing key
    | UnsupportedFormat(format: string) // ValueError for an unknown OCR output format
    | NotEnoughValues(expected: nat, got: nat) // ValueError unpacking too few values

  datatype Result<T> = Ok(value: T) | Err(error: Error)

  function LowerChar(c: char): (r: char)
    ensures 'A' <= c <= 'Z' ==> r as int == c as int + 32
    ensures !('A' <= c <= 'Z') ==> r == c
    ensures !('A' <= r <= 'Z')
  {
    if 'A' <= c <= 'Z' then (c as int + 32) as char else c
  }

  /** `str.lower()` on the ASCII range. */
  function Lower(s: string): (r: string)
    ensures |r| == |s|
    ensures forall i :: 0 <= i < |s| ==> r[i] == LowerChar(s[i])
  {
    seq(|s|, i requires 0 <= i < |s| => LowerChar(s[i]))
  }

  lemma LowerIdempotent(s: string)
    ensures Lower(Lower(s)) == Lower(s)
  {
    assert forall i :: 0 <= i < |s| ==> Lower(Lower(s))[i] == Lower(s)[i];
  }

  lemma LowerAppend(a: string, b: string)
    ensures Lower(a + b) == Lower(a) + Lower(b)
  {
    assert forall i :: 0 <= i < |a + b| ==> Lower(a + b)[i] == (Lower(a) + Lower(b))[i];
  }

  predicate EndsWith(s: string, suffix: string) {
    |suffix| <= |s| && s[|s| - |suffix|..] == suffix
  }

  predicate StartsWith(s: string, prefix: string) {
    |prefix| <= |s| && s[..|prefix|] == prefix
  }

  /** `s.replace(c, "")` for a one-character pattern. */
  function RemoveChar(s: string, c: char): (r: string)
    ensures c !in r
    ensures forall x :: x in r ==> x in s
    ensures c !in s ==> r == s
  {
    if s == [] then []
    else if s[0] == c then RemoveChar(s[1..], c)
    else [s[0]] + RemoveChar(s[1..], c)
  }

  /** The characters before the first space, and what follows that space. */
  function TakeWord(s: string): (r: (string, string))
    ensures ' ' !in r.0
    ensures |r.0| + |r.1| <= |s|
    ensures s != [] && s[0] != ' ' ==> |r.0| >= 1
    ensures ' ' !in s ==> r == (s, "")
    ensures RemoveChar(s, ' ') == r.0 + RemoveChar(r.1, ' ')
  {
    if s == [] then ("", "")
    else if s[0] == ' ' then ("", s[1..])
    else
      var (w, rest) := TakeWord(s[1..]);
      assert s == [s[0]] + s[1..];
      ([s[0]] + w, rest)
  }

  /** `s.split()` for text whose only whitespace is the space character:
      the maximal runs of non-space characters, in order. */
  function SplitWords(s: string): (r: seq<string>)
    ensures forall w :: w in r ==> w != "" && ' ' !in w
    ensures Concat(r) == RemoveChar(s, ' ')
    decreases |s|
  {
    if s == [] then []
    else if s[0] == ' ' then SplitWords(s[1..])
    else var (w, rest) := TakeWord(s); [w] + SplitWords(rest)
  }

  /** The words of `ws` written one after the other. */
  function Concat(ws: seq<string>): string {
    if ws == [] then "" else ws[0] + Concat(ws[1..])
  }

  /** A word without spaces splits into itself. */
  lemma SplitWordsSingle(w: string)
    requires w != "" && ' ' !in w
    ensures SplitWords(w) == [w]
  {
    assert TakeWord(w) == (w, "");
  }

  /** Two words separated by one space split into the two words. */
  lemma SplitWordsPair(a: string, b: string)
    requires a != "" && ' ' !in a && b != "" && ' ' !in b
    ensures SplitWords(a + " " + b) == [a, b]
  {
    var s := a + " " + b;
    assert TakeWord(s) == (a, b) by { TakeWordAt(a, b); }
    SplitWordsSingle(b);
  }

  lemma {:induction false} TakeWordAt(a: string, b: string)
    requires ' ' !in a
    ensures TakeWord(a + " " + b) == (a, b)
  {
    if a == [] {
      assert (a + " " + b)[1..] == b;
    } else {
      assert (a + " " + b)[0] == a[0] && (a + " " + b)[1..] == a[1..] + " " + b;
      TakeWordAt(a[1..], b);
      assert a == [a[0]] + a[1..];
    }
  }

  /** Removing the '*' of a pattern `*` + `e`, where `e` has none. */
  lemma RemoveLeadingStar(e: string)
    requires '*' !in e
    ensures RemoveChar("*" + e, '*') == e
  {
    assert ("*" + e)[1..] == e;
  }

  /** Index of the last occurrence of `c` in `s`, or -1 (`str.rfind`). */
  function RFind(s: string, c: char): (r: int)
    ensures -1 <= r < |s|
    ensures r >= 0 ==> s[r] == c
    ensures forall k :: r < k < |s| ==> s[k] != c
    ensures r == -1 <==> c !in s
  {
    if s == [] then -1
    else if s[|s| - 1] == c then |s| - 1
    else RFind(s[..|s| - 1], c)
  }

  predicate NoDuplicates<T(==)>(s: seq<T>) {
    forall i, j :: 0 <= i < j < |s| ==> s[i] != s[j]
  }

  function Count<T(==)>(s: seq<T>, x: T): nat {
    if s == [] then 0 else (if s[0] == x then 1 else 0) + Count(s[1..], x)
  }

  function Min(a: int, b: int): int { if a <= b then a else b }
  function MinReal(a: real, b: real): real { if a <= b then a else b }
  function MaxReal(a: real, b: real): real { if a >= b then a else b }
  function Abs(x: int): nat { if x < 0 then -x else x }
}
