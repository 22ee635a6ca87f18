/** The string operations of Go's strings and path packages that the provider uses. */
module Text {

  predicate HasPrefix(s: string, prefix: string) { prefix <= s }

  function TrimPrefix(s: string, prefix: string): string { if prefix <= s then s[|prefix|..] else s }

  /** strings.Split for a one-character separator. */
  function Split(s: string, c: char): (parts: seq<string>)
    ensures |parts| >= 1
  {
    if s == "" then [""]
    else if s[0] == c then [""] + Split(s[1..], c)
    else
      var rest := Split(s[1..], c);
      [[s[0]] + rest[0]] + rest[1..]
  }

  /** strings.Join for a one-character separator. */
  function Join(parts: seq<string>, c: char): string {
    if parts == [] then ""
    else if |parts| == 1 then parts[0]
    else parts[0] + [c] + Join(parts[1..], c)
  }

  function Count(s: string, c: char): nat {
    if s == "" then 0 else (if s[0] == c then 1 else 0) + Count(s[1..], c)
  }

  /** strings.Index for one character; the length stands for "not found". */
  function Index(s: string, c: char): (i: nat)
    ensures i <= |s| && (forall j :: 0 <= j < i ==> s[j] != c) && (i < |s| ==> s[i] == c)
  {
    if s == "" || s[0] == c then 0 else 1 + Index(s[1..], c)
  }

  /** Removes the first occurrence of a character. */
  function RemoveFirst(s: string, c: char): string {
    var i := Index(s, c);
    if i < |s| then s[..i] + s[i + 1..] else s
  }

  function LowerChar(c: char): char { if 'A' <= c <= 'Z' then c + 32 as char else c }

  function UpperChar(c: char): char { if 'a' <= c <= 'z' then c - 32 as char else c }

  /** Case conversion on the ASCII letters. */
  function Lower(s: string): string { seq(|s|, i requires 0 <= i < |s| => LowerChar(s[i])) }

  function Upper(s: string): string { seq(|s|, i requires 0 <= i < |s| => UpperChar(s[i])) }

  predicate EqualFold(a: string, b: string) { Lower(a) == Lower(b) }

  lemma UpperFolds(s: string)
    ensures EqualFold(s, Upper(s))
  {
    forall i | 0 <= i < |s| ensures Lower(s)[i] == Lower(Upper(s))[i] {
    }
  }

  ghost predicate Without(parts: seq<string>, c: char) { forall p :: p in parts ==> c !in p }

  lemma {:induction false} SplitParts(s: string, c: char)
    ensures Without(Split(s, c), c) && Join(Split(s, c), c) == s && |Split(s, c)| == Count(s, c) + 1
  {
    if s != "" {
      SplitParts(s[1..], c);
      var rest := Split(s[1..], c);
      if s[0] == c {
        assert ([""] + rest)[1..] == rest;
      } else {
        var first := [s[0]] + rest[0];
        assert ([first] + rest[1..])[1..] == rest[1..];
        assert Join([first] + rest[1..], c) == [s[0]] + Join(rest, c);
        assert forall p :: p in rest[1..] ==> p in rest;
      }
    }
  }

  lemma {:induction false} SplitFree(s: string, c: char)
    requires c !in s
    ensures Split(s, c) == [s]
  {
    if s != "" {
      assert s == [s[0]] + s[1..];
      SplitFree(s[1..], c);
    }
  }

  lemma {:induction false} SplitAppend(p: string, c: char, rest: string)
    requires c !in p
    ensures Split(p + [c] + rest, c) == [p] + Split(rest, c)
  {
    var s := p + [c] + rest;
    if p == "" {
      assert s[1..] == rest;
    } else {
      assert s[1..] == p[1..] + [c] + rest;
      SplitAppend(p[1..], c, rest);
      assert [p[0]] + p[1..] == p;
    }
  }

  lemma {:induction false} SplitJoin(parts: seq<string>, c: char)
    requires parts != [] && Without(parts, c)
    ensures Split(Join(parts, c), c) == parts
  {
    if |parts| == 1 {
      assert parts[0] in parts;
      SplitFree(parts[0], c);
    } else {
      assert parts[0] in parts && forall p :: p in parts[1..] ==> p in parts;
      SplitAppend(parts[0], c, Join(parts[1..], c));
      SplitJoin(parts[1..], c);
      assert [parts[0]] + parts[1..] == parts;
    }
  }

  lemma JoinInjective(a: seq<string>, b: seq<string>, c: char)
    requires a != [] && b != [] && Without(a, c) && Without(b, c) && Join(a, c) == Join(b, c)
    ensures a == b
  {
    SplitJoin(a, c);
    SplitJoin(b, c);
  }

  // ----- path.Clean and path.Join -----

  function CleanSegments(rooted: bool, done: seq<string>, segments: seq<string>): seq<string>
    decreases |segments|
  {
    if segments == [] then done
    else
      var s, rest := segments[0], segments[1..];
      if s == "" || s == "." then CleanSegments(rooted, done, rest)
      else if s != ".." then CleanSegments(rooted, done + [s], rest)
      else if done != [] && done[|done| - 1] != ".." then CleanSegments(rooted, done[..|done| - 1], rest)
      else if rooted then CleanSegments(rooted, done, rest)
      else CleanSegments(rooted, done + [s], rest)
  }

  function Clean(path: string): string {
    var rooted := path != "" && path[0] == '/';
    var segments := CleanSegments(rooted, [], Split(path, '/'));
    if rooted then "/" + Join(segments, '/') else if segments == [] then "." else Join(segments, '/')
  }

  function NonEmpty(parts: seq<string>): seq<string> {
    if parts == [] then [] else (if parts[0] == "" then [] else [parts[0]]) + NonEmpty(parts[1..])
  }

  function PathJoin(parts: seq<string>): string {
    var kept := NonEmpty(parts);
    if kept == [] then "" else Clean(Join(kept, '/'))
  }
}
