/** The string operations the providers apply to addresses and URL lists. */
module Strings {

  /** `toLowerCase` on one character, for the ASCII letters. */
  function LowerChar(c: char): (r: char)
    ensures !('A' <= r <= 'Z')
    ensures 'A' <= c <= 'Z' ==> r as int == c as int + 32
    ensures !('A' <= c <= 'Z') ==> r == c
  {
    if 'A' <= c <= 'Z' then (c as int + 32) as char else c
  }

  /** No character of `s` is an upper-case ASCII letter. */
  predicate IsLower(s: string)
  {
    forall i :: 0 <= i < |s| ==> !('A' <= s[i] <= 'Z')
  }

  /** `s.toLowerCase()`: every character lowered, nothing added or removed. */
  function Lower(s: string): (r: string)
    ensures |r| == |s|
    ensures forall i :: 0 <= i < |s| ==> r[i] == LowerChar(s[i])
    ensures IsLower(r)
  {
    if s == [] then [] else [LowerChar(s[0])] + Lower(s[1..])
  }

  /** A string that is already lower case is left as it is. */
  lemma LowerOfLower(s: string)
    requires IsLower(s)
    ensures Lower(s) == s
  {
    assert forall i :: 0 <= i < |s| ==> Lower(s)[i] == s[i];
  }

  /** Lowering distributes over concatenation. */
  lemma {:induction false} LowerConcat(a: string, b: string)
    ensures Lower(a + b) == Lower(a) + Lower(b)
  {
    if a == [] {
      assert a + b == b;
    } else {
      assert (a + b)[1..] == a[1..] + b;
      LowerConcat(a[1..], b);
    }
  }

  /** `s.startsWith(p)`. */
  predicate StartsWith(s: string, p: string)
  {
    |p| <= |s| && s[..|p|] == p
  }

  /** `s.split(sep)` for a one-character separator: the pieces between separators, the empty
      string included (an empty `s` gives one empty piece). */
  function Split(s: string, sep: char): (r: seq<string>)
    ensures |r| >= 1
    ensures forall i :: 0 <= i < |r| ==> sep !in r[i]
  {
    if s == [] then [""]
    else
      var rest := Split(s[1..], sep);
      if s[0] == sep then [""] + rest
      else [[s[0]] + rest[0]] + rest[1..]
  }

  /** `parts.join(sep)`. */
  function Join(parts: seq<string>, sep: char): string
    requires |parts| >= 1
  {
    if |parts| == 1 then parts[0] else parts[0] + [sep] + Join(parts[1..], sep)
  }

  /** The number of occurrences of `x` in `s`. */
  function Count<T(==)>(s: seq<T>, x: T): nat
  {
    if s == [] then 0 else (if s[0] == x then 1 else 0) + Count(s[1..], x)
  }

  /** Splitting gives one more piece than there are separators. */
  lemma {:induction false} SplitLength(s: string, sep: char)
    ensures |Split(s, sep)| == Count(s, sep) + 1
  {
    if s != [] {
      SplitLength(s[1..], sep);
    }
  }

  /** Joining the pieces of a split with the same separator gives back the original string. */
  lemma {:induction false} JoinSplit(s: string, sep: char)
    ensures Join(Split(s, sep), sep) == s
  {
    if s != [] {
      var rest := Split(s[1..], sep);
      JoinSplit(s[1..], sep);
      if s[0] == sep {
        assert ([""] + rest)[1..] == rest;
      } else {
        var r := [[s[0]] + rest[0]] + rest[1..];
        if |rest| == 1 {
          assert r == [[s[0]] + rest[0]];
        } else {
          assert r[1..] == rest[1..];
          assert Join(rest, sep) == rest[0] + [sep] + Join(rest[1..], sep);
        }
      }
    }
  }

  /** Splitting a join of separator-free pieces gives back the pieces. */
  lemma {:induction false} SplitJoin(parts: seq<string>, sep: char)
    requires |parts| >= 1
    requires forall i :: 0 <= i < |parts| ==> sep !in parts[i]
    ensures Split(Join(parts, sep), sep) == parts
  {
    if |parts| == 1 {
      SplitPiece(parts[0], sep, []);
      assert parts[0] + [] == parts[0];
      assert Split([], sep) == [""];
      assert [parts[0] + ""] + [] == parts;
    } else {
      SplitJoin(parts[1..], sep);
      var tail := Join(parts[1..], sep);
      assert parts[1..] == Split(tail, sep);
      SplitPiece(parts[0], sep, [sep] + tail);
      assert Split([sep] + tail, sep) == [""] + parts[1..] by {
        assert ([sep] + tail)[1..] == tail;
      }
      assert parts[0] + [sep] + tail == parts[0] + ([sep] + tail);
      var rest := [""] + parts[1..];
      assert rest[0] == "" && rest[1..] == parts[1..];
      assert parts[0] + rest[0] == parts[0];
      assert [parts[0]] + parts[1..] == parts;
    }
  }

  /** A separator-free prefix attaches to the first piece of what follows it. */
  lemma {:induction false} SplitPiece(p: string, sep: char, t: string)
    requires sep !in p
    ensures var rest := Split(t, sep);
      Split(p + t, sep) == [p + rest[0]] + rest[1..]
  {
    if p == [] {
      assert p + t == t;
      var rest := Split(t, sep);
      assert p + rest[0] == rest[0];
      assert [rest[0]] + rest[1..] == rest;
    } else {
      assert (p + t)[1..] == p[1..] + t;
      assert (p + t)[0] == p[0];
      SplitPiece(p[1..], sep, t);
      var rest := Split(t, sep);
      assert [p[0]] + (p[1..] + rest[0]) == p + rest[0];
    }
  }
}
