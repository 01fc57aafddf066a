/** The few Python `str` methods the entry script uses: `split` on a single
    separator character, `isdigit` on one character, `capitalize` and
    `endswith`. Characters are compared as code points; only ASCII letters
    and digits are given their case and digit meaning. */
module PyString {

  /** `c.isdigit()` for an ASCII character. */
  predicate IsDigit(c: char) {
    '0' <= c <= '9'
  }

  predicate IsLowerLetter(c: char) {
    'a' <= c <= 'z'
  }

  predicate IsUpperLetter(c: char) {
    'A' <= c <= 'Z'
  }

  function Upper(c: char): char {
    if IsLowerLetter(c) then (c as int - 32) as char else c
  }

  function Lower(c: char): char {
    if IsUpperLetter(c) then (c as int + 32) as char else c
  }

  function LowerAll(s: string): string {
    if s == [] then [] else [Lower(s[0])] + LowerAll(s[1..])
  }

  /** `s.capitalize()`: the length is unchanged, the first character is
      upper-cased and every later one lower-cased. */
  function Capitalize(s: string): (r: string)
    ensures |r| == |s|
    ensures |s| > 0 ==> r[0] == Upper(s[0])
    ensures forall i :: 0 < i < |s| ==> r[i] == Lower(s[i])
  {
    if s == [] then []
    else
      LowerAllShape(s[1..]);
      [Upper(s[0])] + LowerAll(s[1..])
  }

  lemma {:induction false} LowerAllShape(s: string)
    ensures |LowerAll(s)| == |s|
    ensures forall i :: 0 <= i < |s| ==> LowerAll(s)[i] == Lower(s[i])
  {
    if s != [] {
      LowerAllShape(s[1..]);
    }
  }

  /** `s.endswith(suffix)`. */
  predicate EndsWith(s: string, suffix: string) {
    |suffix| <= |s| && s[|s| - |suffix|..] == suffix
  }

  /** The inverse of `split`: the parts glued back with the separator. */
  function Join(parts: seq<string>, sep: char): string
    requires |parts| >= 1
  {
    if |parts| == 1 then parts[0] else parts[0] + [sep] + Join(parts[1..], sep)
  }

  /** `s.split(sep)` for a one-character separator: never an empty list, an
      empty part between two adjacent separators and at either end. */
  function Split(s: string, sep: char): (parts: seq<string>)
    ensures |parts| >= 1
    ensures forall i :: 0 <= i < |parts| ==> sep !in parts[i]
    decreases |s|
  {
    if |s| == 0 then [""]
    else
      var rest := Split(s[1..], sep);
      if s[0] == sep then [""] + rest
      else [[s[0]] + rest[0]] + rest[1..]
  }

  /** Joining the parts of a split with the separator gives the string back. */
  lemma {:induction false} JoinSplit(s: string, sep: char)
    ensures Join(Split(s, sep), sep) == s
    decreases |s|
  {
    if |s| > 0 {
      var rest := Split(s[1..], sep);
      JoinSplit(s[1..], sep);
      var parts := Split(s, sep);
      if s[0] == sep {
        assert parts[1..] == rest;
        assert s == [sep] + s[1..];
      } else {
        assert parts[1..] == rest[1..];
        if |rest| > 1 {
          assert Join(rest, sep) == rest[0] + [sep] + Join(rest[1..], sep);
        }
        assert s == [s[0]] + s[1..];
      }
    }
  }

  /** A string without the separator splits into itself alone. */
  lemma {:induction false} SplitNoSep(x: string, sep: char)
    requires sep !in x
    ensures Split(x, sep) == [x]
    decreases |x|
  {
    if |x| > 0 {
      SplitNoSep(x[1..], sep);
      assert [x[0]] + x[1..] == x;
    }
  }

  /** A leading part without the separator comes off as the first part. */
  lemma {:induction false} SplitAfterPart(x: string, sep: char, y: string)
    requires sep !in x
    ensures Split(x + [sep] + y, sep) == [x] + Split(y, sep)
    decreases |x|
  {
    var s := x + [sep] + y;
    if |x| == 0 {
      assert s[0] == sep && s[1..] == y;
    } else {
      assert s[0] == x[0] && s[1..] == x[1..] + [sep] + y;
      SplitAfterPart(x[1..], sep, y);
      assert [x[0]] + x[1..] == x;
    }
  }

  /** `split` undoes `join` when no part holds the separator. */
  lemma {:induction false} SplitJoin(parts: seq<string>, sep: char)
    requires |parts| >= 1
    requires forall i :: 0 <= i < |parts| ==> sep !in parts[i]
    ensures Split(Join(parts, sep), sep) == parts
  {
    if |parts| == 1 {
      SplitNoSep(parts[0], sep);
    } else {
      SplitJoin(parts[1..], sep);
      SplitAfterPart(parts[0], sep, Join(parts[1..], sep));
      assert [parts[0]] + parts[1..] == parts;
    }
  }

  /** The last part is empty exactly when the string is empty or ends with
      the separator. */
  lemma {:induction false} LastPartEmpty(s: string, sep: char)
    ensures var parts := Split(s, sep);
      parts[|parts| - 1] == "" <==> (|s| == 0 || s[|s| - 1] == sep)
    decreases |s|
  {
    if |s| > 0 {
      var t := s[1..];
      var rest := Split(t, sep);
      LastPartEmpty(t, sep);
      JoinSplit(t, sep);
      if s[0] != sep && |rest| == 1 {
        // t has no separator, so neither s ends with one nor is the last part empty
        assert t == rest[0];
        if |t| > 0 {
          assert t[|t| - 1] in t;
          assert s[|s| - 1] == t[|t| - 1];
        }
      } else if |t| > 0 {
        assert s[|s| - 1] == t[|t| - 1];
      }
    }
  }

  /** The string is a single part exactly when it holds no separator. */
  lemma SinglePart(s: string, sep: char)
    ensures |Split(s, sep)| == 1 <==> sep !in s
  {
    if sep !in s {
      SplitNoSep(s, sep);
    } else {
      JoinSplit(s, sep);
    }
  }
}
