/** The Python string operations the analysis scripts rely on, on `string` = `seq<char>`. */
module Strings {
  import opened Wrappers

  /** Python `sub in s`: `sub` occurs in `s` as a contiguous substring (the empty string always does). */
  predicate Contains(s: string, sub: string)
  {
    exists i :: 0 <= i <= |s| && OccursAt(s, sub, i)
  }

  /** `sub` occurs in `s` starting at index `i`. */
  predicate OccursAt(s: string, sub: string, i: int)
  {
    0 <= i && i + |sub| <= |s| && s[i..i + |sub|] == sub
  }

  lemma ContainsAt(s: string, sub: string, i: nat)
    requires i <= |s| && sub <= s[i..]
    ensures Contains(s, sub)
  {
    assert s[i..i + |sub|] == sub;
    assert OccursAt(s, sub, i);
  }

  /** A string containing `sub` contains every character of `sub`; so a missing character rules it out. */
  lemma ContainsHasChars(s: string, sub: string, c: char)
    requires c in sub && Contains(s, sub)
    ensures c in s
  {
    var i :| 0 <= i <= |s| && OccursAt(s, sub, i);
    var k :| 0 <= k < |sub| && sub[k] == c;
    assert s[i + k] == s[i..i + |sub|][k] == c;
  }

  /** Python `s.split(c)` for a one-character separator: always at least one field, empty fields kept. */
  function Split(s: string, c: char): (r: seq<string>)
    ensures |r| >= 1
    ensures forall i :: 0 <= i < |r| ==> c !in r[i]
    decreases |s|
  {
    if s == [] then [""]
    else
      var rest := Split(s[1..], c);
      if s[0] == c then [""] + rest else [[s[0]] + rest[0]] + rest[1..]
  }

  /** Python `c.join(parts)`. */
  function Join(parts: seq<string>, c: char): string
    requires |parts| >= 1
    decreases |parts|
  {
    if |parts| == 1 then parts[0] else parts[0] + [c] + Join(parts[1..], c)
  }

  /** Splitting and joining on the same separator gives the original string back. */
  lemma {:induction false} JoinSplit(s: string, c: char)
    ensures Join(Split(s, c), c) == s
    decreases |s|
  {
    if s != [] {
      var rest := Split(s[1..], c);
      JoinSplit(s[1..], c);
      if s[0] == c {
        assert Split(s, c)[1..] == rest;
      } else {
        var r := Split(s, c);
        assert r[0] == [s[0]] + rest[0] && r[1..] == rest[1..];
        if |rest| == 1 {
          assert Join(r, c) == [s[0]] + rest[0];
        } else {
          assert Join(rest, c) == rest[0] + [c] + Join(rest[1..], c);
          assert Join(r, c) == [s[0]] + rest[0] + [c] + Join(rest[1..], c);
        }
      }
    }
  }

  /** A string without the separator is a single field. */
  lemma {:induction false} SplitNoSeparator(s: string, c: char)
    requires c !in s
    ensures Split(s, c) == [s]
    decreases |s|
  {
    if s != [] {
      assert c !in s[1..] && s[0] != c;
      SplitNoSeparator(s[1..], c);
      assert [s[0]] + s[1..] == s;
    }
  }

  /** `b in a` and `a in s` give `b in s`. */
  lemma ContainsTransitive(s: string, a: string, b: string)
    requires Contains(s, a) && Contains(a, b)
    ensures Contains(s, b)
  {
    var j :| 0 <= j <= |s| && OccursAt(s, a, j);
    var i :| 0 <= i <= |a| && OccursAt(a, b, i);
    assert s[j + i..j + i + |b|] == b by {
      forall k | 0 <= k < |b|
        ensures s[j + i + k] == b[k]
      {
        assert b[k] == a[i + k] == s[j..j + |a|][i + k];
      }
    }
    assert OccursAt(s, b, j + i);
  }

  /** Splitting at a separator splits the two sides independently. */
  lemma {:induction false} SplitConcat(a: string, b: string, c: char)
    ensures Split(a + [c] + b, c) == Split(a, c) + Split(b, c)
    decreases |a|
  {
    var s := a + [c] + b;
    if a == [] {
      assert s[1..] == b;
    } else {
      assert s[1..] == a[1..] + [c] + b;
      SplitConcat(a[1..], b, c);
    }
  }

  /** The first field is the prefix up to (not including) the first separator. */
  lemma {:induction false} SplitHead(s: string, c: char)
    ensures var h := Split(s, c)[0]; h <= s && (|h| == |s| || s[|h|] == c)
    decreases |s|
  {
    if s != [] && s[0] != c {
      SplitHead(s[1..], c);
    }
  }

  /** Joining fields that do not contain the separator, and splitting again, gives the fields back. */
  lemma {:induction false} SplitJoin(parts: seq<string>, c: char)
    requires |parts| >= 1 && forall i :: 0 <= i < |parts| ==> c !in parts[i]
    ensures Split(Join(parts, c), c) == parts
    decreases |parts|
  {
    SplitNoSeparator(parts[0], c);
    if |parts| > 1 {
      SplitJoin(parts[1..], c);
      SplitConcat(parts[0], Join(parts[1..], c), c);
      assert [parts[0]] + parts[1..] == parts;
    }
  }

  /** No field of a split holds a character the string lacks. */
  lemma {:induction false} SplitFieldsWithout(s: string, c: char, d: char)
    requires d !in s
    ensures forall i :: 0 <= i < |Split(s, c)| ==> d !in Split(s, c)[i]
    decreases |s|
  {
    if s != [] {
      assert d !in s[1..];
      SplitFieldsWithout(s[1..], c, d);
    }
  }

  /** The fields after a leading separator-free field `a` are those of `b`. */
  lemma SplitFirst(a: string, b: string, c: char)
    requires c !in a
    ensures Split(a + [c] + b, c) == [a] + Split(b, c)
  {
    SplitConcat(a, b, c);
    SplitNoSeparator(a, c);
  }

  /** The text after the last separator, when it follows the separator that ends `a`. */
  lemma LastFieldAfter(a: string, b: string, c: char)
    requires c !in b
    ensures LastField(a + [c] + b, c) == b
  {
    SplitConcat(a, b, c);
    SplitNoSeparator(b, c);
  }

  /** A string contains each of its infixes. */
  lemma ContainsInfix(a: string, b: string, d: string)
    ensures Contains(a + b + d, b)
  {
    var s := a + b + d;
    assert s[|a|..|a| + |b|] == b;
    assert OccursAt(s, b, |a|);
  }

  /** Python `s.split(c)[i]`, which raises IndexError when there are too few fields. */
  function Field(s: string, c: char, i: nat): (r: Result<string>)
    ensures r.Ok? <==> i < |Split(s, c)|
    ensures r.Ok? ==> c !in r.value
  {
    var parts := Split(s, c);
    if i < |parts| then Ok(parts[i]) else Err(IndexError)
  }

  /** Python `s.split(c)[-1]`: the text after the last separator. */
  function LastField(s: string, c: char): (r: string)
    ensures c !in r
    ensures EndsWith(s, r)
  {
    var parts := Split(s, c);
    LastFieldSuffix(s, c);
    parts[|parts| - 1]
  }

  lemma {:induction false} LastFieldSuffix(s: string, c: char)
    ensures var parts := Split(s, c); s == Join(parts[..|parts| - 1] + [""], c) + parts[|parts| - 1]
    decreases |s|
  {
    var parts := Split(s, c);
    if |parts| == 1 {
      JoinSplit(s, c);
    } else {
      JoinSplit(s, c);
      JoinPrefixLast(parts, c);
    }
  }

  lemma {:induction false} JoinPrefixLast(parts: seq<string>, c: char)
    requires |parts| >= 2
    ensures Join(parts, c) == Join(parts[..|parts| - 1] + [""], c) + parts[|parts| - 1]
    decreases |parts|
  {
    if |parts| == 2 {
      assert parts[..1] + [""] == [parts[0], ""];
    } else {
      var tail := parts[1..];
      JoinPrefixLast(tail, c);
      assert parts[..|parts| - 1] + [""] == [parts[0]] + (tail[..|tail| - 1] + [""]);
      assert (parts[..|parts| - 1] + [""])[1..] == tail[..|tail| - 1] + [""];
    }
  }

  /** Python `s.startswith(prefix)`. */
  predicate StartsWith(s: string, prefix: string)
  {
    prefix <= s
  }

  /** Python `s.endswith(suffix)`. */
  predicate EndsWith(s: string, suffix: string)
  {
    |suffix| <= |s| && s[|s| - |suffix|..] == suffix
  }

  /** Python `s.replace(a, b)` for one-character `a` and `b`. */
  function ReplaceChar(s: string, a: char, b: char): (r: string)
    ensures |r| == |s|
    ensures forall i :: 0 <= i < |s| ==> r[i] == if s[i] == a then b else s[i]
  {
    if s == [] then [] else [if s[0] == a then b else s[0]] + ReplaceChar(s[1..], a, b)
  }
}
