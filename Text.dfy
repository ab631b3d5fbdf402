/** String helpers the bot relies on: `sep.join(parts)`, its inverse
    `s.split(c)` for a one-character separator, and substring search
    (`pattern in s`). Strings are sequences of characters. */
module Text {

  /** `sep.join(parts)`: the parts in order, with `sep` between neighbours. */
  function Join(parts: seq<string>, sep: string): (r: string)
    ensures |parts| == 0 ==> r == ""
    ensures |parts| > 0 ==> |r| == TotalLength(parts) + |sep| * (|parts| - 1)
    ensures |parts| > 0 ==> |parts[0]| <= |r| && r[..|parts[0]|] == parts[0]
  {
    if |parts| == 0 then ""
    else if |parts| == 1 then parts[0]
    else parts[0] + sep + Join(parts[1..], sep)
  }

  /** Sum of the lengths of the parts. */
  function TotalLength(parts: seq<string>): nat
  {
    if |parts| == 0 then 0 else |parts[0]| + TotalLength(parts[1..])
  }

  /** Where part `i` starts in `Join(parts, sep)`: after the parts before it,
      each followed by one separator. */
  function JoinOffset(parts: seq<string>, sep: string, i: nat): nat
    requires i <= |parts|
  {
    if i == 0 then 0 else |parts[0]| + |sep| + JoinOffset(parts[1..], sep, i - 1)
  }

  /** An occurrence in `b` is an occurrence in `a + b`, shifted by `|a|`. */
  lemma OccursAfter(a: string, b: string, p: string, o: int)
    requires OccursAt(b, p, o)
    ensures OccursAt(a + b, p, |a| + o)
  {
    assert (a + b)[|a| + o..|a| + o + |p|] == b[o..o + |p|];
  }

  /** Part `i` sits at its offset in the joined text. */
  lemma {:induction false} JoinPartAt(parts: seq<string>, sep: string, i: nat)
    requires i < |parts|
    ensures OccursAt(Join(parts, sep), parts[i], JoinOffset(parts, sep, i))
  {
    var r := Join(parts, sep);
    if i == 0 {
      assert r[0..|parts[0]|] == parts[0];
    } else {
      var rest := Join(parts[1..], sep);
      var o := JoinOffset(parts[1..], sep, i - 1);
      JoinPartAt(parts[1..], sep, i - 1);
      assert parts[1..][i - 1] == parts[i];
      assert r == (parts[0] + sep) + rest;
      OccursAfter(parts[0] + sep, rest, parts[i], o);
    }
  }

  /** A separator follows part `i` when it is not the last. */
  lemma {:induction false} JoinSeparatorAt(parts: seq<string>, sep: string, i: nat)
    requires i + 1 < |parts|
    ensures OccursAt(Join(parts, sep), sep, JoinOffset(parts, sep, i) + |parts[i]|)
  {
    var r := Join(parts, sep);
    var rest := Join(parts[1..], sep);
    assert r == (parts[0] + sep) + rest;
    if i == 0 {
      assert r[|parts[0]|..|parts[0]| + |sep|] == sep;
    } else {
      var o := JoinOffset(parts[1..], sep, i - 1) + |parts[i]|;
      JoinSeparatorAt(parts[1..], sep, i - 1);
      assert parts[1..][i - 1] == parts[i];
      OccursAfter(parts[0] + sep, rest, sep, o);
    }
  }

  /** The joined text holds every part at its offset, and a separator right
      after every part but the last. With the length in `Join`'s contract,
      this pins down every character of the result. */
  lemma JoinPositions(parts: seq<string>, sep: string)
    ensures forall i :: 0 <= i < |parts| ==> OccursAt(Join(parts, sep), parts[i], JoinOffset(parts, sep, i))
    ensures forall i :: 0 <= i < |parts| - 1 ==>
      OccursAt(Join(parts, sep), sep, JoinOffset(parts, sep, i) + |parts[i]|)
  {
    forall i | 0 <= i < |parts| {
      JoinPartAt(parts, sep, i);
    }
    forall i | 0 <= i < |parts| - 1 {
      JoinSeparatorAt(parts, sep, i);
    }
  }

  /** A part ends, and its separator follows, before any later part starts. */
  lemma {:induction false} JoinOffsetOrder(parts: seq<string>, sep: string, i: nat, j: nat)
    requires i < j <= |parts|
    ensures JoinOffset(parts, sep, i) + |parts[i]| + |sep| <= JoinOffset(parts, sep, j)
  {
    if i > 0 {
      JoinOffsetOrder(parts[1..], sep, i - 1, j - 1);
      assert parts[1..][i - 1] == parts[i];
    }
  }

  /** `s.split(c)`: the maximal pieces of `s` between occurrences of `c`;
      like Python, the empty string splits into one empty piece. */
  function SplitOn(s: string, c: char): (r: seq<string>)
    ensures |r| >= 1
    ensures forall i :: 0 <= i < |r| ==> c !in r[i]
  {
    if |s| == 0 then [""]
    else if s[0] == c then [""] + SplitOn(s[1..], c)
    else
      var rest := SplitOn(s[1..], c);
      [[s[0]] + rest[0]] + rest[1..]
  }

  /** A piece without the separator is split into just itself. */
  lemma {:induction false} SplitOnPlain(a: string, c: char)
    requires c !in a
    ensures SplitOn(a, c) == [a]
  {
    if |a| > 0 {
      assert a[0] != c && c !in a[1..];
      SplitOnPlain(a[1..], c);
      assert [a[0]] + a[1..] == a;
    }
  }

  /** Splitting stops at the first separator. */
  lemma {:induction false} SplitOnFirst(a: string, c: char, b: string)
    requires c !in a
    ensures SplitOn(a + [c] + b, c) == [a] + SplitOn(b, c)
  {
    if |a| == 0 {
      assert a + [c] + b == [c] + b;
      assert ([c] + b)[1..] == b;
    } else {
      assert (a + [c] + b)[1..] == a[1..] + [c] + b;
      SplitOnFirst(a[1..], c, b);
      assert [a[0]] + a[1..] == a;
    }
  }

  /** Splitting undoes joining, when no part holds the separator. */
  lemma {:induction false} SplitJoin(parts: seq<string>, c: char)
    requires |parts| > 0
    requires forall i :: 0 <= i < |parts| ==> c !in parts[i]
    ensures SplitOn(Join(parts, [c]), c) == parts
  {
    if |parts| == 1 {
      SplitOnPlain(parts[0], c);
    } else {
      SplitJoin(parts[1..], c);
      SplitOnFirst(parts[0], c, Join(parts[1..], [c]));
      assert [parts[0]] + parts[1..] == parts;
    }
  }

  /** `pattern in s`: `pattern` occurs somewhere in `s` as a contiguous piece. */
  predicate Contains(s: string, pattern: string)
    decreases |s|
  {
    if |pattern| > |s| then false
    else s[..|pattern|] == pattern || (|s| > 0 && Contains(s[1..], pattern))
  }

  /** `pattern` occurs in `s` starting at position `i`. */
  predicate OccursAt(s: string, pattern: string, i: int)
  {
    0 <= i && i + |pattern| <= |s| && s[i..i + |pattern|] == pattern
  }

  /** Contains agrees with the definition by an occurrence position. */
  lemma {:induction false} ContainsIff(s: string, pattern: string)
    ensures Contains(s, pattern) <==> exists i :: OccursAt(s, pattern, i)
    decreases |s|
  {
    if |pattern| <= |s| && |s| > 0 {
      ContainsIff(s[1..], pattern);
      if s[..|pattern|] == pattern {
        assert s[0..0 + |pattern|] == s[..|pattern|];
        assert OccursAt(s, pattern, 0);
      }
      if Contains(s[1..], pattern) && s[..|pattern|] != pattern {
        var i :| OccursAt(s[1..], pattern, i);
        assert s[i + 1..i + 1 + |pattern|] == s[1..][i..i + |pattern|];
        assert OccursAt(s, pattern, i + 1);
      }
      if exists i :: OccursAt(s, pattern, i) {
        var i :| OccursAt(s, pattern, i);
        if i > 0 {
          assert s[1..][i - 1..i - 1 + |pattern|] == s[i..i + |pattern|];
          assert OccursAt(s[1..], pattern, i - 1);
        } else {
          assert s[..|pattern|] == s[i..i + |pattern|];
        }
      }
    } else if |pattern| <= |s| {
      assert OccursAt(s, pattern, 0);
    }
  }
}
