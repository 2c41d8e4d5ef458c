/** The few `java.lang.String` operations the services rely on. */
module Strings {

  /** `String.join(sep, parts)`: the parts in order, with `sep` between neighbours. */
  function Join(sep: string, parts: seq<string>): string
  {
    if |parts| == 0 then ""
    else if |parts| == 1 then parts[0]
    else Join(sep, parts[..|parts| - 1]) + sep + parts[|parts| - 1]
  }

  /** Sum of the lengths of the parts. */
  function TotalLength(parts: seq<string>): nat
  {
    if parts == [] then 0 else TotalLength(parts[..|parts| - 1]) + |parts[|parts| - 1]|
  }

  /** A join of n parts holds exactly the parts plus n - 1 separators. */
  lemma {:induction false} JoinLength(sep: string, parts: seq<string>)
    requires parts != []
    ensures |Join(sep, parts)| == TotalLength(parts) + (|parts| - 1) * |sep|
  {
    if |parts| > 1 {
      var init := parts[..|parts| - 1];
      JoinLength(sep, init);
      assert TotalLength(init[..|init| - 1]) + |init[|init| - 1]| == TotalLength(init);
    } else {
      assert parts[..0] == [];
    }
  }

  /** Joining keeps the order of the parts: the join of a concatenation is the
      join of the first half, one separator, and the join of the second half. */
  lemma {:induction false} JoinConcat(sep: string, a: seq<string>, b: seq<string>)
    requires a != [] && b != []
    ensures Join(sep, a + b) == Join(sep, a) + sep + Join(sep, b)
  {
    if |b| == 1 {
      assert (a + b)[..|a + b| - 1] == a;
    } else {
      var init := b[..|b| - 1];
      JoinConcat(sep, a, init);
      assert (a + b)[..|a + b| - 1] == a + init;
    }
  }

  /** The join of a non-empty list starts with the first part and ends with the last:
      there is no leading or trailing separator. */
  lemma {:induction false} JoinEnds(sep: string, parts: seq<string>)
    requires parts != []
    ensures |parts[0]| <= |Join(sep, parts)|
    ensures Join(sep, parts)[..|parts[0]|] == parts[0]
    ensures Join(sep, parts)[|Join(sep, parts)| - |parts[|parts| - 1]|..] == parts[|parts| - 1]
  {
    if |parts| > 1 {
      JoinEnds(sep, parts[..|parts| - 1]);
    }
  }

  /** Java's notion of white space for `trim`: any character up to U+0020. */
  predicate IsTrimmable(c: char)
  {
    c <= ' '
  }

  function TrimStart(s: string): (r: string)
    ensures |r| <= |s| && r == s[|s| - |r|..]
    ensures r == [] || !IsTrimmable(r[0])
  {
    if s != [] && IsTrimmable(s[0]) then TrimStart(s[1..]) else s
  }

  function TrimEnd(s: string): (r: string)
    ensures |r| <= |s| && r == s[..|r|]
    ensures r == [] || !IsTrimmable(r[|r| - 1])
  {
    if s != [] && IsTrimmable(s[|s| - 1]) then TrimEnd(s[..|s| - 1]) else s
  }

  /** `String.trim`. */
  function Trim(s: string): string
  {
    TrimEnd(TrimStart(s))
  }

  /** `s.trim().isEmpty()`. */
  predicate IsBlank(s: string)
  {
    Trim(s) == []
  }

  /** A string is blank exactly when every one of its characters is white space. */
  lemma {:induction false} BlankIffAllWhitespace(s: string)
    ensures IsBlank(s) <==> forall i :: 0 <= i < |s| ==> IsTrimmable(s[i])
  {
    if forall i :: 0 <= i < |s| ==> IsTrimmable(s[i]) {
      AllWhitespaceTrimsToEmpty(s);
    } else {
      var i :| 0 <= i < |s| && !IsTrimmable(s[i]);
      var t := TrimStart(s);
      assert |t| > 0 by {
        if t == [] {
          StartStopsAtVisible(s, i);
        }
      }
      assert !IsTrimmable(t[0]);
      assert TrimEnd(t) != [] by {
        EndKeepsFirst(t);
      }
    }
  }

  lemma {:induction false} AllWhitespaceTrimsToEmpty(s: string)
    requires forall i :: 0 <= i < |s| ==> IsTrimmable(s[i])
    ensures TrimStart(s) == []
  {
    if s != [] {
      AllWhitespaceTrimsToEmpty(s[1..]);
    }
  }

  lemma {:induction false} StartStopsAtVisible(s: string, i: nat)
    requires i < |s| && !IsTrimmable(s[i])
    ensures TrimStart(s) != []
  {
    if IsTrimmable(s[0]) {
      assert i > 0 && s[1..][i - 1] == s[i];
      StartStopsAtVisible(s[1..], i - 1);
      assert TrimStart(s) == TrimStart(s[1..]);
    } else {
      assert TrimStart(s) == s;
    }
  }

  lemma {:induction false} EndKeepsFirst(t: string)
    requires t != [] && !IsTrimmable(t[0])
    ensures TrimEnd(t) != []
  {
    if |t| > 1 && IsTrimmable(t[|t| - 1]) {
      EndKeepsFirst(t[..|t| - 1]);
    }
  }

  /** Trimming a string without white space changes nothing. */
  lemma TrimOfVisible(s: string)
    requires forall i :: 0 <= i < |s| ==> !IsTrimmable(s[i])
    ensures Trim(s) == s
  {
    assert TrimStart(s) == s;
  }
}
