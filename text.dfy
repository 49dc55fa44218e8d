/** The three Python string operations the dashboard relies on:
    `sep.join(parts)`, `s.split(sep)` (which pandas' `str.get_dummies(sep=...)`
    applies to every cell) and the substring test `t in s`. */
module Text {

  /** Python's `sep.join(parts)`: the parts in order with `sep` between
      neighbours; the empty list joins to the empty string. */
  function Join(parts: seq<string>, sep: string): string
  {
    if |parts| == 0 then ""
    else if |parts| == 1 then parts[0]
    else parts[0] + sep + Join(parts[1..], sep)
  }

  /** Python's `s.split(sep)` for a non-empty separator: scan left to right and
      cut at every non-overlapping occurrence of `sep`. */
  function Split(s: string, sep: string): seq<string>
    requires |sep| > 0
  {
    SplitFrom(s, sep, "")
  }

  /** The scan behind `Split`; `cur` is the piece read since the last cut. */
  function SplitFrom(s: string, sep: string, cur: string): seq<string>
    requires |sep| > 0
    decreases |s|
  {
    if s == [] then [cur]
    else if sep <= s then [cur] + SplitFrom(s[|sep|..], sep, "")
    else SplitFrom(s[1..], sep, cur + [s[0]])
  }

  /** Python's substring test `t in s`. */
  predicate Contains(s: string, t: string)
    decreases |s|
  {
    t <= s || (|s| > 0 && Contains(s[1..], t))
  }

  // ----- join and split -----

  /** A piece that cannot start a separator is read whole into the current piece. */
  lemma {:induction false} SplitFromSkips(p: string, rest: string, sep: string, cur: string)
    requires |sep| > 0 && sep[0] !in p
    ensures SplitFrom(p + rest, sep, cur) == SplitFrom(rest, sep, cur + p)
    decreases |p|
  {
    if p == [] {
      assert p + rest == rest;
      assert cur + p == cur;
    } else {
      var s := p + rest;
      assert s[0] == p[0] != sep[0];
      assert !(sep <= s);
      assert s[1..] == p[1..] + rest;
      SplitFromSkips(p[1..], rest, sep, cur + [p[0]]);
      assert cur + [p[0]] + p[1..] == cur + p;
    }
  }

  lemma {:induction false} SplitFromJoin(parts: seq<string>, sep: string, cur: string)
    requires |sep| > 0 && |parts| > 0
    requires forall k :: 0 <= k < |parts| ==> sep[0] !in parts[k]
    ensures SplitFrom(Join(parts, sep), sep, cur) == [cur + parts[0]] + parts[1..]
    decreases |parts|
  {
    if |parts| == 1 {
      SplitFromSkips(parts[0], "", sep, cur);
      assert parts[0] + "" == parts[0];
    } else {
      var tail := Join(parts[1..], sep);
      assert Join(parts, sep) == parts[0] + (sep + tail);
      SplitFromSkips(parts[0], sep + tail, sep, cur);
      assert (sep + tail)[|sep|..] == tail;
      SplitFromJoin(parts[1..], sep, "");
      assert "" + parts[1] == parts[1];
      assert [parts[1]] + parts[2..] == parts[1..];
    }
  }

  /** Splitting undoes joining, provided no part holds the separator's first
      character (so no separator can start inside a part). */
  lemma SplitJoin(parts: seq<string>, sep: string)
    requires |sep| > 0 && |parts| > 0
    requires forall k :: 0 <= k < |parts| ==> sep[0] !in parts[k]
    ensures Split(Join(parts, sep), sep) == parts
  {
    SplitFromJoin(parts, sep, "");
    assert "" + parts[0] == parts[0];
  }

  /** Splitting a string in which the separator cannot start yields the string itself. */
  lemma SplitWhole(s: string, sep: string)
    requires |sep| > 0 && sep[0] !in s
    ensures Split(s, sep) == [s]
  {
    SplitFromSkips(s, "", sep, "");
    assert s + "" == s;
    assert "" + s == s;
  }

  // ----- substrings -----

  lemma {:induction false} ContainsExtendRight(s: string, u: string, t: string)
    requires Contains(s, t)
    ensures Contains(s + u, t)
    decreases |s|
  {
    if !(t <= s) {
      assert (s + u)[1..] == s[1..] + u;
      ContainsExtendRight(s[1..], u, t);
    }
  }

  lemma {:induction false} ContainsExtendLeft(s: string, u: string, t: string)
    requires Contains(u, t)
    ensures Contains(s + u, t)
    decreases |s|
  {
    if s == [] {
      assert s + u == u;
    } else {
      assert (s + u)[1..] == s[1..] + u;
      ContainsExtendLeft(s[1..], u, t);
    }
  }

  /** An occurrence of a non-empty `t` puts `t`'s first character in `s`. */
  lemma {:induction false} ContainsFirstChar(s: string, t: string)
    requires |t| > 0 && Contains(s, t)
    ensures t[0] in s
    decreases |s|
  {
    if t <= s {
      assert s[0] == t[0];
    } else {
      ContainsFirstChar(s[1..], t);
      assert s == [s[0]] + s[1..];
    }
  }

  /** Every part occurs in the joined string. */
  lemma {:induction false} JoinContainsPart(parts: seq<string>, sep: string, k: nat)
    requires k < |parts|
    ensures Contains(Join(parts, sep), parts[k])
    decreases |parts|
  {
    if |parts| == 1 {
      assert Contains(parts[0], parts[0]);
    } else if k == 0 {
      assert Contains(parts[0], parts[0]);
      ContainsExtendRight(parts[0], sep + Join(parts[1..], sep), parts[0]);
      assert parts[0] + sep + Join(parts[1..], sep) == parts[0] + (sep + Join(parts[1..], sep));
    } else {
      JoinContainsPart(parts[1..], sep, k - 1);
      ContainsExtendLeft(parts[0] + sep, Join(parts[1..], sep), parts[k]);
    }
  }

  /** A character found neither in the separator nor in any part is not in the join. */
  lemma {:induction false} JoinAvoidsChar(parts: seq<string>, sep: string, c: char)
    requires c !in sep
    requires forall k :: 0 <= k < |parts| ==> c !in parts[k]
    ensures c !in Join(parts, sep)
    decreases |parts|
  {
    if |parts| > 1 {
      JoinAvoidsChar(parts[1..], sep, c);
      var j := parts[0] + sep + Join(parts[1..], sep);
      forall i | 0 <= i < |j| ensures j[i] != c {
        if i < |parts[0]| {
          assert j[i] == parts[0][i];
        } else if i < |parts[0]| + |sep| {
          assert j[i] == sep[i - |parts[0]|];
        } else {
          assert j[i] == Join(parts[1..], sep)[i - |parts[0]| - |sep|];
        }
      }
    }
  }

  /** A join whose first part is non-empty starts with that part's first character. */
  lemma JoinFirstChar(parts: seq<string>, sep: string)
    requires |parts| > 0 && |parts[0]| > 0
    ensures |Join(parts, sep)| > 0 && Join(parts, sep)[0] == parts[0][0]
  {
  }
}
