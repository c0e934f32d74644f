/** strings.Split and what is needed of it, over unbounded strings. */
module Text {

  predicate StartsWith(s: string, sep: string) {
    |sep| <= |s| && s[..|sep|] == sep
  }

  /** strings.Split for a separator that is not empty: fields between the
      leftmost non-overlapping occurrences. */
  function Split(s: string, sep: string): (fields: seq<string>)
    requires sep != ""
    ensures |fields| >= 1
    decreases |s|
  {
    if StartsWith(s, sep) then [""] + Split(s[|sep|..], sep)
    else if s == "" then [""]
    else
      var rest := Split(s[1..], sep);
      [[s[0]] + rest[0]] + rest[1..]
  }

  function Join(fields: seq<string>, sep: string): string
    requires |fields| >= 1
  {
    if |fields| == 1 then fields[0] else fields[0] + sep + Join(fields[1..], sep)
  }

  predicate Free(s: string, c: char) {
    c !in s
  }

  function CountOf(s: string, c: char): nat {
    if s == "" then 0 else (if s[0] == c then 1 else 0) + CountOf(s[1..], c)
  }

  lemma JoinFirst(first: string, rest: seq<string>, sep: string)
    requires |rest| >= 1
    ensures Join([first] + rest, sep) == first + sep + Join(rest, sep)
  {
    assert ([first] + rest)[1..] == rest;
  }

  lemma JoinLonger(c: char, fields: seq<string>, sep: string)
    requires |fields| >= 1
    ensures Join([[c] + fields[0]] + fields[1..], sep) == [c] + Join(fields, sep)
  {
    if |fields| > 1 {
      JoinFirst([c] + fields[0], fields[1..], sep);
      assert [c] + fields[0] + sep + Join(fields[1..], sep) == [c] + (fields[0] + sep + Join(fields[1..], sep));
    } else {
      assert [[c] + fields[0]] + fields[1..] == [[c] + fields[0]];
    }
  }

  /** Splitting loses nothing. */
  lemma {:induction false} JoinSplit(s: string, sep: string)
    requires sep != ""
    ensures Join(Split(s, sep), sep) == s
    decreases |s|
  {
    if StartsWith(s, sep) {
      JoinSplit(s[|sep|..], sep);
      JoinFirst("", Split(s[|sep|..], sep), sep);
      assert s == s[..|sep|] + s[|sep|..];
      assert "" + sep + s[|sep|..] == s;
    } else if s != "" {
      JoinSplit(s[1..], sep);
      JoinLonger(s[0], Split(s[1..], sep), sep);
      assert s == [s[0]] + s[1..];
    }
  }

  /** A field without the separator character, the separator, and the rest. */
  lemma {:induction false} SplitAt(a: string, c: char, b: string)
    requires Free(a, c)
    ensures Split(a + [c] + b, [c]) == [a] + Split(b, [c])
    decreases |a|
  {
    var s := a + [c] + b;
    if a == "" {
      assert s == [c] + b;
      assert s[..1] == [c] && s[1..] == b;
    } else {
      assert s[0] == a[0] && s[1..] == a[1..] + [c] + b;
      assert s[..1] == [a[0]];
      SplitAt(a[1..], c, b);
      var rest := [a[1..]] + Split(b, [c]);
      assert rest[0] == a[1..] && rest[1..] == Split(b, [c]);
      assert [a[0]] + a[1..] == a;
    }
  }

  lemma {:induction false} SplitFree(a: string, c: char)
    requires Free(a, c)
    ensures Split(a, [c]) == [a]
    decreases |a|
  {
    if a != "" {
      assert a[..1] == [a[0]];
      SplitFree(a[1..], c);
      assert [a[0]] + a[1..] == a;
    }
  }

  lemma Split2(a: string, c: char, b: string)
    requires Free(a, c) && Free(b, c)
    ensures Split(a + [c] + b, [c]) == [a, b]
  {
    SplitAt(a, c, b);
    SplitFree(b, c);
  }

  lemma Split3(a: string, b: string, d: string, c: char)
    requires Free(a, c) && Free(b, c) && Free(d, c)
    ensures Split(a + [c] + b + [c] + d, [c]) == [a, b, d]
  {
    Assoc(a + [c], b, [c]);
    Assoc(a + [c], b + [c], d);
    SplitAt(a, c, b + [c] + d);
    Split2(b, c, d);
  }

  lemma Split4(a: string, b: string, d: string, e: string, c: char)
    requires Free(a, c) && Free(b, c) && Free(d, c) && Free(e, c)
    ensures Split(a + [c] + b + [c] + d + [c] + e, [c]) == [a, b, d, e]
  {
    var x, y := a + [c], b + [c];
    Assoc(x, b, [c]);
    Assoc(x, y, d);
    Assoc(x, y + d, [c]);
    Assoc(x, y + d + [c], e);
    SplitAt(a, c, y + d + [c] + e);
    Split3(b, d, e, c);
  }

  lemma Assoc(x: string, y: string, z: string)
    ensures x + y + z == x + (y + z)
  {
  }

  /** One more field than separators. */
  lemma {:induction false} SplitCount(s: string, c: char)
    ensures |Split(s, [c])| == CountOf(s, c) + 1
    decreases |s|
  {
    if s != "" {
      assert s[..1] == [s[0]];
      SplitCount(s[1..], c);
    }
  }

  lemma {:induction false} CountConcat(a: string, b: string, c: char)
    ensures CountOf(a + b, c) == CountOf(a, c) + CountOf(b, c)
    decreases |a|
  {
    if a == "" {
      assert a + b == b;
    } else {
      assert (a + b)[1..] == a[1..] + b;
      CountConcat(a[1..], b, c);
    }
  }

  lemma {:induction false} CountFree(a: string, c: char)
    ensures CountOf(a, c) == 0 <==> Free(a, c)
    decreases |a|
  {
    if a != "" {
      CountFree(a[1..], c);
      assert a == [a[0]] + a[1..];
    }
  }

  /** No occurrence of "]:" that begins inside a. */
  predicate NoBracketColon(a: string) {
    forall i :: 0 <= i < |a| - 1 ==> !(a[i] == ']' && a[i + 1] == ':')
  }

  lemma {:induction false} SplitAtBracket(a: string, b: string)
    requires NoBracketColon(a) && (a == "" || a[|a| - 1] != ']')
    ensures Split(a + "]:" + b, "]:") == [a] + Split(b, "]:")
    decreases |a|
  {
    var s := a + "]:" + b;
    if a == "" {
      assert s == "]:" + b;
      assert s[..2] == "]:" && s[2..] == b;
    } else {
      assert s[0] == a[0] && s[1..] == a[1..] + "]:" + b;
      assert s[..2][0] == a[0] && s[..2][1] == (if |a| == 1 then ']' else a[1]);
      SplitAtBracket(a[1..], b);
      var rest := [a[1..]] + Split(b, "]:");
      assert rest[0] == a[1..] && rest[1..] == Split(b, "]:");
      assert [a[0]] + a[1..] == a;
    }
  }

  lemma {:induction false} SplitNoBracket(b: string)
    requires NoBracketColon(b)
    ensures Split(b, "]:") == [b]
    decreases |b|
  {
    if b != "" {
      if |b| >= 2 {
        assert b[..2][0] == b[0] && b[..2][1] == b[1];
      }
      SplitNoBracket(b[1..]);
      assert [b[0]] + b[1..] == b;
    }
  }
}
