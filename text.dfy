/**
 * Rust's `str::split(c)` on a single character: the pieces between the
 * occurrences of `c`, always at least one piece (the whole string when `c`
 * does not occur). `Join` puts them back together.
 */
module Text {

  function Split(s: string, sep: char): (parts: seq<string>)
    ensures |parts| >= 1
    decreases |s|
  {
    if s == [] then [[]]
    else
      var rest := Split(s[1..], sep);
      if s[0] == sep then [[]] + rest else [[s[0]] + rest[0]] + rest[1..]
  }

  /** The pieces with `sep` between each two of them. */
  function Join(parts: seq<string>, sep: char): string
    requires |parts| >= 1
    decreases |parts|
  {
    if |parts| == 1 then parts[0] else parts[0] + [sep] + Join(parts[1..], sep)
  }

  /** The text before the first `sep`, or all of `s` when there is none. */
  function Before(s: string, sep: char): (b: string)
    ensures sep !in b
    ensures b <= s
    ensures sep in s ==> |b| < |s| && s[|b|] == sep
    ensures sep !in s ==> b == s
    decreases |s|
  {
    if s == [] || s[0] == sep then [] else [s[0]] + Before(s[1..], sep)
  }

  /** The text after the first `sep`. */
  function After(s: string, sep: char): (a: string)
    requires sep in s
    ensures s == Before(s, sep) + [sep] + a
  {
    s[|Before(s, sep)| + 1..]
  }

  /** Joining the pieces gives back the string, and no piece holds the separator. */
  lemma {:induction false} JoinSplit(s: string, sep: char)
    ensures Join(Split(s, sep), sep) == s
    ensures forall i :: 0 <= i < |Split(s, sep)| ==> sep !in Split(s, sep)[i]
    decreases |s|
  {
    if s != [] {
      JoinSplit(s[1..], sep);
      var rest := Split(s[1..], sep);
      var parts := Split(s, sep);
      if s[0] == sep {
        assert parts[0] == [] && parts[1..] == rest;
      } else {
        assert parts[0] == [s[0]] + rest[0] && parts[1..] == rest[1..];
        if |rest| > 1 {
          assert Join(rest, sep) == rest[0] + [sep] + Join(rest[1..], sep);
        }
        forall i | 0 <= i < |parts|
          ensures sep !in parts[i]
        {
          if i > 0 {
            assert parts[i] == rest[i];
          }
        }
      }
    }
  }

  /** Splitting a string that starts with a separator-free piece and a separator. */
  lemma {:induction false} SplitCons(w: string, sep: char, t: string)
    requires sep !in w
    ensures Split(w + [sep] + t, sep) == [w] + Split(t, sep)
    decreases |w|
  {
    if w != [] {
      assert (w + [sep] + t)[1..] == w[1..] + [sep] + t;
      SplitCons(w[1..], sep, t);
      assert [w[0]] + w[1..] == w;
    }
  }

  /** Splitting two strings joined by a separator gives the pieces of the first, then those of the second. */
  lemma {:induction false} SplitAppend(a: string, sep: char, b: string)
    ensures Split(a + [sep] + b, sep) == Split(a, sep) + Split(b, sep)
    decreases |a|
  {
    if a == [] {
      assert a + [sep] + b == [sep] + b;
      assert ([sep] + b)[1..] == b;
    } else {
      var s := a + [sep] + b;
      assert s[0] == a[0];
      assert s[1..] == a[1..] + [sep] + b;
      SplitAppend(a[1..], sep, b);
    }
  }

  /** A separator-free string is a single piece. */
  lemma {:induction false} SplitFree(w: string, sep: char)
    requires sep !in w
    ensures Split(w, sep) == [w]
    decreases |w|
  {
    if w != [] {
      SplitFree(w[1..], sep);
      assert [w[0]] + w[1..] == w;
    }
  }

  /** Splitting what `Join` built recovers the pieces, as long as none of them holds the separator. */
  lemma {:induction false} SplitJoin(parts: seq<string>, sep: char)
    requires |parts| >= 1
    requires forall i :: 0 <= i < |parts| ==> sep !in parts[i]
    ensures Split(Join(parts, sep), sep) == parts
    decreases |parts|
  {
    if |parts| == 1 {
      SplitFree(parts[0], sep);
    } else {
      SplitJoin(parts[1..], sep);
      SplitCons(parts[0], sep, Join(parts[1..], sep));
      assert parts == [parts[0]] + parts[1..];
    }
  }

  /** The first piece is the text before the first separator; the others are the pieces of the text after it. */
  lemma {:induction false} SplitFirst(s: string, sep: char)
    ensures Split(s, sep)[0] == Before(s, sep)
    ensures sep in s ==> Split(s, sep) == [Before(s, sep)] + Split(After(s, sep), sep)
    ensures sep in s ==> |Split(s, sep)| >= 2 && Split(s, sep)[1] == Before(After(s, sep), sep)
    ensures sep !in s ==> Split(s, sep) == [s]
    decreases |s|
  {
    if sep in s {
      SplitCons(Before(s, sep), sep, After(s, sep));
      SplitFirst(After(s, sep), sep);
    } else {
      SplitFree(s, sep);
    }
  }

  /** Before and after the first separator of a string that starts with a separator-free piece. */
  lemma {:induction false} BeforeCons(w: string, sep: char, t: string)
    requires sep !in w
    ensures Before(w + [sep] + t, sep) == w
    ensures After(w + [sep] + t, sep) == t
    decreases |w|
  {
    var s := w + [sep] + t;
    if w != [] {
      assert s[1..] == w[1..] + [sep] + t;
      BeforeCons(w[1..], sep, t);
      assert [w[0]] + w[1..] == w;
    }
    assert s[|w| + 1..] == t;
  }
}
