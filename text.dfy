/**
 * String helpers of the facade: PHP's `explode`/`implode` on a one-character
 * separator, the last `/`-separated segment that `setStoreHash` keeps, and a
 * split at the first occurrence of a character.
 */
module Text {
  import opened Wrappers

  /** PHP `implode(sep, parts)`: the parts with one separator between neighbours. */
  function Implode(parts: seq<string>, sep: char): (s: string)
    requires |parts| >= 1
  {
    if |parts| == 1 then parts[0] else parts[0] + [sep] + Implode(parts[1..], sep)
  }

  /**
   * PHP `explode(sep, s)`: the pieces of `s` between separators. There is always
   * at least one piece, no piece holds the separator, and gluing the pieces back
   * together gives `s` again.
   */
  function Explode(s: string, sep: char): (parts: seq<string>)
    ensures |parts| >= 1
    ensures forall i :: 0 <= i < |parts| ==> sep !in parts[i]
    ensures Implode(parts, sep) == s
  {
    if s == [] then [""]
    else
      var rest := Explode(s[1..], sep);
      if s[0] == sep then
        assert ([""] + rest)[1..] == rest;
        [""] + rest
      else
        var parts := [[s[0]] + rest[0]] + rest[1..];
        assert parts[1..] == rest[1..];
        assert |rest| > 1 ==> Implode(rest, sep) == rest[0] + [sep] + Implode(rest[1..], sep);
        assert s == [s[0]] + s[1..];
        parts
  }

  /** Exploding a piece free of the separator gives that piece alone. */
  lemma {:induction false} ExplodePlain(a: string, sep: char)
    requires sep !in a
    ensures Explode(a, sep) == [a]
  {
    if a != [] {
      ExplodePlain(a[1..], sep);
      assert [a[0]] + a[1..] == a;
    }
  }

  /** A separator-free head followed by the separator splits off as the first piece. */
  lemma {:induction false} ExplodeCons(a: string, b: string, sep: char)
    requires sep !in a
    ensures Explode(a + [sep] + b, sep) == [a] + Explode(b, sep)
  {
    if a == [] {
      assert a + [sep] + b == [sep] + b;
      assert ([sep] + b)[1..] == b;
    } else {
      var s := a + [sep] + b;
      assert s[0] == a[0] && s[1..] == a[1..] + [sep] + b;
      ExplodeCons(a[1..], b, sep);
      assert [a[0]] + a[1..] == a;
    }
  }

  /**
   * `explode` inverts `implode` on separator-free pieces: the pieces are the
   * only split of the string with those properties.
   */
  lemma {:induction false} ExplodeImplode(parts: seq<string>, sep: char)
    requires |parts| >= 1
    requires forall i :: 0 <= i < |parts| ==> sep !in parts[i]
    ensures Explode(Implode(parts, sep), sep) == parts
  {
    if |parts| == 1 {
      ExplodePlain(parts[0], sep);
    } else {
      assert sep !in parts[0];
      ExplodeImplode(parts[1..], sep);
      ExplodeCons(parts[0], Implode(parts[1..], sep), sep);
      assert [parts[0]] + parts[1..] == parts;
    }
  }

  /**
   * The last piece ends the imploded string; when there is more than one piece
   * the separator stands right before it.
   */
  lemma {:induction false} ImplodeLast(parts: seq<string>, sep: char)
    requires |parts| >= 1
    ensures var s, l := Implode(parts, sep), parts[|parts| - 1];
      |l| <= |s| && s[|s| - |l|..] == l &&
      (|parts| == 1 ==> |l| == |s|) &&
      (|parts| > 1 ==> |l| < |s| && s[|s| - |l| - 1] == sep)
  {
    if |parts| > 1 {
      ImplodeLast(parts[1..], sep);
      var t := Implode(parts[1..], sep);
      var l := parts[|parts| - 1];
      assert parts[1..][|parts| - 2] == l;
      var s := parts[0] + [sep] + t;
      assert s[|s| - |t|..] == t;
      if |parts| == 2 {
        assert s[|s| - |l| - 1] == sep;
      }
    }
  }

  /**
   * The last `/`-separated segment of `s`: a suffix of `s` that holds no `/` and
   * is either all of `s` or preceded by a `/`.
   */
  function LastSegment(s: string): (r: string)
    ensures |r| <= |s| && s[|s| - |r|..] == r
    ensures '/' !in r
    ensures |r| < |s| ==> s[|s| - |r| - 1] == '/'
  {
    var parts := Explode(s, '/');
    ImplodeLast(parts, '/');
    parts[|parts| - 1]
  }

  /**
   * The three properties in LastSegment's contract determine the segment: any
   * string with them is the last segment.
   */
  lemma LastSegmentUnique(s: string, t: string)
    requires |t| <= |s| && s[|s| - |t|..] == t
    requires '/' !in t
    requires |t| < |s| ==> s[|s| - |t| - 1] == '/'
    ensures t == LastSegment(s)
  {
  }

  /** Whatever follows the last `/` is the segment kept. */
  lemma LastSegmentAfterLastSlash(s: string, k: nat)
    requires k < |s| && s[k] == '/'
    requires forall j :: k < j < |s| ==> s[j] != '/'
    ensures LastSegment(s) == s[k + 1..]
  {
    var t := s[k + 1..];
    assert '/' !in t by {
      forall i | 0 <= i < |t| ensures t[i] != '/' {
        assert t[i] == s[k + 1 + i];
      }
    }
    LastSegmentUnique(s, t);
  }

  /** A string without `/` is its own last segment. */
  lemma LastSegmentOfPlain(s: string)
    requires '/' !in s
    ensures LastSegment(s) == s
  {
  }

  /** A string ending in `/` has the empty string as its last segment. */
  lemma LastSegmentTrailingSlash(s: string)
    requires |s| > 0 && s[|s| - 1] == '/'
    ensures LastSegment(s) == ""
  {
  }

  /** Taking the last segment twice gives the same as taking it once. */
  lemma LastSegmentIdempotent(s: string)
    ensures LastSegment(LastSegment(s)) == LastSegment(s)
  {
    LastSegmentOfPlain(LastSegment(s));
  }

  /**
   * Splits `s` at the first occurrence of `c` into what comes before it and
   * what comes after it; None when `c` does not occur.
   */
  function SplitFirst(s: string, c: char): (r: Option<(string, string)>)
    ensures r.None? <==> c !in s
    ensures r.Some? ==> c !in r.value.0 && s == r.value.0 + [c] + r.value.1
  {
    if s == [] then None
    else if s[0] == c then Some(([], s[1..]))
    else
      match SplitFirst(s[1..], c)
      case None => None
      case Some((a, b)) =>
        assert s == [s[0]] + s[1..];
        Some(([s[0]] + a, b))
  }

  /** The split is at the first occurrence: a head free of `c` is recovered exactly. */
  lemma {:induction false} SplitFirstOf(a: string, b: string, c: char)
    requires c !in a
    ensures SplitFirst(a + [c] + b, c) == Some((a, b))
  {
    if a == [] {
      assert a + [c] + b == [c] + b;
    } else {
      var s := a + [c] + b;
      assert s[0] == a[0] && s[1..] == a[1..] + [c] + b;
      SplitFirstOf(a[1..], b, c);
      assert [a[0]] + a[1..] == a;
    }
  }
}
