/**
 * The few JavaScript string operations the core relies on: `split`, `join`,
 * `toLowerCase` (on ASCII letters) and `includes`.
 */
module JsStrings {

  /** `s.split([c])`: the pieces between occurrences of `c`; always at least one piece. */
  function Split(s: string, c: char): (r: seq<string>)
    ensures |r| >= 1
    ensures forall k :: 0 <= k < |r| ==> c !in r[k]
  {
    if s == [] then [[]]
    else
      var rest := Split(s[1..], c);
      if s[0] == c then [[]] + rest
      else [[s[0]] + rest[0]] + rest[1..]
  }

  /** `xs.join([c])`: the pieces with one `c` between neighbours; `[]` joins to the empty string. */
  function Join(xs: seq<string>, c: char): string
  {
    if xs == [] then []
    else if |xs| == 1 then xs[0]
    else xs[0] + [c] + Join(xs[1..], c)
  }

  /** `s.split('/').pop()`: the text after the last `/`. */
  function LastSegment(s: string): (r: string)
    ensures '/' !in r
  {
    var parts := Split(s, '/');
    parts[|parts| - 1]
  }

  /** Splitting a piece-free-of-`c` prefix followed by `c` peels off exactly that piece. */
  lemma {:induction false} SplitCons(x: string, c: char, rest: string)
    requires c !in x
    ensures Split(x + [c] + rest, c) == [x] + Split(rest, c)
  {
    if x == [] {
      assert x + [c] + rest == [c] + rest;
      assert ([c] + rest)[1..] == rest;
    } else {
      var s := x + [c] + rest;
      assert s[0] == x[0] && s[0] != c;
      assert s[1..] == x[1..] + [c] + rest;
      SplitCons(x[1..], c, rest);
      assert [x[0]] + x[1..] == x;
    }
  }

  /** Splitting a string without `c` gives that string back as the only piece. */
  lemma {:induction false} SplitNoSeparator(x: string, c: char)
    requires c !in x
    ensures Split(x, c) == [x]
  {
    if x != [] {
      SplitNoSeparator(x[1..], c);
      assert [x[0]] + x[1..] == x;
    }
  }

  /** `split` undoes `join` when no piece contains the separator and there is at least one piece. */
  lemma {:induction false} SplitJoin(xs: seq<string>, c: char)
    requires |xs| >= 1
    requires forall k :: 0 <= k < |xs| ==> c !in xs[k]
    ensures Split(Join(xs, c), c) == xs
  {
    if |xs| == 1 {
      SplitNoSeparator(xs[0], c);
    } else {
      SplitJoin(xs[1..], c);
      SplitCons(xs[0], c, Join(xs[1..], c));
      assert [xs[0]] + xs[1..] == xs;
    }
  }

  /** `join` undoes `split`, for every string. */
  lemma {:induction false} JoinSplit(s: string, c: char)
    ensures Join(Split(s, c), c) == s
  {
    if s != [] {
      JoinSplit(s[1..], c);
      var rest := Split(s[1..], c);
      if s[0] == c {
        assert Join([[]] + rest, c) == [] + [c] + Join(rest, c) by {
          assert ([[]] + rest)[1..] == rest;
        }
        assert [s[0]] + s[1..] == s;
      } else {
        var tail := rest[1..];
        assert Join([rest[0]] + tail, c) == Join(rest, c) by {
          assert [rest[0]] + tail == rest;
        }
        JoinHead(rest[0], tail, c, s[0]);
        assert [s[0]] + s[1..] == s;
      }
    }
  }

  /** Prepending a character to the first piece prepends it to the joined string. */
  lemma JoinHead(x: string, tail: seq<string>, c: char, ch: char)
    ensures Join([[ch] + x] + tail, c) == [ch] + Join([x] + tail, c)
  {
    if tail == [] {
    } else {
      assert ([[ch] + x] + tail)[1..] == tail;
      assert ([x] + tail)[1..] == tail;
    }
  }

  /** The path `prefix/…/id` ends with the segment `id` when `id` has no `/`. */
  lemma LastSegmentOfPath(prefix: string, id: string)
    requires '/' !in id
    ensures LastSegment(prefix + "/" + id) == id
  {
    var parts := Split(prefix, '/');
    JoinSplit(prefix, '/');
    SplitJoin(parts + [id], '/');
    JoinSnoc(parts, id, '/');
  }

  /** Joining with one more piece appends the separator and that piece. */
  lemma {:induction false} JoinSnoc(xs: seq<string>, y: string, c: char)
    requires |xs| >= 1
    ensures Join(xs + [y], c) == Join(xs, c) + [c] + y
  {
    if |xs| == 1 {
      assert (xs + [y])[1..] == [y];
    } else {
      JoinSnoc(xs[1..], y, c);
      assert (xs + [y])[1..] == xs[1..] + [y];
    }
  }

  /** Splitting `x`, a separator and a separator-free `y` gives the pieces of `x`, then `y`. */
  lemma SplitSnoc(x: string, c: char, y: string)
    requires c !in y
    ensures Split(x + [c] + y, c) == Split(x, c) + [y]
  {
    var parts := Split(x, c);
    JoinSplit(x, c);
    JoinSnoc(parts, y, c);
    SplitJoin(parts + [y], c);
  }

  /** `/a` splits into the empty root and `a`. */
  lemma SplitRoot(a: string)
    requires '/' !in a
    ensures Split("/" + a, '/') == ["", a]
  {
    SplitCons("", '/', a);
    assert "" + ['/'] + a == "/" + a;
    SplitNoSeparator(a, '/');
  }

  /** `/a/b` splits into the empty root and its two segments. */
  lemma SplitTwo(a: string, b: string)
    requires '/' !in a && '/' !in b
    ensures Split("/" + a + "/" + b, '/') == ["", a, b]
  {
    SplitRoot(a);
    SplitSnoc("/" + a, '/', b);
  }

  /** `/a/b/c` splits into the empty root and its three segments. */
  lemma SplitThree(a: string, b: string, c: string)
    requires '/' !in a && '/' !in b && '/' !in c
    ensures Split("/" + a + "/" + b + "/" + c, '/') == ["", a, b, c]
  {
    SplitTwo(a, b);
    SplitSnoc("/" + a + "/" + b, '/', c);
  }

  /** `/a/b/c/d` splits into the empty root and its four segments. */
  lemma SplitFour(a: string, b: string, c: string, d: string)
    requires '/' !in a && '/' !in b && '/' !in c && '/' !in d
    ensures Split("/" + a + "/" + b + "/" + c + "/" + d, '/') == ["", a, b, c, d]
  {
    SplitThree(a, b, c);
    SplitSnoc("/" + a + "/" + b + "/" + c, '/', d);
  }

  /** `toLowerCase` on one character; only the ASCII letters A-Z change. */
  function LowerChar(ch: char): char
  {
    if 'A' <= ch <= 'Z' then (ch as int + 32) as char else ch
  }

  /** `toLowerCase`, character by character. */
  function Lower(s: string): (r: string)
    ensures |r| == |s|
    ensures forall k :: 0 <= k < |s| ==> r[k] == LowerChar(s[k])
    ensures forall k :: 0 <= k < |r| ==> !('A' <= r[k] <= 'Z')
  {
    if s == [] then [] else [LowerChar(s[0])] + Lower(s[1..])
  }

  /** Lowering twice is lowering once. */
  lemma LowerIdempotent(s: string)
    ensures Lower(Lower(s)) == Lower(s)
  {
    assert forall k :: 0 <= k < |s| ==> Lower(Lower(s))[k] == Lower(s)[k];
  }

  /** `needle` is a prefix of `hay`. */
  predicate StartsWith(hay: string, needle: string)
  {
    |needle| <= |hay| && hay[..|needle|] == needle
  }

  /** `hay.includes(needle)`: `needle` occurs somewhere in `hay`. */
  predicate Includes(hay: string, needle: string)
  {
    StartsWith(hay, needle) || (hay != [] && Includes(hay[1..], needle))
  }

  /** `needle` occurs in `hay` at position `i`. */
  predicate OccursAt(hay: string, needle: string, i: int)
  {
    0 <= i <= |hay| - |needle| && StartsWith(hay[i..], needle)
  }

  /** An occurrence at a position makes `includes` true. */
  lemma {:induction false} OccurrenceIncludes(hay: string, needle: string, i: int)
    requires OccursAt(hay, needle, i)
    ensures Includes(hay, needle)
    decreases i
  {
    if i == 0 {
      assert hay[0..] == hay;
    } else {
      assert hay[1..][i - 1..] == hay[i..];
      OccurrenceIncludes(hay[1..], needle, i - 1);
    }
  }

  /** When `includes` is true the needle occurs at some position. */
  lemma {:induction false} IncludesOccurs(hay: string, needle: string)
    requires Includes(hay, needle)
    ensures exists i :: OccursAt(hay, needle, i)
  {
    if StartsWith(hay, needle) {
      assert hay[0..] == hay;
      assert OccursAt(hay, needle, 0);
    } else {
      IncludesOccurs(hay[1..], needle);
      var i :| OccursAt(hay[1..], needle, i);
      assert hay[1..][i..] == hay[i + 1..];
      assert OccursAt(hay, needle, i + 1);
    }
  }

  /** `includes` as an occurrence at some position. */
  lemma IncludesAt(hay: string, needle: string)
    ensures Includes(hay, needle) <==> exists i :: OccursAt(hay, needle, i)
  {
    if Includes(hay, needle) {
      IncludesOccurs(hay, needle);
    }
    if exists i :: OccursAt(hay, needle, i) {
      var i :| OccursAt(hay, needle, i);
      OccurrenceIncludes(hay, needle, i);
    }
  }
}
