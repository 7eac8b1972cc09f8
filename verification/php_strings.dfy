/** The PHP string functions the core relies on: `rtrim` with one
    character, `ucfirst`, `explode` (with and without a limit of 2) and
    `implode`. */
module PhpStrings {
  import opened PhpValues

  predicate EndsWith(s: string, c: char)
  {
    |s| > 0 && s[|s| - 1] == c
  }

  /** `rtrim($s, $c)` for a single character `c`: every trailing `c` is
      removed, so the result is a prefix of `s` that does not end in `c`,
      and only copies of `c` were removed. */
  function RTrim(s: string, c: char): (r: string)
    ensures r <= s
    ensures !EndsWith(r, c)
    ensures forall k :: |r| <= k < |s| ==> s[k] == c
    decreases |s|
  {
    if EndsWith(s, c) then RTrim(s[..|s| - 1], c) else s
  }

  /** Trimming twice removes nothing more than trimming once. */
  lemma RTrimIdempotent(s: string, c: char)
    ensures RTrim(RTrim(s, c), c) == RTrim(s, c)
  {
  }

  /** A string that does not end in `c`, followed by any number of `c`,
      trims back to exactly that string. */
  lemma {:induction false} RTrimAppended(t: string, c: char, n: nat)
    requires !EndsWith(t, c)
    ensures RTrim(t + seq(n, _ => c), c) == t
  {
    if n > 0 {
      var s := t + seq(n, _ => c);
      assert EndsWith(s, c);
      assert s[..|s| - 1] == t + seq(n - 1, _ => c);
      RTrimAppended(t, c, n - 1);
    } else {
      assert t + seq(n, _ => c) == t;
    }
  }

  /** ASCII upper-casing of one character, as `ucfirst` does it. */
  function UpperAscii(ch: char): char
  {
    if 'a' <= ch <= 'z' then (ch as int - 32) as char else ch
  }

  /** `ucfirst($s)`: the first character upper-cased, the rest untouched. */
  function UcFirst(s: string): (r: string)
    ensures |r| == |s|
    ensures |s| > 0 ==> r[0] == UpperAscii(s[0]) && r[1..] == s[1..]
  {
    if |s| == 0 then s else [UpperAscii(s[0])] + s[1..]
  }

  /** Two names that differ only in the case of their first letter have the
      same `ucfirst`. */
  lemma UcFirstFirstLetterCase(s: string, t: string)
    requires |s| == |t| > 0 && s[1..] == t[1..]
    requires UpperAscii(s[0]) == UpperAscii(t[0])
    ensures UcFirst(s) == UcFirst(t)
  {
  }

  /** `explode($sep, $s)` with no limit: the pieces between occurrences of
      `sep`; there is always at least one piece and none contains `sep`. */
  function Explode(s: string, sep: char): (parts: seq<string>)
    ensures |parts| >= 1
    ensures forall k :: 0 <= k < |parts| ==> sep !in parts[k]
    decreases |s|
  {
    if s == [] then [""]
    else
      var rest := Explode(s[1..], sep);
      if s[0] == sep then [""] + rest
      else [[s[0]] + rest[0]] + rest[1..]
  }

  /** `implode($glue, $parts)`. */
  function Implode(parts: seq<string>, glue: string): string
  {
    if |parts| == 0 then ""
    else if |parts| == 1 then parts[0]
    else parts[0] + glue + Implode(parts[1..], glue)
  }

  /** Joining the pieces of `explode` with the separator gives the input back. */
  lemma {:induction false} ImplodeExplode(s: string, sep: char)
    ensures Implode(Explode(s, sep), [sep]) == s
    decreases |s|
  {
    if s != [] {
      var rest := Explode(s[1..], sep);
      ImplodeExplode(s[1..], sep);
      if s[0] == sep {
        assert [sep] + s[1..] == s;
      } else {
        var parts := Explode(s, sep);
        assert parts[0] == [s[0]] + rest[0] && parts[1..] == rest[1..];
        if |rest| == 1 {
          assert [s[0]] + rest[0] == s;
        } else {
          assert rest == [rest[0]] + rest[1..];
          assert Implode(rest, [sep]) == rest[0] + [sep] + Implode(rest[1..], [sep]);
          assert s == [s[0]] + s[1..];
        }
      }
    }
  }

  /** Splitting a piece free of `sep`, followed by `sep` and a tail, yields
      the piece and then the pieces of the tail. */
  lemma {:induction false} ExplodeCons(x: string, tail: string, sep: char)
    requires sep !in x
    ensures Explode(x + [sep] + tail, sep) == [x] + Explode(tail, sep)
    decreases |x|
  {
    if x == [] {
      assert x + [sep] + tail == [sep] + tail;
      assert ([sep] + tail)[1..] == tail;
    } else {
      ExplodeCons(x[1..], tail, sep);
      var s := x + [sep] + tail;
      assert s[0] == x[0] && s[1..] == x[1..] + [sep] + tail;
      assert [x[0]] + x[1..] == x;
    }
  }

  /** A string free of `sep` explodes to itself alone. */
  lemma {:induction false} ExplodeSingle(x: string, sep: char)
    requires sep !in x
    ensures Explode(x, sep) == [x]
    decreases |x|
  {
    if x != [] {
      ExplodeSingle(x[1..], sep);
      assert [x[0]] + x[1..] == x;
    }
  }

  /** `explode` inverts `implode` on pieces that do not contain the glue
      character, so the pieces of a string are determined by it. */
  lemma {:induction false} ExplodeImplode(parts: seq<string>, sep: char)
    requires |parts| >= 1
    requires forall k :: 0 <= k < |parts| ==> sep !in parts[k]
    ensures Explode(Implode(parts, [sep]), sep) == parts
    decreases |parts|
  {
    if |parts| == 1 {
      ExplodeSingle(parts[0], sep);
    } else {
      ExplodeImplode(parts[1..], sep);
      ExplodeCons(parts[0], Implode(parts[1..], [sep]), sep);
      assert [parts[0]] + parts[1..] == parts;
    }
  }

  /** `explode($sep, $s, 2)`: the text before the first `sep` and, when
      there is one, everything after it (later `sep`s included). */
  function SplitFirst(s: string, sep: char): (r: (string, Option<string>))
    ensures r.1.None? ==> r.0 == s && sep !in s
    ensures r.1.Some? ==> s == r.0 + [sep] + r.1.value && sep !in r.0
    decreases |s|
  {
    if s == [] then ("", None)
    else if s[0] == sep then ("", Some(s[1..]))
    else
      var t := SplitFirst(s[1..], sep);
      ([s[0]] + t.0, t.1)
  }

  /** The split happens at the first `sep` only: a head free of `sep`
      followed by `sep` and any tail splits into exactly that head and tail,
      even when the tail contains `sep` again. */
  lemma {:induction false} SplitFirstAt(head: string, tail: string, sep: char)
    requires sep !in head
    ensures SplitFirst(head + [sep] + tail, sep) == (head, Some(tail))
    decreases |head|
  {
    if head == [] {
      assert head + [sep] + tail == [sep] + tail;
      assert ([sep] + tail)[1..] == tail;
    } else {
      SplitFirstAt(head[1..], tail, sep);
      var s := head + [sep] + tail;
      assert s[0] == head[0] && s[1..] == head[1..] + [sep] + tail;
      assert [head[0]] + head[1..] == head;
    }
  }
}
