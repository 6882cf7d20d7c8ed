/** The few Python string operations the web handler relies on, written out
    with the semantics CPython gives them: `str.strip()`, `str.replace`,
    `str.split(sep)[0]`, `sep.join(parts)` and the slice `s[:n]`. */
module Text {

  /** A character CPython's `str.isspace` (and so `str.strip()`) treats as
      whitespace: the ASCII controls TAB..CR and FS..US, SPACE, NEL, NBSP and
      the Unicode space separators and line/paragraph separators. */
  predicate IsSpace(c: char) {
    || ('\t' <= c <= '\r')
    || ('\U{1c}' <= c <= '\U{1f}')
    || c == ' '
    || c == '\U{85}'
    || c == '\U{a0}'
    || c == '\U{1680}'
    || ('\U{2000}' <= c <= '\U{200a}')
    || c == '\U{2028}'
    || c == '\U{2029}'
    || c == '\U{202f}'
    || c == '\U{205f}'
    || c == '\U{3000}'
  }

  predicate AllSpace(s: string) {
    forall k :: 0 <= k < |s| ==> IsSpace(s[k])
  }

  /** `part` sits in `s` starting at position `k`. */
  predicate OccursAt<T(==)>(s: seq<T>, part: seq<T>, k: nat) {
    k + |part| <= |s| && s[k..k + |part|] == part
  }

  /** `part` is a contiguous piece of `s` (Python's `part in s`). */
  ghost predicate Contains<T>(s: seq<T>, part: seq<T>) {
    exists k: nat :: OccursAt(s, part, k)
  }

  /** The length of the run of whitespace that starts at position `i`. */
  function SpaceRun(s: string, i: nat): (n: nat)
    requires i <= |s|
    ensures i + n <= |s|
    ensures forall k :: i <= k < i + n ==> IsSpace(s[k])
    ensures i + n == |s| || !IsSpace(s[i + n])
    decreases |s| - i
  {
    if i < |s| && IsSpace(s[i]) then 1 + SpaceRun(s, i + 1) else 0
  }

  /** The length of the run of whitespace that ends just before position `j`. */
  function SpaceRunBack(s: string, j: nat): (n: nat)
    requires j <= |s|
    ensures n <= j
    ensures forall k :: j - n <= k < j ==> IsSpace(s[k])
    ensures n == j || !IsSpace(s[j - n - 1])
  {
    if j > 0 && IsSpace(s[j - 1]) then 1 + SpaceRunBack(s, j - 1) else 0
  }

  /** `s` with its leading whitespace removed. */
  function TrimStart(s: string): (r: string)
    ensures |r| <= |s| && r == s[|s| - |r|..]
    ensures AllSpace(s[..|s| - |r|])
    ensures r == [] || !IsSpace(r[0])
  {
    s[SpaceRun(s, 0)..]
  }

  /** `s` with its trailing whitespace removed. */
  function TrimEnd(s: string): (r: string)
    ensures |r| <= |s| && r == s[..|r|]
    ensures AllSpace(s[|r|..])
    ensures r == [] || !IsSpace(r[|r| - 1])
  {
    s[..|s| - SpaceRunBack(s, |s|)]
  }

  /** Python's `s.strip()`. */
  function Strip(s: string): (r: string)
    ensures r == [] || (!IsSpace(r[0]) && !IsSpace(r[|r| - 1]))
  {
    TrimEnd(TrimStart(s))
  }

  /** From inside a whitespace prefix, the run reaches exactly its end. */
  lemma {:induction false} SpaceRunOver(lead: string, rest: string, i: nat)
    requires i <= |lead| && AllSpace(lead)
    requires rest == [] || !IsSpace(rest[0])
    ensures SpaceRun(lead + rest, i) == |lead| - i
    decreases |lead| - i
  {
    var s := lead + rest;
    if i < |lead| {
      assert s[i] == lead[i];
      SpaceRunOver(lead, rest, i + 1);
    } else if rest != [] {
      assert s[i] == rest[0];
    }
  }

  /** From inside a whitespace suffix, the backward run reaches exactly its start. */
  lemma {:induction false} SpaceRunBackOver(rest: string, trail: string, j: nat)
    requires |rest| <= j <= |rest| + |trail| && AllSpace(trail)
    requires rest == [] || !IsSpace(rest[|rest| - 1])
    ensures SpaceRunBack(rest + trail, j) == j - |rest|
    decreases j
  {
    var s := rest + trail;
    if j > |rest| {
      assert s[j - 1] == trail[j - 1 - |rest|];
      SpaceRunBackOver(rest, trail, j - 1);
    } else if rest != [] {
      assert s[j - 1] == rest[|rest| - 1];
    }
  }

  lemma TrimStartOf(lead: string, rest: string)
    requires AllSpace(lead)
    requires rest == [] || !IsSpace(rest[0])
    ensures TrimStart(lead + rest) == rest
  {
    SpaceRunOver(lead, rest, 0);
    assert (lead + rest)[|lead|..] == rest;
  }

  lemma TrimEndOf(rest: string, trail: string)
    requires AllSpace(trail)
    requires rest == [] || !IsSpace(rest[|rest| - 1])
    ensures TrimEnd(rest + trail) == rest
  {
    SpaceRunBackOver(rest, trail, |rest| + |trail|);
    assert (rest + trail)[..|rest|] == rest;
  }

  /** Strip removes exactly the surrounding whitespace: whatever whitespace
      surrounds a core that neither starts nor ends with whitespace, Strip
      gives back that core. */
  lemma StripOf(lead: string, core: string, trail: string)
    requires AllSpace(lead) && AllSpace(trail)
    requires core == [] || (!IsSpace(core[0]) && !IsSpace(core[|core| - 1]))
    ensures Strip(lead + core + trail) == core
  {
    if core == [] {
      assert lead + core + trail == (lead + trail) + [];
      assert AllSpace(lead + trail);
      TrimStartOf(lead + trail, []);
    } else {
      assert lead + core + trail == lead + (core + trail);
      TrimStartOf(lead, core + trail);
      TrimEndOf(core, trail);
    }
  }

  /** Strip gives the empty string exactly for all-whitespace input. */
  lemma StripEmptyIff(s: string)
    ensures Strip(s) == [] <==> AllSpace(s)
  {
    if AllSpace(s) {
      assert s == [] + [] + s;
      StripOf([], [], s);
    }
  }

  /** Strip only removes characters: all it keeps comes from its input. */
  lemma StripWithin(s: string)
    ensures |Strip(s)| <= |s|
    ensures forall c :: c in Strip(s) ==> c in s
  {
    var t := TrimStart(s);
    var r := TrimEnd(t);
    forall c | c in r
      ensures c in s
    {
      var k :| 0 <= k < |r| && r[k] == c;
      assert t[k] == c;
      assert s[|s| - |t| + k] == c;
    }
  }

  lemma StripIdempotent(s: string)
    ensures Strip(Strip(s)) == Strip(s)
  {
    var r := Strip(s);
    assert [] + r + [] == r;
    StripOf([], r, []);
  }

  /** Python's `s.replace(target, replacement)` for a one-character target. */
  function ReplaceChar(s: string, target: char, replacement: char): (r: string)
    ensures |r| == |s|
    ensures forall k :: 0 <= k < |s| ==> r[k] == (if s[k] == target then replacement else s[k])
  {
    if s == [] then []
    else [if s[0] == target then replacement else s[0]] + ReplaceChar(s[1..], target, replacement)
  }

  /** Python's `s.replace(pat, rep)` for a non-empty pattern: occurrences are
      replaced left to right, and a replaced occurrence is not rescanned. */
  function ReplaceAll(s: string, pat: string, rep: string): (r: string)
    requires |pat| > 0
    ensures (forall k: nat :: !OccursAt(s, pat, k)) ==> r == s
    ensures |rep| <= |pat| ==> |r| <= |s|
    decreases |s|
  {
    if |s| < |pat| then s
    else if s[..|pat|] == pat then
      assert OccursAt(s, pat, 0);
      rep + ReplaceAll(s[|pat|..], pat, rep)
    else
      assert forall k: nat :: OccursAt(s[1..], pat, k) ==> OccursAt(s, pat, k + 1);
      assert s == [s[0]] + s[1..];
      [s[0]] + ReplaceAll(s[1..], pat, rep)
  }

  /** ReplaceAll takes an occurrence at the very start as a whole. */
  lemma ReplaceAllAtStart(pat: string, rep: string, rest: string)
    requires |pat| > 0
    ensures ReplaceAll(pat + rest, pat, rep) == rep + ReplaceAll(rest, pat, rep)
  {
    assert (pat + rest)[..|pat|] == pat;
    assert (pat + rest)[|pat|..] == rest;
  }

  /** A character that neither the pattern nor the replacement holds is in
      the result exactly when it is in the input. */
  lemma {:induction false} ReplaceAllKeeps(s: string, pat: string, rep: string, c: char)
    requires |pat| > 0 && c !in pat && c !in rep
    ensures c in ReplaceAll(s, pat, rep) <==> c in s
    decreases |s|
  {
    if |s| < |pat| {
    } else if s[..|pat|] == pat {
      ReplaceAllKeeps(s[|pat|..], pat, rep, c);
      assert s == pat + s[|pat|..];
    } else {
      ReplaceAllKeeps(s[1..], pat, rep, c);
      assert s == [s[0]] + s[1..];
    }
  }

  /** Python's `s.split(sep)[0]` for a one-character separator: the text
      before the first `sep`, or all of `s` when it holds none. */
  function BeforeFirst(s: string, sep: char): (r: string)
    ensures |r| <= |s| && r == s[..|r|]
    ensures sep !in r
    ensures |r| < |s| ==> s[|r|] == sep
  {
    if s == [] then []
    else if s[0] == sep then []
    else [s[0]] + BeforeFirst(s[1..], sep)
  }

  /** The text before the first separator is the head, whatever follows. */
  lemma {:induction false} BeforeFirstOf(head: string, sep: char, tail: string)
    requires sep !in head
    ensures BeforeFirst(head + [sep] + tail, sep) == head
    decreases |head|
  {
    if head != [] {
      assert (head + [sep] + tail)[1..] == head[1..] + [sep] + tail;
      BeforeFirstOf(head[1..], sep, tail);
    }
  }

  /** Python's `s[:n]` for a non-negative `n`. */
  function Take<T>(s: seq<T>, n: nat): (r: seq<T>)
    ensures |r| == if |s| < n then |s| else n
    ensures r == s[..|r|]
  {
    if |s| <= n then s else s[..n]
  }

  /** Python's `sep.join(parts)`. */
  function Join<T>(parts: seq<seq<T>>, sep: seq<T>): seq<T>
  {
    if |parts| == 0 then []
    else if |parts| == 1 then parts[0]
    else parts[0] + sep + Join(parts[1..], sep)
  }

  /** Where the `i`-th part starts in `Join(parts, sep)`: the lengths of the
      parts before it, each followed by one separator. */
  function Offset<T>(parts: seq<seq<T>>, sep: seq<T>, i: nat): nat
    requires i <= |parts|
  {
    if i == 0 then 0 else Offset(parts, sep, i - 1) + |parts[i - 1]| + |sep|
  }

  lemma {:induction false} OffsetTail<T>(parts: seq<seq<T>>, sep: seq<T>, i: nat)
    requires 1 <= i <= |parts|
    ensures Offset(parts, sep, i) == |parts[0]| + |sep| + Offset(parts[1..], sep, i - 1)
  {
    if i > 1 {
      OffsetTail(parts, sep, i - 1);
    }
  }

  /** An occurrence stays an occurrence, shifted, when text is put in front. */
  lemma OccursAtShift<T>(prefix: seq<T>, s: seq<T>, part: seq<T>, k: nat)
    requires OccursAt(s, part, k)
    ensures OccursAt(prefix + s, part, |prefix| + k)
  {
    assert (prefix + s)[|prefix| + k..|prefix| + k + |part|] == s[k..k + |part|];
  }

  /** The middle of a three-piece concatenation occurs right after the first
      piece, however the concatenation is bracketed. */
  lemma OccursInMiddle<T>(a: seq<T>, b: seq<T>, c: seq<T>)
    ensures OccursAt(a + b + c, b, |a|)
    ensures OccursAt(a + (b + c), b, |a|)
  {
    assert (a + b + c)[|a|..|a| + |b|] == b;
    assert (a + (b + c))[|a|..|a| + |b|] == b;
  }

  /** The first piece of a concatenation occurs at its start. */
  lemma OccursAtStart<T>(a: seq<T>, b: seq<T>)
    ensures OccursAt(a + b, a, 0)
  {
    assert (a + b)[..|a|] == a;
  }

  /** The second piece of a concatenation occurs right after the first. */
  lemma OccursAfter<T>(a: seq<T>, b: seq<T>)
    ensures OccursAt(a + b, b, |a|)
  {
    assert (a + b)[|a|..] == b;
  }

  /** An occurrence stays an occurrence when text is put after. */
  lemma OccursBefore<T>(s: seq<T>, suffix: seq<T>, part: seq<T>, k: nat)
    requires OccursAt(s, part, k)
    ensures OccursAt(s + suffix, part, k)
  {
    assert (s + suffix)[k..k + |part|] == s[k..k + |part|];
  }

  /** An occurrence inside a piece is an occurrence in the whole. */
  lemma OccursAtCompose<T>(s: seq<T>, piece: seq<T>, part: seq<T>, k: nat, j: nat)
    requires OccursAt(s, piece, k) && OccursAt(piece, part, j)
    ensures OccursAt(s, part, k + j)
  {
    assert piece == s[k..k + |piece|];
    forall m | 0 <= m < |part| ensures s[k + j + m] == part[m] {
      assert part[m] == piece[j + m] == s[k + j + m];
    }
    assert s[k + j..k + j + |part|] == part;
  }

  /** The join is exactly as long as its parts and the separators between them. */
  lemma {:induction false} JoinLength<T>(parts: seq<seq<T>>, sep: seq<T>)
    requires |parts| > 0
    ensures |Join(parts, sep)| + |sep| == Offset(parts, sep, |parts|)
    decreases |parts|
  {
    if |parts| > 1 {
      JoinLength(parts[1..], sep);
      OffsetTail(parts, sep, |parts|);
    }
  }

  /** Part `i` sits in the join at `Offset(parts, sep, i)`; with JoinSepAt
      and JoinLength the join is exactly its parts in order with one
      separator between neighbours. */
  lemma {:induction false} JoinAt<T>(parts: seq<seq<T>>, sep: seq<T>, i: nat)
    requires i < |parts|
    ensures OccursAt(Join(parts, sep), parts[i], Offset(parts, sep, i))
    decreases |parts|
  {
    if |parts| > 1 {
      var head, rest := parts[0] + sep, parts[1..];
      var joined := Join(rest, sep);
      assert Join(parts, sep) == head + joined;
      if i == 0 {
        OccursAtStart(parts[0], sep);
        OccursBefore(head, joined, parts[0], 0);
      } else {
        JoinAt(rest, sep, i - 1);
        var k := Offset(rest, sep, i - 1);
        OffsetTail(parts, sep, i);
        assert Offset(parts, sep, i) == |head| + k;
        OccursAtShift(head, joined, rest[i - 1], k);
        assert parts[i] == rest[i - 1];
      }
    }
  }

  /** A separator follows every part but the last. */
  lemma {:induction false} JoinSepAt<T>(parts: seq<seq<T>>, sep: seq<T>, i: nat)
    requires i + 1 < |parts|
    ensures OccursAt(Join(parts, sep), sep, Offset(parts, sep, i) + |parts[i]|)
    decreases |parts|
  {
    var head, rest := parts[0] + sep, parts[1..];
    var joined := Join(rest, sep);
    assert Join(parts, sep) == parts[0] + sep + joined;
    if i == 0 {
      OccursInMiddle(parts[0], sep, joined);
    } else {
      JoinSepAt(rest, sep, i - 1);
      var k := Offset(rest, sep, i - 1) + |rest[i - 1]|;
      OffsetTail(parts, sep, i);
      assert Offset(parts, sep, i) + |parts[i]| == |head| + k;
      OccursAtShift(head, joined, sep, k);
    }
  }

  /** Joining one more part appends a separator and that part. */
  lemma {:induction false} JoinSnoc<T>(parts: seq<seq<T>>, p: seq<T>, sep: seq<T>)
    ensures Join(parts + [p], sep) == if parts == [] then p else Join(parts, sep) + sep + p
    decreases |parts|
  {
    if |parts| >= 2 {
      assert (parts + [p])[1..] == parts[1..] + [p];
      JoinSnoc(parts[1..], p, sep);
    } else if |parts| == 1 {
      assert (parts + [p])[1..] == [p];
    }
  }
}
