/** String operations of the JavaScript runtime that the receipt formatters rely on:
    `String.prototype.repeat`, `startsWith`, `includes`, `split` with a non-empty
    separator and `Array.prototype.join`, plus the line rendering used by both formatters. */
module Text {

  /** `c.repeat(n)` for a one-character string `c`. */
  function Repeat(c: char, n: nat): (r: string)
    ensures |r| == n
    ensures forall i :: 0 <= i < |r| ==> r[i] == c
  {
    if n == 0 then "" else Repeat(c, n - 1) + [c]
  }

  predicate StartsWith(s: string, prefix: string) {
    |prefix| <= |s| && s[..|prefix|] == prefix
  }

  /** `s.includes(sub)`: `sub` occurs somewhere in `s`. */
  predicate Contains(s: string, sub: string)
    decreases |s|
  {
    StartsWith(s, sub) || (|s| > 0 && Contains(s[1..], sub))
  }

  /** `s.split(sep)` for a non-empty separator: cuts `s` at every leftmost,
      non-overlapping occurrence of `sep`; the empty string gives `[""]`. */
  function Split(s: string, sep: string): (parts: seq<string>)
    requires |sep| > 0
    ensures |parts| >= 1
    decreases |s|
  {
    if |s| == 0 then [""]
    else if StartsWith(s, sep) then [""] + Split(s[|sep|..], sep)
    else
      var rest := Split(s[1..], sep);
      [[s[0]] + rest[0]] + rest[1..]
  }

  /** `parts.join(sep)`. */
  function Join(parts: seq<string>, sep: string): string
    requires |parts| >= 1
    decreases |parts|
  {
    if |parts| == 1 then parts[0] else parts[0] + sep + Join(parts[1..], sep)
  }

  /** Joining the pieces of a split with the same separator gives the string back. */
  lemma {:induction false} SplitJoin(s: string, sep: string)
    requires |sep| > 0
    ensures Join(Split(s, sep), sep) == s
    decreases |s|
  {
    if |s| == 0 {
    } else if StartsWith(s, sep) {
      SplitJoin(s[|sep|..], sep);
      JoinSplitAtSep(s, sep);
      assert s == sep + s[|sep|..];
    } else {
      SplitJoin(s[1..], sep);
      JoinSplitAtChar(s, sep);
      assert [s[0]] + s[1..] == s;
    }
  }

  /** One step of `SplitJoin` where the text starts with the separator. */
  lemma JoinSplitAtSep(s: string, sep: string)
    requires |sep| > 0 && |s| > 0 && StartsWith(s, sep)
    ensures Join(Split(s, sep), sep) == sep + Join(Split(s[|sep|..], sep), sep)
  {
    var rest := Split(s[|sep|..], sep);
    assert Split(s, sep) == [""] + rest;
    assert ([""] + rest)[1..] == rest;
    assert Join([""] + rest, sep) == "" + sep + Join(rest, sep);
  }

  /** One step of `SplitJoin` where the text does not start with the separator. */
  lemma JoinSplitAtChar(s: string, sep: string)
    requires |sep| > 0 && |s| > 0 && !StartsWith(s, sep)
    ensures Join(Split(s, sep), sep) == [s[0]] + Join(Split(s[1..], sep), sep)
  {
    var rest := Split(s[1..], sep);
    assert Split(s, sep) == [[s[0]] + rest[0]] + rest[1..];
    JoinPrependChar(s[0], rest, sep);
  }

  /** Putting a character in front of the first piece puts it in front of the joined text. */
  lemma JoinPrependChar(c: char, parts: seq<string>, sep: string)
    requires |parts| >= 1
    ensures Join([[c] + parts[0]] + parts[1..], sep) == [c] + Join(parts, sep)
  {
    var moved := [[c] + parts[0]] + parts[1..];
    if |parts| > 1 {
      assert moved[1..] == parts[1..];
    }
  }

  /** A split yields more than one piece exactly when the separator occurs. */
  lemma {:induction false} SplitManyIffContains(s: string, sep: string)
    requires |sep| > 0
    ensures |Split(s, sep)| > 1 <==> Contains(s, sep)
    decreases |s|
  {
    if |s| == 0 {
    } else if StartsWith(s, sep) {
    } else {
      SplitManyIffContains(s[1..], sep);
    }
  }

  /** When the separator occurs, the first piece is a proper prefix that stops
      right before it. */
  lemma SplitFirstPiece(s: string, sep: string)
    requires |sep| > 0
    requires |Split(s, sep)| > 1
    ensures var first := Split(s, sep)[0];
      |first| + |sep| <= |s| && s[..|first|] == first && s[|first|..|first| + |sep|] == sep
  {
    var parts := Split(s, sep);
    SplitJoin(s, sep);
    assert s == parts[0] + sep + Join(parts[1..], sep);
  }

  /** `split` cuts at every occurrence: no piece still holds the separator. */
  lemma {:induction false} SplitPiecesFree(s: string, sep: string)
    requires |sep| > 0
    ensures forall i :: 0 <= i < |Split(s, sep)| ==> !Contains(Split(s, sep)[i], sep)
    decreases |s|
  {
    assert !Contains("", sep);
    if |s| == 0 {
    } else if StartsWith(s, sep) {
      SplitPiecesFree(s[|sep|..], sep);
      assert Split(s, sep) == [""] + Split(s[|sep|..], sep);
    } else {
      var rest := Split(s[1..], sep);
      SplitPiecesFree(s[1..], sep);
      SplitFirstIsPrefix(s[1..], sep);
      var first := [s[0]] + rest[0];
      assert s == [s[0]] + s[1..];
      assert first == s[..|first|];
      assert !StartsWith(first, sep) by {
        if |sep| <= |first| {
          assert s[..|sep|] == first[..|sep|];
        }
      }
      PrependFree(s[0], rest[0], sep);
      assert Split(s, sep) == [first] + rest[1..];
    }
  }

  /** The first piece of a split is a prefix of the text. */
  lemma SplitFirstIsPrefix(s: string, sep: string)
    requires |sep| > 0
    ensures var first := Split(s, sep)[0];
      |first| <= |s| && s[..|first|] == first
  {
    var parts := Split(s, sep);
    SplitJoin(s, sep);
    if |parts| > 1 {
      assert s == parts[0] + (sep + Join(parts[1..], sep));
    }
  }

  /** A character in front of a text without the separator adds no occurrence unless
      the separator starts right there. */
  lemma PrependFree(c: char, p: string, sep: string)
    requires |sep| > 0 && !Contains(p, sep) && !StartsWith([c] + p, sep)
    ensures !Contains([c] + p, sep)
  {
    assert ([c] + p)[1..] == p;
  }

  /** The text sent to the printer for a list of lines: every line followed by a newline. */
  function Render(lines: seq<string>): string
    decreases |lines|
  {
    if lines == [] then "" else Render(lines[..|lines| - 1]) + lines[|lines| - 1] + "\n"
  }

  lemma {:induction false} RenderAppend(a: seq<string>, b: seq<string>)
    ensures Render(a + b) == Render(a) + Render(b)
    decreases |b|
  {
    if b == [] {
      assert a + b == a;
    } else {
      var b' := b[..|b| - 1];
      RenderAppend(a, b');
      assert (a + b)[..|a + b| - 1] == a + b';
    }
  }

  /** Rendering shows every line, in order, each right after the newline of the previous one:
      line `k` starts at `RenderedStart(lines, k)` and is followed by a newline. */
  function RenderedStart(lines: seq<string>, k: nat): nat
    requires k <= |lines|
  {
    |Render(lines[..k])|
  }

  lemma {:induction false} RenderShowsLine(lines: seq<string>, k: nat)
    requires k < |lines|
    ensures var r, p := Render(lines), RenderedStart(lines, k);
      p + |lines[k]| < |r| && r[p..p + |lines[k]|] == lines[k] && r[p + |lines[k]|] == '\n'
  {
    var r := Render(lines);
    var head, tail := lines[..k+1], lines[k+1..];
    assert lines == head + tail;
    RenderAppend(head, tail);
    assert head[..|head| - 1] == lines[..k];
    var p := |Render(lines[..k])|;
    assert Render(head) == Render(lines[..k]) + lines[k] + "\n";
    assert r == Render(lines[..k]) + lines[k] + "\n" + Render(tail);
    assert r[p..p + |lines[k]|] == lines[k];
  }

  /** Left padding used to centre text of length `len` in `width` columns:
      `Math.max(0, Math.floor((width - len) / 2))`. Dafny's `/` by the positive 2
      rounds toward negative infinity, as `Math.floor` does. */
  function CenterPadding(len: nat, width: int): (p: nat)
    ensures len >= width ==> p == 0
    ensures len <= width ==> len + 2 * p <= width <= len + 2 * p + 1
  {
    if (width - len) / 2 < 0 then 0 else (width - len) / 2
  }

  /* ---------- building a text line by line ---------- */

  /** Appending one line and its newline to the text extends the rendering by that line. */
  lemma Emit(lines: seq<string>, line: string)
    ensures Render(lines + [line]) == Render(lines) + (line + "\n")
  {
    assert (lines + [line])[..|lines|] == lines;
  }

  /** The text after the lines `base` and then the first `k` lines of the section `sec`. */
  function Printed(base: seq<string>, sec: seq<string>, k: nat): string
    requires k <= |sec|
  {
    if k == 0 then Render(base) else Printed(base, sec, k - 1) + (sec[k - 1] + "\n")
  }

  lemma {:induction false} PrintedRenders(base: seq<string>, sec: seq<string>, k: nat)
    requires k <= |sec|
    ensures Printed(base, sec, k) == Render(base + sec[..k])
  {
    if k > 0 {
      PrintedRenders(base, sec, k - 1);
      Emit(base + sec[..k - 1], sec[k - 1]);
      assert base + sec[..k - 1] + [sec[k - 1]] == base + sec[..k];
    } else {
      assert base + sec[..k] == base;
    }
  }

  /** A section printed to its end. */
  lemma SectionDone(content: string, base: seq<string>, sec: seq<string>)
    requires content == Printed(base, sec, |sec|)
    ensures content == Render(base + sec)
  {
    PrintedRenders(base, sec, |sec|);
    assert sec[..|sec|] == sec;
  }

  /** `content += piece` inside a section: `piece` is line `k` of the section `sec` with
      its newline. */
  method Put(content: string, ghost base: seq<string>, ghost sec: seq<string>, ghost k: nat, piece: string)
      returns (content': string)
    requires k < |sec| && piece == sec[k] + "\n"
    requires content == Printed(base, sec, k)
    ensures content' == Printed(base, sec, k + 1)
  {
    content' := content + piece;
  }

  /* ---------- the sections of a text ---------- */

  /** The slices of a concatenation of seven line lists, each list where it was put. */
  lemma SevenSlices(h: seq<string>, d: seq<string>, o: seq<string>, f: seq<string>, p: seq<string>, c: seq<string>, e: seq<string>)
    ensures var r := h + d + o + f + p + c + e;
      var i1 := |h|; var i2 := i1 + |d|; var i3 := i2 + |o|; var i4 := i3 + |f|;
      var i5 := i4 + |p|; var i6 := i5 + |c|;
      && |r| == i6 + |e|
      && r[..i1] == h && r[i1..i2] == d && r[i2..i3] == o && r[i3..i4] == f
      && r[i4..i5] == p && r[i5..i6] == c && r[i6..] == e
  {
    var r2 := h + d;
    var r3 := r2 + o;
    var r4 := r3 + f;
    var r5 := r4 + p;
    var r6 := r5 + c;
    var i1, i2, i3, i4, i5 := |h|, |r2|, |r3|, |r4|, |r5|;
    Slices(h, d);
    Slices(r2, o);
    Slices(r3, f);
    Slices(r4, p);
    Slices(r5, c);
    Slices(r6, e);
    InnerSlice(r2, o, 0, i1);
    InnerSlice(r3, f, 0, i1);
    InnerSlice(r4, p, 0, i1);
    InnerSlice(r5, c, 0, i1);
    InnerSlice(r6, e, 0, i1);
    InnerSlice(r3, f, i1, i2);
    InnerSlice(r4, p, i1, i2);
    InnerSlice(r5, c, i1, i2);
    InnerSlice(r6, e, i1, i2);
    InnerSlice(r4, p, i2, i3);
    InnerSlice(r5, c, i2, i3);
    InnerSlice(r6, e, i2, i3);
    InnerSlice(r5, c, i3, i4);
    InnerSlice(r6, e, i3, i4);
    InnerSlice(r6, e, i4, i5);
  }

  /** The two halves of a concatenation. */
  lemma Slices(a: seq<string>, b: seq<string>)
    ensures (a + b)[..|a|] == a && (a + b)[|a|..] == b && (a + b)[|a|..|a| + |b|] == b
  {
  }

  /** A slice inside the first half of a concatenation. */
  lemma InnerSlice(a: seq<string>, b: seq<string>, i: nat, j: nat)
    requires i <= j <= |a|
    ensures (a + b)[i..j] == a[i..j]
  {
  }
}
