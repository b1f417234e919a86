/**
 Topic patterns of the Redis transport: the regular expression `_matches` compiles a pattern to,
 what that expression accepts, and the coarser glob that is handed to the broker.
 */
module TopicPattern {

  /** A piece of the compiled expression: an escaped character, `[^.]*` or `.*`. */
  datatype Part = Literal(c: char) | AnySegment | AnyText

  predicate Starred2(p: string, i: nat)
  {
    i + 1 < |p| && p[i] == '*' && p[i + 1] == '*'
  }

  /** The compiled form of p[i..]. */
  function Parts(p: string, i: nat): seq<Part>
    requires i <= |p|
    decreases |p| - i
  {
    if i == |p| then []
    else if Starred2(p, i) then [AnyText] + Parts(p, i + 2)
    else if p[i] == '*' then [AnySegment] + Parts(p, i + 1)
    else [Literal(p[i])] + Parts(p, i + 1)
  }

  lemma SliceOfTwo(p: string, i: nat)
    ensures Starred2(p, i) <==> i + 1 < |p| && p[i..i + 2] == "**"
  {
    if i + 1 < |p| {
      assert p[i..i + 2] == [p[i], p[i + 1]];
    }
  }

  lemma Appended<T>(xs: seq<T>, x: T, ys: seq<T>)
    ensures (xs + [x]) + ys == xs + ([x] + ys)
  {
  }

  /** The loop of `_matches` that builds the expression. */
  method Compile(p: string) returns (parts: seq<Part>)
    ensures parts == Parts(p, 0)
  {
    parts := [];
    var i := 0;
    while i < |p|
      invariant 0 <= i <= |p|
      invariant parts + Parts(p, i) == Parts(p, 0)
    {
      SliceOfTwo(p, i);
      if i + 1 < |p| && p[i..i + 2] == "**" {
        Appended(parts, AnyText, Parts(p, i + 2));
        parts := parts + [AnyText];
        i := i + 2;
      } else if p[i] == '*' {
        Appended(parts, AnySegment, Parts(p, i + 1));
        parts := parts + [AnySegment];
        i := i + 1;
      } else {
        Appended(parts, Literal(p[i]), Parts(p, i + 1));
        parts := parts + [Literal(p[i])];
        i := i + 1;
      }
    }
  }

  // ---- What an expression accepts ------------------------------------------------

  /** The words of one part: `.` does not accept a newline, `[^.]` does. */
  ghost predicate Accepts(part: Part, w: string)
  {
    match part
    case Literal(c) => w == [c]
    case AnySegment => '.' !in w
    case AnyText => '\n' !in w
  }

  /** Concatenation of the languages of the parts. */
  ghost predicate AcceptsAll(parts: seq<Part>, w: string)
  {
    if parts == [] then w == ""
    else exists k :: 0 <= k <= |w| && Accepts(parts[0], w[..k]) && AcceptsAll(parts[1..], w[k..])
  }

  function Chopped(topic: string): string
    requires topic != ""
  {
    topic[..|topic| - 1]
  }

  predicate EndsInNewline(topic: string)
  {
    topic != "" && topic[|topic| - 1] == '\n'
  }

  /** `re.match("^" + parts + "$", topic)`: `$` also matches just before a final newline. */
  ghost predicate RegexMatches(parts: seq<Part>, topic: string)
  {
    AcceptsAll(parts, topic) || (EndsInNewline(topic) && AcceptsAll(parts, Chopped(topic)))
  }

  /** `_matches(topic, pattern)`. */
  ghost predicate Matches(topic: string, pattern: string)
  {
    pattern == topic || RegexMatches(Parts(pattern, 0), topic)
  }

  // ---- A recursive matcher ---------------------------------------------------------

  /** Does the rest w[j..] of the topic match the rest p[i..] of the pattern? */
  predicate Glob(p: string, i: nat, w: string, j: nat)
    requires i <= |p| && j <= |w|
    decreases |p| - i, |w| - j
  {
    if i == |p| then j == |w|
    else if Starred2(p, i) then Glob(p, i + 2, w, j) || (j < |w| && w[j] != '\n' && Glob(p, i, w, j + 1))
    else if p[i] == '*' then Glob(p, i + 1, w, j) || (j < |w| && w[j] != '.' && Glob(p, i, w, j + 1))
    else j < |w| && w[j] == p[i] && Glob(p, i + 1, w, j + 1)
  }

  lemma StarWordShrinks(star: Part, rest: seq<Part>, w: string)
    requires star.AnySegment? || star.AnyText?
    requires AcceptsAll([star] + rest, w)
    ensures AcceptsAll(rest, w) || (w != "" && Accepts(star, w[..1]) && AcceptsAll([star] + rest, w[1..]))
  {
    var parts := [star] + rest;
    assert parts[1..] == rest;
    var k :| 0 <= k <= |w| && Accepts(star, w[..k]) && AcceptsAll(rest, w[k..]);
    if k == 0 {
      assert w[0..] == w;
    } else {
      assert w[1..][..k - 1] == w[1..k] && w[1..][k - 1..] == w[k..];
      assert forall c :: c in w[1..k] ==> c in w[..k];
      assert w[..1][0] in w[..k];
    }
  }

  lemma StarWordGrows(star: Part, rest: seq<Part>, w: string)
    requires star.AnySegment? || star.AnyText?
    requires AcceptsAll(rest, w) || (w != "" && Accepts(star, w[..1]) && AcceptsAll([star] + rest, w[1..]))
    ensures AcceptsAll([star] + rest, w)
  {
    var parts := [star] + rest;
    assert parts[1..] == rest;
    if AcceptsAll(rest, w) {
      assert w[..0] == "" && w[0..] == w;
    } else {
      var k :| 0 <= k <= |w[1..]| && Accepts(star, w[1..][..k]) && AcceptsAll(rest, w[1..][k..]);
      StarsJoin(star, w, k);
      assert w[1..][k..] == w[k + 1..];
      assert Accepts(parts[0], w[..k + 1]) && AcceptsAll(parts[1..], w[k + 1..]);
    }
  }

  lemma StarsJoin(star: Part, w: string, k: nat)
    requires star.AnySegment? || star.AnyText?
    requires k + 1 <= |w| && Accepts(star, w[..1]) && Accepts(star, w[1..][..k])
    ensures Accepts(star, w[..k + 1])
  {
    assert w[..k + 1] == w[..1] + w[1..][..k];
  }

  /** Peeling one character off a star's word. */
  lemma StarTakesMore(star: Part, rest: seq<Part>, w: string)
    requires star.AnySegment? || star.AnyText?
    ensures AcceptsAll([star] + rest, w) <==>
            AcceptsAll(rest, w) || (w != "" && Accepts(star, w[..1]) && AcceptsAll([star] + rest, w[1..]))
  {
    hide AcceptsAll, Accepts;
    if AcceptsAll([star] + rest, w) {
      StarWordShrinks(star, rest, w);
    } else if AcceptsAll(rest, w) || (w != "" && Accepts(star, w[..1]) && AcceptsAll([star] + rest, w[1..])) {
      StarWordGrows(star, rest, w);
    }
  }

  lemma LiteralTakesOne(c: char, rest: seq<Part>, w: string)
    ensures AcceptsAll([Literal(c)] + rest, w) <==> w != "" && w[0] == c && AcceptsAll(rest, w[1..])
  {
    var parts := [Literal(c)] + rest;
    assert parts[1..] == rest;
    if w != "" && w[0] == c && AcceptsAll(rest, w[1..]) {
      assert w[..1] == [c];
    }
    if AcceptsAll(parts, w) {
      var k :| 0 <= k <= |w| && Accepts(Literal(c), w[..k]) && AcceptsAll(rest, w[k..]);
      assert k == 1 && w[..1][0] == w[0];
    }
  }

  lemma OneCharacter(w: string)
    requires w != ""
    ensures forall c :: c in w[..1] <==> c == w[0]
  {
    assert w[..1] == [w[0]];
  }

  lemma AcceptsNothing(w: string)
    ensures AcceptsAll([], w) <==> w == ""
  {
  }

  /** The compiled expression and the recursive matcher accept the same words. */
  lemma {:induction false} CompiledIsGlob(p: string, i: nat, w: string, j: nat)
    requires i <= |p| && j <= |w|
    ensures AcceptsAll(Parts(p, i), w[j..]) <==> Glob(p, i, w, j)
    decreases |p| - i, |w| - j
  {
    hide AcceptsAll;
    if i == |p| {
      AcceptsNothing(w[j..]);
    } else {
      if j < |w| {
        assert w[j..][1..] == w[j + 1..];
        OneCharacter(w[j..]);
      }
      if Starred2(p, i) {
        StarTakesMore(AnyText, Parts(p, i + 2), w[j..]);
        CompiledIsGlob(p, i + 2, w, j);
        if j < |w| {
          CompiledIsGlob(p, i, w, j + 1);
        }
      } else if p[i] == '*' {
        StarTakesMore(AnySegment, Parts(p, i + 1), w[j..]);
        CompiledIsGlob(p, i + 1, w, j);
        if j < |w| {
          CompiledIsGlob(p, i, w, j + 1);
        }
      } else {
        LiteralTakesOne(p[i], Parts(p, i + 1), w[j..]);
        if j < |w| {
          CompiledIsGlob(p, i + 1, w, j + 1);
        }
      }
    }
  }

  /** A pattern, read as a topic, matches itself: stars match stars. */
  lemma {:induction false} GlobSelf(p: string, i: nat)
    requires i <= |p|
    ensures Glob(p, i, p, i)
    decreases |p| - i
  {
    if i < |p| {
      if Starred2(p, i) {
        GlobSelf(p, i + 2);
        assert Glob(p, i, p, i + 2);
        assert Glob(p, i, p, i + 1);
      } else if p[i] == '*' {
        GlobSelf(p, i + 1);
        assert Glob(p, i, p, i + 1);
      } else {
        GlobSelf(p, i + 1);
      }
    }
  }

  /** On every topic: `_matches` is the recursive matcher, up to one final newline that `$` lets through. */
  lemma MatchesIsGlob(topic: string, pattern: string)
    ensures Matches(topic, pattern) <==>
            Glob(pattern, 0, topic, 0) || (EndsInNewline(topic) && Glob(pattern, 0, Chopped(topic), 0))
  {
    assert topic[0..] == topic;
    CompiledIsGlob(pattern, 0, topic, 0);
    if topic != "" {
      assert Chopped(topic)[0..] == Chopped(topic);
      CompiledIsGlob(pattern, 0, Chopped(topic), 0);
    }
    if pattern == topic {
      GlobSelf(pattern, 0);
    }
  }

  /** The `pattern == topic` shortcut never changes the answer. */
  lemma ShortcutIsRedundant(topic: string, pattern: string)
    ensures Matches(topic, pattern) <==> RegexMatches(Parts(pattern, 0), topic)
  {
    if pattern == topic {
      GlobSelf(pattern, 0);
      assert topic[0..] == topic;
      CompiledIsGlob(pattern, 0, topic, 0);
    }
  }

  /** `_matches`, with the library's regular-expression search represented by its answer. */
  method TopicMatches(topic: string, pattern: string) returns (matched: bool)
    ensures matched <==> Matches(topic, pattern)
  {
    if pattern == topic {
      return true;
    }
    MatchesIsGlob(topic, pattern);
    matched := Glob(pattern, 0, topic, 0) || (EndsInNewline(topic) && Glob(pattern, 0, Chopped(topic), 0));
  }

  // ---- Segments -----------------------------------------------------------------

  // ---- Two stars ------------------------------------------------------------------------

  lemma {:induction false} LiteralTail(p: string, i: nat, w: string, j: nat)
    requires i <= |p| && j <= |w| && '*' !in p[i..]
    ensures Glob(p, i, w, j) <==> w[j..] == p[i..]
    decreases |p| - i
  {
    if i < |p| {
      assert p[i..] == [p[i]] + p[i + 1..];
      if j < |w| {
        assert w[j..] == [w[j]] + w[j + 1..];
        LiteralTail(p, i + 1, w, j + 1);
      }
    }
  }

  /** `w` is anything without a newline, then `tail`. */
  predicate EndsAfterText(w: string, tail: string)
  {
    |w| >= |tail| && w[|w| - |tail|..] == tail && '\n' !in w[..|w| - |tail|]
  }

  lemma {:induction false} AtTwoStars(p: string, i: nat, w: string, j: nat)
    requires Starred2(p, i) && j <= |w| && '*' !in p[i + 2..]
    ensures Glob(p, i, w, j) <==> EndsAfterText(w[j..], p[i + 2..])
    decreases |w| - j
  {
    var tail, rest := p[i + 2..], w[j..];
    LiteralTail(p, i + 2, w, j);
    if j < |w| {
      AtTwoStars(p, i, w, j + 1);
      var next := w[j + 1..];
      assert rest == [w[j]] + next;
      if |rest| > |tail| {
        assert rest[..|rest| - |tail|] == [w[j]] + next[..|next| - |tail|];
        assert rest[|rest| - |tail|..] == next[|next| - |tail|..];
      }
    }
    if |rest| == |tail| {
      assert rest[0..] == rest && rest[..0] == "";
    }
  }

  lemma {:induction false} LiteralHead(p: string, n: nat, i: nat, w: string, j: nat)
    requires i <= n <= |p| && j <= |w| && '*' !in p[..n]
    ensures Glob(p, i, w, j) <==> |w| - j >= n - i && w[j..j + n - i] == p[i..n] && Glob(p, n, w, j + n - i)
    decreases n - i
  {
    if i < n {
      assert p[..n][i] == p[i];
      assert p[i..n] == [p[i]] + p[i + 1..n];
      if j < |w| {
        LiteralHead(p, n, i + 1, w, j + 1);
        assert |w| - j >= n - i ==> w[j..j + n - i] == [w[j]] + w[j + 1..j + n - i];
      }
    }
  }

  /** `a`, then anything without a newline, then `b`. */
  predicate Spans(w: string, a: string, b: string)
  {
    a <= w && EndsAfterText(w[|a|..], b)
  }

  /** `**` stands for any text, dots included, but not newlines (up to one final newline that `$` lets through). */
  lemma TwoStarsSpan(topic: string, a: string, b: string)
    requires '*' !in a && '*' !in b
    ensures Matches(topic, a + "**" + b) <==> Spans(topic, a, b) || (EndsInNewline(topic) && Spans(Chopped(topic), a, b))
  {
    GlobSpans(topic, a, b);
    if EndsInNewline(topic) {
      GlobSpans(Chopped(topic), a, b);
    }
    MatchesIsGlob(topic, a + "**" + b);
  }

  lemma GlobSpans(w: string, a: string, b: string)
    requires '*' !in a && '*' !in b
    ensures Glob(a + "**" + b, 0, w, 0) <==> Spans(w, a, b)
  {
    var p := a + "**" + b;
    assert p[..|a|] == a && p[|a| + 2..] == b && Starred2(p, |a|);
    LiteralHead(p, |a|, 0, w, 0);
    if |a| <= |w| {
      AtTwoStars(p, |a|, w, |a|);
    }
    hide Glob;
  }

  /** `text.split(".")`. */
  function Segments(text: string): (segs: seq<string>)
    ensures segs != []
  {
    if text == "" then [""]
    else if text[0] == '.' then [""] + Segments(text[1..])
    else
      var rest := Segments(text[1..]);
      [[text[0]] + rest[0]] + rest[1..]
  }

  /** A text against a pattern in which a star stands for any text at all. */
  predicate StarMatches(p: string, w: string)
    decreases |p|, |w|
  {
    if p == "" then w == ""
    else if p[0] == '*' then StarMatches(p[1..], w) || (w != "" && StarMatches(p, w[1..]))
    else w != "" && w[0] == p[0] && StarMatches(p[1..], w[1..])
  }

  predicate SegmentwiseMatches(ps: seq<string>, ws: seq<string>)
  {
    |ps| == |ws| && forall i :: 0 <= i < |ps| ==> StarMatches(ps[i], ws[i])
  }

  predicate NoDoubleStar(p: string)
  {
    forall i :: 0 <= i < |p| ==> !Starred2(p, i)
  }

  lemma SegmentwiseCons(p: string, ps: seq<string>, w: string, ws: seq<string>)
    ensures SegmentwiseMatches([p] + ps, [w] + ws) <==> StarMatches(p, w) && SegmentwiseMatches(ps, ws)
  {
    hide StarMatches;
    var pp, ww := [p] + ps, [w] + ws;
    assert pp[0] == p && ww[0] == w;
    if SegmentwiseMatches(pp, ww) {
      forall i | 0 <= i < |ps| ensures StarMatches(ps[i], ws[i]) {
        assert ps[i] == pp[i + 1] && ws[i] == ww[i + 1];
      }
    }
  }

  /** The first segment and the others. */
  lemma SegmentsOf(text: string, i: nat)
    requires i <= |text|
    ensures i == |text| ==> Segments(text[i..]) == [""]
    ensures i < |text| && text[i] == '.' ==> Segments(text[i..]) == [""] + Segments(text[i + 1..])
    ensures i < |text| && text[i] != '.' ==>
              Segments(text[i..]) == [[text[i]] + Segments(text[i + 1..])[0]] + Segments(text[i + 1..])[1..]
  {
    if i < |text| {
      assert text[i..][1..] == text[i + 1..];
    }
  }

  /** How the matcher treats the segments of the pattern and topic from positions i and j on. */
  ghost predicate SegmentsFrom(p: string, i: nat, w: string, j: nat)
    requires i <= |p| && j <= |w|
  {
    SegmentwiseMatches(Segments(p[i..]), Segments(w[j..]))
  }

  lemma HeadTail(ps: seq<string>, ws: seq<string>)
    requires ps != [] && ws != []
    ensures SegmentwiseMatches(ps, ws) <==> StarMatches(ps[0], ws[0]) && SegmentwiseMatches(ps[1..], ws[1..])
  {
    assert ps == [ps[0]] + ps[1..] && ws == [ws[0]] + ws[1..];
    SegmentwiseCons(ps[0], ps[1..], ws[0], ws[1..]);
  }

  /** Pattern exhausted. */
  lemma SegmentsAtEnd(p: string, w: string, j: nat)
    requires j <= |w|
    ensures SegmentsFrom(p, |p|, w, j) <==> j == |w|
  {
    SegmentsOf(p, |p|);
    SegmentsOf(w, j);
    HeadTail(Segments(p[|p|..]), Segments(w[j..]));
    if j < |w| && w[j] == '.' {
      assert |Segments(w[j..])| >= 2;
    }
  }

  /** Pattern at a separator. */
  lemma SegmentsAtDot(p: string, i: nat, w: string, j: nat)
    requires i < |p| && j <= |w| && p[i] == '.'
    ensures SegmentsFrom(p, i, w, j) <==> j < |w| && w[j] == '.' && SegmentsFrom(p, i + 1, w, j + 1)
  {
    SegmentsOf(p, i);
    SegmentsOf(w, j);
    HeadTail(Segments(p[i..]), Segments(w[j..]));
    if j < |w| && w[j] == '.' {
      SegmentwiseCons("", Segments(p[i + 1..]), "", Segments(w[j + 1..]));
    }
  }

  /** Pattern at an ordinary character. */
  lemma SegmentsAtLiteral(p: string, i: nat, w: string, j: nat)
    requires i < |p| && j <= |w| && p[i] != '.' && p[i] != '*'
    ensures SegmentsFrom(p, i, w, j) <==> j < |w| && w[j] == p[i] && SegmentsFrom(p, i + 1, w, j + 1)
  {
    SegmentsOf(p, i);
    SegmentsOf(w, j);
    var ps, ws := Segments(p[i..]), Segments(w[j..]);
    HeadTail(ps, ws);
    var ps' := Segments(p[i + 1..]);
    assert ps[0][1..] == ps'[0] && ps[1..] == ps'[1..];
    if j < |w| && w[j] != '.' {
      var ws' := Segments(w[j + 1..]);
      assert ws[0][1..] == ws'[0] && ws[1..] == ws'[1..];
      HeadTail(ps', ws');
    }
  }

  /** Pattern at a star. */
  lemma SegmentsAtStar(p: string, i: nat, w: string, j: nat)
    requires i < |p| && j <= |w| && p[i] == '*'
    ensures SegmentsFrom(p, i, w, j) <==>
            SegmentsFrom(p, i + 1, w, j) || (j < |w| && w[j] != '.' && SegmentsFrom(p, i, w, j + 1))
  {
    SegmentsOf(p, i);
    SegmentsOf(w, j);
    var ps, ws, ps' := Segments(p[i..]), Segments(w[j..]), Segments(p[i + 1..]);
    HeadTail(ps, ws);
    HeadTail(ps', ws);
    assert ps[0][1..] == ps'[0] && ps[1..] == ps'[1..];
    if j < |w| && w[j] != '.' {
      var ws' := Segments(w[j + 1..]);
      assert ws[0][1..] == ws'[0] && ws[1..] == ws'[1..];
      HeadTail(ps, ws');
    }
  }

  lemma {:induction false} GlobIsSegmentwise(p: string, i: nat, w: string, j: nat)
    requires i <= |p| && j <= |w| && NoDoubleStar(p)
    ensures Glob(p, i, w, j) <==> SegmentsFrom(p, i, w, j)
    decreases |p| - i, |w| - j
  {
    hide SegmentsFrom;
    if i == |p| {
      SegmentsAtEnd(p, w, j);
    } else if p[i] == '*' {
      SegmentsAtStar(p, i, w, j);
      GlobIsSegmentwise(p, i + 1, w, j);
      if j < |w| {
        GlobIsSegmentwise(p, i, w, j + 1);
      }
    } else {
      if p[i] == '.' {
        SegmentsAtDot(p, i, w, j);
      } else {
        SegmentsAtLiteral(p, i, w, j);
      }
      if j < |w| {
        GlobIsSegmentwise(p, i + 1, w, j + 1);
      }
    }
  }

  ghost predicate Segmentwise(topic: string, pattern: string)
  {
    SegmentwiseMatches(Segments(pattern), Segments(topic))
  }

  /**
   Segment semantics.  For a pattern without `**`: the topic matches iff it, or it without one final
   newline, splits on "." into as many segments as the pattern and they match one by one.
   */
  lemma MatchesIsSegmentwise(topic: string, pattern: string)
    requires NoDoubleStar(pattern)
    ensures Matches(topic, pattern) <==>
            Segmentwise(topic, pattern) || (EndsInNewline(topic) && Segmentwise(Chopped(topic), pattern))
  {
    MatchesIsGlob(topic, pattern);
    GlobIsSegmentwise(pattern, 0, topic, 0);
    assert pattern[0..] == pattern && topic[0..] == topic;
    if topic != "" {
      GlobIsSegmentwise(pattern, 0, Chopped(topic), 0);
      assert Chopped(topic)[0..] == Chopped(topic);
    }
  }

  // ---- The broker's glob ------------------------------------------------------------

  /** `topic.replace("**", "*")`, from position i on. */
  function Coarse(p: string, i: nat): string
    requires i <= |p|
    decreases |p| - i
  {
    if i == |p| then ""
    else if Starred2(p, i) then "*" + Coarse(p, i + 2)
    else [p[i]] + Coarse(p, i + 1)
  }

  /** `_to_redis_pattern`. */
  function ToBrokerGlob(pattern: string): string
  {
    Coarse(pattern, 0)
  }

  /** No character but `*` is special to the broker. */
  predicate Ordinary(pattern: string)
  {
    '?' !in pattern && '[' !in pattern && '\\' !in pattern
  }

  /** The broker's glob match on ordinary globs: a star stands for any text, dots and newlines included. */
  predicate BrokerMatches(glob: string, channel: string)
    requires Ordinary(glob)
  {
    StarMatches(glob, channel)
  }

  lemma {:induction false} CoarseIsOrdinary(p: string, i: nat)
    requires i <= |p| && Ordinary(p)
    ensures Ordinary(Coarse(p, i))
    decreases |p| - i
  {
    if i < |p| {
      CoarseIsOrdinary(p, if Starred2(p, i) then i + 2 else i + 1);
    }
  }

  /** The glob lets through whatever the finer matcher accepts. */
  lemma {:induction false} GlobIsCoarser(p: string, i: nat, w: string, j: nat)
    requires i <= |p| && j <= |w| && Glob(p, i, w, j)
    ensures StarMatches(Coarse(p, i), w[j..])
    decreases |p| - i, |w| - j
  {
    if i < |p| {
      var next := if Starred2(p, i) then i + 2 else i + 1;
      assert Coarse(p, i)[1..] == Coarse(p, next);
      if j < |w| {
        assert w[j..][1..] == w[j + 1..];
      }
      if Glob(p, next, w, j) && p[i] == '*' {
        GlobIsCoarser(p, next, w, j);
      } else if p[i] == '*' {
        GlobIsCoarser(p, i, w, j + 1);
      } else {
        GlobIsCoarser(p, next, w, j + 1);
      }
    }
  }

  /** A topic that matches locally, and does not end in a newline, passes the broker's prefilter. */
  lemma PrefilterIsComplete(topic: string, pattern: string)
    requires Ordinary(pattern) && Matches(topic, pattern) && !EndsInNewline(topic)
    ensures Ordinary(ToBrokerGlob(pattern)) && BrokerMatches(ToBrokerGlob(pattern), topic)
  {
    CoarseIsOrdinary(pattern, 0);
    MatchesIsGlob(topic, pattern);
    GlobIsCoarser(pattern, 0, topic, 0);
    assert topic[0..] == topic;
  }

  // ---- Exactly when no topic at all slips past the prefilter ---------------------------

  predicate EndsInStar(p: string)
  {
    p != "" && p[|p| - 1] == '*'
  }

  lemma {:induction false} TrailingStarTakesMore(g: string, w: string, c: char)
    requires EndsInStar(g) && StarMatches(g, w)
    ensures StarMatches(g, w + [c])
    decreases |g|, |w|
  {
    if w != "" {
      assert (w + [c])[1..] == w[1..] + [c];
    }
    if g[0] == '*' && StarMatches(g[1..], w) {
      if g == "*" {
        OneStarTakesAll(w + [c]);
        assert g[1..] == "";
      } else {
        TrailingStarTakesMore(g[1..], w, c);
      }
    } else if g[0] == '*' {
      TrailingStarTakesMore(g, w[1..], c);
    } else {
      TrailingStarTakesMore(g[1..], w[1..], c);
    }
  }

  lemma {:induction false} OneStarTakesAll(w: string)
    ensures StarMatches("*", w)
  {
    assert "*"[1..] == "";
    if w != "" {
      OneStarTakesAll(w[1..]);
    }
  }

  /** A glob that ends in no star rejects a text whose last character is not its own. */
  lemma {:induction false} LastCharacterCounts(g: string, w: string, c: char)
    requires !EndsInStar(g) && (g != "" ==> g[|g| - 1] != c)
    ensures !StarMatches(g, w + [c])
    decreases |g|, |w|
  {
    if g != "" {
      if w == "" {
        assert (w + [c])[1..] == "";
        if g[0] == '*' {
          LastCharacterCounts(g[1..], w, c);
          EmptyTextNeedsStars(g);
        } else if |g| > 1 {
          EmptyTextNeedsStars(g[1..]);
        }
      } else {
        assert (w + [c])[1..] == w[1..] + [c];
        if g[0] == '*' {
          LastCharacterCounts(g[1..], w, c);
          LastCharacterCounts(g, w[1..], c);
        } else {
          LastCharacterCounts(g[1..], w[1..], c);
        }
      }
    }
  }

  lemma {:induction false} EmptyTextNeedsStars(g: string)
    requires g != "" && !EndsInStar(g)
    ensures !StarMatches(g, "")
  {
    if g[0] == '*' {
      EmptyTextNeedsStars(g[1..]);
    }
  }

  lemma {:induction false} CoarseEnds(p: string, i: nat)
    requires i <= |p|
    ensures Coarse(p, i) == "" <==> i == |p|
    ensures i < |p| ==> Coarse(p, i)[|Coarse(p, i)| - 1] == p[|p| - 1]
    decreases |p| - i
  {
    if i < |p| {
      CoarseEnds(p, if Starred2(p, i) then i + 2 else i + 1);
    }
  }

  /** `p` without the newlines at its end. */
  function Stripped(p: string): string
  {
    if EndsInNewline(p) then Stripped(Chopped(p)) else p
  }

  lemma {:induction false} LastLiteral(g: string, c: char, w: string)
    requires c != '*'
    ensures StarMatches(g + [c], w) <==> w != "" && w[|w| - 1] == c && StarMatches(g, w[..|w| - 1])
    decreases |g|, |w|
  {
    var all := g + [c];
    if g == "" {
      assert all == [c] && all[1..] == "";
      assert |w| > 0 ==> (w[1..] == "" <==> w[..|w| - 1] == "");
    } else {
      assert all[1..] == g[1..] + [c] && all[0] == g[0];
      if w != "" {
        assert |w| > 1 ==> w[1..][..|w| - 2] == w[..|w| - 1][1..];
        LastLiteral(g[1..], c, w[1..]);
        if g[0] == '*' {
          LastLiteral(g, c, w[1..]);
        }
      }
      if g[0] == '*' {
        LastLiteral(g[1..], c, w);
      }
    }
  }

  lemma {:induction false} CoarseKeepsNewline(p: string, i: nat)
    requires i <= |p|
    ensures Coarse(p + ['\n'], i) == Coarse(p, i) + ['\n']
    decreases |p| - i
  {
    var all := p + ['\n'];
    if i == |p| {
      assert Coarse(all, i + 1) == "";
    } else {
      assert all[i] == p[i] && (Starred2(all, i) <==> Starred2(p, i));
      CoarseKeepsNewline(p, if Starred2(p, i) then i + 2 else i + 1);
    }
  }

  /** Where a star stands before the final newlines, the glob has room for one newline more. */
  lemma {:induction false} NewlineFits(p: string, w: string)
    requires EndsInStar(Stripped(p)) && StarMatches(ToBrokerGlob(p), w)
    ensures StarMatches(ToBrokerGlob(p), w + ['\n'])
  {
    if EndsInNewline(p) {
      var q := Chopped(p);
      assert p == q + ['\n'];
      CoarseKeepsNewline(q, 0);
      LastLiteral(ToBrokerGlob(q), '\n', w);
      LastLiteral(ToBrokerGlob(q), '\n', w + ['\n']);
      NewlineFits(q, w[..|w| - 1]);
      assert w[..|w| - 1] + ['\n'] == w == (w + ['\n'])[..|w|];
    } else {
      CoarseEnds(p, 0);
      TrailingStarTakesMore(ToBrokerGlob(p), w, '\n');
    }
  }

  /** Where none does, the glob has no room for it. */
  lemma {:induction false} NewlineDoesNotFit(p: string)
    requires !EndsInStar(Stripped(p))
    ensures !StarMatches(ToBrokerGlob(p), p + ['\n'])
  {
    if EndsInNewline(p) {
      var q := Chopped(p);
      assert p == q + ['\n'];
      CoarseKeepsNewline(q, 0);
      LastLiteral(ToBrokerGlob(q), '\n', p + ['\n']);
      assert (p + ['\n'])[..|p|] == p;
      NewlineDoesNotFit(q);
    } else {
      CoarseEnds(p, 0);
      LastCharacterCounts(ToBrokerGlob(p), p, '\n');
    }
  }

  /**
   For every ordinary pattern, the prefilter is complete on all topics whatsoever if and only if the
   pattern, without the newlines at its end, ends in a star.
   */
  lemma PrefilterIsCompleteExactly(pattern: string)
    requires Ordinary(pattern)
    ensures Ordinary(ToBrokerGlob(pattern))
    ensures (forall topic :: Matches(topic, pattern) ==> BrokerMatches(ToBrokerGlob(pattern), topic)) <==> EndsInStar(Stripped(pattern))
  {
    var g := ToBrokerGlob(pattern);
    CoarseIsOrdinary(pattern, 0);
    if EndsInStar(Stripped(pattern)) {
      forall topic | Matches(topic, pattern) ensures BrokerMatches(g, topic) {
        MatchesIsGlob(topic, pattern);
        if Glob(pattern, 0, topic, 0) {
          GlobIsCoarser(pattern, 0, topic, 0);
          assert topic[0..] == topic;
        } else {
          GlobIsCoarser(pattern, 0, Chopped(topic), 0);
          assert Chopped(topic)[0..] == Chopped(topic) && topic == Chopped(topic) + ['\n'];
          NewlineFits(pattern, Chopped(topic));
        }
      }
    } else {
      var topic := pattern + ['\n'];
      assert Chopped(topic) == pattern;
      GlobSelf(pattern, 0);
      MatchesIsGlob(topic, pattern);
      NewlineDoesNotFit(pattern);
      assert Matches(topic, pattern) && !BrokerMatches(g, topic);
    }
  }
}
