/**
 * Frame reassembly of the client's receive buffer.  The server writes one
 * JSON object per line; one read may carry several of them, or part of one.
 * A pass looks for the first "}\n{" (the end of one object, the newline, the
 * start of the next), parses everything up to and including that '}' (or the
 * whole buffer when there is no such place), and on success keeps what
 * follows the newline for another pass.  The JSON parser is a parameter.
 * However the reads cut the stream, each line is delivered once and in order
 * (`ChunkedStream`).
 */
module Reassembler {
  import opened Common

  type Parser = string -> Option<Document>

  /** JSON parsing of an empty text fails, as `QJsonDocument::fromJson` does. */
  predicate RejectsEmpty(parse: Parser)
  {
    parse("") == None
  }

  predicate SeparatorAt(buf: string, k: nat)
  {
    k + 3 <= |buf| && buf[k] == '}' && buf[k + 1] == '\n' && buf[k + 2] == '{'
  }

  /** `QByteArray::indexOf("}\n{", from)`: the first separator at or after `from`. */
  function FindSeparator(buf: string, from: nat): (r: Option<nat>)
    ensures r.Some? ==> from <= r.value && SeparatorAt(buf, r.value)
    ensures r.Some? ==> forall j :: from <= j < r.value ==> !SeparatorAt(buf, j)
    ensures r.None? ==> forall j :: from <= j ==> !SeparatorAt(buf, j)
    decreases |buf| - from
  {
    if from + 3 > |buf| then None
    else if SeparatorAt(buf, from) then Some(from)
    else FindSeparator(buf, from + 1)
  }

  /** Where the text handed to the parser ends: just after the '}' of the first separator, or the end. */
  function SplitIndex(buf: string): (n: nat)
    ensures n <= |buf|
  {
    match FindSeparator(buf, 0)
    case Some(k) => k + 1
    case None => |buf|
  }

  /** The outcome of one pass: the parsed document, the new buffer, whether another pass is queued. */
  datatype Pass = Pass(doc: Option<Document>, buffer: string, again: bool)

  /** One pass of `dataReceived` over the buffer (after the new bytes were appended). */
  function Step(buf: string, parse: Parser): (p: Pass)
    ensures p.doc.None? ==> p.buffer == buf && !p.again
    ensures |p.buffer| <= |buf|
  {
    var split := SplitIndex(buf);
    match parse(buf[..split])
    case None => Pass(None, buf, false)
    case Some(d) =>
      // QByteArray::right(length - split - 1), which is empty when split is the whole buffer
      var rest := if split + 1 <= |buf| then buf[split + 1..] else [];
      assert FindSeparator(buf, 0).Some? ==> buf == buf[..split] + "\n" + rest;
      Pass(Some(d), rest, rest != [])
  }

  /**
   * A pass parses the text before the first "}\n{" (or the whole buffer);
   * a failed parse leaves the buffer as it was, a successful one keeps only
   * what follows the separator's newline and queues another pass exactly
   * when something is left.
   */
  lemma StepShape(buf: string, parse: Parser)
    ensures Step(buf, parse).doc == parse(buf[..SplitIndex(buf)])
    ensures Step(buf, parse).doc.None? ==> Step(buf, parse).buffer == buf && !Step(buf, parse).again
    ensures Step(buf, parse).doc.Some? && FindSeparator(buf, 0).None? ==>
      Step(buf, parse).buffer == [] && !Step(buf, parse).again
    ensures Step(buf, parse).doc.Some? && FindSeparator(buf, 0).Some? ==>
      var k := FindSeparator(buf, 0).value;
      buf == buf[..k + 1] + "\n" + Step(buf, parse).buffer && Step(buf, parse).again && |Step(buf, parse).buffer| < |buf|
    ensures Step(buf, parse).again <==> Step(buf, parse).doc.Some? && Step(buf, parse).buffer != []
  {
  }

  /** Every document the queued passes deliver from `buf`, and what stays in the buffer. */
  function Drain(buf: string, parse: Parser): (r: (seq<Document>, string))
    ensures r.0 == [] <==> parse(buf[..SplitIndex(buf)]).None?
    ensures r.0 == [] ==> r.1 == buf
    ensures |r.1| <= |buf|
    decreases |buf|
  {
    var p := Step(buf, parse);
    if p.doc.None? then ([], buf)
    else if !p.again then ([p.doc.value], p.buffer)
    else
      var (docs, rest) := Drain(p.buffer, parse);
      ([p.doc.value] + docs, rest)
  }

  /** A pass that delivers a document continues with the drain of what it leaves. */
  lemma DrainUnfold(buf: string, parse: Parser)
    requires RejectsEmpty(parse)
    ensures var p := Step(buf, parse);
      p.doc.Some? ==> Drain(buf, parse) == ([p.doc.value] + Drain(p.buffer, parse).0, Drain(p.buffer, parse).1)
  {
    var p := Step(buf, parse);
    StepShape(buf, parse);
    if p.doc.Some? && !p.again {
      EmptyBufferStable(parse);
      assert Drain(p.buffer, parse) == ([], []);
      assert [p.doc.value] + [] == [p.doc.value];
    }
  }

  /**
   * The documents `delivered` so far, followed by what draining `buf` still
   * delivers, are what draining `start` delivers, with the same rest.
   */
  predicate DrainsTo(start: string, delivered: seq<Document>, buf: string, parse: Parser)
  {
    && Drain(start, parse).0 == delivered + Drain(buf, parse).0
    && Drain(start, parse).1 == Drain(buf, parse).1
  }

  /** A pass on the empty buffer finds nothing to parse. */
  lemma EmptyBufferStable(parse: Parser)
    requires RejectsEmpty(parse)
    ensures Step([], parse).doc.None?
  {
    assert SplitIndex([]) == 0 && [][..0] == "";
  }

  /** One more pass keeps the account, and a pass that queues no other leaves a buffer no pass changes. */
  lemma DrainsToStep(start: string, delivered: seq<Document>, buf: string, parse: Parser)
    requires RejectsEmpty(parse)
    requires DrainsTo(start, delivered, buf, parse)
    ensures var p := Step(buf, parse);
      && DrainsTo(start, delivered + (if p.doc.Some? then [p.doc.value] else []), p.buffer, parse)
      && (p.again || Step(p.buffer, parse).doc.None?)
  {
    var p := Step(buf, parse);
    StepShape(buf, parse);
    if p.doc.Some? {
      var d := Drain(p.buffer, parse);
      DrainUnfold(buf, parse);
      Reassociate(delivered, [p.doc.value], d.0);
      if !p.again {
        EmptyBufferStable(parse);
      }
    } else {
      assert delivered + [] == delivered;
    }
  }

  /** `rest` ends `buf`, and another pass over it parses nothing. */
  predicate StableSuffix(rest: string, buf: string, parse: Parser)
  {
    |rest| <= |buf| && buf[|buf| - |rest|..] == rest && Step(rest, parse).doc.None?
  }

  /** What is left after draining is a suffix of the buffer on which another pass does nothing. */
  lemma {:induction false} DrainLeavesStableSuffix(buf: string, parse: Parser)
    requires RejectsEmpty(parse)
    ensures StableSuffix(Drain(buf, parse).1, buf, parse)
    decreases |buf|
  {
    var p := Step(buf, parse);
    StepShape(buf, parse);
    if p.doc.None? {
      assert buf[|buf| - |buf|..] == buf;
    } else if !p.again {
      EmptyBufferStable(parse);
    } else {
      DrainLeavesStableSuffix(p.buffer, parse);
      StableSuffixThroughPass(buf, parse);
    }
  }

  /** A pass that queues another keeps a stable suffix of what it leaves a stable suffix of the buffer. */
  lemma StableSuffixThroughPass(buf: string, parse: Parser)
    requires RejectsEmpty(parse)
    requires Step(buf, parse).doc.Some? && Step(buf, parse).again
    requires StableSuffix(Drain(Step(buf, parse).buffer, parse).1, Step(buf, parse).buffer, parse)
    ensures StableSuffix(Drain(buf, parse).1, buf, parse)
  {
    var p := Step(buf, parse);
    StepShape(buf, parse);
    var k := FindSeparator(buf, 0).value;
    var head := buf[..k + 1] + "\n";
    var rest := Drain(p.buffer, parse).1;
    assert buf == head + p.buffer;
    DrainUnfold(buf, parse);
    assert Drain(buf, parse).1 == rest;
    SuffixOfSuffix(head, p.buffer, rest);
  }

  lemma SuffixOfSuffix(head: string, mid: string, rest: string)
    requires |rest| <= |mid| && mid[|mid| - |rest|..] == rest
    ensures (head + mid)[|head + mid| - |rest|..] == rest
  {
    assert (head + mid)[|head + mid| - |rest|..] == mid[|mid| - |rest|..];
  }

  /** A line the server writes: one compact object, with no "}\n{" inside it. */
  predicate IsObjectLine(t: string, parse: Parser)
  {
    && |t| >= 2 && t[0] == '{' && t[|t| - 1] == '}'
    && (forall j | 0 <= j < |t| :: !SeparatorAt(t, j))
    && parse(t).Some?
  }

  /** Neither the empty text nor a lone newline is a JSON document. */
  predicate RejectsBlank(parse: Parser)
  {
    parse("") == None && parse("\n") == None
  }

  /**
   * What the stream properties assume of the parser for a line the server
   * writes: a newline before or after the line does not change what it
   * parses to, and no proper prefix of it, with or without a newline
   * before, is a document.
   */
  predicate FramedLine(t: string, parse: Parser)
  {
    && IsObjectLine(t, parse)
    && parse(t + "\n") == parse(t) && parse("\n" + t) == parse(t) && parse("\n" + t + "\n") == parse(t)
    && (forall n :: 0 <= n < |t| ==> parse(t[..n]).None? && parse("\n" + t[..n]).None?)
  }

  predicate AllFramed(lines: seq<string>, parse: Parser)
  {
    forall i :: 0 <= i < |lines| ==> FramedLine(lines[i], parse)
  }

  /** The documents the lines parse to, one per line that parses. */
  function Parsed(lines: seq<string>, parse: Parser): seq<Document>
  {
    if lines == [] then []
    else
      (match parse(lines[0]) case Some(d) => [d] case None => []) + Parsed(lines[1..], parse)
  }

  /** What the server writes for these lines: each one followed by its newline (`Compact + "\n"`). */
  function Frames(lines: seq<string>): string
  {
    if lines == [] then "" else lines[0] + "\n" + Frames(lines[1..])
  }

  /** The chunks the transport hands over, one after the other. */
  function Concat(chunks: seq<string>): string
  {
    if chunks == [] then "" else chunks[0] + Concat(chunks[1..])
  }

  /**
   * Reads arriving one by one: each chunk is appended to the buffer and the
   * queued passes run until none is left.  The documents delivered, and
   * the final buffer.
   */
  function Feed(buf: string, chunks: seq<string>, parse: Parser): (seq<Document>, string)
    decreases |chunks|
  {
    if chunks == [] then ([], buf)
    else
      var (docs, rest) := Drain(buf + chunks[0], parse);
      var (more, last) := Feed(rest, chunks[1..], parse);
      (docs + more, last)
  }

  /** The newline of the last delivered line, when it has not been consumed yet. */
  predicate Lead(w: string)
  {
    w == "" || w == "\n"
  }

  /** A buffer at the start of `w + Frames(lines)` that does not yet hold the whole next line. */
  predicate Waiting(buf: string, w: string, lines: seq<string>)
  {
    && Lead(w)
    && (if lines == [] then |buf| <= |w| else |buf| < |w| + |lines[0]|)
  }

  /** In `w + t + "\n" + u` with `t` an object line and `u` starting an object, the first separator ends `t`. */
  lemma {:induction false} FirstSeparatorAfter(w: string, t: string, u: string, parse: Parser)
    requires Lead(w) && IsObjectLine(t, parse)
    requires |u| >= 1 && u[0] == '{'
    ensures FindSeparator(w + t + "\n" + u, 0) == Some(|w| + |t| - 1)
  {
    var head := w + t + "\n";
    var buf := head + u;
    var n := |w| + |t| - 1;
    assert SeparatorAt(buf, n);
    assert forall j: nat :: j < n ==> !SeparatorAt(buf, j) by {
      LineHasNoSeparator(w, t, parse);
      forall j: nat | j < n ensures !SeparatorAt(buf, j) {
        assert buf[j] == head[j] && buf[j + 1] == head[j + 1] && buf[j + 2] == head[j + 2];
        assert !SeparatorAt(head, j);
      }
    }
    FirstSeparatorIs(buf, n);
  }

  lemma {:induction false} FirstSeparatorIs(buf: string, n: nat)
    requires SeparatorAt(buf, n)
    requires forall j: nat :: j < n ==> !SeparatorAt(buf, j)
    ensures FindSeparator(buf, 0) == Some(n)
  {
  }

  /** A line with the newline before and after it holds no separator. */
  lemma {:induction false} LineHasNoSeparator(w: string, t: string, parse: Parser)
    requires Lead(w) && IsObjectLine(t, parse)
    ensures forall j: nat :: !SeparatorAt(w + t + "\n", j)
  {
    var buf := w + t + "\n";
    forall j: nat ensures !SeparatorAt(buf, j) {
      if j + 3 > |buf| {
      } else if j < |w| {
        assert buf[j] == '\n';
      } else if j + 3 <= |w| + |t| {
        assert buf[j] == t[j - |w|] && buf[j + 1] == t[j - |w| + 1] && buf[j + 2] == t[j - |w| + 2];
        assert !SeparatorAt(t, j - |w|);
      } else {
        assert buf[j + 2] == '\n';
      }
    }
  }

  /** A prefix of a text without separators has none either. */
  lemma {:induction false} PrefixHasNoSeparator(s: string, p: string)
    requires |p| <= |s| && p == s[..|p|]
    requires forall j :: !SeparatorAt(s, j)
    ensures FindSeparator(p, 0).None?
  {
    if FindSeparator(p, 0).Some? {
      var k := FindSeparator(p, 0).value;
      assert p[k..k + 3] == s[k..k + 3];
      assert SeparatorAt(s, k);
    }
  }

  lemma {:induction false} FramesStartsWith(lines: seq<string>, parse: Parser)
    requires AllFramed(lines, parse)
    ensures lines == [] ==> Frames(lines) == ""
    ensures lines != [] ==> |Frames(lines)| > |lines[0]| && Frames(lines)[0] == '{'
  {
    if lines != [] {
      assert FramedLine(lines[0], parse);
    }
  }

  lemma ParsedSplit(lines: seq<string>, k: nat, parse: Parser)
    requires k <= |lines|
    ensures Parsed(lines, parse) == Parsed(lines[..k], parse) + Parsed(lines[k..], parse)
    decreases k
  {
    if k > 0 {
      ParsedSplit(lines[1..], k - 1, parse);
      assert lines[1..][..k - 1] == lines[..k][1..];
      assert lines[1..][k - 1..] == lines[k..];
    } else {
      assert lines[..0] == [];
      assert lines[0..] == lines;
    }
  }

  /** A pass over an object line followed by more objects parses the line and keeps the rest. */
  lemma {:induction false} StepFirstLine(w: string, t: string, u: string, parse: Parser)
    requires Lead(w) && FramedLine(t, parse)
    requires |u| >= 1 && u[0] == '{'
    ensures Step(w + t + "\n" + u, parse) == Pass(parse(t), u, true)
  {
    var buf := w + t + "\n" + u;
    FirstSeparatorAfter(w, t, u, parse);
    assert buf[..|w| + |t|] == w + t && buf[|w| + |t| + 1..] == u;
    if w == "" {
      assert w + t == t;
    }
  }

  /** A buffer holding less than the whole next line: a pass parses nothing. */
  lemma {:induction false} DrainPartialLine(w: string, t: string, p: string, parse: Parser)
    requires RejectsBlank(parse) && Lead(w) && FramedLine(t, parse)
    requires |p| < |w| + |t| && p == (w + t)[..|p|]
    ensures Drain(p, parse) == ([], p)
  {
    LineHasNoSeparator(w, t, parse);
    assert p == (w + t + "\n")[..|p|];
    PrefixHasNoSeparator(w + t + "\n", p);
    assert p[..|p|] == p;
    if |p| >= |w| {
      assert p == w + t[..|p| - |w|];
      if w == "" {
        assert p == t[..|p|];
      }
    } else {
      assert p == "";
    }
  }

  /** A buffer holding exactly the next line, with or without its newline: the line is delivered. */
  lemma {:induction false} DrainWholeLine(w: string, t: string, p: string, parse: Parser)
    requires Lead(w) && FramedLine(t, parse)
    requires p == w + t || p == w + t + "\n"
    ensures Drain(p, parse) == ([parse(t).value], [])
  {
    LineHasNoSeparator(w, t, parse);
    assert p == (w + t + "\n")[..|p|];
    PrefixHasNoSeparator(w + t + "\n", p);
    assert p[..|p|] == p;
    if w == "" {
      assert p == t || p == t + "\n";
    } else {
      assert p == "\n" + t || p == "\n" + t + "\n";
    }
    assert Step(p, parse) == Pass(parse(t), [], false);
  }

  /**
   * Everything the server wrote, received in one read, is delivered line by
   * line, in order, and leaves the buffer empty: the last line is parsed
   * together with its newline.
   */
  lemma {:induction false} DrainObjectLines(lines: seq<string>, parse: Parser)
    requires RejectsBlank(parse) && AllFramed(lines, parse)
    ensures Drain(Frames(lines), parse) == (Parsed(lines, parse), [])
    decreases |lines|
  {
    if lines == [] {
      EmptyBufferStable(parse);
    } else {
      var t := lines[0];
      assert FramedLine(t, parse);
      FramesStartsWith(lines[1..], parse);
      if |lines| == 1 {
        assert Frames(lines) == "" + t + "\n";
        DrainWholeLine("", t, Frames(lines), parse);
        assert lines[1..] == [] && Parsed([], parse) == [];
        assert Parsed(lines, parse) == [parse(t).value] + [];
        assert Drain(Frames(lines), parse) == ([parse(t).value], []);
        assert Parsed(lines, parse) == [parse(t).value];
      } else {
        var u := Frames(lines[1..]);
        assert Frames(lines) == "" + t + "\n" + u;
        DrainObjectLines(lines[1..], parse);
        StepFirstLine("", t, u, parse);
      }
    }
  }

  /**
   * Draining a buffer that holds the start `t` of `w + Frames(lines)`
   * delivers the first `k` lines and leaves a buffer that waits for the
   * rest of line `k`, possibly behind the newline of line `k - 1`.
   */
  lemma {:induction false} DrainPrefix(w: string, lines: seq<string>, t: string, parse: Parser)
      returns (k: nat, w2: string)
    requires RejectsBlank(parse) && Lead(w) && AllFramed(lines, parse)
    requires |t| <= |w + Frames(lines)| && t == (w + Frames(lines))[..|t|]
    ensures k <= |lines|
    ensures Drain(t, parse).0 == Parsed(lines[..k], parse)
    ensures Waiting(Drain(t, parse).1, w2, lines[k..])
    ensures Drain(t, parse).1 + (w + Frames(lines))[|t|..] == w2 + Frames(lines[k..])
    decreases |lines|, 1
  {
    if Waiting(t, w, lines) {
      DrainWaiting(w, lines, t, parse);
      assert lines[..0] == [] && lines[0..] == lines;
      k, w2 := 0, w;
    } else if |t| <= |w| + |lines[0]| + 1 {
      w2 := DrainPrefixLine(w, lines, t, parse);
      k := 1;
    } else {
      k, w2 := DrainPrefixMore(w, lines, t, parse);
    }
  }

  /** A buffer that waits for the rest of the next line: draining delivers nothing and keeps it. */
  lemma {:induction false} DrainWaiting(w: string, lines: seq<string>, t: string, parse: Parser)
    requires RejectsBlank(parse) && AllFramed(lines, parse)
    requires Waiting(t, w, lines) && t == (w + Frames(lines))[..|t|]
    ensures Drain(t, parse) == ([], t)
  {
    if lines == [] {
      assert t == "" || t == "\n";
      assert SplitIndex(t) == |t| && t[..|t|] == t;
    } else {
      assert FramedLine(lines[0], parse);
      assert t == (w + lines[0])[..|t|];
      DrainPartialLine(w, lines[0], t, parse);
    }
  }

  /** `DrainPrefix` when the buffer holds the whole next line, with or without its newline. */
  lemma {:induction false} DrainPrefixLine(w: string, lines: seq<string>, t: string, parse: Parser)
      returns (w2: string)
    requires RejectsBlank(parse) && Lead(w) && AllFramed(lines, parse) && lines != []
    requires |w| + |lines[0]| <= |t| <= |w| + |lines[0]| + 1 && t == (w + Frames(lines))[..|t|]
    ensures Drain(t, parse).0 == Parsed(lines[..1], parse)
    ensures Waiting(Drain(t, parse).1, w2, lines[1..])
    ensures Drain(t, parse).1 + (w + Frames(lines))[|t|..] == w2 + Frames(lines[1..])
  {
    assert FramedLine(lines[0], parse);
    FramesStartsWith(lines[1..], parse);
    w2 := AfterLine(w, lines[0], Frames(lines[1..]), t);
    DrainWholeLine(w, lines[0], t, parse);
    ParsedCons(lines, 1, parse);
  }

  /**
   * A prefix `t` of `w + l + "\n" + f` that holds all of `l`: what follows
   * `t` is `f`, behind the newline when `t` stops short of it.
   */
  lemma AfterLine(w: string, l: string, f: string, t: string) returns (w2: string)
    requires |w| + |l| <= |t| <= |w| + |l| + 1 && t == (w + (l + "\n" + f))[..|t|]
    ensures t == w + l || t == w + l + "\n"
    ensures (w + (l + "\n" + f))[|t|..] == w2 + f
    ensures w2 == "\n" <==> t == w + l
    ensures w2 == "" <==> t == w + l + "\n"
  {
    if |t| == |w| + |l| {
      assert w + (l + "\n" + f) == (w + l) + ("\n" + f);
      w2 := "\n";
    } else {
      assert w + (l + "\n" + f) == (w + l + "\n") + f;
      w2 := "";
    }
  }

  /** `DrainPrefix` when the buffer reaches into the line after the next. */
  lemma {:induction false} DrainPrefixMore(w: string, lines: seq<string>, t: string, parse: Parser)
      returns (k: nat, w2: string)
    requires RejectsBlank(parse) && Lead(w) && AllFramed(lines, parse) && lines != []
    requires |w| + |lines[0]| + 1 < |t| <= |w + Frames(lines)| && t == (w + Frames(lines))[..|t|]
    ensures k <= |lines|
    ensures Drain(t, parse).0 == Parsed(lines[..k], parse)
    ensures Waiting(Drain(t, parse).1, w2, lines[k..])
    ensures Drain(t, parse).1 + (w + Frames(lines))[|t|..] == w2 + Frames(lines[k..])
    decreases |lines|, 0
  {
    var u := DrainFirstLine(w, lines, t, parse);
    var k1, w1 := DrainPrefix("", lines[1..], u, parse);
    k, w2 := k1 + 1, w1;
    ParsedCons(lines, k, parse);
    assert lines[k..] == lines[1..][k1..];
  }

  /** A buffer that reaches past the next line: the first pass delivers the line and keeps the rest `u`. */
  lemma {:induction false} DrainFirstLine(w: string, lines: seq<string>, t: string, parse: Parser)
      returns (u: string)
    requires RejectsBlank(parse) && Lead(w) && AllFramed(lines, parse) && lines != []
    requires |w| + |lines[0]| + 1 < |t| <= |w + Frames(lines)| && t == (w + Frames(lines))[..|t|]
    ensures parse(lines[0]).Some?
    ensures |u| <= |"" + Frames(lines[1..])| && u == ("" + Frames(lines[1..]))[..|u|]
    ensures (w + Frames(lines))[|t|..] == ("" + Frames(lines[1..]))[|u|..]
    ensures Drain(t, parse) == ([parse(lines[0]).value] + Drain(u, parse).0, Drain(u, parse).1)
  {
    var l := lines[0];
    assert FramedLine(l, parse);
    u := PastLine(w, l, Frames(lines[1..]), t);
    FramesStartsWith(lines[1..], parse);
    StepFirstLine(w, l, u, parse);
  }

  /** A prefix `t` of `w + l + "\n" + f` that reaches into `f`: the line, its newline, and a prefix `u` of `f`. */
  lemma PastLine(w: string, l: string, f: string, t: string) returns (u: string)
    requires |w| + |l| + 1 < |t| <= |w + (l + "\n" + f)| && t == (w + (l + "\n" + f))[..|t|]
    ensures t == w + l + "\n" + u && |u| >= 1
    ensures |u| <= |"" + f| && u == ("" + f)[..|u|]
    ensures (w + (l + "\n" + f))[|t|..] == ("" + f)[|u|..]
  {
    assert w + (l + "\n" + f) == (w + l + "\n") + f;
    PastFirstLine(w + l + "\n", f, t);
    u := t[|w| + |l| + 1..];
    assert "" + f == f;
  }

  /** A prefix `t` of `p + f` longer than `p` is `p` followed by a prefix of `f`. */
  lemma PastFirstLine(p: string, f: string, t: string)
    requires |p| < |t| <= |p + f| && t == (p + f)[..|t|]
    ensures t == p + t[|p|..] && t[|p|..] == f[..|t| - |p|] && (p + f)[|t|..] == f[|t| - |p|..]
  {
    var x := p + f;
    assert forall i :: 0 <= i < |p| ==> t[i] == p[i];
    assert forall i :: |p| <= i < |t| ==> t[i] == f[i - |p|];
  }

  lemma ParsedCons(lines: seq<string>, k: nat, parse: Parser)
    requires 1 <= k <= |lines| && parse(lines[0]).Some?
    ensures Parsed(lines[..k], parse) == [parse(lines[0]).value] + Parsed(lines[1..][..k - 1], parse)
  {
    assert lines[..k][1..] == lines[1..][..k - 1];
  }

  /**
   * However the transport cuts what the server writes into reads, the
   * documents come out one per line and in order, and the buffer is left
   * holding at most the newline of the last line.  The buffer may start
   * with the newline an earlier read left behind.
   */
  lemma {:induction false} ChunkedStream(start: string, lines: seq<string>, chunks: seq<string>, parse: Parser)
    requires RejectsBlank(parse) && AllFramed(lines, parse)
    requires start == "" || start == "\n"
    requires Concat(chunks) == Frames(lines)
    ensures Feed(start, chunks, parse).0 == Parsed(lines, parse)
    ensures Feed(start, chunks, parse).1 == "" || Feed(start, chunks, parse).1 == "\n"
  {
    FramesStartsWith(lines, parse);
    FeedFrom(start, start, lines, chunks, parse);
  }

  /** `ChunkedStream` from any buffer that waits for the next line of `w + Frames(lines)`. */
  lemma {:induction false} FeedFrom(buf: string, w: string, lines: seq<string>, chunks: seq<string>, parse: Parser)
    requires RejectsBlank(parse) && AllFramed(lines, parse)
    requires Waiting(buf, w, lines)
    requires buf + Concat(chunks) == w + Frames(lines)
    ensures Feed(buf, chunks, parse).0 == Parsed(lines, parse)
    ensures Lead(Feed(buf, chunks, parse).1)
    decreases |chunks|
  {
    FramesStartsWith(lines, parse);
    if chunks == [] {
      assert buf == w + Frames(lines);
      assert lines == [];
    } else {
      var x := w + Frames(lines);
      var t := buf + chunks[0];
      assert x == t + Concat(chunks[1..]);
      assert t == x[..|t|];
      var k, w2 := DrainPrefix(w, lines, t, parse);
      var rest := Drain(t, parse).1;
      assert x[|t|..] == Concat(chunks[1..]);
      FeedFrom(rest, w2, lines[k..], chunks[1..], parse);
      ParsedSplit(lines, k, parse);
    }
  }
}
