/** The tail of a log file, read backwards in chunks, and matching lines across rotated files. */
module LogTail {
  const CHUNK := 32 * 1024
  const DEFAULT_LINES := 500
  const MAX_LINES := 5000
  const MAX_TAIL_BYTES := 8 * 1024 * 1024
  const MAX_SEARCH_BYTES := 64 * 1024 * 1024
  const MAX_SEARCH_FILES := 12

  // ---- Text and lines; a char stands for a byte ----

  /** Every CR LF replaced by LF, from left to right. */
  function Unix(s: string): (r: string) {
    if s == "" then ""
    else if |s| > 1 && s[0] == '\r' && s[1] == '\n' then "\n" + Unix(s[2..])
    else [s[0]] + Unix(s[1..])
  }

  predicate EndsLine(s: string) {
    s != "" && s[|s| - 1] == '\n'
  }

  function Trimmed(s: string): (r: string) {
    if EndsLine(s) then s[..|s| - 1] else s
  }

  function Split(s: string): (r: seq<string>)
    ensures r != []
  {
    if s == "" then [""]
    else
      var rest := Split(s[1..]);
      if s[0] == '\n' then [""] + rest else [[s[0]] + rest[0]] + rest[1..]
  }

  function Pieces(s: string): (r: seq<string>)
    ensures r != []
  {
    Split(Trimmed(Unix(s)))
  }

  /** An empty text has no line, and a cut first piece is dropped. */
  function Visible(pieces: seq<string>, cut: bool): (r: seq<string>) {
    var l := if pieces == [""] then [] else pieces;
    if cut && l != [] then l[1..] else l
  }

  function Lines(s: string): (r: seq<string>) {
    Visible(Pieces(s), false)
  }

  function Newlines(s: string): (n: nat) {
    if s == "" then 0 else (if s[0] == '\n' then 1 else 0) + Newlines(s[1..])
  }

  function Joined(lines: seq<string>): (s: string)
    requires lines != []
  {
    if |lines| == 1 then lines[0] else lines[0] + "\n" + Joined(lines[1..])
  }

  /** Splitting is undone by joining, and leaves no newline inside a line. */
  lemma {:induction false} SplitRoundTrip(s: string)
    ensures Joined(Split(s)) == s
    ensures forall k :: 0 <= k < |Split(s)| ==> '\n' !in Split(s)[k]
  {
    if s != "" {
      var rest := Split(s[1..]);
      SplitRoundTrip(s[1..]);
      assert s == [s[0]] + s[1..] && Joined(rest) == s[1..];
      if s[0] == '\n' {
        assert Split(s)[1..] == rest;
      } else {
        assert Split(s)[1..] == rest[1..];
      }
    }
  }

  lemma {:induction false} SplitLine(line: string, rest: string)
    requires '\n' !in line
    ensures Split(line) == [line] && Split(line + "\n" + rest) == [line] + Split(rest)
  {
    var s := line + "\n" + rest;
    if line == "" {
      assert s[1..] == rest;
    } else {
      assert line == [line[0]] + line[1..] && s[1..] == line[1..] + "\n" + rest;
      SplitLine(line[1..], rest);
      assert Split(s[1..])[1..] == Split(rest);
    }
  }

  /** And joining is undone by splitting. */
  lemma {:induction false} JoinRoundTrip(lines: seq<string>)
    requires lines != [] && forall k :: 0 <= k < |lines| ==> '\n' !in lines[k]
    ensures Split(Joined(lines)) == lines
  {
    if |lines| == 1 {
      SplitLine(lines[0], "");
    } else {
      JoinRoundTrip(lines[1..]);
      SplitLine(lines[0], Joined(lines[1..]));
    }
  }

  // ---- A text made of lines ----

  /** Each line is ended by LF, or by CR LF where `crlf` says so. */
  function Ended(lines: seq<string>, crlf: seq<bool>): (s: string)
    requires |crlf| == |lines|
  {
    if lines == [] then "" else lines[0] + (if crlf[0] then "\r\n" else "\n") + Ended(lines[1..], crlf[1..])
  }

  /** No newline inside a line, and no CR before a bare LF. */
  predicate Clean(lines: seq<string>, crlf: seq<bool>) {
    && |crlf| == |lines|
    && forall k :: 0 <= k < |lines| ==> '\n' !in lines[k] && (crlf[k] || lines[k] == "" || lines[k][|lines[k]| - 1] != '\r')
  }

  lemma {:induction false} UnixLine(line: string, crlf: bool, rest: string)
    requires Clean([line], [crlf])
    ensures Unix(line + (if crlf then "\r\n" else "\n") + rest) == line + "\n" + Unix(rest)
  {
    var end := if crlf then "\r\n" else "\n";
    var s := line + end + rest;
    assert [line][0] == line;
    if line == "" {
      assert s[|end|..] == rest;
    } else {
      var tail := line[1..];
      assert s[0] == line[0] && s[1..] == tail + end + rest && line == [line[0]] + tail;
      assert Clean([tail], [crlf]);
      UnixLine(tail, crlf, rest);
      assert Unix(s) == [line[0]] + Unix(s[1..]);
    }
  }

  lemma {:induction false} UnixText(lines: seq<string>, crlf: seq<bool>, last: string)
    requires Clean(lines, crlf) && '\n' !in last
    ensures Unix(Ended(lines, crlf) + last) == Joined(lines + [last])
  {
    if lines == [] {
      assert Ended(lines, crlf) + last == last && [] + [last] == [last];
      UnixPlain(last);
    } else {
      var rest := Ended(lines[1..], crlf[1..]) + last;
      assert Ended(lines, crlf) + last == lines[0] + (if crlf[0] then "\r\n" else "\n") + rest;
      assert Clean([lines[0]], [crlf[0]]);
      UnixLine(lines[0], crlf[0], rest);
      UnixText(lines[1..], crlf[1..], last);
      assert (lines + [last])[1..] == lines[1..] + [last];
    }
  }

  lemma {:induction false} UnixPlain(s: string)
    requires '\n' !in s
    ensures Unix(s) == s
  {
    if s != "" {
      UnixPlain(s[1..]);
      assert s == [s[0]] + s[1..];
    }
  }

  lemma {:induction false} JoinedLast(lines: seq<string>)
    requires lines != []
    ensures Joined(lines + [""]) == Joined(lines) + "\n"
  {
    var more := lines + [""];
    if |lines| == 1 {
      assert more[1..] == [""];
    } else {
      assert more[1..] == lines[1..] + [""];
      JoinedLast(lines[1..]);
    }
  }

  lemma JoinedEnd(lines: seq<string>, last: string)
    requires last != "" && '\n' !in last
    ensures !EndsLine(Joined(lines + [last]))
  {
    JoinedEndsAsLast(lines, last);
  }

  lemma {:induction false} JoinedEndsAsLast(lines: seq<string>, last: string)
    ensures var s := Joined(lines + [last]); |last| <= |s| && s[|s| - |last|..] == last
  {
    if lines != [] {
      assert (lines + [last])[1..] == lines[1..] + [last];
      JoinedEndsAsLast(lines[1..], last);
    }
  }

  /** A text's lines are the lines it was made of, whatever mixture of LF and CR LF ends them, and
      whether or not the last one is ended. */
  lemma LinesOfText(lines: seq<string>, crlf: seq<bool>, last: string)
    requires Clean(lines, crlf) && '\n' !in last && lines + [last] != ["", ""]
    ensures Lines(Ended(lines, crlf) + last) == if last == "" then lines else lines + [last]
  {
    var all := lines + [last];
    UnixText(lines, crlf, last);
    if last == "" {
      if lines != [] {
        JoinedLast(lines);
        assert Trimmed(Joined(all)) == Joined(lines);
        JoinRoundTrip(lines);
      }
    } else {
      JoinedEnd(lines, last);
      JoinRoundTrip(all);
    }
  }

  lemma {:induction false} SplitLength(s: string)
    ensures |Split(s)| == Newlines(s) + 1
  {
    if s != "" {
      SplitLength(s[1..]);
    }
  }

  lemma {:induction false} NewlinesOfTwo(a: string, b: string)
    ensures Newlines(a + b) == Newlines(a) + Newlines(b)
  {
    if a == "" {
      assert a + b == b;
    } else {
      assert (a + b)[1..] == a[1..] + b;
      NewlinesOfTwo(a[1..], b);
    }
  }

  lemma {:induction false} UnixKeepsNewlines(s: string)
    ensures Newlines(Unix(s)) == Newlines(s)
  {
    if s != "" {
      if |s| > 1 && s[0] == '\r' && s[1] == '\n' {
        UnixKeepsNewlines(s[2..]);
        assert s[1..][1..] == s[2..] && Newlines(s) == Newlines(s[1..]) == 1 + Newlines(s[2..]);
        assert Unix(s)[1..] == Unix(s[2..]);
      } else {
        UnixKeepsNewlines(s[1..]);
        assert Unix(s)[1..] == Unix(s[1..]);
      }
    }
  }

  lemma {:induction false} UnixKeepsEnd(s: string)
    ensures EndsLine(Unix(s)) <==> EndsLine(s)
    ensures s != "" ==> Unix(s) != ""
  {
    if s == "" {
      assert Unix(s) == "";
    } else {
      var n := if |s| > 1 && s[0] == '\r' && s[1] == '\n' then 2 else 1;
      var head, rest := if n == 2 then "\n" else [s[0]], s[n..];
      UnixKeepsEnd(rest);
      assert s == s[..n] + rest && Unix(s) == head + Unix(rest);
      assert EndsLine(head) == EndsLine(s[..n]);
      assert rest == "" <==> Unix(rest) == "";
      assert EndsLine(Unix(s)) == if rest == "" then EndsLine(head) else EndsLine(Unix(rest));
    }
  }

  /** A cut, even one through a CR LF, leaves the normalised text after it unchanged. */
  lemma {:induction false} UnixCut(a: string, b: string) returns (p: string)
    ensures Unix(a + b) == p + Unix(b)
  {
    var s := a + b;
    if a == "" {
      assert s == b;
      p := "";
    } else if |a| > 1 && a[0] == '\r' && a[1] == '\n' {
      assert s[0] == a[0] && s[1] == a[1] && s[2..] == a[2..] + b;
      p := UnixCut(a[2..], b);
      p := "\n" + p;
    } else if |a| == 1 && a[0] == '\r' && b != "" && b[0] == '\n' {
      assert s[0] == a[0] && s[1] == b[0] && s[2..] == b[1..];
      p := "";
    } else {
      assert s[0] == a[0] && s[1..] == a[1..] + b;
      p := UnixCut(a[1..], b);
      assert Unix(s) == [a[0]] + Unix(a[1..] + b);
      p := [a[0]] + p;
    }
  }

  /** All lines but the first survive whatever is put in front of the text. */
  lemma {:induction false} SplitCut(p: string, t: string)
    ensures |Split(p + t)| == Newlines(p) + |Split(t)|
    ensures Split(p + t)[Newlines(p) + 1..] == Split(t)[1..]
  {
    if p == "" {
      assert p + t == t;
    } else {
      var rest := Split(p[1..] + t);
      assert (p + t)[0] == p[0] && (p + t)[1..] == p[1..] + t;
      SplitCut(p[1..], t);
      if p[0] == '\n' {
        assert Split(p + t) == [""] + rest;
      } else {
        assert Split(p + t) == [[p[0]] + rest[0]] + rest[1..];
      }
    }
  }

  // ---- Reading from an offset ----

  /** The lines of the file from an offset on. */
  function LinesFrom(file: string, offset: nat): (r: seq<string>)
    requires offset <= |file|
  {
    Visible(Pieces(file[offset..]), offset > 0)
  }

  predicate IsSuffix<T(==)>(a: seq<T>, b: seq<T>) {
    |a| <= |b| && b[|b| - |a|..] == a
  }

  function Last<T>(s: seq<T>, n: nat): (r: seq<T>) {
    if |s| <= n then s else s[|s| - n..]
  }

  /** The line ends of a text, not counting one that closes it. */
  function InnerNewlines(s: string): (n: nat) {
    Newlines(Trimmed(s))
  }

  lemma TrimmedUnix(s: string)
    ensures Newlines(Trimmed(Unix(s))) == InnerNewlines(s)
  {
    UnixKeepsNewlines(s);
    UnixKeepsEnd(s);
    TrimmedNewlines(s);
    TrimmedNewlines(Unix(s));
  }

  lemma TrimmedNewlines(s: string)
    ensures Newlines(s) == InnerNewlines(s) + if EndsLine(s) then 1 else 0
  {
    if EndsLine(s) {
      assert s == s[..|s| - 1] + "\n";
      NewlinesOfTwo(s[..|s| - 1], "\n");
    }
  }

  lemma CutLength(file: string, offset: nat)
    requires 0 < offset < |file|
    ensures |LinesFrom(file, offset)| == InnerNewlines(file[offset..])
  {
    TrimmedUnix(file[offset..]);
    SplitLength(Trimmed(Unix(file[offset..])));
    assert |Visible(Pieces(file[offset..]), true)| == |Pieces(file[offset..])| - 1;
  }

  lemma TrimmedEnd(p: string, u: string)
    requires u != ""
    ensures Trimmed(p + u) == p + Trimmed(u)
  {
  }

  /** `y` are the pieces after a cut through the text of `x`. */
  predicate Continues(x: seq<string>, y: seq<string>) {
    0 < |y| <= |x| && x[|x| - |y| + 1..] == y[1..]
  }

  lemma SplitContinues(p: string, u: string)
    requires u != ""
    ensures Continues(Split(Trimmed(p + u)), Split(Trimmed(u)))
  {
    TrimmedEnd(p, u);
    SplitCut(p, Trimmed(u));
  }

  lemma PiecesContinue(a: string, b: string)
    requires b != ""
    ensures Continues(Pieces(a + b), Pieces(b))
  {
    var p := UnixCut(a, b);
    UnixKeepsEnd(b);
    SplitContinues(p, Unix(b));
  }

  lemma VisibleSuffix(x: seq<string>, y: seq<string>, cut: bool)
    requires Continues(x, y)
    ensures IsSuffix(Visible(y, true), Visible(x, cut))
    ensures Visible(x, false) != [] ==> |Visible(y, true)| < |Visible(x, false)|
  {
    assert y[1..] == x[|x| - (|y| - 1)..] == x[1..][|x| - |y|..];
    if x == [""] {
      assert y[1..] == [];
    }
  }

  lemma CutInside(file: string, early: nat, late: nat)
    requires early < late < |file|
    ensures IsSuffix(LinesFrom(file, late), LinesFrom(file, early))
    ensures early == 0 && LinesFrom(file, 0) != [] ==> |LinesFrom(file, late)| < |LinesFrom(file, 0)|
  {
    var a, b := file[early..late], file[late..];
    assert file[early..] == a + b;
    PiecesContinue(a, b);
    VisibleSuffix(Pieces(a + b), Pieces(b), early > 0);
  }

  /** Reading from further back only adds lines in front, and adds at least the line that was
      cut, unless the file has no line at all. */
  lemma LaterCut(file: string, early: nat, late: nat)
    requires early <= late <= |file|
    ensures IsSuffix(LinesFrom(file, late), LinesFrom(file, early))
    ensures early == 0 && 0 < late && Lines(file) != [] ==> |LinesFrom(file, late)| < |Lines(file)|
  {
    assert file[0..] == file;
    if late == |file| {
      assert file[late..] == "";
    } else if early < late {
      CutInside(file, early, late);
    }
  }

  function Start(file: string, budget: nat): (offset: nat)
    ensures offset <= |file|
  {
    if |file| <= budget then 0 else |file| - budget
  }

  /** The tail, read in one piece: the last lines among those in the last `budget` bytes. */
  function Direct(file: string, limit: nat, budget: nat): (r: (seq<string>, bool)) {
    var l := LinesFrom(file, Start(file, budget));
    (Last(l, limit), Start(file, budget) > 0 || |l| > limit)
  }

  function LineLimit(limit: int): (n: nat)
    ensures 0 < n <= MAX_LINES
  {
    if limit <= 0 then DEFAULT_LINES else if limit > MAX_LINES then MAX_LINES else limit
  }

  function Budget(bytes: int, whenUnset: nat): (n: nat)
    requires 0 < whenUnset
    ensures 0 < n
  {
    if bytes <= 0 then whenUnset else bytes
  }

  lemma LastOfSuffix<T>(a: seq<T>, b: seq<T>, n: nat)
    requires IsSuffix(a, b)
    ensures IsSuffix(Last(a, n), b)
    ensures n <= |a| ==> Last(a, n) == Last(b, n)
  {
  }

  /** Stopping early, once more newlines were read than lines are wanted, changes nothing. */
  lemma EarlyStop(file: string, limit: nat, budget: nat, offset: nat)
    requires 0 < limit && Start(file, budget) <= offset <= |file|
    requires offset == Start(file, budget) || limit < Newlines(file[offset..])
    ensures Direct(file, limit, budget) == (Last(LinesFrom(file, offset), limit), offset > 0 || |LinesFrom(file, offset)| > limit)
  {
    var start := Start(file, budget);
    if start < offset {
      TrimmedNewlines(file[offset..]);
      CutLength(file, offset);
      LaterCut(file, start, offset);
      LastOfSuffix(LinesFrom(file, offset), LinesFrom(file, start), limit);
      if start == 0 {
        assert file[0..] == file;
        assert Lines(file) != [];
      }
    }
  }

  lemma EmptyFile(file: string, limit: nat, budget: nat)
    requires file == ""
    ensures Start(file, budget) == 0 && LinesFrom(file, 0) == []
    ensures Direct(file, limit, budget) == ([], false)
  {
  }

  /** Chunk by chunk towards the front, until enough newlines, the budget or the start is reached. */
  method ReadBackwards(file: string, wanted: nat, budget: nat) returns (buf: string, offset: nat)
    requires 0 < budget
    ensures Start(file, budget) <= offset <= |file| && buf == file[offset..]
    ensures offset == Start(file, budget) || wanted < Newlines(buf)
  {
    buf := "";
    var readBytes, newlineCount := 0, 0;
    offset := |file|;
    while offset > 0 && newlineCount <= wanted && readBytes < budget
      invariant 0 <= offset <= |file| && buf == file[offset..]
      invariant readBytes == |buf| && readBytes <= budget && newlineCount == Newlines(buf)
      decreases offset
    {
      var n := CHUNK;
      if offset < n {
        n := offset;
      }
      if readBytes + n > budget {
        n := budget - readBytes;
      }
      offset := offset - n;
      var chunk := file[offset..offset + n];
      NewlinesOfTwo(chunk, buf);
      assert file[offset..] == chunk + file[offset + n..];
      buf := chunk + buf;
      readBytes := readBytes + n;
      newlineCount := newlineCount + Newlines(chunk);
    }
  }

  /** The backwards chunked read agrees with reading the whole budget at once. */
  method TailLogLines(file: string, limit: int, maxBytes: int) returns (lines: seq<string>, truncated: bool)
    ensures (lines, truncated) == Direct(file, LineLimit(limit), Budget(maxBytes, MAX_TAIL_BYTES))
    ensures 0 < limit <= 5000 ==> |lines| <= limit
    ensures 0 < limit <= 5000 && 0 < maxBytes ==>
      (lines == Last(Lines(file), limit) <==> ReachesBack(file, limit, maxBytes))
  {
    hide Direct, ReachesBack, InnerNewlines, Newlines, Pieces, Start;
    var wanted, budget := LineLimit(limit), Budget(maxBytes, MAX_TAIL_BYTES);
    if |file| == 0 {
      EmptyFile(file, wanted, budget);
      RequestedTail(file, limit, maxBytes);
      return [], false;
    }
    var buf, offset := ReadBackwards(file, wanted, budget);
    EarlyStop(file, wanted, budget, offset);
    truncated := offset > 0;
    lines := Lines(buf);
    if truncated && |lines| > 0 {
      lines := lines[1..];
    }
    if |lines| > wanted {
      lines := lines[|lines| - wanted..];
      truncated := true;
    }
    RequestedTail(file, limit, maxBytes);
  }

  /** Whatever the chunks, line ends and cuts, the tail is a suffix of the file's lines within
      the limit; an untruncated tail is the whole file, and a truncated one is not, unless the
      file has no line. */
  lemma TailIsSuffix(file: string, limit: nat, budget: nat)
    ensures var (lines, truncated) := Direct(file, limit, budget);
      && IsSuffix(lines, Lines(file)) && |lines| <= limit
      && (!truncated ==> lines == Lines(file))
      && (truncated && Lines(file) != [] ==> |lines| < |Lines(file)|)
  {
    var start := Start(file, budget);
    assert file[0..] == file;
    LaterCut(file, 0, start);
    LastOfSuffix(LinesFrom(file, start), Lines(file), limit);
  }

  /** The tail is exactly the file's last lines if, and only if, the file fits the budget, or its
      last `budget` bytes hold enough line ends, or it has no line to miss. */
  lemma TailExactWhen(file: string, limit: nat, budget: nat)
    requires 0 < limit && 0 < budget
    ensures Direct(file, limit, budget).0 == Last(Lines(file), limit) <==>
      |file| <= budget || limit <= InnerNewlines(file[|file| - budget..]) || Lines(file) == []
  {
    var start := Start(file, budget);
    assert file[0..] == file;
    LaterCut(file, 0, start);
    if start > 0 {
      CutLength(file, start);
      LastOfSuffix(LinesFrom(file, start), Lines(file), limit);
    }
  }

  /** The last `budget` bytes hold the ends of the wanted lines, or there is nothing before them. */
  predicate ReachesBack(file: string, n: nat, budget: nat) {
    |file| <= budget || n <= InnerNewlines(file[|file| - budget..]) || Lines(file) == []
  }

  lemma TailMeans(file: string, n: nat, budget: nat)
    requires 0 < n && 0 < budget
    ensures var (lines, truncated) := Direct(file, n, budget);
      && |lines| <= n && (lines == Last(Lines(file), n) <==> ReachesBack(file, n, budget))
      && (truncated <==> budget < |file| || n < |Lines(file)|)
  {
    hide InnerNewlines, Lines, LinesFrom;
    TailIsSuffix(file, n, budget);
    TailExactWhen(file, n, budget);
    if |file| <= budget {
      WholeFile(file);
    }
  }

  lemma WholeFile(file: string)
    ensures LinesFrom(file, 0) == Lines(file)
  {
    assert file[0..] == file;
  }

  /** What a caller gets: a limit is kept between 1 and 5000, and is 500 when unset; the byte budget is
      8 MiB when unset. The tail has at most that many lines, and is the file's last ones if and
      only if the budget reaches far enough; it is called truncated exactly when something may
      be missing. */
  lemma RequestedTail(file: string, limit: int, maxBytes: int)
    ensures var n := if limit <= 0 then 500 else if limit <= 5000 then limit else 5000;
      var budget := if maxBytes <= 0 then 8 * 1024 * 1024 else maxBytes;
      var (lines, truncated) := Direct(file, LineLimit(limit), Budget(maxBytes, MAX_TAIL_BYTES));
      && |lines| <= n && (lines == Last(Lines(file), n) <==> ReachesBack(file, n, budget))
      && (truncated <==> budget < |file| || n < |Lines(file)|)
  {
    hide Direct, ReachesBack, Lines, Last;
    TailMeans(file, LineLimit(limit), Budget(maxBytes, MAX_TAIL_BYTES));
  }

  /** A budget that runs out: the last two bytes of three lines hold one line, not two. */
  lemma ShortBudgetMissesLines()
    ensures var file := "a\nb\nc";
      Lines(file) == ["a", "b", "c"] && Direct(file, 2, 2) == (["c"], true) && Last(Lines(file), 2) == ["b", "c"]
  {
    var file, two, one := "a\nb\nc", "b\nc", "\nc";
    UnixOf(file);
    UnixOf(one);
    assert one[1..] == "c" && Split("c") == ["c"];
    assert Split(one) == ["", "c"];
    assert two[1..] == one && Split(two) == [['b'] + ""] + ["", "c"][1..] && ['b'] + "" == "b";
    assert Split(two) == ["b", "c"];
    assert file[1..] == "\n" + two && ("\n" + two)[1..] == two && Split("\n" + two) == ["", "b", "c"];
    assert Split(file) == [['a'] + ""] + ["", "b", "c"][1..] && ['a'] + "" == "a";
    assert Split(file) == ["a", "b", "c"];
    assert file[0..] == file && file[3..] == one;
  }

  lemma {:induction false} UnixOf(s: string)
    requires '\r' !in s
    ensures Unix(s) == s
  {
    if s != "" {
      UnixOf(s[1..]);
      assert s == [s[0]] + s[1..];
    }
  }

  // ---- Matching lines across rotated files ----

  predicate PartAt(s: string, part: string, i: nat) {
    i + |part| <= |s| && s[i..i + |part|] == part
  }

  predicate Contains(s: string, part: string) {
    exists i :: 0 <= i <= |s| && PartAt(s, part, i)
  }

  /** The matching lines in order; `lower` is the case folding. */
  function Matching(lines: seq<string>, filter: string, lower: string -> string): (r: seq<string>) {
    if lines == [] then []
    else
      var before := Matching(lines[..|lines| - 1], filter, lower);
      if Contains(lower(lines[|lines| - 1]), filter) then before + [lines[|lines| - 1]] else before
  }

  /** The matching lines are the lines that hold the filter somewhere, once each and in order. */
  lemma {:induction false} MatchingAre(lines: seq<string>, filter: string, lower: string -> string) returns (at: seq<nat>)
    ensures |at| == |Matching(lines, filter, lower)| && forall i, j :: 0 <= i < j < |at| ==> at[i] < at[j]
    ensures forall i :: 0 <= i < |at| ==> at[i] < |lines| && lines[at[i]] == Matching(lines, filter, lower)[i]
    ensures forall k: nat :: k in at <==> k < |lines| && Contains(lower(lines[k]), filter)
  {
    hide Contains;
    at := [];
    if lines != [] {
      var n := |lines| - 1;
      var before := MatchingAre(lines[..n], filter, lower);
      forall k: nat ensures k in before <==> k < n && Contains(lower(lines[k]), filter) {
        assert k < n ==> lines[..n][k] == lines[k];
      }
      at := before;
      if Contains(lower(lines[n]), filter) {
        at := before + [n];
        assert forall k: nat :: k in at <==> k in before || k == n;
      }
    }
  }

  lemma ContainsWhen(s: string, part: string)
    ensures Contains(s, part) <==> exists a, b :: s == a + part + b
  {
    if Contains(s, part) {
      var i :| 0 <= i <= |s| && PartAt(s, part, i);
      assert s == s[..i] + part + s[i + |part|..];
    }
    if a, b :| s == a + part + b {
      assert PartAt(s, part, |a|);
    }
  }

  /** The empty filter matches everything, so skipping it is only faster. */
  lemma {:induction false} EmptyFilter(lines: seq<string>, lower: string -> string)
    ensures Matching(lines, "", lower) == lines
  {
    if lines != [] {
      EmptyFilter(lines[..|lines| - 1], lower);
      var l := lower(lines[|lines| - 1]);
      assert PartAt(l, "", 0);
      assert lines == lines[..|lines| - 1] + [lines[|lines| - 1]];
    }
  }

  method ReadLogLinesFromEnd(file: string, maxBytes: int) returns (lines: seq<string>, truncated: bool)
    ensures var start := Start(file, Budget(maxBytes, MAX_SEARCH_BYTES));
      lines == LinesFrom(file, start) && truncated == (start > 0)
  {
    var budget := Budget(maxBytes, MAX_SEARCH_BYTES);
    if |file| == 0 {
      EmptyFile(file, 0, budget);
      return [], false;
    }
    var readBytes := |file|;
    if readBytes > budget {
      readBytes := budget;
    }
    var offset := |file| - readBytes;
    truncated := offset > 0;
    lines := Lines(file[offset..]);
    if truncated && |lines| > 0 {
      lines := lines[1..];
    }
  }

  function MatchesIn(file: string, filter: string, lower: string -> string, budget: nat): (r: seq<string>) {
    Matching(LinesFrom(file, Start(file, budget)), filter, lower)
  }

  method MatchAll(lines: seq<string>, filter: string, lower: string -> string) returns (matches: seq<string>)
    ensures matches == Matching(lines, filter, lower)
  {
    matches := [];
    for i := 0 to |lines|
      invariant matches == Matching(lines[..i], filter, lower)
    {
      assert lines[..i + 1][..i] == lines[..i];
      if Contains(lower(lines[i]), filter) {
        matches := matches + [lines[i]];
      }
    }
    assert lines[..|lines|] == lines;
  }

  method TailMatchingLogLines(file: string, filter: string, lower: string -> string, limit: nat, maxBytes: int)
    returns (matches: seq<string>, truncated: bool)
    ensures var budget := Budget(maxBytes, MAX_SEARCH_BYTES);
      && matches == Last(MatchesIn(file, filter, lower, budget), limit)
      && truncated == (Start(file, budget) > 0 || |MatchesIn(file, filter, lower, budget)| > limit)
  {
    var lines;
    lines, truncated := ReadLogLinesFromEnd(file, maxBytes);
    if filter == "" {
      EmptyFilter(lines, lower);
      if |lines| > limit {
        return lines[|lines| - limit..], true;
      }
      return lines, truncated;
    }
    matches := MatchAll(lines, filter, lower);
    if |matches| > limit {
      matches := matches[|matches| - limit..];
      truncated := true;
    }
  }

  /** A log file, and whether its path stays inside the log directory. */
  datatype LogFile = LogFile(text: string, inside: bool)

  /** What the `k` newest files hold, oldest first, each read from its last `budget` bytes. */
  function Found(files: seq<LogFile>, k: nat, filter: string, lower: string -> string, budget: nat): (r: seq<string>)
    requires k <= |files|
  {
    if k == 0 then []
    else (if files[k - 1].inside then MatchesIn(files[k - 1].text, filter, lower, budget) else []) + Found(files, k - 1, filter, lower, budget)
  }

  /** The same over the files' whole texts. */
  function History(files: seq<LogFile>, k: nat, filter: string, lower: string -> string): (r: seq<string>)
    requires k <= |files|
  {
    if k == 0 then []
    else (if files[k - 1].inside then Matching(Lines(files[k - 1].text), filter, lower) else []) + History(files, k - 1, filter, lower)
  }

  /** Newer chunks come first in the list and last in the result. */
  function Unrolled(chunks: seq<seq<string>>): (r: seq<string>) {
    if chunks == [] then [] else chunks[|chunks| - 1] + Unrolled(chunks[..|chunks| - 1])
  }

  lemma LastOfTwo(a: seq<string>, b: seq<string>, n: nat)
    ensures Last(a + b, n) == Last(a, n - |Last(b, n)|) + Last(b, n)
  {
  }

  /** One more file, searched for as many lines as are still wanted. */
  lemma NextFile(files: seq<LogFile>, k: nat, filter: string, lower: string -> string, budget: nat, n: nat, got: seq<string>, more: seq<string>)
    requires k < |files| && files[k].inside
    requires got == Last(Found(files, k, filter, lower, budget), n)
    requires more == Last(MatchesIn(files[k].text, filter, lower, budget), n - |got|)
    ensures more + got == Last(Found(files, k + 1, filter, lower, budget), n)
    ensures Start(files[k].text, budget) == 0 && |MatchesIn(files[k].text, filter, lower, budget)| <= n - |got| && got == History(files, k, filter, lower)
      ==> more + got == History(files, k + 1, filter, lower)
  {
    LastOfTwo(MatchesIn(files[k].text, filter, lower, budget), Found(files, k, filter, lower, budget), n);
    assert files[k].text[0..] == files[k].text;
  }

  method Unroll(chunks: seq<seq<string>>) returns (lines: seq<string>)
    ensures lines == Unrolled(chunks)
  {
    lines := [];
    var i := |chunks|;
    assert chunks[..i] == chunks;
    while i > 0
      invariant i <= |chunks| && lines + Unrolled(chunks[..i]) == Unrolled(chunks)
    {
      i := i - 1;
      assert chunks[..i + 1][..i] == chunks[..i];
      assert lines + (chunks[i] + Unrolled(chunks[..i])) == (lines + chunks[i]) + Unrolled(chunks[..i]);
      lines := lines + chunks[i];
    }
  }

  /** How far a search over the `k` newest files has come. */
  ghost predicate Searched(files: seq<LogFile>, k: nat, filter: string, lower: string -> string, budget: nat, n: nat,
                           chunks: seq<seq<string>>, remaining: int, truncated: bool) {
    && k <= |files| && 0 <= remaining
    && Unrolled(chunks) == Last(Found(files, k, filter, lower, budget), n)
    && remaining == n - |Unrolled(chunks)|
    && (!truncated ==> Unrolled(chunks) == History(files, k, filter, lower))
  }

  lemma {:induction false} SearchEnds(files: seq<LogFile>, j: nat, k: nat, filter: string, lower: string -> string, budget: nat, n: nat,
                   chunks: seq<seq<string>>, remaining: int, truncated: bool)
    requires j <= k <= |files| && Searched(files, j, filter, lower, budget, n, chunks, remaining, truncated)
    requires remaining == 0 || j == k
    ensures Unrolled(chunks) == Last(Found(files, k, filter, lower, budget), n)
  {
    if j < k {
      EnoughFound(files, j, k, filter, lower, budget, n);
    }
  }

  lemma SearchStarts(files: seq<LogFile>, filter: string, lower: string -> string, budget: nat, n: nat)
    ensures Searched(files, 0, filter, lower, budget, n, [], n, false)
  {
  }

  lemma SearchedMore(files: seq<LogFile>, k: nat, filter: string, lower: string -> string, budget: nat, n: nat,
                     before: seq<seq<string>>, left: nat, cut: bool, matches: seq<string>, fileCut: bool)
    requires k < |files| && files[k].inside && Searched(files, k, filter, lower, budget, n, before, left, cut)
    requires matches == Last(MatchesIn(files[k].text, filter, lower, budget), left)
    requires fileCut == (Start(files[k].text, budget) > 0 || |MatchesIn(files[k].text, filter, lower, budget)| > left)
    ensures Searched(files, k + 1, filter, lower, budget, n, if |matches| > 0 then before + [matches] else before, left - |matches|, cut || fileCut)
  {
    hide MatchesIn, Found, History, Start;
    NextFile(files, k, filter, lower, budget, n, Unrolled(before), matches);
    if |matches| > 0 {
      var chunks := before + [matches];
      assert chunks[..|before|] == before;
      assert Unrolled(chunks) == matches + Unrolled(before);
    } else {
      assert matches + Unrolled(before) == Unrolled(before);
    }
  }

  lemma SearchedSkip(files: seq<LogFile>, k: nat, filter: string, lower: string -> string, budget: nat, n: nat,
                     before: seq<seq<string>>, left: nat, cut: bool)
    requires k < |files| && !files[k].inside && Searched(files, k, filter, lower, budget, n, before, left, cut)
    ensures Searched(files, k + 1, filter, lower, budget, n, before, left, cut)
  {
  }

  method SearchFile(files: seq<LogFile>, k: nat, filter: string, lower: string -> string, maxBytes: int, ghost n: nat,
                    before: seq<seq<string>>, left: nat, cut: bool)
    returns (chunks: seq<seq<string>>, remaining: int, truncated: bool)
    requires k < |files| && Searched(files, k, filter, lower, Budget(maxBytes, MAX_SEARCH_BYTES), n, before, left, cut)
    ensures Searched(files, k + 1, filter, lower, Budget(maxBytes, MAX_SEARCH_BYTES), n, chunks, remaining, truncated)
  {
    chunks, remaining, truncated := before, left, cut;
    if !files[k].inside {
      SearchedSkip(files, k, filter, lower, Budget(maxBytes, MAX_SEARCH_BYTES), n, before, left, cut);
      return;
    }
    hide Searched;
    var matches, fileTruncated := TailMatchingLogLines(files[k].text, filter, lower, left, maxBytes);
    SearchedMore(files, k, filter, lower, Budget(maxBytes, MAX_SEARCH_BYTES), n, before, left, cut, matches, fileTruncated);
    if fileTruncated {
      truncated := true;
    }
    if |matches| == 0 {
      return;
    }
    chunks := chunks + [matches];
    remaining := remaining - |matches|;
  }

  /** Newest file first, until enough lines are found. The result is the last `limit` matches
      of the files searched, in chronological order; an untruncated one misses nothing. */
  method TailMatchingAcrossFiles(files: seq<LogFile>, filter: string, lower: string -> string, limit: int, maxFiles: int, maxBytes: int)
    returns (lines: seq<string>, truncated: bool)
    ensures var searched := if maxFiles <= 0 then MAX_SEARCH_FILES else maxFiles;
      var k := if |files| <= searched then |files| else searched;
      lines == Last(Found(files, k, filter, lower, Budget(maxBytes, MAX_SEARCH_BYTES)), LineLimit(limit))
    ensures !truncated ==> lines == History(files, |files|, filter, lower)
  {
    var wanted, searched := LineLimit(limit), if maxFiles <= 0 then MAX_SEARCH_FILES else maxFiles;
    ghost var budget := Budget(maxBytes, MAX_SEARCH_BYTES);
    ghost var k := if |files| <= searched then |files| else searched;
    var remaining := wanted;
    var chunks: seq<seq<string>> := [];
    truncated := false;
    var idx := 0;
    SearchStarts(files, filter, lower, budget, wanted);
    while idx < |files|
      invariant idx <= k && Searched(files, idx, filter, lower, budget, wanted, chunks, remaining, truncated)
    {
      if idx >= searched || remaining <= 0 {
        truncated := true;
        break;
      }
      chunks, remaining, truncated := SearchFile(files, idx, filter, lower, maxBytes, wanted, chunks, remaining, truncated);
      idx := idx + 1;
    }
    SearchEnds(files, idx, k, filter, lower, budget, wanted, chunks, remaining, truncated);
    lines := Unroll(chunks);
  }

  lemma {:induction false} EnoughFound(files: seq<LogFile>, j: nat, k: nat, filter: string, lower: string -> string, budget: nat, n: nat)
    requires j <= k <= |files| && n <= |Found(files, j, filter, lower, budget)|
    ensures n <= |Found(files, k, filter, lower, budget)|
    ensures Last(Found(files, k, filter, lower, budget), n) == Last(Found(files, j, filter, lower, budget), n)
  {
    if j < k {
      EnoughFound(files, j, k - 1, filter, lower, budget, n);
      var newer := Found(files, k - 1, filter, lower, budget);
      var older := if files[k - 1].inside then MatchesIn(files[k - 1].text, filter, lower, budget) else [];
      assert Found(files, k, filter, lower, budget) == older + newer;
      LastOfTwo(older, newer, n);
    }
  }

  /** When every file fits its byte budget, nothing that was searched is missed. */
  lemma {:induction false} FilesWithinBudget(files: seq<LogFile>, k: nat, filter: string, lower: string -> string, budget: nat)
    requires k <= |files| && forall i :: 0 <= i < k ==> |files[i].text| <= budget
    ensures Found(files, k, filter, lower, budget) == History(files, k, filter, lower)
  {
    if k > 0 {
      FilesWithinBudget(files, k - 1, filter, lower, budget);
      assert files[k - 1].text[0..] == files[k - 1].text;
    }
  }

  /** What a caller of the search gets: the limit as for a tail, the 12 newest files when their number
      is unset, and 64 MiB of each. When the searched files fit, the result is the last matching
      lines of their whole history. */
  lemma RequestedSearch(files: seq<LogFile>, filter: string, lower: string -> string, limit: int, maxFiles: int, maxBytes: int)
    ensures var n := if limit <= 0 then 500 else if limit <= 5000 then limit else 5000;
      var most := if maxFiles <= 0 then 12 else maxFiles;
      var budget := if maxBytes <= 0 then 64 * 1024 * 1024 else maxBytes;
      var k := if |files| <= most then |files| else most;
      var lines := Last(Found(files, k, filter, lower, Budget(maxBytes, MAX_SEARCH_BYTES)), LineLimit(limit));
      && most == (if maxFiles <= 0 then MAX_SEARCH_FILES else maxFiles)
      && |lines| <= n
      && ((forall i :: 0 <= i < k ==> |files[i].text| <= budget) ==> lines == Last(History(files, k, filter, lower), n))
  {
    var most := if maxFiles <= 0 then 12 else maxFiles;
    var k := if |files| <= most then |files| else most;
    var budget := if maxBytes <= 0 then 64 * 1024 * 1024 else maxBytes;
    if forall i :: 0 <= i < k ==> |files[i].text| <= budget {
      FilesWithinBudget(files, k, filter, lower, budget);
    }
  }
}
