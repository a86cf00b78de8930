/** The bounded newline framing of a container's output, read in arbitrary chunks. */
module FrameStream {
  import opened Outcome
  import opened Utf8

  const NEWLINE: Byte := 10
  const FRAME_LIMIT := 196608
  const TOTAL_LIMIT := 1048576
  const REQUEST_LIMIT := 4

  /** A frame that parsed: a model request to relay, or the final result. */
  datatype Frame = Request(content: string) | Final(content: string)

  type Parser = seq<Byte> -> Option<Frame>

  /** Whether the host answers the request of that number, which is this frame. */
  type Host = (nat, Frame) -> bool

  /** What an exchange that succeeds has done. */
  datatype Transcript = Transcript(routed: seq<Frame>, final: Frame)

  datatype Progress = Progress(routed: seq<Frame>, final: Option<Frame>)

  const START := Progress([], None)

  function ParseFrame(parse: Parser, line: seq<Byte>): Option<Frame> {
    if 0 < |line| <= FRAME_LIMIT then parse(line) else None
  }

  /** One more line: nothing may follow the result, and only four requests are relayed. */
  function Take(parse: Parser, relayed: Host, p: Progress, line: seq<Byte>): Result<Progress> {
    match ParseFrame(parse, line)
    case None => Err(BadValue)
    case Some(f) =>
      :- Need(p.final.None?, BadValue);
      if f.Final? then Ok(p.(final := Some(f)))
      else
        :- Need(|p.routed| < REQUEST_LIMIT && relayed(|p.routed|, f), BadValue);
        Ok(p.(routed := p.routed + [f]))
  }

  function TakeAll(parse: Parser, relayed: Host, lines: seq<seq<Byte>>): Result<Progress> {
    if lines == [] then Ok(START)
    else
      var p :- TakeAll(parse, relayed, lines[..|lines| - 1]);
      Take(parse, relayed, p, lines[|lines| - 1])
  }

  /** A stream cut at its newlines: the complete lines, and what follows the last newline. */
  function Split(stream: seq<Byte>): (r: (seq<seq<Byte>>, seq<Byte>))
    ensures NEWLINE !in r.1
  {
    if stream == [] then ([], [])
    else
      var (lines, rest) := Split(stream[..|stream| - 1]);
      var last := stream[|stream| - 1];
      if last == NEWLINE then (lines + [rest], []) else (lines, rest + [last])
  }

  /** What the whole stream amounts to, without chunks. */
  function Whole(parse: Parser, relayed: Host, stream: seq<Byte>): Result<Transcript> {
    var (lines, rest) := Split(stream);
    :- Need(|stream| <= TOTAL_LIMIT, BadValue);
    var p :- TakeAll(parse, relayed, lines);
    :- Need(rest == [] && p.final.Some?, BadValue);
    Ok(Transcript(p.routed, p.final.value))
  }

  // ---- Splitting ----

  lemma {:induction false} SplitNone(line: seq<Byte>)
    requires NEWLINE !in line
    ensures Split(line) == ([], line)
  {
    if line != [] {
      SplitNone(line[..|line| - 1]);
      assert line == line[..|line| - 1] + [line[|line| - 1]];
    }
  }

  /** Splitting resumes from the unfinished line. */
  lemma {:induction false} SplitResume(a: seq<Byte>, b: seq<Byte>)
    ensures var (lines, rest) := Split(a);
            Split(a + b) == (lines + Split(rest + b).0, Split(rest + b).1)
  {
    var (lines, rest) := Split(a);
    if b == [] {
      assert a + b == a && rest + b == rest;
      SplitNone(rest);
      assert lines + [] == lines;
    } else {
      var init, last := b[..|b| - 1], b[|b| - 1];
      SplitResume(a, init);
      assert (a + b)[..|a + b| - 1] == a + init && (rest + b)[..|rest + b| - 1] == rest + init;
      var (more, left) := Split(rest + init);
      assert lines + more + [left] == lines + (more + [left]);
    }
  }

  lemma {:induction false} SplitFirst(line: seq<Byte>, tail: seq<Byte>)
    requires NEWLINE !in line
    ensures Split(line + [NEWLINE] + tail) == ([line] + Split(tail).0, Split(tail).1)
  {
    SplitNone(line);
    assert (line + [NEWLINE])[..|line|] == line;
    assert [] + [line] == [line];
    assert Split(line + [NEWLINE]) == ([line], []);
    SplitResume(line + [NEWLINE], tail);
    assert [] + tail == tail;
  }

  lemma {:induction false} TakeAllRefused(parse: Parser, relayed: Host, lines: seq<seq<Byte>>,
          more: seq<seq<Byte>>)
    requires TakeAll(parse, relayed, lines).Err?
    ensures TakeAll(parse, relayed, lines + more).Err?
  {
    if more == [] {
      assert lines + more == lines;
    } else {
      TakeAllRefused(parse, relayed, lines, more[..|more| - 1]);
      assert (lines + more)[..|lines + more| - 1] == lines + more[..|more| - 1];
    }
  }

  lemma {:induction false} TakeAllNext(parse: Parser, relayed: Host, lines: seq<seq<Byte>>, line: seq<Byte>)
    ensures TakeAll(parse, relayed, lines + [line]) ==
            match TakeAll(parse, relayed, lines)
            case Err(e) => Err(e)
            case Ok(p) => Take(parse, relayed, p, line)
  {
    assert (lines + [line])[..|lines|] == lines;
  }

  /** An unfinished line that is already too long spoils every continuation. */
  lemma {:induction false} OverlongRefused(parse: Parser, relayed: Host, lines: seq<seq<Byte>>,
          rest: seq<Byte>, b: seq<Byte>)
    requires |rest| > FRAME_LIMIT && NEWLINE !in rest
    ensures TakeAll(parse, relayed, lines + Split(rest + b).0).Err? || Split(rest + b).1 != []
    decreases |b|
  {
    if b == [] {
      assert rest + b == rest;
      SplitNone(rest);
    } else if b[0] == NEWLINE {
      assert rest + b == rest + [NEWLINE] + b[1..];
      SplitFirst(rest, b[1..]);
      TakeAllNext(parse, relayed, lines, rest);
      assert lines + Split(rest + b).0 == lines + [rest] + Split(b[1..]).0;
      TakeAllRefused(parse, relayed, lines + [rest], Split(b[1..]).0);
    } else {
      assert rest + b == rest + [b[0]] + b[1..];
      OverlongRefused(parse, relayed, lines, rest + [b[0]], b[1..]);
    }
  }

  // ---- What success means ----

  ghost predicate Requests(parse: Parser, relayed: Host, lines: seq<seq<Byte>>, routed: seq<Frame>) {
    && |lines| == |routed|
    && forall k :: 0 <= k < |lines| ==>
         ParseFrame(parse, lines[k]) == Some(routed[k]) && routed[k].Request? && relayed(k, routed[k])
  }

  ghost predicate Accepted(parse: Parser, relayed: Host, lines: seq<seq<Byte>>, p: Progress) {
    && |p.routed| <= REQUEST_LIMIT
    && if p.final.None? then Requests(parse, relayed, lines, p.routed)
       else lines != [] && Requests(parse, relayed, lines[..|lines| - 1], p.routed)
            && ParseFrame(parse, lines[|lines| - 1]) == p.final && p.final.value.Final?
  }

  lemma {:induction false} TakeAllSound(parse: Parser, relayed: Host, lines: seq<seq<Byte>>, p: Progress)
    requires TakeAll(parse, relayed, lines) == Ok(p)
    ensures Accepted(parse, relayed, lines, p)
  {
    hide ParseFrame;
    if lines != [] {
      var init, last := lines[..|lines| - 1], lines[|lines| - 1];
      TakeAllSound(parse, relayed, init, TakeAll(parse, relayed, init).value);
    }
  }

  lemma {:induction false} TakeAllComplete(parse: Parser, relayed: Host, lines: seq<seq<Byte>>, p: Progress)
    requires Accepted(parse, relayed, lines, p)
    ensures TakeAll(parse, relayed, lines) == Ok(p)
  {
    hide ParseFrame;
    if lines != [] {
      var init := lines[..|lines| - 1];
      if p.final.Some? {
        TakeAllComplete(parse, relayed, init, Progress(p.routed, None));
      } else {
        TakeAllComplete(parse, relayed, init, Progress(p.routed[..|init|], None));
        assert p.routed == p.routed[..|init|] + [p.routed[|init|]];
      }
    }
  }

  /** Lines are accepted exactly when they are at most four relayed requests, followed by
      at most one result that comes last. */
  lemma {:induction false} TakeAllMeaning(parse: Parser, relayed: Host, lines: seq<seq<Byte>>, p: Progress)
    ensures TakeAll(parse, relayed, lines) == Ok(p) <==> Accepted(parse, relayed, lines, p)
  {
    if TakeAll(parse, relayed, lines) == Ok(p) {
      TakeAllSound(parse, relayed, lines, p);
    }
    if Accepted(parse, relayed, lines, p) {
      TakeAllComplete(parse, relayed, lines, p);
    }
  }

  /** Lines, each with its newline. */
  function Joined(lines: seq<seq<Byte>>): seq<Byte> {
    if lines == [] then [] else Joined(lines[..|lines| - 1]) + lines[|lines| - 1] + [10]
  }

  /** Splitting cuts at the newlines, all of them, and loses nothing. */
  lemma {:induction false} SplitJoins(stream: seq<Byte>)
    ensures var (lines, rest) := Split(stream); Joined(lines) + rest == stream && 10 !in rest && forall line <- lines :: 10 !in line
  {
    if stream != [] {
      var init, last := stream[..|stream| - 1], stream[|stream| - 1];
      SplitJoins(init);
      var (lines, rest) := Split(init);
      assert stream == init + [last];
      if last == NEWLINE {
        assert (lines + [rest])[..|lines|] == lines;
      } else {
        assert Joined(lines) + (rest + [last]) == Joined(lines) + rest + [last];
      }
    }
  }

  /** A stream succeeds exactly when it is short enough, ends with a newline, and its lines,
      none of them empty or too long, are at most four relayed requests and then exactly one
      result. */
  lemma {:induction false} WholeMeaning(parse: Parser, relayed: Host, stream: seq<Byte>, t: Transcript)
    ensures Whole(parse, relayed, stream) == Ok(t) <==>
            var (lines, rest) := Split(stream);
            && |stream| <= 1_048_576 && rest == [] && |lines| == |t.routed| + 1 <= 5
            && (forall k :: 0 <= k < |lines| ==> 0 < |lines[k]| <= 196_608)
            && (forall k :: 0 <= k < |t.routed| ==> parse(lines[k]) == Some(t.routed[k]) && t.routed[k].Request? && relayed(k, t.routed[k]))
            && parse(lines[|t.routed|]) == Some(t.final) && t.final.Final?
  {
    hide TakeAll;
    var (lines, rest) := Split(stream);
    TakeAllMeaning(parse, relayed, lines, Progress(t.routed, Some(t.final)));
    if lines != [] {
      var init := lines[..|lines| - 1];
      assert forall k :: 0 <= k < |init| ==> init[k] == lines[k];
    }
  }

  // ---- Reading in chunks ----

  function Concat(chunks: seq<seq<Byte>>): seq<Byte> {
    if chunks == [] then [] else Concat(chunks[..|chunks| - 1]) + chunks[|chunks| - 1]
  }

  function FirstNewline(b: seq<Byte>): (i: nat)
    requires NEWLINE in b
    ensures i < |b| && b[i] == NEWLINE && NEWLINE !in b[..i]
  {
    if b[0] == NEWLINE then 0
    else
      var i := FirstNewline(b[1..]) + 1;
      assert b[..i] == [b[0]] + b[1..][..i - 1];
      i
  }

  lemma {:induction false} ConcatPrefix(chunks: seq<seq<Byte>>, n: nat) returns (tail: seq<Byte>)
    requires n <= |chunks|
    ensures Concat(chunks) == Concat(chunks[..n]) + tail
    decreases |chunks| - n
  {
    if n == |chunks| {
      tail := [];
      assert chunks[..n] == chunks;
    } else {
      tail := ConcatPrefix(chunks, n + 1);
      assert chunks[..n + 1][..n] == chunks[..n];
      tail := chunks[n] + tail;
    }
  }

  /** The lines a chunk completes are lines of the whole stream. */
  lemma {:induction false} RefusedSoFar(parse: Parser, relayed: Host, chunks: seq<seq<Byte>>, n: nat,
          done: seq<seq<Byte>>,
                     left: seq<Byte>)
    requires n <= |chunks| && Split(Concat(chunks[..n])) == (done + Split(left).0, Split(left).1)
    requires TakeAll(parse, relayed, done).Err?
    ensures Whole(parse, relayed, Concat(chunks)).Err?
  {
    var tail := ConcatPrefix(chunks, n);
    SplitResume(Concat(chunks[..n]), tail);
    var (lines, rest) := Split(Concat(chunks[..n]));
    assert lines + Split(rest + tail).0 == done + (Split(left).0 + Split(rest + tail).0);
    TakeAllRefused(parse, relayed, done, Split(left).0 + Split(rest + tail).0);
  }

  lemma {:induction false} OverlongSoFar(parse: Parser, relayed: Host, chunks: seq<seq<Byte>>, n: nat)
    requires n <= |chunks| && |Split(Concat(chunks[..n])).1| > FRAME_LIMIT
    ensures Whole(parse, relayed, Concat(chunks)).Err?
  {
    var tail := ConcatPrefix(chunks, n);
    var (lines, rest) := Split(Concat(chunks[..n]));
    SplitResume(Concat(chunks[..n]), tail);
    OverlongRefused(parse, relayed, lines, rest, tail);
  }

  /** The frames are the first lines of the stream, all of them requests. */
  ghost predicate Leading(parse: Parser, stream: seq<Byte>, sent: seq<Frame>) {
    && |sent| <= |Split(stream).0|
    && forall k :: 0 <= k < |sent| ==> sent[k].Request? && ParseFrame(parse, Split(stream).0[k]) == Some(sent[k])
  }

  lemma {:induction false} NothingRead(parse: Parser, relayed: Host, chunks: seq<seq<Byte>>)
    ensures Concat(chunks[..0]) == [] && Split(Concat(chunks[..0])) == ([], [])
    ensures TakeAll(parse, relayed, []) == Ok(START) && Leading(parse, Concat(chunks), [])
  {
  }

  lemma {:induction false} ConcatNext(chunks: seq<seq<Byte>>, n: nat)
    requires n < |chunks|
    ensures Concat(chunks[..n + 1]) == Concat(chunks[..n]) + chunks[n]
  {
    assert chunks[..n + 1][..n] == chunks[..n];
  }

  lemma {:induction false} AllRead(parse: Parser, relayed: Host, stream: seq<Byte>, lines: seq<seq<Byte>>,
          rest: seq<Byte>, p: Progress)
    requires |stream| <= TOTAL_LIMIT && Split(stream) == (lines, rest) && TakeAll(parse, relayed, lines) == Ok(p)
    ensures Whole(parse, relayed, stream) ==
            if rest == [] && p.final.Some? then Ok(Transcript(p.routed, p.final.value)) else Err(BadValue)
  {
  }

  /** One attach lifetime. Whatever the chunks are, it succeeds or fails as the whole stream
      does, with the same relayed requests and result; and even when it fails, no more than
      four requests are `sent` to the model, those that lead the stream. `allowed` is how many
      reads of the output, its end included, return before the deadline, and `exited` says
      that the process then ends with success in time. */
  method Exchange(parse: Parser, relayed: Host, chunks: seq<seq<Byte>>, allowed: nat, exited: bool)
    returns (r: Result<Transcript>, sent: seq<Frame>)
    ensures r.Ok? <==> |chunks| < allowed && exited && Whole(parse, relayed, Concat(chunks)).Ok?
    ensures r.Ok? ==> r == Whole(parse, relayed, Concat(chunks)) && sent == r.value.routed
    ensures |sent| <= REQUEST_LIMIT && Leading(parse, Concat(chunks), sent)
  {
    var pending: seq<Byte> := [];
    var total := 0;
    var final: Option<Frame> := None;
    ghost var lines: seq<seq<Byte>> := [];
    sent := [];
    hide Split, Concat, Take, TakeAll, Leading, Whole, ParseFrame;
    NothingRead(parse, relayed, chunks);
    for n := 0 to |chunks|
      invariant total == |Concat(chunks[..n])| <= TOTAL_LIMIT
      invariant Split(Concat(chunks[..n])) == (lines, pending)
      invariant TakeAll(parse, relayed, lines) == Ok(Progress(sent, final)) && |sent| <= REQUEST_LIMIT
      invariant Leading(parse, Concat(chunks), sent)
    {
      if n >= allowed {
        return Err(BadValue), sent;
      }
      var chunk := chunks[n];
      ConcatNext(chunks, n);
      SplitResume(Concat(chunks[..n]), chunk);
      pending := pending + chunk;
      total := total + |chunk|;
      if total > TOTAL_LIMIT {
        OverflowSoFar(parse, relayed, chunks, n + 1);
        return Err(BadValue), sent;
      }
      while NEWLINE in pending
        invariant Split(Concat(chunks[..n + 1])) == (lines + Split(pending).0, Split(pending).1)
        invariant TakeAll(parse, relayed, lines) == Ok(Progress(sent, final)) && |sent| <= REQUEST_LIMIT
        invariant Leading(parse, Concat(chunks), sent)
        decreases |pending|
      {
        var at := FirstNewline(pending);
        var line, rest := pending[..at], pending[at + 1..];
        assert pending == line + [NEWLINE] + rest;
        SplitFirst(line, rest);
        assert lines + ([line] + Split(rest).0) == lines + [line] + Split(rest).0;
        pending := rest;
        lines := lines + [line];
        ghost var p := Progress(sent, final);
        TakeAllNext(parse, relayed, lines[..|lines| - 1], line);
        assert lines[..|lines| - 1] + [line] == lines;
        TakeCases(parse, relayed, p, line);
        var f := ParseFrame(parse, line);
        if f.None? || final.Some? {
          RefusedSoFar(parse, relayed, chunks, n + 1, lines, pending);
          return Err(BadValue), sent;
        }
        if f.value.Final? {
          final := f;
        } else {
          if |sent| >= REQUEST_LIMIT {
            RefusedSoFar(parse, relayed, chunks, n + 1, lines, pending);
            return Err(BadValue), sent;
          }
          LeadingNext(parse, relayed, chunks, n + 1, lines, pending, p, f.value);
          sent := sent + [f.value];
          if !relayed(|sent| - 1, f.value) {
            RefusedSoFar(parse, relayed, chunks, n + 1, lines, pending);
            return Err(BadValue), sent;
          }
        }
      }
      SplitNone(pending);
      assert lines + [] == lines;
      if |pending| > FRAME_LIMIT {
        OverlongSoFar(parse, relayed, chunks, n + 1);
        return Err(BadValue), sent;
      }
    }
    assert chunks[..|chunks|] == chunks;
    AllRead(parse, relayed, Concat(chunks), lines, pending, Progress(sent, final));
    if |chunks| >= allowed || pending != [] || final.None? || !exited {
      return Err(BadValue), sent;
    }
    r := Ok(Transcript(sent, final.value));
  }

  lemma {:induction false} TakeCases(parse: Parser, relayed: Host, p: Progress, line: seq<Byte>)
    ensures var f := ParseFrame(parse, line);
            var r := Take(parse, relayed, p, line);
            && (f.None? || p.final.Some? ==> r.Err?)
            && (f.Some? && p.final.None? && f.value.Final? ==> r == Ok(p.(final := f)))
            && (f.Some? && p.final.None? && f.value.Request? ==>
                  r == if |p.routed| < REQUEST_LIMIT && relayed(|p.routed|, f.value) then Ok(p.(routed := p.routed + [f.value])) else Err(BadValue))
  {
  }

  lemma {:induction false} OverflowSoFar(parse: Parser, relayed: Host, chunks: seq<seq<Byte>>, n: nat)
    requires n <= |chunks| && |Concat(chunks[..n])| > TOTAL_LIMIT
    ensures Whole(parse, relayed, Concat(chunks)).Err?
  {
    var _ := ConcatPrefix(chunks, n);
  }

  /** The next request, too, is a line of the stream. */
  lemma {:induction false} LeadingNext(parse: Parser, relayed: Host, chunks: seq<seq<Byte>>, n: nat,
          lines: seq<seq<Byte>>,
                     left: seq<Byte>, p: Progress, f: Frame)
    requires n <= |chunks| && Split(Concat(chunks[..n])) == (lines + Split(left).0, Split(left).1)
    requires lines != [] && TakeAll(parse, relayed, lines[..|lines| - 1]) == Ok(p) && p.final.None?
    requires ParseFrame(parse, lines[|lines| - 1]) == Some(f) && f.Request?
    ensures Leading(parse, Concat(chunks), p.routed + [f])
  {
    hide Split, TakeAll, ParseFrame;
    var done, last := lines[..|lines| - 1], lines[|lines| - 1];
    var tail := ConcatPrefix(chunks, n);
    SplitResume(Concat(chunks[..n]), tail);
    var rest := Split(Concat(chunks[..n])).1;
    var more := Split(left).0 + Split(rest + tail).0;
    assert Split(Concat(chunks)).0 == lines + more;
    TakeAllSound(parse, relayed, done, p);
    hide Concat;
    assert Requests(parse, relayed, done, p.routed);
    forall k | 0 <= k < |p.routed| + 1
      ensures var g := (p.routed + [f])[k]; g.Request? && ParseFrame(parse, (lines + more)[k]) == Some(g)
    {
      if k < |p.routed| {
        assert (lines + more)[k] == done[k];
      }
    }
  }
}
