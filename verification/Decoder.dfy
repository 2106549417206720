/** The newline-delimited JSON decoder of the TypeScript client (ts/fetch.pb.ts). */
module Decoder {
  import opened Common

  /** The newline-terminated lines of a text. */
  function Lines(s: string): seq<string> {
    if s == [] then []
    else if s[|s| - 1] == '\n' then Lines(s[..|s| - 1]) + [Tail(s[..|s| - 1])]
    else Lines(s[..|s| - 1])
  }

  /** What follows the last newline. */
  function Tail(s: string): string {
    if s == [] || s[|s| - 1] == '\n' then [] else Tail(s[..|s| - 1]) + [s[|s| - 1]]
  }

  predicate OneLine(s: string) { '\n' !in s }

  predicate AllOneLine(lines: seq<string>) {
    forall i :: 0 <= i < |lines| ==> OneLine(lines[i])
  }

  /** The text of complete lines. */
  function Text(lines: seq<string>): string {
    if lines == [] then [] else Text(lines[..|lines| - 1]) + lines[|lines| - 1] + ['\n']
  }

  lemma NextChar(s: string, c: char)
    ensures Lines(s + [c]) == if c == '\n' then Lines(s) + [Tail(s)] else Lines(s)
    ensures Tail(s + [c]) == if c == '\n' then [] else Tail(s) + [c]
  {
    assert (s + [c])[..|s|] == s;
  }

  lemma TextMore(lines: seq<string>, line: string)
    ensures Text(lines + [line]) == Text(lines) + line + ['\n']
  {
    assert (lines + [line])[..|lines|] == lines;
  }

  /** `Lines` and `Tail` lose nothing: together they are the text again. */
  lemma {:induction false} LinesRebuild(s: string)
    ensures Text(Lines(s)) + Tail(s) == s
  {
    if s != [] {
      var front, c := s[..|s| - 1], s[|s| - 1];
      LinesRebuild(front);
      if c == '\n' {
        TextMore(Lines(front), Tail(front));
        assert Text(Lines(s)) + Tail(s) == front + [c];
      } else {
        assert Text(Lines(s)) + Tail(s) == (Text(Lines(front)) + Tail(front)) + [c];
      }
      assert s == front + [c];
    }
  }

  /** And none of them contains a newline. */
  lemma {:induction false} LinesAreLines(s: string)
    ensures OneLine(Tail(s)) && AllOneLine(Lines(s))
  {
    if s != [] {
      LinesAreLines(s[..|s| - 1]);
    }
  }

  lemma LastChar(a: string, b: string)
    requires b != []
    ensures a + b == (a + b[..|b| - 1]) + [b[|b| - 1]]
  {
  }

  lemma {:induction false} RestAdds(s: string, rest: string)
    requires OneLine(rest)
    ensures Lines(s + rest) == Lines(s) && Tail(s + rest) == Tail(s) + rest
  {
    if rest == [] {
      assert s + rest == s && Tail(s) + rest == Tail(s);
    } else {
      var n := |rest| - 1;
      RestAdds(s, rest[..n]);
      LastChar(s, rest);
      LastChar(Tail(s), rest);
      NextChar(s + rest[..n], rest[n]);
    }
  }

  lemma LineAdds(s: string, line: string)
    requires OneLine(line) && Tail(s) == []
    ensures Lines(s + line + ['\n']) == Lines(s) + [line] && Tail(s + line + ['\n']) == []
  {
    RestAdds(s, line);
    assert Tail(s) + line == line;
    NextChar(s + line, '\n');
  }

  lemma {:induction false} TextLines(lines: seq<string>)
    requires AllOneLine(lines)
    ensures Lines(Text(lines)) == lines && Tail(Text(lines)) == []
  {
    if lines != [] {
      var init, last := lines[..|lines| - 1], lines[|lines| - 1];
      TextLines(init);
      LineAdds(Text(init), last);
      assert lines == init + [last];
    }
  }

  /** And they are the only way to cut the text into lines and an unterminated rest. */
  lemma LinesUnique(lines: seq<string>, rest: string)
    requires OneLine(rest) && AllOneLine(lines)
    ensures Lines(Text(lines) + rest) == lines && Tail(Text(lines) + rest) == rest
  {
    TextLines(lines);
    RestAdds(Text(lines), rest);
  }

  /** Text that arrives later only adds lines. */
  lemma {:induction false} LinesGrow(a: string, b: string)
    ensures Lines(a) <= Lines(a + b)
  {
    if b == [] {
      assert a + b == a;
    } else {
      LinesGrow(a, b[..|b| - 1]);
      assert a + b == (a + b[..|b| - 1]) + [b[|b| - 1]];
      NextChar(a + b[..|b| - 1], b[|b| - 1]);
    }
  }

  predicate AllParse<R>(parse: string -> Option<R>, lines: seq<string>) {
    forall i :: 0 <= i < |lines| ==> parse(lines[i]).Some?
  }

  /** The records of the lines up to the first that does not parse. */
  function Records<R>(parse: string -> Option<R>, lines: seq<string>): seq<R> {
    if lines == [] then []
    else
      var init, last := lines[..|lines| - 1], parse(lines[|lines| - 1]);
      if last.Some? && |Records(parse, init)| == |init| then Records(parse, init) + [last.value]
      else Records(parse, init)
  }

  lemma {:induction false} RecordsSpec<R>(parse: string -> Option<R>, lines: seq<string>)
    ensures var rs := Records(parse, lines);
      && |rs| <= |lines| && (|rs| == |lines| <==> AllParse(parse, lines))
      && (forall i :: 0 <= i < |rs| ==> parse(lines[i]) == Some(rs[i]))
      && (|rs| < |lines| ==> parse(lines[|rs|]).None?)
  {
    if lines != [] {
      RecordsSpec(parse, lines[..|lines| - 1]);
    }
  }

  lemma RecordsNext<R>(parse: string -> Option<R>, lines: seq<string>, line: string)
    requires AllParse(parse, lines)
    ensures var more := lines + [line];
      if parse(line).Some?
      then AllParse(parse, more) && Records(parse, more) == Records(parse, lines) + [parse(line).value]
      else !AllParse(parse, more) && Records(parse, more) == Records(parse, lines)
  {
    var more := lines + [line];
    assert more[..|lines|] == lines && more[|lines|] == line;
    RecordsSpec(parse, lines);
  }

  /** When a line does not parse, what follows it does not matter. */
  lemma {:induction false} RecordsStop<R>(parse: string -> Option<R>, a: seq<string>, b: seq<string>)
    requires a <= b && !AllParse(parse, a)
    ensures Records(parse, b) == Records(parse, a) && !AllParse(parse, b)
  {
    if |a| == |b| {
      assert a == b;
    } else {
      var init := b[..|b| - 1];
      assert a <= init;
      RecordsStop(parse, a, init);
      RecordsSpec(parse, init);
    }
  }

  lemma FailureIsFinal<R>(parse: string -> Option<R>, a: string, b: string)
    requires !AllParse(parse, Lines(a))
    ensures Records(parse, Lines(a + b)) == Records(parse, Lines(a)) && !AllParse(parse, Lines(a + b))
  {
    LinesGrow(a, b);
    RecordsStop(parse, Lines(a), Lines(a + b));
  }

  /** Inside a transform: `gone` has been cut off as complete lines, whose records are out, and there is no newline
      before `pos`. */
  ghost predicate Scanned<R>(parse: string -> Option<R>, gone: string, out: seq<R>, buf: string, pos: nat) {
    && Tail(gone) == [] && AllParse(parse, Lines(gone)) && out == Records(parse, Lines(gone))
    && pos <= |buf| && OneLine(buf[..pos])
  }

  /** Where a transform ends that has come to `pos`. */
  datatype End<R> = End(buf: string, pos: nat, out: seq<R>, failed: bool)

  /** The rest of a transform. */
  function Rest<R>(parse: string -> Option<R>, out: seq<R>, buf: string, pos: nat): End<R>
    decreases |buf| - pos
  {
    if pos >= |buf| then End(buf, pos, out, false)
    else if buf[pos] != '\n' then Rest(parse, out, buf, pos + 1)
    else
      match parse(buf[..pos])
      case None => End(buf, pos, out, true)
      case Some(response) => Rest(parse, out + [response], buf[pos + 1..], 0)
  }

  lemma Skips<R>(parse: string -> Option<R>, gone: string, out: seq<R>, buf: string, pos: nat)
    requires Scanned(parse, gone, out, buf, pos) && pos < |buf| && buf[pos] != '\n'
    ensures Scanned(parse, gone, out, buf, pos + 1)
  {
    assert buf[..pos + 1] == buf[..pos] + [buf[pos]];
  }

  lemma Emits<R>(parse: string -> Option<R>, gone: string, out: seq<R>, buf: string, pos: nat)
    requires Scanned(parse, gone, out, buf, pos) && pos < |buf| && buf[pos] == '\n'
    requires parse(buf[..pos]).Some?
    ensures Scanned(parse, gone + buf[..pos] + ['\n'], out + [parse(buf[..pos]).value], buf[pos + 1..], 0)
  {
    LineAdds(gone, buf[..pos]);
    RecordsNext(parse, Lines(gone), buf[..pos]);
  }

  lemma Cuts(gone: string, buf: string, pos: nat)
    requires pos < |buf| && buf[pos] == '\n'
    ensures gone + buf == (gone + buf[..pos] + ['\n']) + buf[pos + 1..]
  {
    assert buf == buf[..pos] + ['\n'] + buf[pos + 1..];
  }

  lemma Throws<R>(parse: string -> Option<R>, gone: string, out: seq<R>, buf: string, pos: nat)
    requires Scanned(parse, gone, out, buf, pos) && pos < |buf| && buf[pos] == '\n'
    requires parse(buf[..pos]).None?
    ensures out == Records(parse, Lines(gone + buf)) && !AllParse(parse, Lines(gone + buf))
  {
    LineAdds(gone, buf[..pos]);
    RecordsNext(parse, Lines(gone), buf[..pos]);
    FailureIsFinal(parse, gone + buf[..pos] + ['\n'], buf[pos + 1..]);
    Cuts(gone, buf, pos);
  }

  lemma Ends<R>(parse: string -> Option<R>, gone: string, out: seq<R>, buf: string)
    requires Scanned(parse, gone, out, buf, |buf|)
    ensures out == Records(parse, Lines(gone + buf)) && AllParse(parse, Lines(gone + buf)) && buf == Tail(gone + buf)
  {
    assert buf[..|buf|] == buf;
    RestAdds(gone, buf);
  }

  /** A stream that has been fed `text` and ended so has emitted exactly the records of its lines, up to the first that
      does not parse, and if all parse holds the unterminated rest. */
  ghost predicate IsEnd<R>(parse: string -> Option<R>, text: string, e: End<R>) {
    && e.out == Records(parse, Lines(text))
    && (e.failed <==> !AllParse(parse, Lines(text)))
    && (!e.failed ==> e.buf == Tail(text) && e.pos == |e.buf|)
  }

  /** What a transform makes of the text: its loop, one turn at a time. */
  lemma {:induction false} RestIsEnd<R>(parse: string -> Option<R>, gone: string, out: seq<R>, buf: string, pos: nat)
    requires Scanned(parse, gone, out, buf, pos)
    ensures IsEnd(parse, gone + buf, Rest(parse, out, buf, pos))
    decreases |buf| - pos
  {
    if pos == |buf| {
      Ends(parse, gone, out, buf);
    } else if buf[pos] != '\n' {
      Skips(parse, gone, out, buf, pos);
      RestIsEnd(parse, gone, out, buf, pos + 1);
    } else if parse(buf[..pos]).None? {
      Throws(parse, gone, out, buf, pos);
    } else {
      Emits(parse, gone, out, buf, pos);
      Cuts(gone, buf, pos);
      RestIsEnd(parse, gone + buf[..pos] + ['\n'], out + [parse(buf[..pos]).value], buf[pos + 1..], 0);
    }
  }

  /** A transform that starts with complete lines behind it and the unterminated `rest` in the buffer. */
  lemma TransformFrom<R>(parse: string -> Option<R>, gone: string, rest: string, chunk: string)
    requires Tail(gone) == [] && OneLine(rest) && AllParse(parse, Lines(gone))
    ensures IsEnd(parse, (gone + rest) + chunk, Rest(parse, Records(parse, Lines(gone)), rest + chunk, |rest|))
  {
    assert (rest + chunk)[..|rest|] == rest;
    assert gone + (rest + chunk) == (gone + rest) + chunk;
    RestIsEnd(parse, gone, Records(parse, Lines(gone)), rest + chunk, |rest|);
  }

  /** A transform after `fed`. */
  lemma TransformIsEnd<R>(parse: string -> Option<R>, fed: string, chunk: string)
    requires AllParse(parse, Lines(fed))
    ensures IsEnd(parse, fed + chunk, Rest(parse, Records(parse, Lines(fed)), Tail(fed) + chunk, |Tail(fed)|))
  {
    LinesRebuild(fed);
    LinesAreLines(fed);
    TextLines(Lines(fed));
    TransformFrom(parse, Text(Lines(fed)), Tail(fed), chunk);
  }

  /** The transform stream. `out` is what it has enqueued; `failed` means JSON.parse has thrown, after which the
      stream takes no more chunks. */
  class Stream<R> {
    const parse: string -> Option<R>
    var buf: string
    var pos: nat
    var out: seq<R>
    var failed: bool
    ghost var fed: string

    constructor (parse: string -> Option<R>)
      ensures this.parse == parse && fed == "" && Valid() && !failed && out == []
    {
      this.parse, buf, pos, out, failed, fed := parse, "", 0, [], false, "";
    }

    /** The stream has emitted exactly the records of the lines fed so far, and holds the unterminated rest. */
    ghost predicate Valid()
      reads this
    {
      IsEnd(parse, fed, End(buf, pos, out, failed))
    }

    /** The loop of a transform. */
    method Scan()
      requires !failed && pos <= |buf|
      modifies this`buf, this`pos, this`out, this`failed
      ensures End(buf, pos, out, failed) == old(Rest(parse, out, buf, pos))
    {
      ghost var end := Rest(parse, out, buf, pos);
      while pos < |buf|
        invariant pos <= |buf| && !failed && Rest(parse, out, buf, pos) == end
        decreases |buf| - pos
      {
        if buf[pos] == '\n' {
          var line := buf[..pos];
          var response := parse(line);
          if response.None? {
            failed := true;
            return;
          }
          out := out + [response.value];
          buf := buf[pos + 1..];
          pos := 0;
        } else {
          pos := pos + 1;
        }
      }
    }

    method Transform(chunk: string)
      requires Valid() && !failed
      modifies this
      ensures Valid() && fed == old(fed) + chunk
    {
      TransformIsEnd(parse, fed, chunk);
      buf := buf + chunk;
      fed := fed + chunk;
      Scan();
    }
  }

  function Concat(chunks: seq<string>): string {
    if chunks == [] then "" else Concat(chunks[..|chunks| - 1]) + chunks[|chunks| - 1]
  }

  lemma {:induction false} ConcatMore(chunks: seq<string>, i: nat) returns (rest: string)
    requires i <= |chunks|
    ensures Concat(chunks) == Concat(chunks[..i]) + rest
    decreases |chunks| - i
  {
    if i == |chunks| {
      assert chunks[..i] == chunks;
      rest := "";
    } else {
      rest := ConcatMore(chunks, i + 1);
      assert chunks[..i + 1][..i] == chunks[..i];
      rest := chunks[i] + rest;
    }
  }

  /** Chunking invariance: however the text is cut, the records are those of its newline-terminated lines, up to
      the first that does not parse, and if all parse the rest waits in the buffer. */
  method Decode<R>(parse: string -> Option<R>, chunks: seq<string>) returns (out: seq<R>, failed: bool, rest: string)
    ensures out == Records(parse, Lines(Concat(chunks)))
    ensures failed <==> !AllParse(parse, Lines(Concat(chunks)))
    ensures !failed ==> rest == Tail(Concat(chunks))
  {
    var s := new Stream<R>(parse);
    var i := 0;
    while i < |chunks| && !s.failed
      invariant 0 <= i <= |chunks| && s.parse == parse && fresh(s)
      invariant s.Valid() && s.fed == Concat(chunks[..i])
    {
      assert chunks[..i + 1][..i] == chunks[..i];
      s.Transform(chunks[i]);
      i := i + 1;
    }
    assert chunks[..|chunks|] == chunks;
    if s.failed {
      ghost var more := ConcatMore(chunks, i);
      FailureIsFinal(parse, Concat(chunks[..i]), more);
    }
    return s.out, s.failed, s.buf;
  }
}
