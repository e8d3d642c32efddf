/**
 * The append-only event log of one job: a line an event, read back by splitting at newlines and
 * skipping what does not parse, and polled through a cursor that counts events already seen.
 */
module EventLog {
  import opened Wrappers
  import opened Text
  import opened Query

  datatype Event = Event(jobId: string, kind: string, payload: string, createdAt: int)

  /** The line format. */
  datatype Codec = Codec(encode: Event -> Option<string>, decode: string -> Option<Event>) {
    predicate Encodes(e: Event) {
      encode(e).Some?
    }

    function Line(e: Event): string
      requires Encodes(e)
    {
      encode(e).value
    }

    /** A line is one line, starts with something visible, and reads back as the event it was made from. */
    ghost predicate Faithful() {
      forall e :: Encodes(e) ==>
        Line(e) != [] && !IsSpace(Line(e)[0]) && '\n' !in Line(e) && decode(Line(e)) == Some(e)
    }

    /** A part of a line does not parse, nor does anything with something visible before it. */
    ghost predicate Strict() {
      && (forall e, n :: Encodes(e) && 0 < n < |Line(e)| ==> decode(Line(e)[..n]).None?)
      && (forall junk, e, n :: Encodes(e) && 0 < n <= |Line(e)| && !Blank(junk) ==> decode(junk + Line(e)[..n]).None?)
    }
  }

  // ---- Reading -----------------------------------------------------------------------------

  /** Splitting at newlines; the last piece is what follows the last newline. */
  function Lines(s: string): (lines: seq<string>)
    ensures lines != []
  {
    if s == [] then [[]]
    else
      var before, c := Lines(s[..|s| - 1]), s[|s| - 1];
      if c == '\n' then before + [[]] else before[..|before| - 1] + [before[|before| - 1] + [c]]
  }

  function Joined(lines: seq<string>): string
    requires lines != []
  {
    if |lines| == 1 then lines[0] else Joined(lines[..|lines| - 1]) + ['\n'] + lines[|lines| - 1]
  }

  /** The pieces hold no newline, and joined by newlines they are the text again. */
  lemma {:induction false} LinesAreThePieces(s: string)
    ensures forall line :: line in Lines(s) ==> '\n' !in line
    ensures Joined(Lines(s)) == s
  {
    if s != [] {
      var before, c := s[..|s| - 1], s[|s| - 1];
      var l := Lines(before);
      LinesAreThePieces(before);
      assert s == before + [c];
      if c == '\n' {
        assert (l + [[]])[..|l|] == l;
        assert Joined(l + [[]]) == Joined(l) + ['\n'] + [];
      } else {
        var n := |l| - 1;
        var longer := l[..n] + [l[n] + [c]];
        assert longer[..n] == l[..n];
        assert Joined(longer) == Joined(l) + [c];
      }
    }
  }

  function ParseLine(codec: Codec, line: string): seq<Event> {
    if Blank(line) then []
    else match codec.decode(line)
      case None => []
      case Some(e) => [e]
  }

  function Parse(codec: Codec, lines: seq<string>): seq<Event> {
    if lines == [] then [] else Parse(codec, lines[..|lines| - 1]) + ParseLine(codec, lines[|lines| - 1])
  }

  /** `file` is absent when nothing was ever appended. */
  method History(codec: Codec, file: Option<string>) returns (out: seq<Event>)
    ensures out == if file.None? then [] else Parse(codec, Lines(file.value))
  {
    out := [];
    if file.Some? {
      var lines := Lines(file.value);
      for i := 0 to |lines|
        invariant out == Parse(codec, lines[..i])
      {
        assert lines[..i + 1][..i] == lines[..i];
        if !Blank(lines[i]) {
          var e := codec.decode(lines[i]);
          if e.Some? {
            out := out + [e.value];
          }
        }
      }
      assert lines[..|lines|] == lines;
    }
  }

  // ---- Writing -----------------------------------------------------------------------------

  /** How an append went: the whole line with its newline, or only so many bytes of the line. */
  datatype Attempt = Whole(e: Event) | Torn(e: Event, kept: nat)

  predicate Possible(codec: Codec, a: Attempt) {
    codec.Encodes(a.e) && (a.Torn? ==> a.kept <= |codec.Line(a.e)|)
  }

  predicate AllPossible(codec: Codec, attempts: seq<Attempt>) {
    forall i :: 0 <= i < |attempts| ==> Possible(codec, attempts[i])
  }

  function Piece(codec: Codec, a: Attempt): string
    requires Possible(codec, a)
  {
    if a.Whole? then codec.Line(a.e) + ['\n'] else codec.Line(a.e)[..a.kept]
  }

  function Written(codec: Codec, attempts: seq<Attempt>): string
    requires AllPossible(codec, attempts)
  {
    if attempts == [] then []
    else Written(codec, attempts[..|attempts| - 1]) + Piece(codec, attempts[|attempts| - 1])
  }

  function Contents(file: Option<string>): string {
    if file.None? then [] else file.value
  }

  /**
   * One write of the line and its newline. `opens` says whether the log could be opened for this job,
   * and `reach` how many bytes the file system takes before it stops; an error does not say where.
   */
  method Append(codec: Codec, file: Option<string>, e: Event, opens: bool, reach: nat)
    returns (ok: bool, after: Option<string>)
    ensures ok <==> opens && codec.Encodes(e) && reach > |codec.Line(e)|
    ensures ok ==> Possible(codec, Whole(e)) && after == Some(Contents(file) + Piece(codec, Whole(e)))
    ensures !ok && opens && codec.Encodes(e) ==>
      Possible(codec, Torn(e, reach)) && after == Some(Contents(file) + Piece(codec, Torn(e, reach)))
    ensures !opens || !codec.Encodes(e) ==> after == file
  {
    ok, after := false, file;
    var line := codec.encode(e);
    if line.Some? && opens {
      var bytes := line.value + ['\n'];
      if reach < |bytes| {
        after := Some(Contents(file) + bytes[..reach]);
        assert bytes[..reach] == line.value[..reach];
      } else {
        ok, after := true, Some(Contents(file) + bytes);
      }
    }
  }

  // ---- What can be read back ------------------------------------------------------------------

  /** What follows the last newline. */
  function Tail(codec: Codec, attempts: seq<Attempt>): string
    requires AllPossible(codec, attempts)
  {
    if attempts == [] then []
    else
      var last := attempts[|attempts| - 1];
      if last.Whole? then [] else Tail(codec, attempts[..|attempts| - 1]) + Piece(codec, last)
  }

  /** The events on finished lines: those appended whole where no torn line was waiting. */
  function Readable(codec: Codec, attempts: seq<Attempt>): seq<Event>
    requires AllPossible(codec, attempts)
  {
    if attempts == [] then []
    else
      var before, last := attempts[..|attempts| - 1], attempts[|attempts| - 1];
      Readable(codec, before) + if last.Whole? && Tail(codec, before) == [] then [last.e] else []
  }

  /** The event on the unfinished line: one torn right before its newline. */
  function Dangling(codec: Codec, attempts: seq<Attempt>): seq<Event>
    requires AllPossible(codec, attempts)
  {
    if attempts == [] then []
    else
      var before, last := attempts[..|attempts| - 1], attempts[|attempts| - 1];
      if last.Whole? then []
      else if last.kept == 0 then Dangling(codec, before)
      else if last.kept == |codec.Line(last.e)| && Tail(codec, before) == [] then [last.e]
      else []
  }

  /** Nothing was torn, or what is torn can be told. */
  ghost predicate Legible(codec: Codec, attempts: seq<Attempt>) {
    codec.Strict() || forall i :: 0 <= i < |attempts| ==> attempts[i].Whole?
  }

  lemma LinesSnoc(s: string, c: char)
    requires c != '\n'
    ensures var l := Lines(s); Lines(s + [c]) == l[..|l| - 1] + [l[|l| - 1] + [c]]
  {
    assert (s + [c])[..|s|] == s;
  }

  lemma {:induction false} LinesAppend(s: string, piece: string)
    requires '\n' !in piece
    ensures var l := Lines(s); Lines(s + piece) == l[..|l| - 1] + [l[|l| - 1] + piece]
  {
    hide Lines;
    var l := Lines(s);
    if piece == [] {
      assert s + piece == s && l[|l| - 1] + piece == l[|l| - 1];
    } else {
      var before, c := piece[..|piece| - 1], piece[|piece| - 1];
      assert c in piece;
      LinesAppend(s, before);
      LinesSnoc(s + before, c);
      assert s + before + [c] == s + piece;
      assert l[|l| - 1] + before + [c] == l[|l| - 1] + piece;
    }
  }

  lemma LinesEnd(s: string)
    ensures Lines(s + ['\n']) == Lines(s) + [[]]
  {
    assert (s + ['\n'])[..|s|] == s;
  }

  function LastLine(log: string): string {
    Lines(log)[|Lines(log)| - 1]
  }

  function Finished(codec: Codec, log: string): seq<Event> {
    Parse(codec, Lines(log)[..|Lines(log)| - 1])
  }

  /** Text without a newline only lengthens the last line. */
  lemma TextAdded(codec: Codec, log: string, text: string)
    requires '\n' !in text
    ensures LastLine(log + text) == LastLine(log) + text && Finished(codec, log + text) == Finished(codec, log)
  {
    LinesAppend(log, text);
    var l := Lines(log);
    assert (l[..|l| - 1] + [l[|l| - 1] + text])[..|l| - 1] == l[..|l| - 1];
  }

  /** A newline finishes it. */
  lemma NewlineAdded(codec: Codec, log: string)
    ensures LastLine(log + ['\n']) == []
    ensures Finished(codec, log + ['\n']) == Finished(codec, log) + ParseLine(codec, LastLine(log))
  {
    LinesEnd(log);
    var l := Lines(log);
    assert (l + [[]])[..|l|] == l;
  }

  /** A whole line after what was torn before it. */
  lemma WholeAdded(codec: Codec, log: string, e: Event)
    requires codec.Faithful() && codec.Encodes(e) && (LastLine(log) != [] ==> !Blank(LastLine(log)) && codec.Strict())
    ensures LastLine(log + Piece(codec, Whole(e))) == []
    ensures Finished(codec, log + Piece(codec, Whole(e)))
         == Finished(codec, log) + if LastLine(log) == [] then [e] else []
  {
    var line := codec.Line(e);
    TextAdded(codec, log, line);
    NewlineAdded(codec, log + line);
    assert log + line + ['\n'] == log + Piece(codec, Whole(e));
    LineAfterTail(codec, LastLine(log), e);
  }

  /** The finished lines parse to the readable events, and the last line is the tail. */
  lemma {:induction false} WrittenLines(codec: Codec, attempts: seq<Attempt>)
    requires codec.Faithful() && AllPossible(codec, attempts) && Legible(codec, attempts)
    ensures LastLine(Written(codec, attempts)) == Tail(codec, attempts)
    ensures Finished(codec, Written(codec, attempts)) == Readable(codec, attempts)
  {
    if attempts != [] {
      var before, last := attempts[..|attempts| - 1], attempts[|attempts| - 1];
      WrittenLines(codec, before);
      TailStartsVisibly(codec, before);
      if last.Torn? {
        TextAdded(codec, Written(codec, before), Piece(codec, last));
      } else {
        WholeAdded(codec, Written(codec, before), last.e);
      }
    }
  }

  lemma {:induction false} TailStartsVisibly(codec: Codec, attempts: seq<Attempt>)
    requires codec.Faithful() && AllPossible(codec, attempts)
    ensures Tail(codec, attempts) != [] ==> !Blank(Tail(codec, attempts))
  {
    if attempts != [] {
      var before, last := attempts[..|attempts| - 1], attempts[|attempts| - 1];
      TailStartsVisibly(codec, before);
      var tail := Tail(codec, before);
      if last.Torn? && Tail(codec, attempts) != [] {
        if tail == [] {
          assert Tail(codec, attempts)[0] == codec.Line(last.e)[0];
        } else {
          var k :| 0 <= k < |tail| && !IsSpace(tail[k]);
          assert Tail(codec, attempts)[k] == tail[k];
        }
      }
    }
  }

  lemma LineAfterTail(codec: Codec, tail: string, e: Event)
    requires codec.Faithful() && codec.Encodes(e) && (tail != [] ==> !Blank(tail) && codec.Strict())
    ensures ParseLine(codec, tail + codec.Line(e)) == if tail == [] then [e] else []
  {
    var line := codec.Line(e);
    assert line[..|line|] == line;
    if tail == [] {
      assert tail + line == line;
    } else {
      assert codec.decode(tail + line[..|line|]).None?;
    }
  }

  /** Whatever was appended whole and wherever appends were torn, this is what the log reads as. */
  lemma {:induction false} HistoryOfAnyLog(codec: Codec, attempts: seq<Attempt>)
    requires codec.Faithful() && AllPossible(codec, attempts) && Legible(codec, attempts)
    ensures Parse(codec, Lines(Written(codec, attempts))) == Readable(codec, attempts) + Dangling(codec, attempts)
  {
    WrittenLines(codec, attempts);
    TailParses(codec, attempts);
    var lines := Lines(Written(codec, attempts));
    assert Parse(codec, lines) == Parse(codec, lines[..|lines| - 1]) + ParseLine(codec, lines[|lines| - 1]);
  }

  lemma {:induction false} TailParses(codec: Codec, attempts: seq<Attempt>)
    requires codec.Faithful() && AllPossible(codec, attempts) && Legible(codec, attempts)
    ensures ParseLine(codec, Tail(codec, attempts)) == Dangling(codec, attempts)
  {
    if attempts != [] {
      var before, last := attempts[..|attempts| - 1], attempts[|attempts| - 1];
      if last.Torn? {
        var tail, line := Tail(codec, before), codec.Line(last.e);
        TailStartsVisibly(codec, before);
        if last.kept == 0 {
          assert tail + line[..0] == tail;
          TailParses(codec, before);
        } else if tail == [] {
          assert tail + line[..last.kept] == line[..last.kept];
          assert last.kept == |line| ==> line[..last.kept] == line;
        } else {
          assert codec.decode(tail + line[..last.kept]).None?;
        }
      }
    }
  }

  // ---- Whole-line appends ------------------------------------------------------------------------

  function Wholes(events: seq<Event>): seq<Attempt> {
    seq(|events|, k requires 0 <= k < |events| => Whole(events[k]))
  }

  /** As long as no append is torn, the history is exactly what was appended, in order. */
  lemma {:induction false} HistoryIsWhatWasAppended(codec: Codec, events: seq<Event>)
    requires codec.Faithful() && forall e :: e in events ==> codec.Encodes(e)
    ensures AllPossible(codec, Wholes(events))
    ensures Parse(codec, Lines(Written(codec, Wholes(events)))) == events
  {
    WholesAreReadable(codec, events);
    HistoryOfAnyLog(codec, Wholes(events));
  }

  lemma {:induction false} WholesAreReadable(codec: Codec, events: seq<Event>)
    requires forall e :: e in events ==> codec.Encodes(e)
    ensures AllPossible(codec, Wholes(events))
    ensures Readable(codec, Wholes(events)) == events
    ensures Dangling(codec, Wholes(events)) == [] && Tail(codec, Wholes(events)) == []
  {
    if events != [] {
      var before := events[..|events| - 1];
      WholesAreReadable(codec, before);
      assert Wholes(events)[..|events| - 1] == Wholes(before);
      assert events == before + [events[|events| - 1]];
    }
  }

  // ---- Torn appends --------------------------------------------------------------------------------

  /** What a reader of the log gets. */
  function Seen(codec: Codec, attempts: seq<Attempt>): seq<Event>
    requires AllPossible(codec, attempts)
  {
    Parse(codec, Lines(Written(codec, attempts)))
  }

  /**
   * An event whose append succeeded can be read back exactly when the log before it was empty or
   * ended in a newline; after a torn append both lines are lost.
   */
  lemma AppendIsReadIffLogIsWhole(codec: Codec, attempts: seq<Attempt>, e: Event)
    requires codec.Faithful() && codec.Strict() && AllPossible(codec, attempts) && codec.Encodes(e)
    ensures var log := Written(codec, attempts);
      Seen(codec, attempts + [Whole(e)])
      == Readable(codec, attempts) + if log == [] || log[|log| - 1] == '\n' then [e] else []
  {
    var after := attempts + [Whole(e)];
    assert after[..|attempts|] == attempts;
    HistoryOfAnyLog(codec, after);
    TailIsWhatEndsTheLog(codec, attempts);
  }

  lemma {:induction false} TailIsWhatEndsTheLog(codec: Codec, attempts: seq<Attempt>)
    requires codec.Faithful() && AllPossible(codec, attempts)
    ensures var log := Written(codec, attempts);
      Tail(codec, attempts) == [] <==> log == [] || log[|log| - 1] == '\n'
  {
    if attempts != [] {
      var before, last := attempts[..|attempts| - 1], attempts[|attempts| - 1];
      var log, piece := Written(codec, attempts), Piece(codec, last);
      TailIsWhatEndsTheLog(codec, before);
      if piece == [] {
        assert log == Written(codec, before);
      } else {
        assert log[|log| - 1] == piece[|piece| - 1];
        assert last.Torn? ==> piece[|piece| - 1] in codec.Line(last.e);
      }
    }
  }

  lemma {:induction false} ReadableGrows(codec: Codec, attempts: seq<Attempt>, more: seq<Attempt>)
    requires AllPossible(codec, attempts) && AllPossible(codec, more)
    ensures Readable(codec, attempts) <= Readable(codec, attempts + more)
  {
    if more == [] {
      assert attempts + more == attempts;
    } else {
      ReadableGrows(codec, attempts, more[..|more| - 1]);
      assert (attempts + more)[..|attempts + more| - 1] == attempts + more[..|more| - 1];
    }
  }

  lemma StableWhenNothingDangles(codec: Codec, attempts: seq<Attempt>, more: seq<Attempt>)
    requires codec.Faithful() && codec.Strict() && AllPossible(codec, attempts) && AllPossible(codec, more)
    requires Dangling(codec, attempts) == []
    ensures Seen(codec, attempts) <= Seen(codec, attempts + more)
  {
    HistoryOfAnyLog(codec, attempts);
    HistoryOfAnyLog(codec, attempts + more);
    ReadableGrows(codec, attempts, more);
  }

  /** The next whole line hides an event that dangles, and is hidden with it. */
  lemma NextLineHidesIt(codec: Codec, attempts: seq<Attempt>, next: Event)
    requires codec.Faithful() && codec.Strict() && AllPossible(codec, attempts) && codec.Encodes(next)
    requires Dangling(codec, attempts) != []
    ensures Seen(codec, attempts) == Readable(codec, attempts) + Dangling(codec, attempts)
    ensures Seen(codec, attempts + [Whole(next)]) == Readable(codec, attempts)
  {
    HistoryOfAnyLog(codec, attempts);
    DanglingIsInTail(codec, attempts);
    TailIsWhatEndsTheLog(codec, attempts);
    AppendIsReadIffLogIsWhole(codec, attempts, next);
  }

  /** Something reached the log. */
  predicate Writes(a: Attempt) {
    a.Whole? || a.kept > 0
  }

  predicate AppendedIn(more: seq<Attempt>, e: Event) {
    exists k :: 0 <= k < |more| && Writes(more[k]) && more[k].e == e
  }

  lemma AppendedInMore(more: seq<Attempt>, e: Event)
    requires more != []
    ensures AppendedIn(more[..|more| - 1], e) ==> AppendedIn(more, e)
    ensures Writes(more[|more| - 1]) && more[|more| - 1].e == e ==> AppendedIn(more, e)
  {
    var n := |more| - 1;
    if k :| 0 <= k < n && Writes(more[..n][k]) && more[..n][k].e == e {
      assert Writes(more[k]) && more[k].e == e;
    }
  }

  /** The log with one more attempt. */
  lemma OneMoreAttempt(codec: Codec, attempts: seq<Attempt>, more: seq<Attempt>)
    requires AllPossible(codec, attempts) && AllPossible(codec, more) && more != []
    ensures var before, last := attempts + more[..|more| - 1], more[|more| - 1];
      && AllPossible(codec, before) && AllPossible(codec, attempts + more)
      && Readable(codec, attempts + more)
         == Readable(codec, before) + (if last.Whole? && Tail(codec, before) == [] then [last.e] else [])
      && (!Writes(last) ==>
            && Written(codec, attempts + more) == Written(codec, before)
            && Dangling(codec, attempts + more) == Dangling(codec, before))
      && (Writes(last) ==> forall e :: e in Dangling(codec, attempts + more) ==> e == last.e)
  {
    var n := |more| - 1;
    assert (attempts + more)[..|attempts| + n] == attempts + more[..n] && (attempts + more)[|attempts| + n] == more[n];
  }

  /** What becomes readable was appended since. */
  lemma {:induction false} OnlyNewIsRead(codec: Codec, attempts: seq<Attempt>, more: seq<Attempt>)
    requires AllPossible(codec, attempts) && AllPossible(codec, more)
    ensures var was, now := Readable(codec, attempts), Readable(codec, attempts + more);
      was <= now && forall k :: |was| <= k < |now| ==> AppendedIn(more, now[k])
  {
    if more == [] {
      assert attempts + more == attempts;
    } else {
      hide AppendedIn, Readable, Tail, Written, Dangling, Possible;
      OnlyNewIsRead(codec, attempts, more[..|more| - 1]);
      OneMoreAttempt(codec, attempts, more);
      var now := Readable(codec, attempts + more);
      forall k | |Readable(codec, attempts)| <= k < |now| ensures AppendedIn(more, now[k]) {
        AppendedInMore(more, now[k]);
      }
    }
  }

  /** What dangles once something was written was appended since; until then the log is as it was. */
  lemma {:induction false} OnlyNewDangles(codec: Codec, attempts: seq<Attempt>, more: seq<Attempt>)
    requires AllPossible(codec, attempts) && AllPossible(codec, more)
    ensures (exists k :: 0 <= k < |more| && Writes(more[k])) ==>
      forall e :: e in Dangling(codec, attempts + more) ==> AppendedIn(more, e)
    ensures (forall k :: 0 <= k < |more| ==> !Writes(more[k])) ==>
      Written(codec, attempts + more) == Written(codec, attempts)
  {
    hide AppendedIn, Readable, Tail, Written, Dangling, Possible, Writes;
    if more == [] {
      assert attempts + more == attempts;
    } else {
      var n := |more| - 1;
      OnlyNewDangles(codec, attempts, more[..n]);
      OneMoreAttempt(codec, attempts, more);
      forall e | e in Dangling(codec, attempts + more) && exists k :: 0 <= k < |more| && Writes(more[k])
        ensures AppendedIn(more, e)
      {
        AppendedInMore(more, e);
        if k :| 0 <= k < n && Writes(more[k]) {
          assert Writes(more[..n][k]);
        }
      }
    }
  }

  /**
   * An event that dangles is read until anything more reaches the log, be it a whole line or a part of
   * one, and never again: from then on all that follows the readable events was appended later.
   */
  lemma DanglingEventVanishes(codec: Codec, attempts: seq<Attempt>, more: seq<Attempt>)
    requires codec.Faithful() && codec.Strict() && AllPossible(codec, attempts) && AllPossible(codec, more)
    requires Dangling(codec, attempts) != []
    ensures Seen(codec, attempts) == Readable(codec, attempts) + Dangling(codec, attempts)
    ensures (forall k :: 0 <= k < |more| ==> !Writes(more[k])) ==>
      Seen(codec, attempts + more) == Seen(codec, attempts)
    ensures (exists k :: 0 <= k < |more| && Writes(more[k])) ==>
      var kept, seen := Readable(codec, attempts), Seen(codec, attempts + more);
      kept <= seen && forall k :: |kept| <= k < |seen| ==> AppendedIn(more, seen[k])
  {
    hide Written, Lines, Parse, AppendedIn, Readable, Dangling, Writes, Possible;
    HistoryOfAnyLog(codec, attempts);
    HistoryOfAnyLog(codec, attempts + more);
    OnlyNewIsRead(codec, attempts, more);
    OnlyNewDangles(codec, attempts, more);
  }

  /** An index into the history stays good through everything that can follow exactly when nothing dangles. */
  lemma CursorIsStableIffNothingDangles(codec: Codec, attempts: seq<Attempt>)
    requires codec.Faithful() && codec.Strict() && AllPossible(codec, attempts)
    ensures Dangling(codec, attempts) == []
      <==> forall more: seq<Attempt> :: AllPossible(codec, more) ==>
        Seen(codec, attempts) <= Seen(codec, attempts + more)
  {
    if Dangling(codec, attempts) == [] {
      forall more: seq<Attempt> | AllPossible(codec, more)
        ensures Seen(codec, attempts) <= Seen(codec, attempts + more)
      {
        StableWhenNothingDangles(codec, attempts, more);
      }
    } else {
      var next := attempts[|attempts| - 1].e;
      NextLineHidesIt(codec, attempts, next);
      assert AllPossible(codec, [Whole(next)]);
    }
  }

  lemma {:induction false} DanglingIsInTail(codec: Codec, attempts: seq<Attempt>)
    requires codec.Faithful() && AllPossible(codec, attempts) && Dangling(codec, attempts) != []
    ensures Tail(codec, attempts) != []
  {
    if attempts[|attempts| - 1].kept == 0 {
      DanglingIsInTail(codec, attempts[..|attempts| - 1]);
    }
  }

  lemma TornAlone(codec: Codec, e: Event, kept: nat)
    requires codec.Encodes(e) && 0 < kept <= |codec.Line(e)|
    ensures AllPossible(codec, [Torn(e, kept)])
    ensures Readable(codec, [Torn(e, kept)]) == [] && Tail(codec, [Torn(e, kept)]) != []
    ensures Dangling(codec, [Torn(e, kept)]) == if kept == |codec.Line(e)| then [e] else []
  {
    assert [Torn(e, kept)][..0] == [];
    assert Tail(codec, []) == [];
  }

  /** A log that starts with a torn line. */
  lemma OneTornLine(codec: Codec, e: Event, kept: nat, next: Event)
    requires codec.Faithful() && codec.Strict() && codec.Encodes(e) && codec.Encodes(next)
      && 0 < kept <= |codec.Line(e)|
    ensures AllPossible(codec, [Torn(e, kept)]) && AllPossible(codec, [Torn(e, kept)] + [Whole(next)])
    ensures Seen(codec, [Torn(e, kept)]) == if kept == |codec.Line(e)| then [e] else []
    ensures Seen(codec, [Torn(e, kept)] + [Whole(next)]) == []
  {
    hide Written, Lines, Parse;
    TornAlone(codec, e, kept);
    HistoryOfAnyLog(codec, [Torn(e, kept)]);
    ReadableSnoc(codec, [Torn(e, kept)], Whole(next));
    HistoryOfAnyLog(codec, [Torn(e, kept)] + [Whole(next)]);
  }

  // ---- Polling ---------------------------------------------------------------------------------------

  /** The history endpoint: the events from index `since` on, if it was given and makes sense. */
  method ServeHistory(history: seq<Event>, since: Raw) returns (page: Option<seq<Event>>)
    ensures page.None? <==> since.Unreadable? || (since.Number? && since.value < 0)
    ensures page.Some? ==> page.value == From(history, if since.Number? then since.value else 0)
  {
    if since.Absent? {
      return Some(history);
    }
    if since.Unreadable? || since.value < 0 {
      return None;
    }
    var from := since.value;
    if from > |history| {
      from := |history|;
    }
    return Some(history[from..]);
  }

  function From(history: seq<Event>, since: nat): seq<Event> {
    history[Min(since, |history|)..]
  }

  /** Appends and polls in any order; a poll may also read while an append that will succeed is part way through. */
  datatype Move = Write(a: Attempt) | Poll | PolledWrite(e: Event, n: nat)

  function Attempts(moves: seq<Move>): seq<Attempt> {
    if moves == [] then []
    else
      Attempts(moves[..|moves| - 1]) +
      match moves[|moves| - 1]
      case Write(a) => [a]
      case Poll => []
      case PolledWrite(e, _) => [Whole(e)]
  }

  /** No append stops at the one place where a whole line lacks only its newline. */
  predicate Fair(codec: Codec, moves: seq<Move>) {
    forall i :: 0 <= i < |moves| ==>
      match moves[i]
      case Write(a) => Possible(codec, a) && (a.Torn? ==> a.kept < |codec.Line(a.e)|)
      case Poll => true
      case PolledWrite(e, n) => Possible(codec, Torn(e, n))
  }

  lemma {:induction false} FairIsPossible(codec: Codec, moves: seq<Move>)
    requires codec.Faithful() && Fair(codec, moves)
    ensures AllPossible(codec, Attempts(moves)) && Dangling(codec, Attempts(moves)) == []
  {
    if moves != [] {
      var before, last := moves[..|moves| - 1], moves[|moves| - 1];
      FairIsPossible(codec, before);
      if !last.Poll? {
        assert Attempts(moves)[..|Attempts(before)|] == Attempts(before);
      } else {
        assert Attempts(moves) == Attempts(before);
      }
    }
  }

  /** The log as the last of the moves lets a poll see it. */
  ghost function Visible(codec: Codec, moves: seq<Move>): seq<Event>
    requires moves != [] && codec.Faithful() && Fair(codec, moves)
  {
    FairIsPossible(codec, moves[..|moves| - 1]);
    var before, last := Attempts(moves[..|moves| - 1]), moves[|moves| - 1];
    if last.PolledWrite? then Seen(codec, before + [Torn(last.e, last.n)]) else Seen(codec, before)
  }

  /** All that a client was given that asks each time for what lies past the number of events it was given. */
  ghost function Delivered(codec: Codec, moves: seq<Move>): seq<Event>
    requires codec.Faithful() && Fair(codec, moves)
  {
    if moves == [] then []
    else
      var before := Delivered(codec, moves[..|moves| - 1]);
      if moves[|moves| - 1].Write? then before else before + From(Visible(codec, moves), |before|)
  }

  lemma CatchUp(had: seq<Event>, history: seq<Event>)
    requires had <= history
    ensures had + From(history, |had|) == history
  {
  }

  lemma NextAttempts(moves: seq<Move>)
    requires moves != []
    ensures var before, last := Attempts(moves[..|moves| - 1]), moves[|moves| - 1];
      && (last.Write? ==> Attempts(moves) == before + [last.a])
      && (last.PolledWrite? ==> Attempts(moves) == before + [Whole(last.e)])
      && (last.Poll? ==> Attempts(moves) == before)
  {
  }

  /** What a poll sees is all that is readable, and perhaps the event just being appended. */
  lemma VisibleIs(codec: Codec, moves: seq<Move>)
    requires moves != [] && codec.Faithful() && codec.Strict() && Fair(codec, moves)
    ensures AllPossible(codec, Attempts(moves)) && AllPossible(codec, Attempts(moves[..|moves| - 1]))
    ensures Readable(codec, Attempts(moves[..|moves| - 1])) <= Visible(codec, moves) <= Readable(codec, Attempts(moves))
    ensures moves[|moves| - 1].Poll? ==> Visible(codec, moves) == Readable(codec, Attempts(moves))
  {
    var attempts, last := Attempts(moves[..|moves| - 1]), moves[|moves| - 1];
    FairIsPossible(codec, moves);
    FairIsPossible(codec, moves[..|moves| - 1]);
    NextAttempts(moves);
    if last.PolledWrite? {
      Midway(codec, attempts, last.e, last.n);
    } else {
      HistoryOfAnyLog(codec, attempts);
      if last.Write? {
        ReadableGrows(codec, attempts, [last.a]);
      }
    }
  }

  lemma ReadableSnoc(codec: Codec, attempts: seq<Attempt>, a: Attempt)
    requires AllPossible(codec, attempts) && Possible(codec, a)
    ensures Readable(codec, attempts + [a])
         == Readable(codec, attempts) + if a.Whole? && Tail(codec, attempts) == [] then [a.e] else []
  {
    assert (attempts + [a])[..|attempts|] == attempts;
  }

  lemma DanglingSnoc(codec: Codec, attempts: seq<Attempt>, e: Event, n: nat)
    requires AllPossible(codec, attempts) && Possible(codec, Torn(e, n)) && Dangling(codec, attempts) == []
    ensures Dangling(codec, attempts + [Torn(e, n)]) == []
      || (Dangling(codec, attempts + [Torn(e, n)]) == [e] && Tail(codec, attempts) == [])
  {
    assert (attempts + [Torn(e, n)])[..|attempts|] == attempts;
  }

  lemma Midway(codec: Codec, attempts: seq<Attempt>, e: Event, n: nat)
    requires codec.Faithful() && codec.Strict() && AllPossible(codec, attempts) && Possible(codec, Torn(e, n))
    requires Dangling(codec, attempts) == []
    ensures var seen := Seen(codec, attempts + [Torn(e, n)]);
      Readable(codec, attempts) <= seen <= Readable(codec, attempts + [Whole(e)])
  {
    HistoryOfAnyLog(codec, attempts + [Torn(e, n)]);
    ReadableSnoc(codec, attempts, Torn(e, n));
    ReadableSnoc(codec, attempts, Whole(e));
    DanglingSnoc(codec, attempts, e, n);
  }

  /**
   * However polls and appends interleave, torn ones included, the client has a prefix of the
   * history, without gap or repeat, and the whole of it after a poll.
   */
  lemma {:induction false} PollsSeeEachEventOnce(codec: Codec, moves: seq<Move>)
    requires codec.Faithful() && codec.Strict() && Fair(codec, moves)
    ensures AllPossible(codec, Attempts(moves))
    ensures Delivered(codec, moves) <= Readable(codec, Attempts(moves)) == Seen(codec, Attempts(moves))
    ensures moves != [] && moves[|moves| - 1].Poll? ==> Delivered(codec, moves) == Seen(codec, Attempts(moves))
  {
    hide Written, Lines, Parse;
    FairIsPossible(codec, moves);
    HistoryOfAnyLog(codec, Attempts(moves));
    if moves != [] {
      PollsSeeEachEventOnce(codec, moves[..|moves| - 1]);
      VisibleIs(codec, moves);
      CatchUp(Delivered(codec, moves[..|moves| - 1]), Visible(codec, moves));
    }
  }

  // ---- A format, and what a torn line costs ------------------------------------------------------------

  predicate Clean(s: string) {
    forall c :: c in s ==> c != '{' && c != '}' && c != '\n'
  }

  function Named(kind: string): Event {
    Event("job", kind, "", 1)
  }

  /** A small format of the required sort: a name in braces. */
  function Braces(): Codec {
    Codec(
      (e: Event) => if e == Named(e.kind) && Clean(e.kind) then Some("{" + e.kind + "}") else None,
      (l: string) =>
        if |l| >= 2 && l[0] == '{' && l[|l| - 1] == '}' && Clean(l[1..|l| - 1]) then Some(Named(l[1..|l| - 1]))
        else None)
  }

  lemma BracesAreFaithful(e: Event)
    requires Braces().Encodes(e)
    ensures var l := Braces().Line(e);
      l == "{" + e.kind + "}" && l[0] == '{' && '\n' !in l && Braces().decode(l) == Some(e)
  {
    var l := Braces().Line(e);
    assert l[1..|l| - 1] == e.kind;
  }

  /** A brace inside, or none at the end, and it does not parse. */
  lemma NotInBraces(l: string, k: nat)
    requires l != [] && (l[|l| - 1] != '}' || (0 < k < |l| - 1 && l[k] == '{'))
    ensures Braces().decode(l).None?
  {
    if l[|l| - 1] == '}' {
      assert l[1..|l| - 1][k - 1] == '{' && '{' in l[1..|l| - 1];
    }
  }

  lemma BracesAreStrict(junk: string, e: Event, n: nat)
    requires Braces().Encodes(e) && 0 < n <= |Braces().Line(e)|
    ensures junk != [] || n < |Braces().Line(e)| ==> Braces().decode(junk + Braces().Line(e)[..n]).None?
  {
    var l := Braces().Line(e);
    BracesAreFaithful(e);
    var all := junk + l[..n];
    assert all[|junk|] == l[0] == '{' && all[|all| - 1] == l[n - 1];
    if n < |l| {
      assert n > 1 ==> l[n - 1] in e.kind;
      NotInBraces(all, 0);
    } else if junk != [] {
      NotInBraces(all, |junk|);
    }
  }

  lemma BracesMeetTheNeeds()
    ensures Braces().Faithful() && Braces().Strict()
  {
    var codec := Braces();
    forall e | codec.Encodes(e)
      ensures codec.Line(e) != [] && !IsSpace(codec.Line(e)[0]) && '\n' !in codec.Line(e)
      ensures codec.decode(codec.Line(e)) == Some(e)
    {
      BracesAreFaithful(e);
    }
    forall e, n | codec.Encodes(e) && 0 < n < |codec.Line(e)| ensures codec.decode(codec.Line(e)[..n]).None? {
      BracesAreStrict([], e, n);
      assert [] + codec.Line(e)[..n] == codec.Line(e)[..n];
    }
    forall junk, e, n | codec.Encodes(e) && 0 < n <= |codec.Line(e)| && !Blank(junk)
      ensures codec.decode(junk + codec.Line(e)[..n]).None?
    {
      BracesAreStrict(junk, e, n);
    }
  }

  /**
   * Part of "a" stays behind: "b", appended whole, is never read. All but the newline of "a" stays
   * behind: "a" is read at index 0, and "b", appended next, takes it away.
   */
  lemma TornLineCostsTheNext(kept: nat)
    requires kept == 2 || kept == 3
    ensures var torn := [Torn(Named("a"), kept)];
      && AllPossible(Braces(), torn) && Seen(Braces(), torn) == (if kept == 3 then [Named("a")] else [])
      && AllPossible(Braces(), torn + [Whole(Named("b"))]) && Seen(Braces(), torn + [Whole(Named("b"))]) == []
  {
    BracesMeetTheNeeds();
    ALineInBraces();
    OneTornLine(Braces(), Named("a"), kept, Named("b"));
  }

  lemma ALineInBraces()
    ensures Braces().Encodes(Named("a")) && Braces().Encodes(Named("b")) && |Braces().Line(Named("a"))| == 3
  {
  }
}
