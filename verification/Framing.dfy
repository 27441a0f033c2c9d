/**
 * The syntax worker's side of JSON-RPC over stdio (packages/sql/src/localCodeMonikerSyntax.ts): newline
 * framing of what the child prints, and responses matched to requests by id (section 5 of the JSON-RPC 2.0
 * specification). Its `SerialTaskQueue` is a promise chain, which `PromiseQueue` refines to a FIFO queue.
 */
module Framing {
  import opened Options

  datatype Response = Response(id: nat, error: Option<string>, result: string)
  /**
   * A line as the worker reads it. `Skip`: blank, not JSON, or without a numeric id. `Throw`: JSON `null`,
   * whose missing `id` the source does not guard against, so that the handler of the chunk ends there.
   */
  datatype Reading = Skip | Throw | Answer(response: Response)
  type Reader = string -> Reading

  datatype Outcome = Resolved(result: string) | Failed(message: string)
  datatype Settlement = Settlement(id: nat, outcome: Outcome)

  /** `pending` holds the ids in the order of the Map; `settled` is what the requests' promises have seen. */
  datatype Worker = Worker(pending: seq<nat>, buffer: string, nextId: nat, disposed: bool, settled: seq<Settlement>)

  const Start := Worker([], "", 1, false, [])

  function Without(ids: seq<nat>, id: nat): (r: seq<nat>)
    ensures forall x :: x in r <==> x in ids && x != id
  {
    if ids == [] then [] else (if ids[0] == id then [] else [ids[0]]) + Without(ids[1..], id)
  }

  function OutcomeOf(r: Response): Outcome {
    match r.error case Some(message) => Failed(message) case None => Resolved(r.result)
  }

  function Settle(w: Worker, id: nat, outcome: Outcome): Worker {
    w.(pending := Without(w.pending, id), settled := w.settled + [Settlement(id, outcome)])
  }

  function Handle(read: Reader, w: Worker, line: string): Worker {
    match read(line)
    case Answer(response) => if response.id in w.pending then Settle(w, response.id, OutcomeOf(response)) else w
    case _ => w
  }

  /** `indexOf("\n")`. */
  function NewlineIn(text: string): (n: Option<nat>)
    ensures n.Some? ==> n.value < |text|
  {
    if text == "" then None
    else if text[0] == '\n' then Some(0)
    else match NewlineIn(text[1..])
      case None => None
      case Some(k) => Some(k + 1)
  }

  /** It is the position of the first newline, if there is one. */
  lemma {:induction false} NewlineInMeans(text: string)
    ensures NewlineIn(text).None? <==> '\n' !in text
    ensures NewlineIn(text).Some? ==> text[NewlineIn(text).value] == '\n' && '\n' !in text[..NewlineIn(text).value]
  {
    if text != "" && text[0] != '\n' {
      NewlineInMeans(text[1..]);
      if NewlineIn(text[1..]).Some? {
        var k := NewlineIn(text[1..]).value;
        assert text[..k + 1] == [text[0]] + text[1..][..k];
      }
    }
  }

  /** The loop of `onStdout`: complete lines of the buffer are handled, up to one that throws. */
  function Drain(read: Reader, w: Worker): Worker
    decreases |w.buffer|
  {
    match NewlineIn(w.buffer)
    case None => w
    case Some(n) =>
      var line, rest := w.buffer[..n], w.buffer[n + 1..];
      if read(line).Throw? then w.(buffer := rest) else Drain(read, Handle(read, w.(buffer := rest), line))
  }

  /** No line that throws has another complete line behind it. */
  predicate Clean(read: Reader, text: string)
    decreases |text|
  {
    match NewlineIn(text)
    case None => true
    case Some(n) => if read(text[..n]).Throw? then NewlineIn(text[n + 1..]).None? else Clean(read, text[n + 1..])
  }

  function Feed(read: Reader, w: Worker, chunk: string): Worker {
    Drain(read, w.(buffer := w.buffer + chunk))
  }

  function FeedAll(read: Reader, w: Worker, chunks: seq<string>): Worker
    decreases |chunks|
  {
    if chunks == [] then w else FeedAll(read, Feed(read, w, chunks[0]), chunks[1..])
  }

  function Concat(chunks: seq<string>): string {
    if chunks == [] then "" else chunks[0] + Concat(chunks[1..])
  }

  // ----- Framing is independent of chunking ------------------------------------------------------------

  lemma FirstNewlineStays(text: string, more: string)
    requires NewlineIn(text).Some?
    ensures NewlineIn(text + more) == NewlineIn(text)
    decreases |text|
  {
    if text[0] != '\n' {
      assert (text + more)[1..] == text[1..] + more;
      FirstNewlineStays(text[1..], more);
    }
  }

  lemma HandleKeepsBuffer(read: Reader, w: Worker, line: string, buffer: string)
    ensures Handle(read, w.(buffer := buffer), line) == Handle(read, w, line).(buffer := buffer)
  {}

  lemma {:induction false} DrainLater(read: Reader, w: Worker, more: string)
    requires Clean(read, w.buffer + more)
    ensures Drain(read, w.(buffer := w.buffer + more))
            == Drain(read, Drain(read, w).(buffer := Drain(read, w).buffer + more))
    ensures Clean(read, Drain(read, w).buffer + more)
    decreases |w.buffer|
  {
    hide Drain, Clean, Handle, NewlineIn;
    DrainUnfolds(read, w);
    if NewlineIn(w.buffer).Some? {
      var n := NewlineIn(w.buffer).value;
      var line, rest := w.buffer[..n], w.buffer[n + 1..];
      FirstLine(w.buffer, more);
      CleanUnfolds(read, w.buffer + more);
      DrainUnfolds(read, w.(buffer := w.buffer + more));
      if read(line).Throw? {
        CleanUnfolds(read, rest + more);
        DrainUnfolds(read, w.(buffer := rest + more));
      } else {
        HandleKeepsBuffer(read, w, line, rest);
        HandleKeepsBuffer(read, w, line, rest + more);
        DrainLater(read, Handle(read, w.(buffer := rest), line), more);
      }
    }
  }

  lemma FirstLine(text: string, more: string)
    requires NewlineIn(text).Some?
    ensures var n := NewlineIn(text).value;
            NewlineIn(text + more) == Some(n) && (text + more)[..n] == text[..n] && (text + more)[n + 1..] == text[n + 1..] + more
  {
    FirstNewlineStays(text, more);
  }

  /** One turn of the loop. */
  lemma DrainUnfolds(read: Reader, w: Worker)
    ensures NewlineIn(w.buffer).None? ==> Drain(read, w) == w
    ensures NewlineIn(w.buffer).Some? ==>
              var n := NewlineIn(w.buffer).value;
              var line, rest := w.buffer[..n], w.buffer[n + 1..];
              && Handle(read, w.(buffer := rest), line).buffer == rest
              && Drain(read, w) == if read(line).Throw? then w.(buffer := rest) else Drain(read, Handle(read, w.(buffer := rest), line))
  {
    if NewlineIn(w.buffer).Some? {
      var n := NewlineIn(w.buffer).value;
      HandleKeepsBuffer(read, w, w.buffer[..n], w.buffer[n + 1..]);
    }
  }

  lemma {:induction false} DrainEmpties(read: Reader, w: Worker)
    requires Clean(read, w.buffer)
    ensures '\n' !in Drain(read, w).buffer
    decreases |w.buffer|
  {
    DrainUnfolds(read, w);
    NewlineInMeans(w.buffer);
    hide Drain, Handle, NewlineIn, Clean;
    if NewlineIn(w.buffer).Some? {
      var n := NewlineIn(w.buffer).value;
      var line, rest := w.buffer[..n], w.buffer[n + 1..];
      CleanUnfolds(read, w.buffer);
      NewlineInMeans(rest);
      if !read(line).Throw? {
        DrainEmpties(read, Handle(read, w.(buffer := rest), line));
      }
    }
  }

  /** What stays in the buffer is a suffix of it, from its start or from behind a newline. */
  lemma {:induction false} DrainLeavesTail(read: Reader, w: Worker) returns (k: nat)
    ensures k <= |w.buffer| && Drain(read, w).buffer == w.buffer[k..] && (k == 0 || w.buffer[k - 1] == '\n')
    decreases |w.buffer|
  {
    DrainUnfolds(read, w);
    NewlineInMeans(w.buffer);
    hide Drain, Handle, NewlineIn;
    k := 0;
    if NewlineIn(w.buffer).Some? {
      var n := NewlineIn(w.buffer).value;
      var line, rest := w.buffer[..n], w.buffer[n + 1..];
      k := n + 1;
      if !read(line).Throw? {
        var j := DrainLeavesTail(read, Handle(read, w.(buffer := rest), line));
        k := n + 1 + j;
        assert rest[j..] == w.buffer[k..];
      }
    }
  }

  /**
   * Without such a line any split of the same output settles the same requests, with the same results, in
   * the same order, and leaves the same tail: the text behind the last newline (`DrainEmpties`).
   */
  lemma {:induction false} SplitsAgree(read: Reader, w: Worker, chunks: seq<string>)
    requires '\n' !in w.buffer && Clean(read, w.buffer + Concat(chunks))
    ensures FeedAll(read, w, chunks) == Feed(read, w, Concat(chunks))
    decreases |chunks|
  {
    if chunks == [] {
      assert w.buffer + "" == w.buffer;
      NewlineInMeans(w.buffer);
      DrainUnfolds(read, w);
    } else {
      var first, others := chunks[0], Concat(chunks[1..]);
      Joined(w.buffer, first, others);
      DrainLater(read, w.(buffer := w.buffer + first), others);
      CleanPrefix(read, w.buffer + first, others);
      DrainEmpties(read, w.(buffer := w.buffer + first));
      SplitsAgree(read, Feed(read, w, first), chunks[1..]);
    }
  }

  lemma Joined(a: string, b: string, c: string)
    ensures a + b + c == a + (b + c)
  {}

  lemma {:induction false} CleanPrefix(read: Reader, text: string, more: string)
    requires Clean(read, text + more)
    ensures Clean(read, text)
    decreases |text|
  {
    hide Clean, NewlineIn;
    CleanUnfolds(read, text);
    if NewlineIn(text).Some? {
      FirstLine(text, more);
      CleanUnfolds(read, text + more);
      var n := NewlineIn(text).value;
      if read(text[..n]).Throw? {
        if NewlineIn(text[n + 1..]).Some? {
          FirstLine(text[n + 1..], more);
        }
      } else {
        CleanPrefix(read, text[n + 1..], more);
      }
    }
  }

  /** A line that throws in front of a complete line makes two splits differ: end a chunk behind it, or do not. */
  lemma {:induction false} SplitBehindThrow(read: Reader, w: Worker) returns (k: nat)
    requires !Clean(read, w.buffer)
    ensures k <= |w.buffer|
    ensures Drain(read, w).buffer == w.buffer[k..] && NewlineIn(w.buffer[k..]).Some?
    ensures Drain(read, w.(buffer := w.buffer[..k])) == Drain(read, w).(buffer := "")
    decreases |w.buffer|
  {
    hide Drain, Handle, NewlineIn, Clean;
    CleanUnfolds(read, w.buffer);
    DrainUnfolds(read, w);
    var n := NewlineIn(w.buffer).value;
    var line, rest := w.buffer[..n], w.buffer[n + 1..];
    if read(line).Throw? {
      BehindNow(read, w, n);
      k := n + 1;
    } else {
      var next := Handle(read, w.(buffer := rest), line);
      var j := SplitBehindThrow(read, next);
      BehindLater(read, w, next, n, j);
      k := n + 1 + j;
    }
  }

  lemma BehindNow(read: Reader, w: Worker, n: nat)
    requires NewlineIn(w.buffer) == Some(n) && read(w.buffer[..n]).Throw? && NewlineIn(w.buffer[n + 1..]).Some?
    ensures Drain(read, w).buffer == w.buffer[n + 1..]
    ensures Drain(read, w.(buffer := w.buffer[..n + 1])) == Drain(read, w).(buffer := "")
  {
    DrainUnfolds(read, w);
    BehindFirstLine(read, w, n, 0);
    hide Drain, Handle, NewlineIn;
    assert w.buffer[n + 1..][..0] == "";
  }

  lemma BehindLater(read: Reader, w: Worker, next: Worker, n: nat, j: nat)
    requires NewlineIn(w.buffer) == Some(n) && !read(w.buffer[..n]).Throw?
    requires next == Handle(read, w.(buffer := w.buffer[n + 1..]), w.buffer[..n]) && next.buffer == w.buffer[n + 1..]
    requires j <= |next.buffer| && Drain(read, w) == Drain(read, next)
    requires Drain(read, next).buffer == next.buffer[j..] && NewlineIn(next.buffer[j..]).Some?
    requires Drain(read, next.(buffer := next.buffer[..j])) == Drain(read, next).(buffer := "")
    ensures var k := n + 1 + j;
            && k <= |w.buffer| && Drain(read, w).buffer == w.buffer[k..] && NewlineIn(w.buffer[k..]).Some?
            && Drain(read, w.(buffer := w.buffer[..k])) == Drain(read, w).(buffer := "")
  {
    hide Drain, Handle, NewlineIn;
    BehindFirstLine(read, w, n, j);
    SameTail(w.buffer, n + 1, j);
  }

  lemma SameTail(text: string, from: nat, j: nat)
    requires from + j <= |text|
    ensures text[from..][j..] == text[from + j..]
  {}

  lemma CleanUnfolds(read: Reader, text: string)
    ensures NewlineIn(text).None? ==> Clean(read, text)
    ensures NewlineIn(text).Some? ==>
              var n := NewlineIn(text).value;
              Clean(read, text) == if read(text[..n]).Throw? then NewlineIn(text[n + 1..]).None? else Clean(read, text[n + 1..])
  {}

  /** A chunk that ends `j` characters behind the first line is drained like the whole, up to there. */
  lemma BehindFirstLine(read: Reader, w: Worker, n: nat, j: nat)
    requires NewlineIn(w.buffer) == Some(n) && n + 1 + j <= |w.buffer|
    ensures var line, rest := w.buffer[..n], w.buffer[n + 1..];
            var next := Handle(read, w.(buffer := rest), line);
            Drain(read, w.(buffer := w.buffer[..n + 1 + j]))
            == if read(line).Throw? then w.(buffer := rest[..j]) else Drain(read, next.(buffer := rest[..j]))
  {
    var line, rest := w.buffer[..n], w.buffer[n + 1..];
    SamePrefix(w.buffer, n, j);
    DrainUnfolds(read, w.(buffer := w.buffer[..n + 1 + j]));
    HandleKeepsBuffer(read, w, line, rest);
    HandleKeepsBuffer(read, w, line, rest[..j]);
    hide Drain, Handle, NewlineIn;
  }

  lemma SamePrefix(text: string, n: nat, j: nat)
    requires NewlineIn(text) == Some(n) && n + 1 + j <= |text|
    ensures var cut := text[..n + 1 + j];
            NewlineIn(cut) == Some(n) && cut[..n] == text[..n] && cut[n + 1..] == text[n + 1..][..j]
  {
    var cut := text[..n + 1 + j];
    NewlineInMeans(text);
    assert cut[..n] == text[..n];
    assert cut[n] == '\n';
    FirstNewlineIs(cut, n);
    hide NewlineIn;
  }

  lemma {:induction false} FirstNewlineIs(text: string, n: nat)
    requires n < |text| && text[n] == '\n' && '\n' !in text[..n]
    ensures NewlineIn(text) == Some(n)
  {
    if n > 0 {
      assert text[0] == text[..n][0] && text[1..][..n - 1] == text[..n][1..];
      FirstNewlineIs(text[1..], n - 1);
    }
  }

  lemma {:induction false} DrainShortens(read: Reader, w: Worker)
    ensures |Drain(read, w).buffer| <= |w.buffer|
    ensures NewlineIn(w.buffer).Some? ==> |Drain(read, w).buffer| < |w.buffer|
    decreases |w.buffer|
  {
    DrainUnfolds(read, w);
    NewlineInMeans(w.buffer);
    hide Drain, Handle, NewlineIn;
    if NewlineIn(w.buffer).Some? {
      var n := NewlineIn(w.buffer).value;
      if !read(w.buffer[..n]).Throw? {
        DrainShortens(read, Handle(read, w.(buffer := w.buffer[n + 1..]), w.buffer[..n]));
      }
    }
  }

  lemma ThrowMakesSplitsDiffer(read: Reader, w: Worker, text: string) returns (chunks: seq<string>)
    requires w.buffer == "" && !Clean(read, text)
    ensures Concat(chunks) == text && FeedAll(read, w, chunks) != Feed(read, w, text)
  {
    hide Drain, FeedAll, Concat, Feed, Clean, NewlineIn;
    var whole := w.(buffer := text);
    var k := SplitBehindThrow(read, whole);
    var a, b := text[..k], text[k..];
    assert text == a + b;
    TwoChunks(read, w, a, b);
    FeedsFromEmpty(read, w, text, a, b);
    DrainShortens(read, Feed(read, w, a).(buffer := b));
    chunks := [a, b];
  }

  lemma FeedsFromEmpty(read: Reader, w: Worker, text: string, a: string, b: string)
    requires w.buffer == "" && text == a + b && Drain(read, w.(buffer := text)).buffer == b
    requires Drain(read, w.(buffer := a)) == Drain(read, w.(buffer := text)).(buffer := "")
    ensures Feed(read, w, text).buffer == b && Feed(read, w, a).buffer == ""
    ensures Feed(read, Feed(read, w, a), b) == Drain(read, Feed(read, w, a).(buffer := b))
  {
    assert "" + text == text && "" + a == a && "" + b == b;
    hide Drain;
  }

  /** Every split of an output agrees with the undivided one exactly when no throwing line has a complete line behind it. */
  lemma FramingIsIndependentIff(read: Reader, w: Worker, text: string)
    requires w.buffer == ""
    ensures (forall chunks | Concat(chunks) == text :: FeedAll(read, w, chunks) == Feed(read, w, text)) <==> Clean(read, text)
  {
    assert "" + text == text;
    hide Feed, FeedAll, Clean, Concat;
    if Clean(read, text) {
      forall chunks | Concat(chunks) == text ensures FeedAll(read, w, chunks) == Feed(read, w, text) {
        SplitsAgree(read, w, chunks);
      }
    } else {
      var chunks := ThrowMakesSplitsDiffer(read, w, text);
    }
  }

  lemma TwoChunks(read: Reader, w: Worker, a: string, b: string)
    ensures Concat([a, b]) == a + b && FeedAll(read, w, [a, b]) == Feed(read, Feed(read, w, a), b)
  {
    assert [a, b][1..] == [b] && [b][1..] == [];
    assert Concat([b]) == b + "" && FeedAll(read, Feed(read, w, a), [b]) == FeedAll(read, Feed(read, Feed(read, w, a), b), [b][1..]);
  }

  const NullLine := "null" + "\n"

  lemma LineIsFirst(line: string, rest: string)
    requires '\n' !in line
    ensures NewlineIn(line + "\n" + rest) == Some(|line|)
    decreases |line|
  {
    var text := line + "\n" + rest;
    if line != "" {
      assert line[0] in line && '\n' !in line[1..];
      assert text[1..] == line[1..] + "\n" + rest;
      LineIsFirst(line[1..], rest);
    }
  }

  /**
   * The exception at an input: JSON `null` and a response in one chunk leave the response in the buffer and
   * its request waiting; in two chunks the request settles.
   */
  lemma NullStrandsTheResponse(read: Reader, w: Worker, line: string)
    requires w.buffer == "" && read("null").Throw? && '\n' !in line
    requires read(line).Answer? && read(line).response.id in w.pending
    ensures Feed(read, w, NullLine + (line + "\n")) == w.(buffer := line + "\n")
    ensures FeedAll(read, w, [NullLine, line + "\n"]) == Settle(w, read(line).response.id, OutcomeOf(read(line).response))
  {
    var response := line + "\n";
    var text := NullLine + response;
    LineIsFirst("null", response);
    LineIsFirst("null", "");
    LineIsFirst(line, "");
    assert text == "null" + "\n" + response && NullLine == "null" + "\n" + "" && response == line + "\n" + "";
    hide NewlineIn;
    assert "" + text == text && "" + NullLine == NullLine && "" + response == response;
    assert text[..4] == "null" && text[5..] == response;
    assert Feed(read, w, text) == w.(buffer := response);
    assert NullLine[..4] == "null" && NullLine[5..] == "";
    NoNewline();
    assert Feed(read, w, NullLine) == w;
    assert response[..|line|] == line && response[|line| + 1..] == "";
    var settled := Settle(w, read(line).response.id, OutcomeOf(read(line).response));
    assert Handle(read, w.(buffer := ""), line) == settled;
    assert Drain(read, settled) == settled;
    assert Feed(read, w, response) == settled;
    TwoChunks(read, w, NullLine, response);
  }

  lemma NoNewline()
    ensures NewlineIn("").None?
  {}

  // ----- Every request settles at most once ------------------------------------------------------------

  datatype Event =
    | Requests
    | Stdout(chunk: string)
    | TimesOut(id: nat)
    | ChildFails(message: string)     // an error of the child, or its exit
    | Disposes

  function RejectPending(w: Worker, message: string): Worker
    decreases |w.pending|
  {
    if w.pending == [] then w
    else
      WithoutIsShorter(w.pending, w.pending[0]);
      RejectPending(Settle(w, w.pending[0], Failed(message)), message)
  }

  lemma {:induction false} WithoutIsShorter(ids: seq<nat>, id: nat)
    ensures |Without(ids, id)| <= |ids|
    ensures id in ids ==> |Without(ids, id)| < |ids|
  {
    if ids != [] {
      WithoutIsShorter(ids[1..], id);
    }
  }

  function Request(w: Worker): Worker {
    if w.disposed then w else w.(nextId := w.nextId + 1, pending := w.pending + [w.nextId])
  }

  function Next(read: Reader, w: Worker, e: Event): Worker {
    match e
    case Requests => Request(w)
    case Stdout(chunk) => Feed(read, w, chunk)
    case TimesOut(id) => if id in w.pending then Settle(w, id, Failed("timed out")) else w
    case ChildFails(message) => RejectPending(w, message)
    case Disposes => if w.disposed then w else RejectPending(w.(disposed := true), "disposed")
  }

  function After(read: Reader, w: Worker, es: seq<Event>): Worker
    decreases |es|
  {
    if es == [] then w else After(read, Next(read, w, es[0]), es[1..])
  }

  /** No request is settled twice, none is settled and pending, and only ids that were given out occur. */
  ghost predicate Inv(w: Worker) {
    && (forall i, j :: 0 <= i < j < |w.settled| ==> w.settled[i].id != w.settled[j].id)
    && (forall i, j :: 0 <= i < j < |w.pending| ==> w.pending[i] != w.pending[j])
    && (forall s | s in w.settled :: s.id !in w.pending && 1 <= s.id < w.nextId)
    && (forall id | id in w.pending :: 1 <= id < w.nextId)
    && w.nextId == 1 + |w.pending| + |w.settled|
  }

  lemma {:induction false} WithoutKeepsOrder(ids: seq<nat>, id: nat)
    requires forall i, j :: 0 <= i < j < |ids| ==> ids[i] != ids[j]
    ensures var r := Without(ids, id);
            && (forall i, j :: 0 <= i < j < |r| ==> r[i] != r[j])
            && |r| == |ids| - if id in ids then 1 else 0
  {
    if ids != [] {
      WithoutKeepsOrder(ids[1..], id);
      assert ids == [ids[0]] + ids[1..];
      assert ids[0] !in ids[1..];
    }
  }

  lemma SettleKeeps(w: Worker, id: nat, outcome: Outcome)
    requires Inv(w) && id in w.pending
    ensures Inv(Settle(w, id, outcome))
  {
    WithoutKeepsOrder(w.pending, id);
    var settled := w.settled + [Settlement(id, outcome)];
    forall i, j | 0 <= i < j < |settled| ensures settled[i].id != settled[j].id {
      assert settled[i] in w.settled;
    }
  }

  lemma HandleKeeps(read: Reader, w: Worker, line: string)
    requires Inv(w)
    ensures Inv(Handle(read, w, line)) && w.settled <= Handle(read, w, line).settled
  {
    var reading := read(line);
    if reading.Answer? && reading.response.id in w.pending {
      SettleKeeps(w, reading.response.id, OutcomeOf(reading.response));
    }
  }

  lemma {:induction false} DrainKeeps(read: Reader, w: Worker)
    requires Inv(w)
    ensures Inv(Drain(read, w)) && w.settled <= Drain(read, w).settled
    decreases |w.buffer|
  {
    DrainUnfolds(read, w);
    if NewlineIn(w.buffer).Some? {
      var n := NewlineIn(w.buffer).value;
      var cut, line := w.(buffer := w.buffer[n + 1..]), w.buffer[..n];
      assert Inv(cut);
      HandleKeeps(read, cut, line);
      hide Drain, Handle, Inv, NewlineIn;
      if !read(line).Throw? {
        DrainKeeps(read, Handle(read, cut, line));
      }
    }
  }

  lemma {:induction false} RejectKeeps(w: Worker, message: string)
    requires Inv(w)
    ensures Inv(RejectPending(w, message)) && RejectPending(w, message).pending == []
    ensures w.settled <= RejectPending(w, message).settled
    decreases |w.pending|
  {
    if w.pending != [] {
      SettleKeeps(w, w.pending[0], Failed(message));
      WithoutIsShorter(w.pending, w.pending[0]);
      RejectKeeps(Settle(w, w.pending[0], Failed(message)), message);
    }
  }

  lemma RequestKeeps(w: Worker)
    requires Inv(w)
    ensures Inv(Request(w)) && Request(w).settled == w.settled
  {
    var more := w.pending + [w.nextId];
    forall i, j | 0 <= i < j < |more| ensures more[i] != more[j] {
      assert more[i] in w.pending;
    }
  }

  lemma NextKeeps(read: Reader, w: Worker, e: Event)
    requires Inv(w)
    ensures Inv(Next(read, w, e)) && w.settled <= Next(read, w, e).settled
  {
    match e
    case Requests => RequestKeeps(w);
    case Stdout(chunk) => DrainKeeps(read, w.(buffer := w.buffer + chunk));
    case TimesOut(id) =>
      if id in w.pending {
        SettleKeeps(w, id, Failed("timed out"));
      }
    case ChildFails(message) => RejectKeeps(w, message);
    case Disposes => RejectKeeps(w.(disposed := true), "disposed");
  }

  /** However responses, timeouts, failures and disposal fall, each request settles at most once, and its outcome stays. */
  lemma {:induction false} SettlesAtMostOnce(read: Reader, w: Worker, es: seq<Event>)
    requires Inv(w)
    ensures var t := After(read, w, es);
            && Inv(t) && w.settled <= t.settled
            && (forall i, j :: 0 <= i < |t.settled| && 0 <= j < |t.settled| && t.settled[i].id == t.settled[j].id ==> i == j)
    decreases |es|
  {
    if es != [] {
      NextKeeps(read, w, es[0]);
      SettlesAtMostOnce(read, Next(read, w, es[0]), es[1..]);
    }
  }

  /** A failed child or disposal leaves no request unsettled; a timeout rejects the request it is for and no other. */
  lemma EndSettlesAll(read: Reader, w: Worker, e: Event, id: nat)
    requires Inv(w) && id in w.pending && (e.ChildFails? || (e.Disposes? && !w.disposed) || e == TimesOut(id))
    ensures exists s | s in Next(read, w, e).settled :: s.id == id && s.outcome.Failed?
    ensures id !in Next(read, w, e).pending
    ensures e.TimesOut? ==> forall x :: x in w.pending && x != id <==> x in Next(read, w, e).pending
  {
    if e.TimesOut? {
      var settled := Next(read, w, e).settled;
      assert settled[|settled| - 1].id == id;
    } else {
      RejectsEach(if e.ChildFails? then w else w.(disposed := true), if e.ChildFails? then e.message else "disposed", id);
      RejectKeeps(if e.ChildFails? then w else w.(disposed := true), if e.ChildFails? then e.message else "disposed");
    }
  }

  lemma {:induction false} RejectsEach(w: Worker, message: string, id: nat)
    requires Inv(w) && id in w.pending
    ensures Settlement(id, Failed(message)) in RejectPending(w, message).settled
    decreases |w.pending|
  {
    var next := Settle(w, w.pending[0], Failed(message));
    SettleKeeps(w, w.pending[0], Failed(message));
    WithoutIsShorter(w.pending, w.pending[0]);
    if id == w.pending[0] {
      RejectKeeps(next, message);
      assert next.settled[|next.settled| - 1] == Settlement(id, Failed(message));
    } else {
      RejectsEach(next, message, id);
    }
  }

  // ----- The worker ------------------------------------------------------------------------------------

  class CodeMonikerSyntaxWorker {
    var pending: seq<nat>
    var stdoutBuffer: string
    var nextId: nat
    var disposed: bool
    ghost var settled: seq<Settlement>

    ghost function View(): Worker
      reads this
    {
      Worker(pending, stdoutBuffer, nextId, disposed, settled)
    }

    constructor ()
      ensures View() == Start && Inv(View())
    {
      pending, stdoutBuffer, nextId, disposed, settled := [], "", 1, false, [];
    }

    method MakeRequest() returns (id: Option<nat>)
      modifies this
      ensures View() == Next(_ => Skip, old(View()), Requests)
      ensures id == if old(disposed) then None else Some(old(nextId))
    {
      if disposed {
        return None;
      }
      id := Some(nextId);
      pending := pending + [nextId];
      nextId := nextId + 1;
    }

    method SettleRequest(id: nat, outcome: Outcome)
      modifies this
      ensures View() == Settle(old(View()), id, outcome)
    {
      pending := Without(pending, id);
      settled := settled + [Settlement(id, outcome)];
    }

    method OnStdout(read: Reader, chunk: string)
      modifies this
      ensures View() == Feed(read, old(View()), chunk)
    {
      stdoutBuffer := stdoutBuffer + chunk;
      ghost var start := View();
      hide Drain;
      while true
        invariant Drain(read, View()) == Drain(read, start)
        decreases |stdoutBuffer|
      {
        DrainUnfolds(read, View());
        var newline := NewlineIn(stdoutBuffer);
        if newline.None? {
          return;
        }
        var line := stdoutBuffer[..newline.value];
        stdoutBuffer := stdoutBuffer[newline.value + 1..];
        var reading := read(line);
        if reading.Throw? {
          return;
        }
        if reading.Answer? && reading.response.id in pending {
          SettleRequest(reading.response.id, OutcomeOf(reading.response));
        }
      }
    }

    method RejectAll(message: string)
      modifies this
      ensures View() == RejectPending(old(View()), message)
    {
      ghost var start := View();
      while pending != []
        invariant RejectPending(View(), message) == RejectPending(start, message)
        decreases |pending|
      {
        WithoutIsShorter(pending, pending[0]);
        SettleRequest(pending[0], Failed(message));
      }
    }

    method Dispose()
      modifies this
      ensures View() == Next(_ => Skip, old(View()), Disposes)
    {
      if disposed {
        return;
      }
      disposed := true;
      RejectAll("disposed");
    }
  }
}
