/**
 * Which output settles a request, told from the lines of the output (packages/sql/src/localCodeMonikerSyntax.ts):
 * the first complete line that answers it, unless a line that throws stands in front.
 */
module FramingAnswers {
  import opened Options
  import opened Framing

  /** A complete line stands in `text` from `i` to the newline at `j`. */
  ghost predicate LineAt(text: string, i: nat, j: nat) {
    && i <= j < |text| && text[j] == '\n'
    && '\n' !in text[i..j]
    && (i == 0 || text[i - 1] == '\n')
  }

  /** No line in front of position `i` throws. */
  ghost predicate Reached(read: Reader, text: string, i: nat) {
    forall h: nat, k: nat | h < i && LineAt(text, h, k) :: !read(text[h..k]).Throw?
  }

  /** The line from `i` to `j` is read, and is a response to the request. */
  ghost predicate AnswersAt(read: Reader, text: string, i: nat, j: nat, id: nat) {
    && LineAt(text, i, j) && Reached(read, text, i)
    && read(text[i..j]).Answer? && read(text[i..j]).response.id == id
  }

  /** And no line in front of it is. */
  ghost predicate FirstAnswerAt(read: Reader, text: string, i: nat, j: nat, id: nat) {
    && AnswersAt(read, text, i, j, id)
    && forall h: nat, k: nat | h < i :: !AnswersAt(read, text, h, k, id)
  }

  /** The promise of a request is rejected with the message of an error and resolved with the result otherwise. */
  ghost predicate SettledBy(settled: seq<Settlement>, r: Response) {
    Settlement(r.id, if r.error.Some? then Failed(r.error.value) else Resolved(r.result)) in settled
  }

  lemma LinesBehind(text: string, n: nat, i: nat, j: nat)
    requires n < |text| && LineAt(text, 0, n)
    ensures LineAt(text[n + 1..], i, j) <==> LineAt(text, n + 1 + i, n + 1 + j)
    ensures LineAt(text[n + 1..], i, j) ==> text[n + 1..][i..j] == text[n + 1 + i..n + 1 + j]
  {
    var rest := text[n + 1..];
    if j < |rest| && i <= j {
      assert rest[i..j] == text[n + 1 + i..n + 1 + j];
      assert rest[j] == text[n + 1 + j];
      if i > 0 {
        assert rest[i - 1] == text[n + i];
      }
    }
  }

  /** Every line is the first one or stands behind it. */
  lemma FirstOrBehind(text: string, n: nat, i: nat, j: nat)
    requires n < |text| && LineAt(text, 0, n) && LineAt(text, i, j)
    ensures (i == 0 && j == n) || n + 1 <= i
  {
    NewlineEnds(text, 0, n);
    NewlineEnds(text, i, j);
  }

  lemma NewlineEnds(text: string, i: nat, j: nat)
    requires LineAt(text, i, j)
    ensures forall k | i <= k < j :: text[k] != '\n'
  {
    forall k | i <= k < j ensures text[k] != '\n' {
      assert text[i..j][k - i] == text[k];
    }
  }

  lemma AnswersBehind(read: Reader, text: string, n: nat, rest: string, id: nat)
    requires n < |text| && rest == text[n + 1..] && LineAt(text, 0, n) && !read(text[0..n]).Throw?
    ensures forall i: nat, j: nat :: AnswersAt(read, rest, i, j, id) <==> AnswersAt(read, text, n + 1 + i, n + 1 + j, id)
  {
    forall i: nat, j: nat ensures AnswersAt(read, rest, i, j, id) <==> AnswersAt(read, text, n + 1 + i, n + 1 + j, id) {
      LinesBehind(text, n, i, j);
      if LineAt(rest, i, j) {
        ReachedBehind(read, text, n, i);
      }
    }
  }

  lemma ReachedBehind(read: Reader, text: string, n: nat, i: nat)
    requires n < |text| && LineAt(text, 0, n) && !read(text[0..n]).Throw?
    ensures Reached(read, text[n + 1..], i) <==> Reached(read, text, n + 1 + i)
  {
    var rest := text[n + 1..];
    if Reached(read, text, n + 1 + i) {
      forall h: nat, k: nat | h < i && LineAt(rest, h, k) ensures !read(rest[h..k]).Throw? {
        LinesBehind(text, n, h, k);
        assert LineAt(text, n + 1 + h, n + 1 + k);
      }
    }
    if Reached(read, rest, i) {
      forall h: nat, k: nat | h < n + 1 + i && LineAt(text, h, k) ensures !read(text[h..k]).Throw? {
        FirstOrBehind(text, n, h, k);
        if h != 0 {
          Behind(text, n, h, k);
          LinesBehind(text, n, h - n - 1, k - n - 1);
          assert LineAt(rest, h - n - 1, k - n - 1);
        }
      }
    }
  }

  lemma Behind(text: string, n: nat, h: nat, k: nat)
    requires LineAt(text, h, k) && n + 1 <= h
    ensures n + 1 <= k
  {}

  /** The first newline ends the first line. */
  lemma FirstLineIs(text: string)
    ensures NewlineIn(text).None? ==> forall i: nat, j: nat :: !LineAt(text, i, j)
    ensures NewlineIn(text).Some? ==> LineAt(text, 0, NewlineIn(text).value)
  {
    NewlineInMeans(text);
    if NewlineIn(text).Some? {
      var n := NewlineIn(text).value;
      assert text[0..n] == text[..n];
    }
  }

  /**
   * Draining a buffer settles a pending request exactly if some line that is read answers it, and does so
   * with what the first such line says.
   */
  lemma {:induction false} AnswersSettle(read: Reader, w: Worker, id: nat)
    requires Inv(w) && id in w.pending
    ensures var t := Drain(read, w);
            && (id !in t.pending <==> exists i: nat, j: nat :: AnswersAt(read, w.buffer, i, j, id))
            && forall i: nat, j: nat | FirstAnswerAt(read, w.buffer, i, j, id) :: SettledBy(t.settled, read(w.buffer[i..j]).response)
    decreases |w.buffer|
  {
    DrainUnfolds(read, w);
    FirstLineIs(w.buffer);
    hide Drain, Inv, NewlineIn;
    if NewlineIn(w.buffer).Some? {
      var n := NewlineIn(w.buffer).value;
      var line, rest := w.buffer[..n], w.buffer[n + 1..];
      assert w.buffer[0..n] == line;
      if read(line).Throw? {
        OnlyTheFirst(read, w.buffer, n, id);
      } else {
        var cut := w.(buffer := rest);
        var next := Handle(read, cut, line);
        SameInv(w, rest);
        HandleKeeps(read, cut, line);
        AnswersBehind(read, w.buffer, n, rest, id);
        DrainKeeps(read, next);
        hide LineAt, AnswersAt;
        if read(line).Answer? && read(line).response.id == id {
          FirstLineAnswers(read, w.buffer, n, id);
          SettledAtOnce(read, cut, next, line);
          DrainInventsNothing(read, next, id);
        } else {
          Untouched(read, w, cut, next, line, id);
          AnswersSettle(read, next, id);
          SettledBehind(read, w.buffer, n, rest, id, Drain(read, next));
        }
      }
    }
  }

  lemma SameInv(w: Worker, buffer: string)
    requires Inv(w)
    ensures Inv(w.(buffer := buffer))
  {}

  /** Behind a first line that throws nothing is read, and it answers nothing itself. */
  lemma OnlyTheFirst(read: Reader, text: string, n: nat, id: nat)
    requires n < |text| && LineAt(text, 0, n) && read(text[0..n]).Throw?
    ensures forall i: nat, j: nat :: !AnswersAt(read, text, i, j, id)
  {
    forall i: nat, j: nat ensures !AnswersAt(read, text, i, j, id) {
      if LineAt(text, i, j) {
        FirstOrBehind(text, n, i, j);
      }
    }
  }

  lemma FirstLineAnswers(read: Reader, text: string, n: nat, id: nat)
    requires n < |text| && LineAt(text, 0, n) && read(text[0..n]).Answer? && read(text[0..n]).response.id == id
    ensures AnswersAt(read, text, 0, n, id)
    ensures forall i: nat, j: nat | FirstAnswerAt(read, text, i, j, id) :: i == 0 && j == n
  {
    assert AnswersAt(read, text, 0, n, id);
    forall i: nat, j: nat | FirstAnswerAt(read, text, i, j, id) ensures i == 0 && j == n {
      FirstOrBehind(text, n, i, j);
    }
  }

  lemma Untouched(read: Reader, w: Worker, cut: Worker, next: Worker, line: string, id: nat)
    requires cut.pending == w.pending && next == Handle(read, cut, line) && id in w.pending
    requires !(read(line).Answer? && read(line).response.id == id)
    ensures id in next.pending
  {}

  /** What holds of the lines behind the first one holds of all, if the first one is no answer. */
  lemma SettledBehind(read: Reader, text: string, n: nat, rest: string, id: nat, t: Worker)
    requires n < |text| && rest == text[n + 1..] && LineAt(text, 0, n) && !(read(text[0..n]).Answer? && read(text[0..n]).response.id == id)
    requires forall i: nat, j: nat :: AnswersAt(read, rest, i, j, id) <==> AnswersAt(read, text, n + 1 + i, n + 1 + j, id)
    requires id !in t.pending <==> exists i: nat, j: nat :: AnswersAt(read, rest, i, j, id)
    requires forall i: nat, j: nat | FirstAnswerAt(read, rest, i, j, id) :: SettledBy(t.settled, read(rest[i..j]).response)
    ensures id !in t.pending <==> exists i: nat, j: nat :: AnswersAt(read, text, i, j, id)
    ensures forall i: nat, j: nat | FirstAnswerAt(read, text, i, j, id) :: SettledBy(t.settled, read(text[i..j]).response)
  {
    forall i: nat, j: nat | AnswersAt(read, text, i, j, id)
      ensures i >= n + 1 && j >= n + 1 && AnswersAt(read, rest, i - n - 1, j - n - 1, id) && rest[i - n - 1..j - n - 1] == text[i..j]
    {
      FirstOrBehind(text, n, i, j);
      assert AnswersAt(read, text, n + 1 + (i - n - 1), n + 1 + (j - n - 1), id);
    }
    forall i: nat, j: nat | FirstAnswerAt(read, text, i, j, id) ensures SettledBy(t.settled, read(text[i..j]).response) {
      assert AnswersAt(read, rest, i - n - 1, j - n - 1, id);
      forall h: nat, k: nat | h < i - n - 1 ensures !AnswersAt(read, rest, h, k, id) {
        assert !AnswersAt(read, text, n + 1 + h, n + 1 + k, id);
      }
      assert FirstAnswerAt(read, rest, i - n - 1, j - n - 1, id);
    }
  }

  lemma SettledAtOnce(read: Reader, cut: Worker, next: Worker, line: string)
    requires read(line).Answer? && read(line).response.id in cut.pending && next == Handle(read, cut, line)
    ensures read(line).response.id !in next.pending
    ensures forall later | next.settled <= later :: SettledBy(later, read(line).response)
  {
    var n := |cut.settled|;
    forall later | next.settled <= later ensures SettledBy(later, read(line).response) {
      assert later[n] == next.settled[n];
    }
  }

  lemma HandleInventsNothing(read: Reader, w: Worker, line: string, id: nat)
    requires id !in w.pending
    ensures id !in Handle(read, w, line).pending
  {}

  /** What is settled does not become pending again. */
  lemma {:induction false} DrainInventsNothing(read: Reader, w: Worker, id: nat)
    requires id !in w.pending
    ensures id !in Drain(read, w).pending
    decreases |w.buffer|
  {
    DrainUnfolds(read, w);
    hide Drain, NewlineIn;
    if NewlineIn(w.buffer).Some? {
      var n := NewlineIn(w.buffer).value;
      var line, rest := w.buffer[..n], w.buffer[n + 1..];
      HandleInventsNothing(read, w.(buffer := rest), line, id);
      hide Handle;
      if !read(line).Throw? {
        DrainInventsNothing(read, Handle(read, w.(buffer := rest), line), id);
      }
    }
  }
}
