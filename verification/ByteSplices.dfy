/**
 * Inserting texts into a byte buffer at offsets of the original buffer, and replacing a range of it:
 * `applyByteInjections` (packages/coverage/src/syntaxInstrumenter.ts) and `replaceUtf8Range`
 * (packages/coverage/src/syntaxService.ts). Offsets are those of a syntax tree, so none splits a UTF-8
 * character and the bytes stand for the text.
 */
module ByteSplices {
  import opened Options
  import opened Sequences

  type Bytes = seq<bv8>

  datatype Injection = Injection(offset: int, order: int, text: Bytes)

  // ----- The order of the texts at one offset ----------------------------------------------------

  function InsertByOrder(x: Injection, sorted: seq<Injection>): seq<Injection> {
    if sorted == [] || x.order <= sorted[0].order then [x] + sorted else [sorted[0]] + InsertByOrder(x, sorted[1..])
  }

  /** `group.sort((left, right) => left.order - right.order)`, which JavaScript guarantees to be stable. */
  function SortByOrder(group: seq<Injection>): seq<Injection> {
    if group == [] then [] else InsertByOrder(group[0], SortByOrder(group[1..]))
  }

  function WithOrder(order: int, group: seq<Injection>): seq<Injection> {
    Filter((i: Injection) => i.order == order, group)
  }

  predicate AscendingOrders(sorted: seq<Injection>) {
    forall i, j :: 0 <= i < j < |sorted| ==> sorted[i].order <= sorted[j].order
  }

  /** Ascending orders, and within one order the sequence they came in. */
  ghost predicate StablySorted(group: seq<Injection>, sorted: seq<Injection>) {
    && AscendingOrders(sorted)
    && (forall order :: WithOrder(order, sorted) == WithOrder(order, group))
    && multiset(sorted) == multiset(group)
  }

  lemma {:induction false} InsertIsStable(x: Injection, rest: seq<Injection>, sorted: seq<Injection>)
    requires StablySorted(rest, sorted)
    ensures StablySorted([x] + rest, InsertByOrder(x, sorted))
  {
    InsertKeepsOrder(x, sorted);
    InsertAddsOne(x, sorted);
    forall order ensures WithOrder(order, InsertByOrder(x, sorted)) == WithOrder(order, [x] + rest) {
      InsertWithOrder(x, sorted, order);
      assert ([x] + rest)[1..] == rest;
    }
  }

  lemma {:induction false} InsertAddsOne(x: Injection, sorted: seq<Injection>)
    ensures multiset(InsertByOrder(x, sorted)) == multiset{x} + multiset(sorted)
  {
    if sorted != [] && x.order > sorted[0].order {
      InsertAddsOne(x, sorted[1..]);
      assert sorted == [sorted[0]] + sorted[1..];
    }
  }

  lemma {:induction false} InsertKeepsOrder(x: Injection, sorted: seq<Injection>)
    requires AscendingOrders(sorted)
    ensures AscendingOrders(InsertByOrder(x, sorted))
  {
    if sorted == [] || x.order <= sorted[0].order {
      assert AscendingOrders([x] + sorted);
    } else {
      var rest := InsertByOrder(x, sorted[1..]);
      InsertKeepsOrder(x, sorted[1..]);
      InsertAddsOne(x, sorted[1..]);
      hide InsertByOrder;
      forall k | 0 <= k < |rest| ensures sorted[0].order <= rest[k].order {
        assert rest[k] in multiset(rest);
        assert rest[k] == x || rest[k] in sorted[1..];
      }
      assert AscendingOrders([sorted[0]] + rest);
    }
  }

  lemma {:induction false} InsertWithOrder(x: Injection, sorted: seq<Injection>, order: int)
    requires AscendingOrders(sorted)
    ensures WithOrder(order, InsertByOrder(x, sorted)) == (if x.order == order then [x] else []) + WithOrder(order, sorted)
  {
    if sorted == [] || x.order <= sorted[0].order {
      assert ([x] + sorted)[1..] == sorted;
    } else {
      InsertWithOrder(x, sorted[1..], order);
      var rest := InsertByOrder(x, sorted[1..]);
      assert ([sorted[0]] + rest)[1..] == rest;
    }
  }

  lemma {:induction false} SortIsStable(group: seq<Injection>)
    ensures StablySorted(group, SortByOrder(group))
  {
    if group != [] {
      SortIsStable(group[1..]);
      InsertIsStable(group[0], group[1..], SortByOrder(group[1..]));
      assert group == [group[0]] + group[1..];
    }
  }

  // ----- The simultaneous insertion --------------------------------------------------------------

  /** A buffer after the insertion, seen as original bytes and inserted texts. */
  datatype Piece = Original(byte: bv8) | Inserted(injection: Injection)

  /** The injections at one offset, in the order they came in. */
  function OffsetGroup(injections: seq<Injection>, offset: int): seq<Injection> {
    Filter((i: Injection) => i.offset == offset, injections)
  }

  function TextsAt(injections: seq<Injection>, offset: int): seq<Injection> {
    SortByOrder(OffsetGroup(injections, offset))
  }

  function InsertedAll(texts: seq<Injection>): seq<Piece> {
    Map((i: Injection) => Inserted(i), texts)
  }

  /** From left to right: at each offset its texts, then the source byte there. */
  function Weave(source: Bytes, injections: seq<Injection>, from: nat): seq<Piece>
    decreases |source| + 1 - from
  {
    if from > |source| then []
    else
      InsertedAll(TextsAt(injections, from))
      + (if from < |source| then [Original(source[from])] else [])
      + Weave(source, injections, from + 1)
  }

  function BytesOf(p: Piece): Bytes {
    match p case Original(b) => [b] case Inserted(i) => i.text
  }

  function Flatten(pieces: seq<Piece>): Bytes {
    if pieces == [] then [] else BytesOf(pieces[0]) + Flatten(pieces[1..])
  }

  function Originals(pieces: seq<Piece>): Bytes {
    if pieces == [] then []
    else (if pieces[0].Original? then [pieces[0].byte] else []) + Originals(pieces[1..])
  }

  function Insertions(pieces: seq<Piece>): seq<Injection> {
    if pieces == [] then []
    else (if pieces[0].Inserted? then [pieces[0].injection] else []) + Insertions(pieces[1..])
  }

  lemma {:induction false} FlattenAppend(a: seq<Piece>, b: seq<Piece>)
    ensures Flatten(a + b) == Flatten(a) + Flatten(b)
  {
    if a == [] {
      assert a + b == b;
    } else {
      assert (a + b)[0] == a[0] && (a + b)[1..] == a[1..] + b;
      FlattenAppend(a[1..], b);
    }
  }

  lemma {:induction false} OriginalsAppend(a: seq<Piece>, b: seq<Piece>)
    ensures Originals(a + b) == Originals(a) + Originals(b)
  {
    if a == [] {
      assert a + b == b;
    } else {
      assert (a + b)[0] == a[0] && (a + b)[1..] == a[1..] + b;
      OriginalsAppend(a[1..], b);
    }
  }

  lemma {:induction false} InsertionsAppend(a: seq<Piece>, b: seq<Piece>)
    ensures Insertions(a + b) == Insertions(a) + Insertions(b)
  {
    if a == [] {
      assert a + b == b;
    } else {
      assert (a + b)[0] == a[0] && (a + b)[1..] == a[1..] + b;
      InsertionsAppend(a[1..], b);
    }
  }

  lemma PiecesAppend(a: seq<Piece>, b: seq<Piece>)
    ensures Flatten(a + b) == Flatten(a) + Flatten(b)
    ensures Originals(a + b) == Originals(a) + Originals(b)
    ensures Insertions(a + b) == Insertions(a) + Insertions(b)
  {
    FlattenAppend(a, b);
    OriginalsAppend(a, b);
    InsertionsAppend(a, b);
  }

  lemma {:induction false} AllInserted(texts: seq<Injection>)
    ensures Originals(InsertedAll(texts)) == [] && Insertions(InsertedAll(texts)) == texts
  {
    if texts != [] {
      AllInserted(texts[1..]);
      assert InsertedAll(texts)[1..] == InsertedAll(texts[1..]);
    }
  }

  function Kept(bytes: Bytes): seq<Piece> {
    Map((b: bv8) => Original(b), bytes)
  }

  lemma {:induction false} AllKept(bytes: Bytes)
    ensures Flatten(Kept(bytes)) == bytes && Originals(Kept(bytes)) == bytes && Insertions(Kept(bytes)) == []
  {
    if bytes != [] {
      AllKept(bytes[1..]);
      assert Kept(bytes)[1..] == Kept(bytes[1..]);
    }
  }

  /** The source bytes at one offset: one, or none behind the last. */
  function ByteAt(source: Bytes, at: nat): Bytes {
    if at < |source| then [source[at]] else []
  }

  lemma WeaveUnfolds(source: Bytes, injections: seq<Injection>, from: nat)
    requires from <= |source|
    ensures Weave(source, injections, from)
            == InsertedAll(TextsAt(injections, from)) + Kept(ByteAt(source, from)) + Weave(source, injections, from + 1)
  {
    assert Kept(ByteAt(source, from)) == if from < |source| then [Original(source[from])] else [];
  }

  /** One offset of a weave. */
  lemma WeaveStep(source: Bytes, injections: seq<Injection>, from: nat)
    requires from <= |source|
    ensures var here := InsertedAll(TextsAt(injections, from));
            var pieces, rest := Weave(source, injections, from), Weave(source, injections, from + 1);
            && Flatten(pieces) == Flatten(here) + ByteAt(source, from) + Flatten(rest)
            && Originals(pieces) == ByteAt(source, from) + Originals(rest)
            && Insertions(pieces) == TextsAt(injections, from) + Insertions(rest)
  {
    var here, byte, rest := InsertedAll(TextsAt(injections, from)), Kept(ByteAt(source, from)), Weave(source, injections, from + 1);
    WeaveUnfolds(source, injections, from);
    AllInserted(TextsAt(injections, from));
    AllKept(ByteAt(source, from));
    assert [] + ByteAt(source, from) == ByteAt(source, from) && TextsAt(injections, from) + [] == TextsAt(injections, from);
    hide *;
    FlattenAppend(here + byte, rest);
    FlattenAppend(here, byte);
    OriginalsAppend(here + byte, rest);
    OriginalsAppend(here, byte);
    InsertionsAppend(here + byte, rest);
    InsertionsAppend(here, byte);
  }

  // ----- What the insertion keeps ----------------------------------------------------------------

  /** Without the inserted texts the weave is the source. */
  lemma {:induction false} WeaveKeepsSource(source: Bytes, injections: seq<Injection>, from: nat)
    requires from <= |source| + 1
    ensures Originals(Weave(source, injections, from)) == if from <= |source| then source[from..] else []
    decreases |source| + 1 - from
  {
    if from <= |source| {
      hide Weave, Originals, TextsAt;
      WeaveStep(source, injections, from);
      WeaveKeepsSource(source, injections, from + 1);
    }
  }

  /** At each offset the weave holds that offset's texts, in stable order, and no others. */
  lemma {:induction false} WeaveInserts(source: Bytes, injections: seq<Injection>, from: nat, offset: int)
    requires from <= |source| + 1
    ensures OffsetGroup(Insertions(Weave(source, injections, from)), offset)
            == if from <= offset <= |source| then TextsAt(injections, offset) else []
    decreases |source| + 1 - from
  {
    if from <= |source| {
      hide Weave, Insertions, TextsAt, OffsetGroup;
      WeaveInserts(source, injections, from + 1, offset);
      InsertsStep(source, injections, from, offset);
    }
  }

  lemma InsertsStep(source: Bytes, injections: seq<Injection>, from: nat, offset: int)
    requires from <= |source|
    ensures OffsetGroup(Insertions(Weave(source, injections, from)), offset)
            == (if from == offset then TextsAt(injections, from) else [])
               + OffsetGroup(Insertions(Weave(source, injections, from + 1)), offset)
  {
    var p := (i: Injection) => i.offset == offset;
    WeaveStep(source, injections, from);
    TextsHaveOffset(injections, from);
    hide Weave, TextsAt, Insertions, StablySorted;
    FilterAppend(p, TextsAt(injections, from), Insertions(Weave(source, injections, from + 1)));
    AllOrNone(p, TextsAt(injections, from), from == offset);
  }

  lemma {:induction false} AllOrNone(p: Injection -> bool, s: seq<Injection>, all: bool)
    requires forall x | x in s :: p(x) == all
    ensures Filter(p, s) == if all then s else []
  {
    if s != [] {
      AllOrNone(p, s[1..], all);
    }
  }

  lemma TextsHaveOffset(injections: seq<Injection>, offset: int)
    ensures forall i | i in TextsAt(injections, offset) :: i.offset == offset
    ensures StablySorted(OffsetGroup(injections, offset), TextsAt(injections, offset))
  {
    var group := OffsetGroup(injections, offset);
    SortIsStable(group);
    forall i | i in TextsAt(injections, offset) ensures i.offset == offset {
      assert i in multiset(TextsAt(injections, offset));
      assert i in multiset(group);
      assert i in group;
    }
  }

  ghost predicate InRange(source: Bytes, injections: seq<Injection>) {
    forall i | i in injections :: 0 <= i.offset <= |source|
  }

  /** Every injection is inserted exactly once. */
  lemma WeaveInsertsEachOnce(source: Bytes, injections: seq<Injection>)
    requires InRange(source, injections)
    ensures multiset(Insertions(Weave(source, injections, 0))) == multiset(injections)
  {
    var inserted := Insertions(Weave(source, injections, 0));
    forall x: Injection ensures multiset(inserted)[x] == multiset(injections)[x] {
      var p := (i: Injection) => i.offset == x.offset;
      WeaveInserts(source, injections, 0, x.offset);
      FilterCount(p, inserted, x);
      FilterCount(p, injections, x);
      if 0 <= x.offset <= |source| {
        TextsHaveOffset(injections, x.offset);
      } else {
        assert x !in injections;
      }
    }
  }

  // ----- Cutting the texts out again -------------------------------------------------------------

  datatype Span = Span(start: nat, end: nat)

  /** Where the inserted texts lie in the flattened weave. */
  function Spans(pieces: seq<Piece>, at: nat): seq<Span> {
    if pieces == [] then []
    else
      var next := at + |BytesOf(pieces[0])|;
      (if pieces[0].Inserted? then [Span(at, next)] else []) + Spans(pieces[1..], next)
  }

  ghost predicate Ascending(spans: seq<Span>, from: nat, to: nat)
    decreases |spans|
  {
    if spans == [] then from <= to
    else from <= spans[0].start <= spans[0].end && Ascending(spans[1..], spans[0].end, to)
  }

  /** `bytes` from `from` on, without the spans. */
  function Cut(bytes: Bytes, spans: seq<Span>, from: nat): Bytes
    requires Ascending(spans, from, |bytes|)
    decreases |spans|
  {
    AscendingBounds(spans, from, |bytes|);
    if spans == [] then bytes[from..] else bytes[from..spans[0].start] + Cut(bytes, spans[1..], spans[0].end)
  }

  lemma {:induction false} AscendingBounds(spans: seq<Span>, from: nat, to: nat)
    requires Ascending(spans, from, to)
    ensures from <= to && (spans != [] ==> spans[0].end <= to)
    decreases |spans|
  {
    if spans != [] {
      AscendingBounds(spans[1..], spans[0].end, to);
    }
  }

  lemma {:induction false} SpansAscend(pieces: seq<Piece>, at: nat, from: nat)
    requires from <= at
    ensures Ascending(Spans(pieces, at), from, at + |Flatten(pieces)|)
    decreases |pieces|
  {
    if pieces != [] {
      var next := at + |BytesOf(pieces[0])|;
      if pieces[0].Inserted? {
        SpansAscend(pieces[1..], next, next);
        assert Spans(pieces, at)[1..] == Spans(pieces[1..], next);
      } else {
        SpansAscend(pieces[1..], next, from);
        assert Spans(pieces, at) == Spans(pieces[1..], next);
      }
    }
  }

  /** Cutting the inserted texts out of the flattened pieces leaves the original bytes. */
  lemma {:induction false} CutRestores(pieces: seq<Piece>, before: Bytes, from: nat)
    requires from <= |before|
    ensures Ascending(Spans(pieces, |before|), from, |before| + |Flatten(pieces)|)
    ensures Cut(before + Flatten(pieces), Spans(pieces, |before|), from) == before[from..] + Originals(pieces)
    decreases |pieces|
  {
    SpansAscend(pieces, |before|, from);
    if pieces == [] {
      assert before + Flatten(pieces) == before;
    } else {
      hide Flatten, Spans, Originals, Cut, Ascending, BytesOf;
      var bytes, rest := BytesOf(pieces[0]), Flatten(pieces[1..]);
      var next := |before + bytes|;
      CutRestores(pieces[1..], before + bytes, if pieces[0].Inserted? then next else from);
      FirstPiece(pieces, |before|);
      Regroup(before, bytes, rest, from);
      if pieces[0].Inserted? {
        CutsFirst(before, bytes, rest, Spans(pieces[1..], next), from);
      } else {
        Regroup(before, bytes, Originals(pieces[1..]), from);
      }
    }
  }

  lemma Regroup(before: Bytes, bytes: Bytes, rest: Bytes, from: nat)
    requires from <= |before|
    ensures before + (bytes + rest) == before + bytes + rest
    ensures before[from..] + (bytes + rest) == (before + bytes)[from..] + rest
  {}

  lemma FirstPiece(pieces: seq<Piece>, at: nat)
    requires pieces != []
    ensures var bytes, rest := BytesOf(pieces[0]), pieces[1..];
            && Flatten(pieces) == bytes + Flatten(rest)
            && (pieces[0].Inserted? ==>
                && Spans(pieces, at) == [Span(at, at + |bytes|)] + Spans(rest, at + |bytes|)
                && Originals(pieces) == Originals(rest))
            && (pieces[0].Original? ==>
                && Spans(pieces, at) == Spans(rest, at + |bytes|)
                && Originals(pieces) == bytes + Originals(rest))
  {}

  lemma CutsFirst(before: Bytes, bytes: Bytes, rest: Bytes, spans: seq<Span>, from: nat)
    requires from <= |before|
    requires var next, all := |before + bytes|, before + bytes + rest; Ascending(spans, next, |all|)
    ensures var next, all := |before + bytes|, before + bytes + rest;
            && Ascending([Span(|before|, next)] + spans, from, |all|)
            && Cut(all, [Span(|before|, next)] + spans, from) == before[from..] + Cut(all, spans, next)
  {
    var all, more := before + bytes + rest, [Span(|before|, |before + bytes|)] + spans;
    assert more[1..] == spans && all[from..|before|] == before[from..];
  }

  /** The insertion, as bytes. */
  function Woven(source: Bytes, injections: seq<Injection>): Bytes {
    Flatten(Weave(source, injections, 0))
  }

  function InsertedSpans(source: Bytes, injections: seq<Injection>): seq<Span> {
    Spans(Weave(source, injections, 0), 0)
  }

  /** Erasure: cutting the inserted texts out of the result returns the source. */
  lemma Erasure(source: Bytes, injections: seq<Injection>)
    ensures Ascending(InsertedSpans(source, injections), 0, |Woven(source, injections)|)
    ensures Cut(Woven(source, injections), InsertedSpans(source, injections), 0) == source
  {
    hide Weave, Flatten, Spans, Cut, Ascending, Originals;
    CutRestores(Weave(source, injections, 0), [], 0);
    WeaveKeepsSource(source, injections, 0);
    assert [] + Woven(source, injections) == Woven(source, injections);
  }

  // ----- applyByteInjections ---------------------------------------------------------------------

  ghost predicate Grouped(grouped: map<nat, seq<Injection>>, injections: seq<Injection>) {
    && (forall i | i in injections :: i.offset in grouped)
    && (forall o | o in grouped :: grouped[o] != [] && grouped[o] == OffsetGroup(injections, o))
  }

  lemma OneMoreGrouped(injections: seq<Injection>, i: Injection, offset: int)
    ensures OffsetGroup(injections + [i], offset)
            == OffsetGroup(injections, offset) + if i.offset == offset then [i] else []
  {
    FilterAppend((j: Injection) => j.offset == offset, injections, [i]);
    FilterOne((j: Injection) => j.offset == offset, i);
  }

  method GroupByOffset(source: Bytes, injections: seq<Injection>) returns (grouped: Option<map<nat, seq<Injection>>>)
    ensures grouped.Some? <==> InRange(source, injections)
    ensures grouped.Some? ==> Grouped(grouped.value, injections) && forall o | o in grouped.value :: o <= |source|
  {
    var groups: map<nat, seq<Injection>> := map[];
    for k := 0 to |injections|
      invariant Grouped(groups, injections[..k]) && InRange(source, injections[..k])
      invariant forall o | o in groups :: o <= |source|
    {
      var i := injections[k];
      assert injections[..k + 1] == injections[..k] + [i];
      if i.offset < 0 || i.offset > |source| {
        return None;
      }
      hide Grouped;
      groups := AddToGroup(injections[..k], groups, i);
    }
    assert injections[..|injections|] == injections;
    return Some(groups);
  }

  lemma NoGroupYet(injections: seq<Injection>, offset: int)
    requires forall i | i in injections :: i.offset != offset
    ensures OffsetGroup(injections, offset) == []
  {
    AllOrNone((j: Injection) => j.offset == offset, injections, false);
  }

  /** The injection joins the group of its offset, or opens it. */
  method AddToGroup(ghost before: seq<Injection>, groups: map<nat, seq<Injection>>, i: Injection) returns (more: map<nat, seq<Injection>>)
    requires Grouped(groups, before) && i.offset >= 0
    ensures Grouped(more, before + [i]) && more.Keys == groups.Keys + {i.offset}
  {
    hide OffsetGroup;
    var group := if i.offset in groups then groups[i.offset] else [];
    if i.offset !in groups {
      NoGroupYet(before, i.offset);
    }
    more := groups[i.offset := group + [i]];
    forall o | o in more ensures more[o] != [] && more[o] == OffsetGroup(before + [i], o) {
      OneMoreGrouped(before, i, o);
    }
  }

  function Joined(texts: seq<Injection>): Bytes {
    if texts == [] then [] else texts[0].text + Joined(texts[1..])
  }

  lemma {:induction false} JoinedIsFlattened(texts: seq<Injection>)
    ensures Joined(texts) == Flatten(InsertedAll(texts))
  {
    if texts != [] {
      JoinedIsFlattened(texts[1..]);
      assert InsertedAll(texts)[1..] == InsertedAll(texts[1..]);
    }
  }

  function Min(a: nat, b: nat): nat {
    if a < b then a else b
  }

  /** Where nothing is inserted the weave copies the source. */
  lemma {:induction false} WeaveGap(source: Bytes, injections: seq<Injection>, from: nat, to: nat)
    requires from <= to <= |source| + 1
    requires forall i | i in injections :: !(from <= i.offset < to)
    ensures Flatten(Weave(source, injections, from))
            == source[Min(from, |source|)..Min(to, |source|)] + Flatten(Weave(source, injections, to))
    decreases |source| + 1 - from
  {
    hide *;
    if from < to {
      WeaveGap(source, injections, from + 1, to);
      WeaveStep(source, injections, from);
      NoTexts(injections, from);
      NextByte(source, from, to, Flatten(Weave(source, injections, to)));
    } else {
      NothingBefore(source, from, Flatten(Weave(source, injections, to)));
    }
  }

  lemma NothingBefore(source: Bytes, at: nat, tail: Bytes)
    ensures source[Min(at, |source|)..Min(at, |source|)] + tail == tail
  {}

  lemma NextByte(source: Bytes, from: nat, to: nat, tail: Bytes)
    requires from < to
    ensures [] + ByteAt(source, from) + (source[Min(from + 1, |source|)..Min(to, |source|)] + tail)
            == source[Min(from, |source|)..Min(to, |source|)] + tail
  {
    assert source[Min(from, |source|)..Min(to, |source|)]
           == ByteAt(source, from) + source[Min(from + 1, |source|)..Min(to, |source|)];
  }

  lemma NoTexts(injections: seq<Injection>, offset: int)
    requires forall i | i in injections :: i.offset != offset
    ensures TextsAt(injections, offset) == [] && Flatten(InsertedAll(TextsAt(injections, offset))) == []
  {
    AllOrNone((i: Injection) => i.offset == offset, injections, false);
  }

  lemma HasGreatest(offsets: set<nat>) returns (g: nat)
    requires offsets != {}
    ensures g in offsets && forall p | p in offsets :: p <= g
  {
    g :| g in offsets;
    var rest := offsets - {g};
    if rest != {} {
      var o := HasGreatest(rest);
      assert forall p | p in offsets :: p == g || p in rest;
      if o > g {
        g := o;
      }
    } else {
      assert offsets == {g};
    }
  }

  /** The offsets that remain lie before `done`, those that are done behind it. */
  ghost predicate Parted(all: set<nat>, rest: set<nat>, done: nat) {
    rest <= all && (forall o | o in rest :: o < done) && (forall o | o in all && o !in rest :: o >= done)
  }

  lemma NoneBetween(groups: map<nat, seq<Injection>>, injections: seq<Injection>, rest: set<nat>, offset: nat, done: nat)
    requires Grouped(groups, injections) && Parted(groups.Keys, rest, done)
    requires offset in rest && forall p | p in rest :: p <= offset
    ensures (forall i | i in injections :: !(offset < i.offset < done)) && Parted(groups.Keys, rest - {offset}, offset)
  {
    hide OffsetGroup;
  }

  lemma NoneLeft(groups: map<nat, seq<Injection>>, injections: seq<Injection>, done: nat)
    requires Grouped(groups, injections) && Parted(groups.Keys, {}, done)
    ensures forall i | i in injections :: !(0 <= i.offset < done)
  {
    hide OffsetGroup;
  }

  lemma TextsOfGroup(groups: map<nat, seq<Injection>>, injections: seq<Injection>, offset: nat)
    requires Grouped(groups, injections) && offset in groups
    ensures SortByOrder(groups[offset]) == TextsAt(injections, offset)
  {
    hide SortByOrder, OffsetGroup;
  }

  /** From the greatest offset down, each text goes in at its original offset: the result is the weave. */
  method ApplyByteInjections(source: Bytes, injections: seq<Injection>) returns (result: Option<Bytes>)
    ensures result.Some? <==> InRange(source, injections)
    ensures result.Some? ==> result.value == Woven(source, injections)
  {
    var grouped := GroupByOffset(source, injections);
    if grouped.None? {
      return None;
    }
    hide Grouped, Parted, Weave, Flatten, TextsAt, SortByOrder, Joined, InRange;
    var bytes := source;
    var rest := grouped.value.Keys;
    ghost var done: nat := |source| + 1;
    BeginsWhole(source, injections, rest);
    while rest != {}
      invariant rest <= grouped.value.Keys && done <= |source| + 1
      invariant Parted(grouped.value.Keys, rest, done)
      invariant bytes == source[..Min(done, |source|)] + Flatten(Weave(source, injections, done))
    {
      ghost var _ := HasGreatest(rest);
      var offset :| offset in rest && forall p | p in rest :: p <= offset;
      var text := Joined(SortByOrder(grouped.value[offset]));
      OffsetAhead(grouped.value.Keys, rest, offset, done);
      NoneBetween(grouped.value, injections, rest, offset, done);
      TextsOfGroup(grouped.value, injections, offset);
      InsertionStep(source, injections, offset, done, bytes);
      bytes := bytes[..offset] + text + bytes[offset..];
      rest := rest - {offset};
      done := offset;
    }
    NoneLeft(grouped.value, injections, done);
    WeaveGap(source, injections, 0, done);
    return Some(bytes);
  }

  lemma BeginsWhole(source: Bytes, injections: seq<Injection>, all: set<nat>)
    requires forall o | o in all :: o <= |source|
    ensures source == source[..Min(|source| + 1, |source|)] + Flatten(Weave(source, injections, |source| + 1))
    ensures Parted(all, all, |source| + 1)
  {}

  lemma OffsetAhead(all: set<nat>, rest: set<nat>, offset: nat, done: nat)
    requires Parted(all, rest, done) && offset in rest
    ensures offset < done
  {}

  lemma InsertionStep(source: Bytes, injections: seq<Injection>, offset: nat, done: nat, bytes: Bytes)
    requires offset <= |source| && offset < done <= |source| + 1
    requires forall i | i in injections :: !(offset < i.offset < done)
    requires bytes == source[..Min(done, |source|)] + Flatten(Weave(source, injections, done))
    ensures bytes[..offset] + Joined(TextsAt(injections, offset)) + bytes[offset..]
            == source[..offset] + Flatten(Weave(source, injections, offset))
  {
    WeaveGap(source, injections, offset + 1, done);
    WeaveStep(source, injections, offset);
    JoinedIsFlattened(TextsAt(injections, offset));
    SplicedBytes(source, Flatten(Weave(source, injections, done)), Joined(TextsAt(injections, offset)), offset, done, bytes);
    hide Weave, Flatten, TextsAt, Joined;
  }

  lemma SplicedBytes(source: Bytes, tail: Bytes, text: Bytes, offset: nat, done: nat, bytes: Bytes)
    requires offset <= |source| && offset < done
    requires bytes == source[..Min(done, |source|)] + tail
    ensures bytes[..offset] + text + bytes[offset..]
            == source[..offset] + (text + ByteAt(source, offset)
                                   + (source[Min(offset + 1, |source|)..Min(done, |source|)] + tail))
  {
    var m := Min(done, |source|);
    assert bytes[..offset] == source[..offset];
    assert bytes[offset..] == source[offset..m] + tail;
    assert source[offset..m] == ByteAt(source, offset) + source[Min(offset + 1, |source|)..m];
  }

  // ----- Replacing a range -----------------------------------------------------------------------

  function ReplaceRange(source: Bytes, start: nat, end: nat, replacement: Bytes): Bytes
    requires start <= end <= |source|
  {
    source[..start] + replacement + source[end..]
  }

  lemma {:induction false} KeptHaveNoSpans(pieces: seq<Piece>, bytes: Bytes, at: nat)
    ensures Spans(pieces + Kept(bytes), at) == Spans(pieces, at)
    decreases |pieces| + |bytes|
  {
    var all := pieces + Kept(bytes);
    if pieces != [] {
      assert all[1..] == pieces[1..] + Kept(bytes);
      KeptHaveNoSpans(pieces[1..], bytes, at + |BytesOf(pieces[0])|);
    } else if bytes != [] {
      assert all == Kept(bytes) && all[1..] == [] + Kept(bytes[1..]);
      KeptHaveNoSpans([], bytes[1..], at + 1);
    }
  }

  /** Where the texts woven into the bytes from `start` on lie in the whole result. */
  function SpansFrom(start: nat, inner: Bytes, injections: seq<Injection>): seq<Span> {
    Spans(Weave(inner, injections, 0), start)
  }

  lemma RangePieces(inner: Bytes, injections: seq<Injection>, after: Bytes, start: nat)
    ensures var all := Weave(inner, injections, 0) + Kept(after);
            && Spans(all, start) == SpansFrom(start, inner, injections)
            && Flatten(all) == Woven(inner, injections) + after
            && Originals(all) == inner + after
  {
    var pieces := Weave(inner, injections, 0);
    WeaveKeepsSource(inner, injections, 0);
    AllKept(after);
    KeptHaveNoSpans(pieces, after, start);
    PiecesAppend(pieces, Kept(after));
    hide Weave, Originals, Flatten, Spans;
  }

  lemma ReplacedBytes(source: Bytes, start: nat, end: nat, replacement: Bytes)
    requires start <= end <= |source|
    ensures ReplaceRange(source, start, end, replacement) == source[..start] + (replacement + source[end..])
    ensures source[..start][0..] + (source[start..end] + source[end..]) == source
  {}

  /** Erasure of a replaced range: cutting the texts woven into the range returns the whole source. */
  lemma RangeErasure(source: Bytes, start: nat, end: nat, injections: seq<Injection>)
    requires start <= end <= |source|
    ensures var inner := source[start..end];
            var result := ReplaceRange(source, start, end, Woven(inner, injections));
            && Ascending(SpansFrom(start, inner, injections), 0, |result|)
            && Cut(result, SpansFrom(start, inner, injections), 0) == source
  {
    hide Weave, Kept, Originals, Flatten, Spans, Cut, Ascending, Woven, SpansFrom, ReplaceRange;
    var inner, after := source[start..end], source[end..];
    var all := Weave(inner, injections, 0) + Kept(after);
    RangePieces(inner, injections, after, start);
    CutRestores(all, source[..start], 0);
    ReplacedBytes(source, start, end, Woven(inner, injections));
  }
}
