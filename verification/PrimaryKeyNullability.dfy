/**
 * Making the nullability of primary-key columns explicit: `explicitPrimaryKeyNullability`
 * (packages/catalog/src/postgresPrimaryKeyNullability.ts) over the statements tiled by
 * `postgresStatementDeclarations` (packages/catalog/src/postgresSyntaxStatements.ts).
 */
module PrimaryKeyNullability {
  import opened Options
  import opened Sequences
  import opened ByteSplices
  import opened SyntaxTrees
  import opened Instrumenter

  // ----- Statements ------------------------------------------------------------------------------

  predicate Blank(bytes: Bytes) {
    forall b | b in bytes :: IsBlankByte(b)
  }

  /** The one declaration of a top-level statement, if it has exactly one. */
  function Declaration(node: Node): Option<Node> {
    match DirectChild(node, "stmt")
    case None => None
    case Some(statement) =>
      var declarations := Filter((c: Node) => c.kind != "comment", statement.children);
      if |declarations| == 1 then Some(declarations[0]) else None
  }

  /** It is the only child of the node's first `stmt` that is not a comment. */
  lemma DeclarationIsOnly(node: Node, d: Node)
    ensures Declaration(node) == Some(d) <==>
              DirectChild(node, "stmt").Some? && Filter((c: Node) => c.kind != "comment", DirectChild(node, "stmt").value.children) == [d]
  {}

  predicate Skipped(node: Node) {
    node.kind == "comment" || node.kind == ";"
  }

  /** The nodes follow one another through the source from `from` to its end, with only blanks between them. */
  ghost predicate Tiles(source: Bytes, nodes: seq<Node>, from: nat)
    decreases |nodes|
  {
    from <= |source| &&
    if nodes == [] then Blank(source[from..])
    else
      && from <= nodes[0].start < nodes[0].end <= |source|
      && Blank(source[from..nodes[0].start])
      && (nodes[0].kind == "comment" || nodes[0].kind == ";" || (nodes[0].kind == "toplevel_stmt" && Declaration(nodes[0]).Some?))
      && Tiles(source, nodes[1..], nodes[0].end)
  }

  function Declared(node: Node): seq<Node> {
    if !Skipped(node) && Declaration(node).Some? then [Declaration(node).value] else []
  }

  function Declarations(nodes: seq<Node>): seq<Node> {
    if nodes == [] then [] else Declared(nodes[0]) + Declarations(nodes[1..])
  }

  lemma {:induction false} DeclarationsSnoc(nodes: seq<Node>, node: Node)
    ensures Declarations(nodes + [node]) == Declarations(nodes) + Declared(node)
  {
    hide Declared;
    var all := nodes + [node];
    if nodes == [] {
      assert all == [node];
    } else {
      assert all[0] == nodes[0] && all[1..] == nodes[1..] + [node];
      DeclarationsSnoc(nodes[1..], node);
    }
  }

  /** The loop of `postgresStatementDeclarations`; `None` where it throws. */
  method StatementDeclarations(source: Bytes, root: Node) returns (result: Option<seq<Node>>)
    ensures result.Some? <==> root.kind == "source_file" && Tiles(source, root.children, 0)
    ensures result.Some? ==> result.value == Declarations(root.children)
  {
    if root.kind != "source_file" {
      return None;
    }
    var declarations := [];
    var end: nat := 0;
    for i := 0 to |root.children|
      invariant end <= |source|
      invariant Tiles(source, root.children, 0) <==> Tiles(source, root.children[i..], end)
      invariant declarations == Declarations(root.children[..i])
    {
      var node := root.children[i];
      assert root.children[i..][1..] == root.children[i + 1..];
      assert root.children[..i + 1] == root.children[..i] + [node];
      DeclarationsSnoc(root.children[..i], node);
      if node.start < end || node.end <= node.start || node.end > |source| || !Blank(source[end..node.start]) {
        return None;
      }
      end := node.end;
      if !Skipped(node) {
        if node.kind != "toplevel_stmt" || Declaration(node).None? {
          return None;
        }
        declarations := declarations + [Declaration(node).value];
      }
    }
    assert root.children[..|root.children|] == root.children;
    if !Blank(source[end..]) {
      return None;
    }
    return Some(declarations);
  }

  /** Declarations lie inside their top-level statements. */
  ghost predicate WellNested(nodes: seq<Node>) {
    forall n | n in nodes && Declaration(n).Some? ::
      n.start <= Declaration(n).value.start < Declaration(n).value.end <= n.end
  }

  ghost predicate Apart(statements: seq<Node>, from: nat, to: nat)
    decreases |statements|
  {
    if statements == [] then from <= to
    else from <= statements[0].start < statements[0].end && Apart(statements[1..], statements[0].end, to)
  }

  /** Tiled statements follow one another without overlap, whichever kinds are kept. */
  lemma {:induction false} TiledAreApart(source: Bytes, nodes: seq<Node>, from: nat, keep: Node -> bool)
    requires Tiles(source, nodes, from) && WellNested(nodes)
    ensures Apart(Filter(keep, Declarations(nodes)), from, |source|)
    decreases |nodes|
  {
    if nodes != [] {
      TiledAreApart(source, nodes[1..], nodes[0].end, keep);
      var rest := Filter(keep, Declarations(nodes[1..]));
      ApartEarlier(rest, nodes[0].end, from, |source|);
      if Skipped(nodes[0]) {
        assert Declarations(nodes) == Declarations(nodes[1..]);
      } else {
        var d := Declaration(nodes[0]).value;
        assert Declarations(nodes) == [d] + Declarations(nodes[1..]);
        FilterAppend(keep, [d], Declarations(nodes[1..]));
        FilterOne(keep, d);
        ApartEarlier(rest, nodes[0].end, d.end, |source|);
        assert ([d] + rest)[1..] == rest;
      }
    }
  }

  lemma ApartEarlier(statements: seq<Node>, from: nat, earlier: nat, to: nat)
    requires Apart(statements, from, to) && earlier <= from
    ensures Apart(statements, earlier, to)
  {}

  // ----- Which columns ---------------------------------------------------------------------------

  predicate HasKeywords(node: Node, first: string, second: string) {
    DirectChild(node, first).Some? && DirectChild(node, second).Some?
  }

  function TextOf(source: Bytes, node: Node): Bytes {
    if node.start <= node.end <= |source| then source[node.start..node.end] else []
  }

  function TrimBlanks(bytes: Bytes): Bytes
    decreases |bytes|
  {
    if bytes == [] then bytes
    else if IsBlankByte(bytes[0]) then TrimBlanks(bytes[1..])
    else if IsBlankByte(bytes[|bytes| - 1]) then TrimBlanks(bytes[..|bytes| - 1])
    else bytes
  }

  const Quote: bv8 := 34

  /** The inside of a quoted identifier, with each doubled quote read once. */
  function Unquoted(bytes: Bytes): Bytes {
    if bytes == [] then []
    else if |bytes| > 1 && bytes[0] == Quote && bytes[1] == Quote then [Quote] + Unquoted(bytes[2..])
    else [bytes[0]] + Unquoted(bytes[1..])
  }

  function LowerByte(b: bv8): bv8 {
    if 65 <= b <= 90 then b + 32 else b
  }

  function ColumnName(source: Bytes, node: Node): Bytes {
    var text := TrimBlanks(TextOf(source, node));
    if text != [] && text[0] == Quote then
      if text[|text| - 1] != Quote then text else if |text| == 1 then [] else Unquoted(text[1..|text| - 1])
    else Map(LowerByte, text)
  }

  /** The constraint is a primary key and names the column. */
  predicate NamesColumn(source: Bytes, constraint: Node, name: Bytes) {
    && HasKeywords(constraint, "kw_primary", "kw_key") && DirectChild(constraint, "columnList").Some?
    && exists column | column in FindKind(DirectChild(constraint, "columnList").value, "columnElem") ::
         DirectChild(column, "ColId").Some? && ColumnName(source, DirectChild(column, "ColId").value) == name
  }

  predicate NamesPrimaryColumn(source: Bytes, table: Node, name: Bytes) {
    exists constraint | constraint in FindKind(table, "ConstraintElem") :: NamesColumn(source, constraint, name)
  }

  /** A primary-key column of the table that does not say NOT NULL. */
  predicate LacksNotNull(source: Bytes, table: Node, column: Node) {
    var constraints := FindKind(column, "ColConstraintElem");
    var name := DirectChild(column, "ColId");
    && !(exists c | c in constraints :: HasKeywords(c, "kw_not", "kw_null"))
    && ((exists c | c in constraints :: HasKeywords(c, "kw_primary", "kw_key"))
        || (name.Some? && NamesPrimaryColumn(source, table, ColumnName(source, name.value))))
  }

  ghost predicate InsertsAt(source: Bytes, root: Node, offset: nat) {
    exists table, column | table in FindKind(root, "CreateStmt") && column in FindKind(table, "columnDef") ::
      LacksNotNull(source, table, column) && column.end == offset
  }

  method ConstraintColumns(source: Bytes, constraint: Node) returns (names: set<Bytes>)
    ensures forall name :: name in names <==> NamesColumn(source, constraint, name)
  {
    var list := DirectChild(constraint, "columnList");
    if !HasKeywords(constraint, "kw_primary", "kw_key") || list.None? {
      return {};
    }
    hide HasKeywords, ColumnName;
    var columns := FindKind(list.value, "columnElem");
    names := set column | column in columns && DirectChild(column, "ColId").Some? ::
      ColumnName(source, DirectChild(column, "ColId").value);
  }

  ghost predicate Named(source: Bytes, constraints: seq<Node>, name: Bytes) {
    exists c | c in constraints :: NamesColumn(source, c, name)
  }

  ghost predicate NamesOf(source: Bytes, constraints: seq<Node>, names: set<Bytes>) {
    forall name :: name in names <==> Named(source, constraints, name)
  }

  lemma NamedSnoc(source: Bytes, constraints: seq<Node>, c: Node, name: Bytes)
    ensures Named(source, constraints + [c], name) <==> Named(source, constraints, name) || NamesColumn(source, c, name)
  {
    hide NamesColumn;
    if d :| d in constraints && NamesColumn(source, d, name) {
      assert d in constraints + [c];
    }
    assert c in constraints + [c];
  }

  lemma NamesSnoc(source: Bytes, constraints: seq<Node>, c: Node, names: set<Bytes>, more: set<Bytes>)
    requires NamesOf(source, constraints, names) && forall name :: name in more <==> NamesColumn(source, c, name)
    ensures NamesOf(source, constraints + [c], names + more)
  {
    hide Named, NamesColumn;
    forall name ensures name in names + more <==> Named(source, constraints + [c], name) {
      NamedSnoc(source, constraints, c, name);
    }
  }

  method PrimaryColumns(source: Bytes, table: Node) returns (names: set<Bytes>)
    ensures forall name :: name in names <==> NamesPrimaryColumn(source, table, name)
  {
    hide NamesOf, NamesColumn, NamesPrimaryColumn, FindKind;
    names := {};
    var constraints := FindKind(table, "ConstraintElem");
    NoNames(source);
    for i := 0 to |constraints|
      invariant NamesOf(source, constraints[..i], names)
    {
      var more := ConstraintColumns(source, constraints[i]);
      assert constraints[..i + 1] == constraints[..i] + [constraints[i]];
      NamesSnoc(source, constraints[..i], constraints[i], names, more);
      names := names + more;
    }
    assert constraints[..|constraints|] == constraints;
    AllNames(source, table, names);
  }

  lemma NoNames(source: Bytes)
    ensures NamesOf(source, [], {})
  {}

  lemma AllNames(source: Bytes, table: Node, names: set<Bytes>)
    requires NamesOf(source, FindKind(table, "ConstraintElem"), names)
    ensures forall name :: name in names <==> NamesPrimaryColumn(source, table, name)
  {
    hide NamesColumn;
    forall name ensures Named(source, FindKind(table, "ConstraintElem"), name) <==> NamesPrimaryColumn(source, table, name) {
    }
  }

  ghost predicate CollectsEnds(source: Bytes, table: Node, columns: seq<Node>, offset: nat) {
    exists column | column in columns :: LacksNotNull(source, table, column) && column.end == offset
  }

  lemma CollectsSnoc(source: Bytes, table: Node, columns: seq<Node>, column: Node, offset: nat)
    ensures CollectsEnds(source, table, columns + [column], offset)
            <==> CollectsEnds(source, table, columns, offset) || (LacksNotNull(source, table, column) && column.end == offset)
  {
    hide LacksNotNull;
    if c :| c in columns && LacksNotNull(source, table, c) && c.end == offset {
      assert c in columns + [column];
    }
    assert column in columns + [column];
  }

  /** Whether the column belongs to a primary key and does not say NOT NULL, from the collected names. */
  method ColumnLacks(source: Bytes, table: Node, column: Node, primary: set<Bytes>) returns (lacks: bool)
    requires forall name :: name in primary <==> NamesPrimaryColumn(source, table, name)
    ensures lacks == LacksNotNull(source, table, column)
  {
    hide HasKeywords, ColumnName, NamesPrimaryColumn;
    var constraints := FindKind(column, "ColConstraintElem");
    var name := DirectChild(column, "ColId");
    var isPrimary := exists c | c in constraints :: HasKeywords(c, "kw_primary", "kw_key");
    var notNull := exists c | c in constraints :: HasKeywords(c, "kw_not", "kw_null");
    lacks := !notNull && (isPrimary || (name.Some? && ColumnName(source, name.value) in primary));
  }

  ghost predicate EndsAt(source: Bytes, table: Node, columns: seq<Node>, offsets: set<nat>) {
    forall offset :: offset in offsets <==> CollectsEnds(source, table, columns, offset)
  }

  lemma EndsSnoc(source: Bytes, table: Node, columns: seq<Node>, column: Node, offsets: set<nat>)
    requires EndsAt(source, table, columns, offsets)
    ensures EndsAt(source, table, columns + [column], if LacksNotNull(source, table, column) then offsets + {column.end} else offsets)
  {
    hide CollectsEnds, LacksNotNull;
    forall offset: nat
      ensures CollectsEnds(source, table, columns + [column], offset)
              <==> offset in offsets || (LacksNotNull(source, table, column) && column.end == offset)
    {
      CollectsSnoc(source, table, columns, column, offset);
    }
  }

  method TableInsertions(source: Bytes, table: Node) returns (offsets: set<nat>)
    ensures EndsAt(source, table, FindKind(table, "columnDef"), offsets)
  {
    offsets := {};
    var primary := PrimaryColumns(source, table);
    var columns := FindKind(table, "columnDef");
    hide LacksNotNull, NamesPrimaryColumn;
    assert EndsAt(source, table, [], {});
    hide EndsAt;
    for i := 0 to |columns|
      invariant EndsAt(source, table, columns[..i], offsets)
    {
      var lacks := ColumnLacks(source, table, columns[i], primary);
      assert columns[..i + 1] == columns[..i] + [columns[i]];
      EndsSnoc(source, table, columns[..i], columns[i], offsets);
      if lacks {
        offsets := offsets + {columns[i].end};
      }
    }
    assert columns[..|columns|] == columns;
  }

  method NotNullOffsets(source: Bytes, root: Node) returns (offsets: set<nat>)
    ensures forall offset :: offset in offsets <==> InsertsAt(source, root, offset)
  {
    offsets := {};
    var tables := FindKind(root, "CreateStmt");
    hide LacksNotNull;
    for i := 0 to |tables|
      invariant forall offset :: offset in offsets <==>
                  exists table | table in tables[..i] :: CollectsEnds(source, table, FindKind(table, "columnDef"), offset)
    {
      assert tables[..i + 1] == tables[..i] + [tables[i]];
      var more := TableInsertions(source, tables[i]);
      offsets := offsets + more;
    }
    assert tables[..|tables|] == tables;
  }

  // ----- The splices -----------------------------------------------------------------------------

  const NotNull: Bytes := [Newline] + Ascii("NOT NULL")

  /** One injection for each of the offsets below `bound`. */
  ghost function Marks(offsets: set<nat>, bound: nat): seq<Injection> {
    if bound == 0 then []
    else Marks(offsets, bound - 1) + if bound - 1 in offsets then [Injection(bound - 1, 0, NotNull)] else []
  }

  lemma {:induction false} MarksAt(offsets: set<nat>, bound: nat, at: nat)
    ensures OffsetGroup(Marks(offsets, bound), at)
            == if at < bound && at in offsets then [Injection(at, 0, NotNull)] else []
  {
    if bound == 0 {
      assert Marks(offsets, bound) == [];
    } else {
      hide OffsetGroup;
      MarksAt(offsets, bound - 1, at);
      var before := Marks(offsets, bound - 1);
      if bound - 1 in offsets {
        OneMoreGrouped(before, Injection(bound - 1, 0, NotNull), at);
      } else {
        assert before + [] == before;
      }
    }
  }

  lemma {:induction false} MarksAreOffsets(offsets: set<nat>, bound: nat)
    ensures forall i | i in Marks(offsets, bound) :: 0 <= i.offset < bound && i == Injection(i.offset, 0, NotNull)
    ensures forall i | i in Marks(offsets, bound) :: exists o | o in offsets :: o == i.offset
  {
    if bound > 0 {
      MarksAreOffsets(offsets, bound - 1);
    }
  }

  lemma MarkedText(offsets: set<nat>, bound: nat, at: nat)
    requires at in offsets && at < bound
    ensures Joined(TextsAt(Marks(offsets, bound), at)) == NotNull
  {
    MarksAt(offsets, bound, at);
    var one := Injection(at, 0, NotNull);
    assert [one][1..] == [];
    assert SortByOrder([one]) == [one];
    assert Joined([one][1..]) == [];
    assert Joined([one]) == NotNull + [];
  }

  /** The marks of a statement, and the statement with its marks: the simultaneous insertion. */
  ghost function StatementMarks(source: Bytes, offsets: set<nat>): seq<Injection> {
    Marks(offsets, |source| + 1)
  }

  /** The loop of `primaryKeyStatement`, from the greatest offset down. */
  method InsertNotNull(source: Bytes, offsets: set<nat>) returns (bytes: Bytes)
    requires forall o | o in offsets :: o <= |source|
    ensures bytes == Woven(source, StatementMarks(source, offsets))
  {
    ghost var marks := StatementMarks(source, offsets);
    hide Weave, Flatten, Marks;
    assert Flatten(Weave(source, marks, |source| + 1)) == [] by {
      NothingBehind(source, marks);
    }
    bytes := source;
    var rest := offsets;
    ghost var done: nat := |source| + 1;
    assert Parted(offsets, rest, done);
    hide Parted;
    while rest != {}
      invariant rest <= offsets && done <= |source| + 1
      invariant Parted(offsets, rest, done)
      invariant bytes == source[..Min(done, |source|)] + Flatten(Weave(source, marks, done))
    {
      ghost var _ := HasGreatest(rest);
      var offset :| offset in rest && forall p | p in rest :: p <= offset;
      MarkedText(offsets, |source| + 1, offset);
      OffsetAhead(offsets, rest, offset, done);
      NoMarksBetween(offsets, |source| + 1, rest, offset, done);
      InsertionStep(source, marks, offset, done, bytes);
      bytes := bytes[..offset] + NotNull + bytes[offset..];
      rest := rest - {offset};
      done := offset;
    }
    NoMarksLeft(offsets, |source| + 1, done);
    WeaveGap(source, marks, 0, done);
    assert bytes == Woven(source, marks);
  }

  lemma NothingBehind(source: Bytes, marks: seq<Injection>)
    ensures Flatten(Weave(source, marks, |source| + 1)) == []
  {}

  lemma NoMarksBetween(offsets: set<nat>, bound: nat, rest: set<nat>, offset: nat, done: nat)
    requires Parted(offsets, rest, done) && offset in rest && forall o | o in rest :: o <= offset
    ensures (forall i | i in Marks(offsets, bound) :: !(offset < i.offset < done)) && Parted(offsets, rest - {offset}, offset)
  {
    MarksAreOffsets(offsets, bound);
    hide Marks;
  }

  lemma NoMarksLeft(offsets: set<nat>, bound: nat, done: nat)
    requires Parted(offsets, {}, done)
    ensures forall i | i in Marks(offsets, bound) :: !(0 <= i.offset < done)
  {
    MarksAreOffsets(offsets, bound);
    hide Marks;
  }

  /** A declaration with the parsed tree of its own text. */
  datatype Statement = Statement(node: Node, tree: Node)

  /** The trees' columns end within their statement's text. */
  ghost predicate Fits(source: Bytes, s: Statement) {
    s.node.start <= s.node.end <= |source| &&
    forall table, column | table in FindKind(s.tree, "CreateStmt") && column in FindKind(table, "columnDef") ::
      column.end <= s.node.end - s.node.start
  }

  /** The offsets, within the statement's own text, at which columns lack NOT NULL. */
  ghost function EndsOf(text: Bytes, tree: Node): set<nat> {
    set table, column | table in FindKind(tree, "CreateStmt") && column in FindKind(table, "columnDef")
                        && LacksNotNull(text, table, column) :: column.end
  }

  ghost function StatementPieces(source: Bytes, s: Statement): seq<Piece>
    requires s.node.start <= s.node.end <= |source|
  {
    var text := source[s.node.start..s.node.end];
    Weave(text, StatementMarks(text, EndsOf(text, s.tree)), 0)
  }

  ghost predicate Ordered(source: Bytes, statements: seq<Statement>, from: nat)
    decreases |statements|
  {
    if statements == [] then from <= |source|
    else from <= statements[0].node.start && Fits(source, statements[0]) && Ordered(source, statements[1..], statements[0].node.end)
  }

  /** The source from `from` on with every statement's marks, inserted all at once. */
  ghost function Pieces(source: Bytes, statements: seq<Statement>, from: nat): seq<Piece>
    requires Ordered(source, statements, from)
    decreases |statements|
  {
    OrderedBounds(source, statements, from);
    if statements == [] then Kept(source[from..])
    else
      Kept(source[from..statements[0].node.start]) + StatementPieces(source, statements[0])
      + Pieces(source, statements[1..], statements[0].node.end)
  }

  lemma {:induction false} OrderedBounds(source: Bytes, statements: seq<Statement>, from: nat)
    requires Ordered(source, statements, from)
    ensures from <= |source|
    decreases |statements|
  {
    if statements != [] {
      OrderedBounds(source, statements[1..], statements[0].node.end);
    }
  }

  lemma PiecesUnfold(source: Bytes, statements: seq<Statement>, from: nat)
    requires Ordered(source, statements, from) && statements != []
    ensures var s := statements[0];
            var rest := Pieces(source, statements[1..], s.node.end);
            var text := source[s.node.start..s.node.end];
            && from <= s.node.start <= s.node.end <= |source|
            && Flatten(Pieces(source, statements, from))
               == source[from..s.node.start] + Woven(text, StatementMarks(text, EndsOf(text, s.tree))) + Flatten(rest)
            && Originals(Pieces(source, statements, from)) == source[from..s.node.start] + text + Originals(rest)
  {
    var s := statements[0];
    var text := source[s.node.start..s.node.end];
    var gap := Kept(source[from..s.node.start]);
    AllKept(source[from..s.node.start]);
    WeaveKeepsSource(text, StatementMarks(text, EndsOf(text, s.tree)), 0);
    hide Kept, Weave, Flatten, Originals, StatementMarks, EndsOf;
    PiecesAppend(gap + StatementPieces(source, s), Pieces(source, statements[1..], s.node.end));
    PiecesAppend(gap, StatementPieces(source, s));
  }

  /** Without the marks the pieces are the source. */
  lemma {:induction false} PiecesKeepSource(source: Bytes, statements: seq<Statement>, from: nat)
    requires Ordered(source, statements, from)
    ensures from <= |source| && Originals(Pieces(source, statements, from)) == source[from..]
    decreases |statements|
  {
    OrderedBounds(source, statements, from);
    if statements == [] {
      AllKept(source[from..]);
    } else {
      hide Originals, Fits, StatementMarks, EndsOf, Woven, StatementPieces;
      var s := statements[0];
      PiecesUnfold(source, statements, from);
      hide Pieces, Flatten;
      PiecesKeepSource(source, statements[1..], s.node.end);
      ThreeParts(source, from, s.node.start, s.node.end);
    }
  }

  lemma ThreeParts(source: Bytes, a: nat, b: nat, c: nat)
    requires a <= b <= c <= |source|
    ensures source[a..] == source[a..b] + source[b..c] + source[c..]
  {}

  method PrimaryKeyStatement(text: Bytes, tree: Node) returns (bytes: Bytes)
    requires forall table, column | table in FindKind(tree, "CreateStmt") && column in FindKind(table, "columnDef") ::
               column.end <= |text|
    ensures bytes == Woven(text, StatementMarks(text, EndsOf(text, tree)))
  {
    var offsets := NotNullOffsets(text, tree);
    hide LacksNotNull;
    assert offsets == EndsOf(text, tree);
    bytes := InsertNotNull(text, offsets);
  }

  ghost predicate TreesMatch(statements: seq<Statement>, declarations: seq<Node>) {
    |statements| == |declarations| && forall i :: 0 <= i < |statements| ==> statements[i].node == declarations[i]
  }

  lemma {:induction false} ApartAreOrdered(source: Bytes, statements: seq<Statement>, declarations: seq<Node>, from: nat)
    requires TreesMatch(statements, declarations) && Apart(declarations, from, |source|)
    requires forall s | s in statements :: Fits(source, s)
    ensures Ordered(source, statements, from)
    decreases |statements|
  {
    if statements != [] {
      assert statements[0] in statements;
      hide Fits;
      ApartAreOrdered(source, statements[1..], declarations[1..], declarations[0].end);
    }
  }

  function StartOf(statements: seq<Statement>, k: nat): nat
    requires k <= |statements|
  {
    if k == 0 then 0 else statements[k - 1].node.end
  }

  lemma {:induction false} OrderedFrom(source: Bytes, statements: seq<Statement>, from: nat, k: nat)
    requires Ordered(source, statements, from) && k <= |statements|
    ensures Ordered(source, statements[k..], if k == 0 then from else statements[k - 1].node.end)
    decreases |statements|
  {
    if k == 0 {
      assert statements[0..] == statements;
    } else {
      OrderedFrom(source, statements[1..], statements[0].node.end, k - 1);
      assert statements[1..][k - 1..] == statements[k..];
    }
  }

  /** The loop over the statements from the last to the first; `trees` are the parses of their own texts. */
  method SpliceStatements(source: Bytes, statements: seq<Statement>) returns (bytes: Bytes)
    requires Ordered(source, statements, 0)
    ensures bytes == Flatten(Pieces(source, statements, 0))
  {
    bytes := source;
    var k := |statements|;
    OrderedFrom(source, statements, 0, k);
    LastPieces(source, statements[k..], StartOf(statements, k));
    hide Flatten, Pieces, Fits, StatementMarks, EndsOf;
    while k > 0
      invariant k <= |statements|
      invariant Ordered(source, statements[k..], StartOf(statements, k)) && StartOf(statements, k) <= |source|
      invariant bytes == source[..StartOf(statements, k)] + Flatten(Pieces(source, statements[k..], StartOf(statements, k)))
    {
      k := k - 1;
      var s := statements[k];
      OrderedFrom(source, statements, 0, k);
      assert statements[k..][0] == s && statements[k..][1..] == statements[k + 1..];
      assert Fits(source, s);
      PiecesUnfold(source, statements[k..], StartOf(statements, k));
      ghost var before, rest := bytes, Flatten(Pieces(source, statements[k + 1..], s.node.end));
      FitsBounds(source, s);
      var text := source[s.node.start..s.node.end];
      var normalized := PrimaryKeyStatement(text, s.tree);
      SpliceOne(source, before, rest, StartOf(statements, k), s.node.start, s.node.end, normalized);
      bytes := bytes[..s.node.start] + normalized + bytes[s.node.end..];
    }
    assert statements[0..] == statements;
  }

  lemma FitsBounds(source: Bytes, s: Statement)
    requires Fits(source, s)
    ensures s.node.start <= s.node.end <= |source|
    ensures forall table, column | table in FindKind(s.tree, "CreateStmt") && column in FindKind(table, "columnDef") ::
              column.end <= |source[s.node.start..s.node.end]|
  {}

  lemma SpliceOne(source: Bytes, before: Bytes, rest: Bytes, from: nat, start: nat, end: nat, normalized: Bytes)
    requires from <= start <= end <= |source| && before == source[..end] + rest
    ensures before[..start] + normalized + before[end..] == source[..from] + (source[from..start] + normalized + rest)
  {
    assert before[..start] == source[..start] && before[end..] == rest;
    assert source[..start] == source[..from] + source[from..start];
  }

  lemma LastPieces(source: Bytes, statements: seq<Statement>, from: nat)
    requires statements == [] && Ordered(source, statements, from)
    ensures from <= |source| && source == source[..from] + Flatten(Pieces(source, statements, from))
  {
    AllKept(source[from..]);
  }

  datatype Outcome = Normalized(bytes: Bytes) | Incomplete

  predicate TableOrSchema(n: Node) {
    n.kind == "CreateStmt" || n.kind == "CreateSchemaStmt"
  }

  /**
   * The whole transformation: every primary-key column that lacked NOT NULL gets one, at its own end, and
   * cutting these texts out of the result returns the source. `statements` are the parsed declarations.
   */
  method ExplicitPrimaryKeyNullability(source: Bytes, outline: Node, statements: seq<Statement>) returns (result: Outcome)
    requires outline.kind == "source_file" && Tiles(source, outline.children, 0) ==>
               && WellNested(outline.children) && (forall s | s in statements :: Fits(source, s))
               && TreesMatch(statements, Filter(TableOrSchema, Declarations(outline.children)))
    ensures result.Incomplete? <==> !(outline.kind == "source_file" && Tiles(source, outline.children, 0))
    ensures result.Normalized? ==>
              && Ordered(source, statements, 0)
              && result.bytes == Flatten(Pieces(source, statements, 0))
              && Ascending(Spans(Pieces(source, statements, 0), 0), 0, |result.bytes|)
              && Cut(result.bytes, Spans(Pieces(source, statements, 0), 0), 0) == source
  {
    var declarations := StatementDeclarations(source, outline);
    if declarations.None? {
      return Incomplete;
    }
    TiledAreApart(source, outline.children, 0, TableOrSchema);
    ApartAreOrdered(source, statements, Filter(TableOrSchema, declarations.value), 0);
    var bytes := SpliceStatements(source, statements);
    MarksCutOut(source, statements);
    return Normalized(bytes);
  }

  lemma MarksCutOut(source: Bytes, statements: seq<Statement>)
    requires Ordered(source, statements, 0)
    ensures var pieces := Pieces(source, statements, 0);
            && Ascending(Spans(pieces, 0), 0, |Flatten(pieces)|)
            && Cut(Flatten(pieces), Spans(pieces, 0), 0) == source
  {
    hide Pieces, Flatten, Spans, Cut, Ascending, Ordered, Originals;
    var pieces := Pieces(source, statements, 0);
    PiecesKeepSource(source, statements, 0);
    CutRestores(pieces, [], 0);
    assert [] + Flatten(pieces) == Flatten(pieces);
    assert source[0..] == source;
  }

  // ----- Which columns these are, told from the tree -------------------------------------------------

  /** A constraint of the column says these two keywords. */
  ghost predicate ColumnSays(column: Node, first: string, second: string) {
    exists c: Node :: Within(c, column) && c.kind == "ColConstraintElem" && HasChild(c, first) && HasChild(c, second)
  }

  /** The node is the first `ColId` of the other, which makes it its name. */
  ghost predicate IsNameOf(id: Node, node: Node) {
    exists i :: 0 <= i < |node.children| && node.children[i] == id && id.kind == "ColId"
                && forall j :: 0 <= j < i ==> node.children[j].kind != "ColId"
  }

  /** The column list of a constraint: its first one. */
  ghost predicate IsListOf(list: Node, constraint: Node) {
    exists i :: 0 <= i < |constraint.children| && constraint.children[i] == list && list.kind == "columnList"
                && forall j :: 0 <= j < i ==> constraint.children[j].kind != "columnList"
  }

  /** A primary key of the table lists the name of the column. */
  ghost predicate ListedAsKey(source: Bytes, table: Node, column: Node) {
    exists constraint: Node, list: Node, element: Node, named: Node, name: Node ::
      && Within(constraint, table) && constraint.kind == "ConstraintElem" && HasChild(constraint, "kw_primary") && HasChild(constraint, "kw_key")
      && IsListOf(list, constraint) && Within(element, list) && element.kind == "columnElem"
      && IsNameOf(named, element) && IsNameOf(name, column)
      && ColumnName(source, named) == ColumnName(source, name)
  }

  lemma SaysMeans(column: Node, first: string, second: string)
    ensures ColumnSays(column, first, second) <==> exists c | c in FindKind(column, "ColConstraintElem") :: HasKeywords(c, first, second)
  {
    hide FindKind;
    forall c: Node
      ensures c in FindKind(column, "ColConstraintElem") <==> c.kind == "ColConstraintElem" && Within(c, column)
      ensures HasKeywords(c, first, second) <==> HasChild(c, first) && HasChild(c, second)
    {
      KindIsFound(column, "ColConstraintElem", c);
      ChildIsFirst(c, first);
      ChildIsFirst(c, second);
    }
    hide HasKeywords, HasChild, Within;
  }

  lemma NameMeans(node: Node, id: Node)
    ensures IsNameOf(id, node) <==> DirectChild(node, "ColId") == Some(id)
  {
    ChildIsFirst(node, "ColId");
  }

  lemma ListMeans(constraint: Node, list: Node)
    ensures IsListOf(list, constraint) <==> DirectChild(constraint, "columnList") == Some(list)
  {
    ChildIsFirst(constraint, "columnList");
  }

  lemma ListedMeans(source: Bytes, table: Node, column: Node)
    ensures ListedAsKey(source, table, column)
            <==> DirectChild(column, "ColId").Some? && NamesPrimaryColumn(source, table, ColumnName(source, DirectChild(column, "ColId").value))
  {
    if ListedAsKey(source, table, column) {
      NamesFromListed(source, table, column);
    }
    hide ColumnName, FindKind, ListedAsKey, NamesPrimaryColumn;
    if DirectChild(column, "ColId").Some? && NamesPrimaryColumn(source, table, ColumnName(source, DirectChild(column, "ColId").value)) {
      ListedFromNames(source, table, column);
    }
  }

  lemma NamesFromListed(source: Bytes, table: Node, column: Node)
    requires ListedAsKey(source, table, column)
    ensures DirectChild(column, "ColId").Some? && NamesPrimaryColumn(source, table, ColumnName(source, DirectChild(column, "ColId").value))
  {
    hide ColumnName, FindKind, Within, HasChild, IsNameOf, IsListOf, DirectChild;
    var constraint: Node, list: Node, element: Node, named: Node, name: Node :|
      && Within(constraint, table) && constraint.kind == "ConstraintElem" && HasChild(constraint, "kw_primary") && HasChild(constraint, "kw_key")
      && IsListOf(list, constraint) && Within(element, list) && element.kind == "columnElem"
      && IsNameOf(named, element) && IsNameOf(name, column) && ColumnName(source, named) == ColumnName(source, name);
    KindIsFound(table, "ConstraintElem", constraint);
    KindIsFound(list, "columnElem", element);
    ChildIsFirst(constraint, "kw_primary");
    ChildIsFirst(constraint, "kw_key");
    ListMeans(constraint, list);
    NameMeans(element, named);
    NameMeans(column, name);
    assert NamesColumn(source, constraint, ColumnName(source, name));
  }

  lemma ListedFromNames(source: Bytes, table: Node, column: Node)
    requires DirectChild(column, "ColId").Some? && NamesPrimaryColumn(source, table, ColumnName(source, DirectChild(column, "ColId").value))
    ensures ListedAsKey(source, table, column)
  {
    hide ColumnName, FindKind;
    var name := DirectChild(column, "ColId").value;
    var constraint :| constraint in FindKind(table, "ConstraintElem") && NamesColumn(source, constraint, ColumnName(source, name));
    var list := DirectChild(constraint, "columnList").value;
    var element :| element in FindKind(list, "columnElem") && DirectChild(element, "ColId").Some?
                   && ColumnName(source, DirectChild(element, "ColId").value) == ColumnName(source, name);
    var named := DirectChild(element, "ColId").value;
    KindIsFound(table, "ConstraintElem", constraint);
    KindIsFound(list, "columnElem", element);
    ChildIsFirst(constraint, "kw_primary");
    ChildIsFirst(constraint, "kw_key");
    ListMeans(constraint, list);
    NameMeans(element, named);
    NameMeans(column, name);
    hide DirectChild, Within, HasChild, IsNameOf, IsListOf;
  }

  /** A column gets NOT NULL exactly when it belongs to a primary key, by itself or by a list, and does not say NOT NULL. */
  lemma LacksMeans(source: Bytes, table: Node, column: Node)
    ensures LacksNotNull(source, table, column)
            <==> && !ColumnSays(column, "kw_not", "kw_null")
                 && (ColumnSays(column, "kw_primary", "kw_key") || ListedAsKey(source, table, column))
  {
    SaysMeans(column, "kw_not", "kw_null");
    SaysMeans(column, "kw_primary", "kw_key");
    ListedMeans(source, table, column);
    hide ColumnSays, ListedAsKey, HasKeywords, FindKind, ColumnName, NamesPrimaryColumn;
  }

  /** A column definition of a table of the tree ends here, is part of a primary key and does not say NOT NULL. */
  ghost predicate KeyColumnEndsAt(source: Bytes, root: Node, offset: nat) {
    exists table: Node, column: Node ::
      && Within(table, root) && table.kind == "CreateStmt" && Within(column, table) && column.kind == "columnDef" && column.end == offset
      && !ColumnSays(column, "kw_not", "kw_null")
      && (ColumnSays(column, "kw_primary", "kw_key") || ListedAsKey(source, table, column))
  }

  lemma InsertsAtMeans(source: Bytes, root: Node, offset: nat)
    ensures InsertsAt(source, root, offset) <==> KeyColumnEndsAt(source, root, offset)
  {
    hide FindKind, LacksNotNull, ColumnSays, ListedAsKey, Within;
    forall table: Node, column: Node
      ensures table in FindKind(root, "CreateStmt") <==> table.kind == "CreateStmt" && Within(table, root)
      ensures column in FindKind(table, "columnDef") <==> column.kind == "columnDef" && Within(column, table)
      ensures LacksNotNull(source, table, column)
              <==> && !ColumnSays(column, "kw_not", "kw_null")
                   && (ColumnSays(column, "kw_primary", "kw_key") || ListedAsKey(source, table, column))
    {
      KindIsFound(root, "CreateStmt", table);
      KindIsFound(table, "columnDef", column);
      LacksMeans(source, table, column);
    }
  }

  // ----- Identifiers ---------------------------------------------------------------------------------

  /** A text between double quotes, each of its own quotes doubled. */
  function InQuotes(text: Bytes): Bytes {
    [Quote] + DoubledQuotes(text) + [Quote]
  }

  function DoubledQuotes(text: Bytes): Bytes {
    if text == [] then [] else (if text[0] == Quote then [Quote, Quote] else [text[0]]) + DoubledQuotes(text[1..])
  }

  lemma {:induction false} UnquotedUndoubles(text: Bytes)
    ensures Unquoted(DoubledQuotes(text)) == text
  {
    if text != [] {
      var head, rest := if text[0] == Quote then [Quote, Quote] else [text[0]], DoubledQuotes(text[1..]);
      UnquotedUndoubles(text[1..]);
      assert (head + rest)[|head|..] == rest;
      if text[0] == Quote {
        assert (head + rest)[2..] == rest;
      } else {
        assert (head + rest)[1..] == rest && (head + rest)[0] == text[0];
      }
    }
  }

  /** Trimming leaves what begins and ends without a blank. */
  lemma {:induction false} TrimmedTo(before: Bytes, text: Bytes, after: Bytes)
    requires Blank(before) && Blank(after) && text != [] && !IsBlankByte(text[0]) && !IsBlankByte(text[|text| - 1])
    ensures TrimBlanks(before + text + after) == text
    decreases |before| + |after|
  {
    var all := before + text + after;
    if before != [] {
      assert before[0] in before && all[0] == before[0] && forall b | b in before[1..] :: b in before;
      assert all[1..] == before[1..] + text + after;
      TrimmedTo(before[1..], text, after);
    } else if after != [] {
      var n := |after| - 1;
      assert after[n] in after && all[|all| - 1] == after[n] && forall b | b in after[..n] :: b in after;
      assert all[0] == text[0] && all[..|all| - 1] == before + text + after[..n];
      TrimmedTo(before, text, after[..n]);
    } else {
      assert all == text;
    }
  }

  /** The node's text between blanks. */
  ghost predicate Spells(source: Bytes, node: Node, text: Bytes) {
    && node.start <= node.end <= |source|
    && exists before: Bytes, after: Bytes :: Blank(before) && Blank(after) && source[node.start..node.end] == before + text + after
  }

  /** A quoted identifier is read back as its text; any other is folded to lower case, so case does not tell two apart. */
  lemma NamesAreFolded(source: Bytes, node: Node, text: Bytes)
    ensures Spells(source, node, InQuotes(text)) ==> ColumnName(source, node) == text
    ensures Spells(source, node, text) && text != [] && text[0] != Quote && !IsBlankByte(text[0]) && !IsBlankByte(text[|text| - 1]) ==>
              && |ColumnName(source, node)| == |text|
              && forall i :: 0 <= i < |text| ==> ColumnName(source, node)[i] == if 65 <= text[i] <= 90 then text[i] + 32 else text[i]
  {
    if Spells(source, node, InQuotes(text)) {
      var quoted := InQuotes(text);
      var before: Bytes, after: Bytes :| Blank(before) && Blank(after) && source[node.start..node.end] == before + quoted + after;
      assert quoted[0] == Quote && quoted[|quoted| - 1] == Quote && !IsBlankByte(Quote);
      TrimmedTo(before, quoted, after);
      assert quoted[1..|quoted| - 1] == DoubledQuotes(text);
      UnquotedUndoubles(text);
      hide TrimBlanks, Unquoted;
    }
    if Spells(source, node, text) && text != [] && text[0] != Quote && !IsBlankByte(text[0]) && !IsBlankByte(text[|text| - 1]) {
      var before: Bytes, after: Bytes :| Blank(before) && Blank(after) && source[node.start..node.end] == before + text + after;
      TrimmedTo(before, text, after);
      hide TrimBlanks, Unquoted;
    }
  }

  // ----- What is inserted ----------------------------------------------------------------------------

  /** What is inserted into a statement: the text `NOT NULL` on a new line, exactly at the ends of such columns. */
  lemma MarksAreColumnEnds(text: Bytes, tree: Node, i: Injection)
    requires forall table, column | table in FindKind(tree, "CreateStmt") && column in FindKind(table, "columnDef") ::
               column.end <= |text|
    ensures i in Insertions(Weave(text, StatementMarks(text, EndsOf(text, tree)), 0))
            <==> i.order == 0 && i.text == [10] + Ascii("NOT NULL") && i.offset >= 0 && KeyColumnEndsAt(text, tree, i.offset)
  {
    var offsets := EndsOf(text, tree);
    var marks := StatementMarks(text, offsets);
    MarksInRange(text, offsets);
    WeaveInsertsEachOnce(text, marks);
    EndsAreInsertions(text, tree);
    if i.offset >= 0 {
      InsertsAtMeans(text, tree, i.offset);
    }
    hide Weave, Insertions, EndsOf, InsertsAt, KeyColumnEndsAt, Marks;
    assert i in Insertions(Weave(text, marks, 0)) <==> i in multiset(Insertions(Weave(text, marks, 0)));
    assert i in marks <==> i in multiset(marks);
    MarkIff(text, offsets, i);
  }

  lemma EndsAreInsertions(text: Bytes, tree: Node)
    ensures forall offset: nat :: offset in EndsOf(text, tree) <==> InsertsAt(text, tree, offset)
  {
    hide LacksNotNull;
  }

  lemma MarksInRange(text: Bytes, offsets: set<nat>)
    ensures InRange(text, StatementMarks(text, offsets))
  {
    MarksAreOffsets(offsets, |text| + 1);
  }

  lemma MarkIff(text: Bytes, offsets: set<nat>, i: Injection)
    requires forall o | o in offsets :: o <= |text|
    ensures i in StatementMarks(text, offsets) <==> i.order == 0 && i.text == NotNull && i.offset >= 0 && i.offset as nat in offsets
  {
    MarksAreOffsets(offsets, |text| + 1);
    var marks := StatementMarks(text, offsets);
    if i.offset >= 0 {
      MarksAt(offsets, |text| + 1, i.offset);
    }
    hide Marks;
    assert i in marks ==> i in OffsetGroup(marks, i.offset);
  }
}
