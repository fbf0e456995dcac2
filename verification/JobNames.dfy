/** The finished job name: node prefix, allowed characters only, lower case, at most 63 characters; and the
    commands whose names are distinct. */
module JobNames {
  import opened Text
  import opened Decimal
  import opened Casadm
  import opened JobName

  const MAX_NAME := 63

  predicate Allowed(c: char) {
    c == '-' || c == '.' || 'a' <= c <= 'z' || 'A' <= c <= 'Z' || '0' <= c <= '9'
  }

  /** Drop what the regular expression matches, then lower the rest. */
  function Clean(s: string): string {
    if s == "" then "" else CleanChar(s[0]) + Clean(s[1..])
  }

  function CleanChar(c: char): string {
    if Allowed(c) then [LowerChar(c)] else ""
  }

  /** `strings.TrimRight(s, "-.")`. */
  function TrimEnd(s: string): (t: string)
    ensures t <= s
    ensures t != "" ==> t[|t| - 1] != '-' && t[|t| - 1] != '.'
  {
    if s != "" && (s[|s| - 1] == '-' || s[|s| - 1] == '.') then TrimEnd(s[..|s| - 1]) else s
  }

  function FullName(nodeId: string, cmd: string, order: seq<Keyword>): string {
    Lower(Split(nodeId, '.')[0]) + Clean(ReplaceLoop(cmd, order))
  }

  function Name(nodeId: string, cmd: string, order: seq<Keyword>): (name: string)
    ensures |name| <= MAX_NAME
  {
    var full := FullName(nodeId, cmd, order);
    if |full| > MAX_NAME then TrimEnd(full[..MAX_NAME]) else full
  }

  lemma {:induction false} LoopAppend(cmd: string, order: seq<Keyword>, k: Keyword)
    ensures |Spelling(k)| > 0
    ensures ReplaceLoop(cmd, order + [k]) == ReplaceAll(ReplaceLoop(cmd, order), Spelling(k), Short(k))
    decreases |order|
  {
    KeyLength(k);
    if |order| == 0 {
      assert order + [k] == [k];
      var next := ReplaceAll(cmd, Spelling(k), Short(k));
      assert ReplaceLoop(next, [k][1..]) == next;
    } else {
      var l := order[0];
      KeyLength(l);
      assert (order + [k])[0] == l && (order + [k])[1..] == order[1..] + [k];
      LoopAppend(ReplaceAll(cmd, Spelling(l), Short(l)), order[1..], k);
    }
  }

  /** The loops of `getJobName`: `order` is the order in which this run visits the map. */
  method GetJobName(nodeId: string, cmd: string, order: seq<Keyword>) returns (name: string)
    ensures name == Name(nodeId, cmd, order)
  {
    var node := Split(nodeId, '.')[0];
    var text := cmd;
    for i := 0 to |order|
      invariant text == ReplaceLoop(cmd, order[..i])
    {
      KeyLength(order[i]);
      LoopAppend(cmd, order[..i], order[i]);
      assert order[..i + 1] == order[..i] + [order[i]];
      text := ReplaceAll(text, Spelling(order[i]), Short(order[i]));
    }
    assert order[..|order|] == order;
    var output := Lower(node) + Clean(text);
    if |output| > MAX_NAME {
      name := TrimEnd(output[..MAX_NAME]);
    } else {
      name := output;
    }
  }

  /** All orders give the same job name. */
  lemma NameIndependentOfOrder(nodeId: string, c: Command, order: seq<Keyword>, other: seq<Keyword>)
    requires InertCommand(c) && VisitsAll(order) && VisitsAll(other)
    ensures Name(nodeId, Line(c), order) == Name(nodeId, Line(c), other)
  {
    Confluence(c, order, other);
  }

  // ---- Injectivity ----

  /** Digits and lower-case letters are kept as they are. */
  predicate Plain(s: string) {
    forall i :: 0 <= i < |s| ==> IsDigit(s[i]) || 'a' <= s[i] <= 'z'
  }

  lemma {:induction false} CleanPlain(s: string)
    requires Plain(s)
    ensures Clean(s) == s
  {
    if s != "" {
      CleanPlain(s[1..]);
      assert s == [s[0]] + s[1..];
    }
  }

  function Dashed(pieces: seq<string>): string {
    if |pieces| == 0 then "" else ['-'] + pieces[0] + Dashed(pieces[1..])
  }

  lemma {:induction false} SplitDashed(head: string, pieces: seq<string>)
    requires '-' !in head && forall p :: p in pieces ==> '-' !in p
    ensures Split(head + Dashed(pieces), '-') == [head] + pieces
    decreases |pieces|
  {
    if |pieces| == 0 {
      SplitWord(head, '-');
      assert head + Dashed(pieces) == head;
    } else {
      SplitDashed(pieces[0], pieces[1..]);
      var rest := pieces[0] + Dashed(pieces[1..]);
      SplitCons(head, rest, '-');
      assert head + Dashed(pieces) == head + ['-'] + rest;
      assert pieces == [pieces[0]] + pieces[1..];
    }
  }

  /** The letter a parameter leaves in the name. */
  function Letter(k: Keyword): char {
    match k
    case CacheIdParam => 'i'
    case CoreIdParam => 'j'
    case _ => 'c'
  }

  predicate Numeric(k: Keyword) {
    k == CacheIdParam || k == CoreIdParam || k == ModeParam
  }

  function OperationLetter(op: Keyword): char {
    match op
    case StopOp => 't'
    case RemoveCoreOp => 'r'
    case ListOp => 'l'
    case StatsOp => 'p'
    case _ => 'q'
  }

  function Piece(it: Item): string
    requires it.Param?
  {
    [Letter(it.k)] + it.text
  }

  function Pieces(params: seq<Item>): seq<string>
    requires forall it :: it in params ==> it.Param?
  {
    if |params| == 0 then [] else [Piece(params[0])] + Pieces(params[1..])
  }

  const MODES: set<string> := {"wt", "wb", "wa", "pt", "wo"}

  /** The commands named by ids and modes only, with the ids casadm hands out. */
  predicate Numbered(c: Command) {
    match c
    case StopCache(id) => id >= 0
    case RemoveCore(id, coreId) => id >= 0 && coreId >= 0
    case ListCaches => true
    case Stats(id, coreId) => id >= 0 && coreId >= -1
    case SetCacheMode(id, mode) => id >= 0 && mode in MODES
    case _ => false
  }

  lemma ModePlain(mode: string)
    requires mode in MODES
    ensures Plain(mode) && Inert(mode)
  {
    assert |mode| == 2;
    forall k: Keyword ensures !Occurs(Spelling(k), mode) {
      KeyLength(k);
    }
    KeyLength(ByIdDir);
    assert Tail(mode) == mode;
  }

  lemma NumberPlain(id: GoInt)
    requires id >= 0
    ensures Plain(Print(id))
  {
    PrintDigits(id);
  }

  /** The arguments of a numbered command are plain texts of the three numeric parameters. */
  lemma NumberedArguments(c: Command, k: Keyword)
    requires Numbered(c) && Lookup(ArgumentsOf(c), k).Some?
    ensures Numeric(k) && Plain(Lookup(ArgumentsOf(c), k).value)
  {
    match k
    case CacheIdParam => NumberPlain(c.cacheId);
    case CoreIdParam => NumberPlain(c.coreId);
    case ModeParam => ModePlain(c.mode);
    case _ =>
  }

  predicate PlainItem(it: Item) {
    it.Param? ==> Numeric(it.k) && Plain(it.text)
  }

  /** What is left of a line after the loop and the clean-up. */
  function Compact(items: seq<Item>): string {
    if |items| == 0 then "" else CompactItem(items[0]) + Compact(items[1..])
  }

  function CompactItem(it: Item): string {
    match it
    case Switch(k) => Clean(Short(k))
    case Param(k, t) => Clean(Short(k)) + t
  }

  lemma PlainTail(text: string)
    requires Plain(text)
    ensures Tail(text) == text
  {
    assert Spelling(ByIdDir)[0] == '/';
    assert text != "" ==> text[0] != '/';
  }

  lemma {:induction false} CleanJoin(a: string, b: string)
    ensures Clean(a + [' '] + b) == Clean(a) + Clean(b)
  {
    var s := a + [' '] + b;
    if a == "" {
      assert s[0] == ' ' && s[1..] == b;
    } else {
      assert s[0] == a[0] && s[1..] == a[1..] + [' '] + b;
      CleanJoin(a[1..], b);
      var x, y, z := CleanChar(a[0]), Clean(a[1..]), Clean(b);
      assert x + (y + z) == (x + y) + z;
    }
  }

  lemma DashedCons(p: string, ps: seq<string>)
    ensures Dashed([p] + ps) == ['-'] + p + Dashed(ps)
  {
    assert ([p] + ps)[1..] == ps;
  }

  lemma CleanItem(it: Item, done: set<Keyword>)
    requires PlainItem(it) && it.k in done
    ensures Clean(Rendered(it, done)) == CompactItem(it)
  {
    if it.Param? {
      PlainTail(it.text);
      CleanJoin(Short(it.k), it.text);
      CleanPlain(it.text);
    }
  }

  lemma {:induction false} CleanLine(items: seq<Item>, done: set<Keyword>)
    requires |items| >= 1 && forall it :: it in items ==> PlainItem(it) && it.k in done
    ensures Clean(RenderedLine(items, done)) == Compact(items)
  {
    CleanItem(items[0], done);
    if |items| == 1 {
      assert Compact(items[1..]) == "";
    } else {
      CleanLine(items[1..], done);
      CleanJoin(Rendered(items[0], done), RenderedLine(items[1..], done));
    }
  }

  lemma {:induction false} CompactAppend(a: seq<Item>, b: seq<Item>)
    ensures Compact(a + b) == Compact(a) + Compact(b)
  {
    if |a| == 0 {
      assert a + b == b;
    } else {
      var ab := a + b;
      assert ab[0] == a[0] && ab[1..] == a[1..] + b;
      CompactAppend(a[1..], b);
      var x, y, z := CompactItem(a[0]), Compact(a[1..]), Compact(b);
      assert x + (y + z) == (x + y) + z;
    }
  }

  lemma CleanShort(k: Keyword)
    ensures Numeric(k) ==> Clean(Short(k)) == ['-', Letter(k)]
    ensures k in {StopOp, RemoveCoreOp, ListOp, StatsOp, SetModeOp} ==> Clean(Short(k)) == ['-', OperationLetter(k)]
    ensures k in {Bin, ByIdPath, OutputCsv} ==> Clean(Short(k)) == ""
  {
    var s := Short(k);
    if s != "" {
      assert s[1..] == [s[1]] && s[1..][1..] == "";
      assert Clean(s[1..]) == CleanChar(s[1]) + "";
    }
  }

  lemma CompactSwitches(op: Keyword)
    requires op in {StopOp, RemoveCoreOp, ListOp, StatsOp, SetModeOp}
    ensures Compact(Switches(op)) == ['-', OperationLetter(op)]
  {
    CleanShort(Bin);
    CleanShort(op);
    CleanShort(ByIdPath);
    CleanShort(OutputCsv);
    var head, tail := [Switch(Bin), Switch(op)], Switches(op)[2..];
    assert Switches(op) == head + tail;
    CompactAppend(head, tail);
    assert head[1..] == [Switch(op)] && [Switch(op)][1..] == [];
    assert Compact(tail) == "" by {
      if op == ListOp {
        assert tail[1..] == [Switch(OutputCsv)] && tail[1..][1..] == [];
      } else if op == StatsOp {
        assert tail[1..] == [];
      }
    }
  }

  lemma CompactParam(it: Item)
    requires it.Param? && PlainItem(it)
    ensures CompactItem(it) == ['-'] + Piece(it)
  {
    CleanShort(it.k);
  }

  lemma {:induction false} CompactParams(params: seq<Item>)
    requires forall it :: it in params ==> it.Param? && PlainItem(it)
    ensures Compact(params) == Dashed(Pieces(params))
  {
    if |params| > 0 {
      var it, rest := params[0], params[1..];
      CompactParams(rest);
      CompactParam(it);
      DashedCons(Piece(it), Pieces(rest));
    }
  }

  lemma {:induction false} PiecesInjective(p: seq<Item>, q: seq<Item>)
    requires forall it :: it in p ==> it.Param? && PlainItem(it)
    requires forall it :: it in q ==> it.Param? && PlainItem(it)
    requires Pieces(p) == Pieces(q)
    ensures p == q
  {
    if |p| > 0 && |q| > 0 {
      var s, t := Pieces(p), Pieces(q);
      assert s[1..] == Pieces(p[1..]) && t[1..] == Pieces(q[1..]);
      PiecesInjective(p[1..], q[1..]);
      assert Piece(p[0]) == s[0] == t[0] == Piece(q[0]);
      assert Piece(p[0])[0] == Letter(p[0].k) && Piece(q[0])[0] == Letter(q[0].k);
      assert Piece(p[0])[1..] == p[0].text && Piece(q[0])[1..] == q[0].text;
      assert p == [p[0]] + p[1..] && q == [q[0]] + q[1..];
    }
  }

  lemma PlainNoDash(s: string)
    requires Plain(s)
    ensures '-' !in s
  {
  }

  lemma {:induction false} PiecesDashFree(params: seq<Item>)
    requires forall it :: it in params ==> it.Param? && PlainItem(it)
    ensures forall p :: p in Pieces(params) ==> '-' !in p
  {
    if |params| > 0 {
      PlainNoDash(params[0].text);
      PiecesDashFree(params[1..]);
    }
  }

  /** The parameters of a command, in line order. */
  function ParamsOf(c: Command): (ps: seq<Item>)
    ensures forall it :: it in ps ==> it.Param?
  {
    ParamsMembers(PARAM_ORDER, ArgumentsOf(c));
    Params(PARAM_ORDER, ArgumentsOf(c))
  }

  function NamePieces(c: Command): seq<string> {
    [[OperationLetter(Operation(c))]] + Pieces(ParamsOf(c))
  }

  lemma NumberedItems(c: Command)
    requires Numbered(c)
    ensures InertCommand(c)
    ensures forall it :: it in ParamsOf(c) ==> PlainItem(it)
    ensures forall it :: it in Items(c) ==> PlainItem(it)
  {
    ParamsMembers(PARAM_ORDER, ArgumentsOf(c));
    forall k ensures Lookup(ArgumentsOf(c), k).Some? ==> Numeric(k) && Plain(Lookup(ArgumentsOf(c), k).value) {
      if Lookup(ArgumentsOf(c), k).Some? {
        NumberedArguments(c, k);
      }
    }
    SwitchesProper(Operation(c));
    if c.SetCacheMode? {
      ModePlain(c.mode);
    }
  }

  lemma NumberedClean(c: Command, order: seq<Keyword>)
    requires Numbered(c) && VisitsAll(order)
    ensures Clean(ReplaceLoop(Line(c), order)) == Compact(Items(c))
  {
    NumberedItems(c);
    CommandInert(c);
    LineUntouched(Items(c));
    LoopRenders(Items(c), {}, order);
    CleanLine(Items(c), {} + KeySet(order));
  }

  lemma NumberedCompact(op: Keyword, params: seq<Item>)
    requires op in {StopOp, RemoveCoreOp, ListOp, StatsOp, SetModeOp}
    requires forall it :: it in params ==> it.Param? && PlainItem(it)
    ensures Compact(Switches(op) + params) == Dashed([[OperationLetter(op)]] + Pieces(params))
  {
    CompactAppend(Switches(op), params);
    CompactSwitches(op);
    CompactParams(params);
    DashedCons([OperationLetter(op)], Pieces(params));
    assert ['-', OperationLetter(op)] == ['-'] + [OperationLetter(op)];
  }

  lemma NumberedText(c: Command, order: seq<Keyword>)
    requires Numbered(c) && VisitsAll(order)
    ensures Clean(ReplaceLoop(Line(c), order)) == Dashed(NamePieces(c))
  {
    NumberedItems(c);
    NumberedClean(c, order);
    NumberedCompact(Operation(c), ParamsOf(c));
  }

  lemma HeadAndRest(a: char, p: seq<Item>, b: char, q: seq<Item>)
    requires forall it :: it in p ==> it.Param? && PlainItem(it)
    requires forall it :: it in q ==> it.Param? && PlainItem(it)
    requires [[a]] + Pieces(p) == [[b]] + Pieces(q)
    ensures a == b && p == q
  {
    var m, n := [[a]] + Pieces(p), [[b]] + Pieces(q);
    assert m[0] == n[0] && m[0][0] == n[0][0];
    assert Pieces(p) == m[1..] == n[1..] == Pieces(q);
    PiecesInjective(p, q);
  }

  lemma PiecesDetermine(c: Command, d: Command)
    requires Numbered(c) && Numbered(d) && NamePieces(c) == NamePieces(d)
    ensures c == d
  {
    NumberedItems(c);
    NumberedItems(d);
    HeadAndRest(OperationLetter(Operation(c)), ParamsOf(c), OperationLetter(Operation(d)), ParamsOf(d));
    SameItems(c, d);
  }

  lemma SameItems(c: Command, d: Command)
    requires Operation(c) == Operation(d) && ParamsOf(c) == ParamsOf(d)
    ensures c == d
  {
    assert Items(c) == Items(d);
    ReadBack(c);
    ReadBack(d);
  }

  lemma SplitPiecesBack(first: string, rest: seq<string>)
    requires '-' !in first && forall p :: p in rest ==> '-' !in p
    ensures Split(Dashed([first] + rest), '-') == [""] + ([first] + rest)
  {
    var pieces := [first] + rest;
    SplitDashed("", pieces);
    assert "" + Dashed(pieces) == Dashed(pieces);
  }

  lemma LetterNoDash(op: Keyword)
    requires op in {StopOp, RemoveCoreOp, ListOp, StatsOp, SetModeOp}
    ensures '-' !in [OperationLetter(op)]
  {
  }

  lemma DashFree(op: Keyword, params: seq<Item>)
    requires op in {StopOp, RemoveCoreOp, ListOp, StatsOp, SetModeOp}
    requires forall it :: it in params ==> it.Param? && PlainItem(it)
    ensures var pieces := [[OperationLetter(op)]] + Pieces(params); Split(Dashed(pieces), '-') == [""] + pieces
  {
    LetterNoDash(op);
    PiecesDashFree(params);
    SplitPiecesBack([OperationLetter(op)], Pieces(params));
  }

  /** Job-name injectivity: on one node, distinct stop, remove-core, list, stats and set-mode commands get
      distinct job names, whatever orders the two runs visit the map in, unless a name is truncated. */
  lemma NamesDistinct(nodeId: string, c: Command, d: Command, order: seq<Keyword>, other: seq<Keyword>)
    requires Numbered(c) && Numbered(d) && VisitsAll(order) && VisitsAll(other)
    requires |FullName(nodeId, Line(c), order)| <= MAX_NAME && |FullName(nodeId, Line(d), other)| <= MAX_NAME
    requires Name(nodeId, Line(c), order) == Name(nodeId, Line(d), other)
    ensures c == d
  {
    var node := Lower(Split(nodeId, '.')[0]);
    NumberedText(c, order);
    NumberedText(d, other);
    var x, y := Dashed(NamePieces(c)), Dashed(NamePieces(d));
    assert x == (node + x)[|node|..] == (node + y)[|node|..] == y;
    NumberedItems(c);
    NumberedItems(d);
    DashFree(Operation(c), ParamsOf(c));
    DashFree(Operation(d), ParamsOf(d));
    assert NamePieces(c) == ([""] + NamePieces(c))[1..] == ([""] + NamePieces(d))[1..] == NamePieces(d);
    PiecesDetermine(c, d);
  }
}
