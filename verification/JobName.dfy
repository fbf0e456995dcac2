/** The job-name compressor: `getJobName` rewrites a command line through the `replace` table, whose Go map
    is visited in an unspecified order, drops the characters a job name may not hold, and truncates. */
module JobName {
  import opened Text
  import opened Decimal
  import opened Casadm

  function Short(k: Keyword): (s: string)
    ensures |s| <= 2
  {
    match k
    case StartOp => "-S"
    case StopOp => "-T"
    case AddCoreOp => "-A"
    case RemoveCoreOp => "-R"
    case ListOp => "-L"
    case SetModeOp => "-Q"
    case StatsOp => "-P"
    case CacheDevice => "-d"
    case CoreDevice => "-d"
    case CacheIdParam => "-i"
    case CoreIdParam => "-j"
    case ModeParam => "-c"
    case LineSizeParam => "-x"
    case IoClassParam => "-d"
    case _ => ""
  }

  /** The replacement loop, for one order in which the map's keys are visited. */
  function ReplaceLoop(cmd: string, order: seq<Keyword>): string
    decreases |order|
  {
    if |order| == 0 then cmd
    else ReplaceLoop(ReplaceAll(cmd, Spelling(order[0]), Short(order[0])), order[1..])
  }

  // ---- How far the replacement of a line has come: the keys in `done` are already replaced ----

  function KeyText(k: Keyword, done: set<Keyword>): string {
    if k in done then Short(k) else Spelling(k)
  }

  /** A value without its leading by-id directory, if it has one. */
  function Tail(text: string): string {
    if Spelling(ByIdDir) <= text then text[|Spelling(ByIdDir)|..] else text
  }

  function ValueText(text: string, done: set<Keyword>): string {
    if ByIdDir in done then Tail(text) else text
  }

  function Rendered(it: Item, done: set<Keyword>): string {
    match it
    case Switch(k) => KeyText(k, done)
    case Param(k, t) => KeyText(k, done) + [' '] + ValueText(t, done)
  }

  function RenderedLine(items: seq<Item>, done: set<Keyword>): string
    requires |items| >= 1
  {
    if |items| == 1 then Rendered(items[0], done)
    else Rendered(items[0], done) + [' '] + RenderedLine(items[1..], done)
  }

  lemma {:induction false} LineUntouched(items: seq<Item>)
    requires |items| >= 1
    ensures RenderedLine(items, {}) == Join(Texts(items), ' ')
  {
    assert Rendered(items[0], {}) == ItemText(items[0]);
    if |items| > 1 {
      LineUntouched(items[1..]);
      assert Texts(items)[1..] == Texts(items[1..]);
    }
  }

  // ---- Where keys can occur ----

  /** Text that no replacement touches, apart from an optional leading by-id directory. */
  ghost predicate Inert(text: string) {
    ' ' !in text && forall k: Keyword :: !Occurs(Spelling(k), Tail(text))
  }

  predicate Has2(s: string, i: int, a: char, b: char) {
    0 <= i < |s| - 1 && s[i] == a && s[i + 1] == b
  }

  ghost predicate SingleDashes(s: string) {
    |s| >= 6 && forall i :: i > 0 ==> !Has2(s, i, '-', '-')
  }

  /** A flag starts with "--", which does not recur in it; it holds no '/' and no "sa". */
  ghost predicate FlagSpelling(s: string) {
    && SingleDashes(s)
    && Has2(s, 0, '-', '-')
    && '/' !in s
    && forall i :: !Has2(s, i, 's', 'a')
  }

  lemma OperationSpellings()
    ensures FlagSpelling("--start-cache")
    ensures FlagSpelling("--stop-cache")
    ensures FlagSpelling("--add-core")
    ensures FlagSpelling("--remove-core")
  {
  }

  lemma MoreSpellings()
    ensures FlagSpelling("--list-caches")
    ensures FlagSpelling("--set-cache-mode")
    ensures FlagSpelling("--stats")
    ensures FlagSpelling("--cache-device")
    ensures FlagSpelling("--core-device")
  {
  }

  lemma ParameterSpellings()
    ensures FlagSpelling("--cache-id")
    ensures FlagSpelling("--core-id")
    ensures FlagSpelling("--cache-mode")
    ensures FlagSpelling("--cache-line-size")
  {
  }

  lemma OtherSpellings()
    ensures FlagSpelling("--io-class-id")
    ensures FlagSpelling("--by-id-path")
    ensures FlagSpelling("--force")
    ensures FlagSpelling("--output-format csv")
  {
  }

  lemma KeyShape(k: Keyword)
    ensures SingleDashes(Spelling(k))
    ensures k != Bin && k != ByIdDir ==> FlagSpelling(Spelling(k))
  {
    OperationSpellings();
    MoreSpellings();
    ParameterSpellings();
    OtherSpellings();
    assert SingleDashes("casadm") && SingleDashes("/dev/disk/by-id/opencas-csi");
  }

  lemma OccurrenceChars(key: string, s: string, i: int, p: nat)
    requires OccursAt(key, s, i) && p < |key|
    ensures i + p < |s| && s[i + p] == key[p]
  {
    assert s[i..i + |key|][p] == s[i + p];
  }

  /** A flag can occur in another key only at its start. */
  lemma FlagOccurrence(key: string, s: string, i: int)
    requires FlagSpelling(key) && SingleDashes(s) && OccursAt(key, s, i)
    ensures key <= s
  {
    OccurrenceChars(key, s, i, 0);
    OccurrenceChars(key, s, i, 1);
    assert Has2(s, i, '-', '-');
  }

  lemma BinOccurrence(k: Keyword, i: int)
    requires OccursAt("casadm", Spelling(k), i)
    ensures k == Bin
  {
    KeyShape(k);
    OccurrenceChars("casadm", Spelling(k), i, 2);
    OccurrenceChars("casadm", Spelling(k), i, 3);
    assert Has2(Spelling(k), i + 2, 's', 'a');
    assert forall j :: !Has2("/dev/disk/by-id/opencas-csi", j, 's', 'a');
  }

  lemma DirOccurrence(k: Keyword, i: int)
    requires OccursAt("/dev/disk/by-id/opencas-csi", Spelling(k), i)
    ensures k == ByIdDir
  {
    KeyShape(k);
    OccurrenceChars("/dev/disk/by-id/opencas-csi", Spelling(k), i, 0);
    assert '/' !in "casadm";
  }

  lemma FlagWithin(k: Keyword, l: Keyword, i: int)
    requires l != Bin && l != ByIdDir && OccursAt(Spelling(l), Spelling(k), i)
    ensures k == l
  {
    KeyShape(k);
    KeyShape(l);
    FlagOccurrence(Spelling(l), Spelling(k), i);
    GuessRight(l, Spelling(k));
    GuessRight(k, Spelling(k));
  }

  /** No key occurs inside another. */
  lemma KeysDisjoint(k: Keyword, l: Keyword)
    ensures Occurs(Spelling(l), Spelling(k)) ==> k == l
  {
    if Occurs(Spelling(l), Spelling(k)) {
      var i :| OccursAt(Spelling(l), Spelling(k), i);
      if l == Bin {
        BinOccurrence(k, i);
      } else if l == ByIdDir {
        DirOccurrence(k, i);
      } else {
        FlagWithin(k, l, i);
      }
    }
  }

  lemma KeyLength(k: Keyword)
    ensures |Spelling(k)| >= 6
  {
    KeyShape(k);
  }

  // ---- One replacement ----

  lemma ReplaceWhole(key: string, rest: string, repl: string)
    requires key != ""
    ensures ReplaceAll(key + rest, key, repl) == repl + ReplaceAll(rest, key, repl)
    ensures ReplaceAll(key, key, repl) == repl
  {
    assert (key + rest)[|key|..] == rest;
    assert key[|key|..] == "";
  }

  lemma WordStep(text: string, short: string, replaced: bool, key: string, repl: string, same: bool)
    requires |key| > |short|
    requires if same then text == key && short == repl else !Occurs(key, text)
    ensures ReplaceAll(if replaced then short else text, key, repl) == if replaced || same then short else text
  {
    if replaced {
      ReplaceAbsent(short, key, repl);
    } else if same {
      ReplaceWhole(key, "", repl);
    } else {
      ReplaceAbsent(text, key, repl);
    }
  }

  lemma KeyStep(k: Keyword, done: set<Keyword>, l: Keyword)
    ensures |Spelling(l)| >= 6
    ensures ReplaceAll(KeyText(k, done), Spelling(l), Short(l)) == KeyText(k, done + {l})
  {
    KeyLength(l);
    KeysDisjoint(k, l);
    WordStep(Spelling(k), Short(k), k in done, Spelling(l), Short(l), k == l);
  }

  /** Behind the by-id directory a key occurs only where it occurs in the rest of the path. */
  lemma FlagBehindDir(key: string, rest: string, i: int)
    requires FlagSpelling(key) && OccursAt(key, "/dev/disk/by-id/opencas-csi" + rest, i)
    ensures i >= 27
  {
    var dir := "/dev/disk/by-id/opencas-csi";
    OccurrenceChars(key, dir + rest, i, 0);
    OccurrenceChars(key, dir + rest, i, 1);
    assert forall j :: 0 <= j < 26 ==> !Has2(dir, j, '-', '-');
  }

  lemma BinBehindDir(rest: string, i: int)
    requires OccursAt("casadm", "/dev/disk/by-id/opencas-csi" + rest, i)
    ensures i >= 27
  {
    var dir := "/dev/disk/by-id/opencas-csi";
    OccurrenceChars("casadm", dir + rest, i, 0);
    OccurrenceChars("casadm", dir + rest, i, 1);
    OccurrenceChars("casadm", dir + rest, i, 3);
    assert forall j :: 0 <= j < 27 && dir[j] == 'c' ==> j == 20 || j == 24;
  }

  lemma BehindDir(key: string, rest: string)
    requires FlagSpelling(key) || key == "casadm"
    requires !Occurs(key, rest)
    ensures !Occurs(key, "/dev/disk/by-id/opencas-csi" + rest)
  {
    var path := "/dev/disk/by-id/opencas-csi" + rest;
    forall i ensures OccursAt(key, path, i) ==> OccursAt(key, rest, i - 27) {
      if OccursAt(key, path, i) {
        if key == "casadm" {
          BinBehindDir(rest, i);
        } else {
          FlagBehindDir(key, rest, i);
        }
        assert path[27..] == rest;
        assert path[i..i + |key|] == rest[i - 27..i - 27 + |key|];
      }
    }
  }

  lemma DirStep(rest: string, key: string, repl: string, dir: bool)
    requires |key| >= 6 && !Occurs(key, rest)
    requires if dir then key == "/dev/disk/by-id/opencas-csi" && repl == "" else FlagSpelling(key) || key == "casadm"
    ensures ReplaceAll("/dev/disk/by-id/opencas-csi" + rest, key, repl)
            == if dir then rest else "/dev/disk/by-id/opencas-csi" + rest
  {
    if dir {
      ReplaceWhole(key, rest, repl);
      ReplaceAbsent(rest, key, repl);
    } else {
      BehindDir(key, rest);
      ReplaceAbsent("/dev/disk/by-id/opencas-csi" + rest, key, repl);
    }
  }

  lemma ValueStep(text: string, done: set<Keyword>, l: Keyword)
    requires Inert(text)
    ensures |Spelling(l)| >= 6
    ensures ReplaceAll(ValueText(text, done), Spelling(l), Short(l)) == ValueText(text, done + {l})
  {
    KeyLength(l);
    KeyShape(l);
    if Spelling(ByIdDir) <= text && ByIdDir !in done {
      assert text == Spelling(ByIdDir) + Tail(text);
      DirStep(Tail(text), Spelling(l), Short(l), l == ByIdDir);
    } else {
      ReplaceAbsent(Tail(text), Spelling(l), Short(l));
    }
  }

  ghost predicate InertItem(it: Item) {
    Proper(it) && (it.Param? ==> Inert(it.text))
  }

  lemma ItemStep(it: Item, done: set<Keyword>, l: Keyword)
    requires InertItem(it) && l != OutputCsv
    ensures |Spelling(l)| >= 6
    ensures ReplaceAll(Rendered(it, done), Spelling(l), Short(l)) == Rendered(it, done + {l})
  {
    KeyStep(it.k, done, l);
    if it.Param? {
      SpellingSpaces(l);
      ValueStep(it.text, done, l);
      ReplaceAcross(KeyText(it.k, done), ValueText(it.text, done), ' ', Spelling(l), Short(l));
    }
  }

  ghost predicate InertItems(items: seq<Item>) {
    |items| >= 1 && forall it :: it in items ==> InertItem(it)
  }

  lemma {:induction false} PlainStep(items: seq<Item>, done: set<Keyword>, l: Keyword)
    requires InertItems(items) && l != OutputCsv
    ensures |Spelling(l)| >= 6
    ensures ReplaceAll(RenderedLine(items, done), Spelling(l), Short(l)) == RenderedLine(items, done + {l})
  {
    ItemStep(items[0], done, l);
    if |items| > 1 {
      PlainStep(items[1..], done, l);
      SpellingSpaces(l);
      ReplaceAcross(Rendered(items[0], done), RenderedLine(items[1..], done), ' ', Spelling(l), Short(l));
    }
  }

  // ---- The csv flag, the only key with a space ----

  const FORMAT := "--output-format"

  /** What can stand before a space without being the first half of the csv flag. */
  predicate NotFormat(s: string) {
    ' ' !in s && !(|s| >= 15 && s[|s| - 15..] == FORMAT)
  }

  lemma LastNotT(k: Keyword)
    requires k != OutputCsv
    ensures |Spelling(k)| >= 6 && Spelling(k)[|Spelling(k)| - 1] != 't'
  {
  }

  lemma NotFormatByLast(s: string)
    requires ' ' !in s && (s == "" || s[|s| - 1] != 't')
    ensures NotFormat(s)
  {
    assert |s| >= 15 ==> s[|s| - 15..][14] == s[|s| - 1];
  }

  lemma KeyNotFormat(k: Keyword, done: set<Keyword>)
    requires k != OutputCsv
    ensures NotFormat(KeyText(k, done))
  {
    SpellingSpaces(k);
    LastNotT(k);
    NotFormatByLast(KeyText(k, done));
  }

  lemma CsvPast(a: string, b: string)
    requires ' ' !in a && (NotFormat(a) || !("csv" <= b))
    ensures ReplaceAll(a + [' '] + b, Spelling(OutputCsv), "") == a + [' '] + ReplaceAll(b, Spelling(OutputCsv), "")
  {
    assert FORMAT + [' '] + "csv" == Spelling(OutputCsv);
    ReplacePast(a, b, ' ', FORMAT, "csv", "");
  }

  lemma CsvAbsent(a: string)
    requires ' ' !in a
    ensures ReplaceAll(a, Spelling(OutputCsv), "") == a
  {
    var key := "--output-format csv";
    forall i ensures !OccursAt(key, a, i) {
      if OccursAt(key, a, i) {
        OccurrenceChars(key, a, i, 15);
        assert false;
      }
    }
    ReplaceAbsent(a, key, "");
  }

  lemma KeyStart(k: Keyword)
    ensures |Spelling(k)| >= 6 && (Spelling(k)[0] != 'c' || Spelling(k)[1] != 's')
    ensures Short(k) == "" || Short(k)[0] == '-'
  {
  }

  /** A rendered line never starts with the second half of the csv flag. */
  lemma LineNotCsv(items: seq<Item>, done: set<Keyword>)
    requires |items| >= 1
    ensures !("csv" <= RenderedLine(items, done))
  {
    var head := KeyText(items[0].k, done);
    var line := RenderedLine(items, done);
    KeyStart(items[0].k);
    assert head <= line;
    if head == "" {
      assert line == "" || line[0] == ' ';
    } else {
      assert line[0] == head[0];
      assert |head| >= 2 ==> line[1] == head[1];
    }
  }

  lemma CsvItem(k: Keyword, done: set<Keyword>, rest: string)
    ensures ReplaceAll(KeyText(k, done) + [' '] + rest, Spelling(OutputCsv), "")
            == KeyText(k, done + {OutputCsv}) + [' '] + ReplaceAll(rest, Spelling(OutputCsv), "")
  {
    if k != OutputCsv {
      KeyNotFormat(k, done);
      CsvPast(KeyText(k, done), rest);
    } else {
      CsvPast("", rest);
      assert "" + [' '] + rest == [' '] + rest;
      ReplaceWhole(Spelling(OutputCsv), [' '] + rest, "");
      assert Spelling(OutputCsv) + [' '] + rest == Spelling(OutputCsv) + ([' '] + rest);
    }
  }

  /** Two rewriting steps in a row. */
  lemma ReplaceInTurn(key: string, a: string, after: string, value: string, rest: string)
    requires key != ""
    requires ReplaceAll(a + [' '] + (value + [' '] + rest), key, "") == after + [' '] + ReplaceAll(value + [' '] + rest, key, "")
    requires ReplaceAll(value + [' '] + rest, key, "") == value + [' '] + ReplaceAll(rest, key, "")
    ensures ReplaceAll(a + [' '] + value + [' '] + rest, key, "") == after + [' '] + value + [' '] + ReplaceAll(rest, key, "")
  {
    assert a + [' '] + (value + [' '] + rest) == a + [' '] + value + [' '] + rest;
  }

  lemma ValueSpaceFree(text: string, done: set<Keyword>)
    requires ' ' !in text
    ensures ' ' !in ValueText(text, done)
  {
    assert forall c :: c in Tail(text) ==> c in text;
  }

  /** An item followed by the rest of the line. */
  lemma CsvBefore(it: Item, done: set<Keyword>, rest: string)
    requires InertItem(it) && !("csv" <= rest)
    ensures ReplaceAll(Rendered(it, done) + [' '] + rest, Spelling(OutputCsv), "")
            == Rendered(it, done + {OutputCsv}) + [' '] + ReplaceAll(rest, Spelling(OutputCsv), "")
  {
    if it.Param? {
      var value := ValueText(it.text, done);
      ValueSpaceFree(it.text, done);
      CsvItem(it.k, done, value + [' '] + rest);
      CsvPast(value, rest);
      ReplaceInTurn(Spelling(OutputCsv), KeyText(it.k, done), KeyText(it.k, done + {OutputCsv}), value, rest);
    } else {
      CsvItem(it.k, done, rest);
    }
  }

  /** The last item of the line. */
  lemma CsvLast(it: Item, done: set<Keyword>)
    requires InertItem(it)
    ensures ReplaceAll(Rendered(it, done), Spelling(OutputCsv), "") == Rendered(it, done + {OutputCsv})
  {
    if it.Param? {
      ValueSpaceFree(it.text, done);
      CsvItem(it.k, done, ValueText(it.text, done));
      CsvAbsent(ValueText(it.text, done));
    } else {
      KeyStep(it.k, done, OutputCsv);
    }
  }

  lemma {:induction false} CsvStep(items: seq<Item>, done: set<Keyword>)
    requires InertItems(items)
    ensures ReplaceAll(RenderedLine(items, done), Spelling(OutputCsv), "") == RenderedLine(items, done + {OutputCsv})
  {
    assert items[0] in items;
    if |items| == 1 {
      CsvLast(items[0], done);
    } else {
      CsvStep(items[1..], done);
      LineNotCsv(items[1..], done);
      CsvBefore(items[0], done, RenderedLine(items[1..], done));
    }
  }

  // ---- Confluence ----

  lemma Step(items: seq<Item>, done: set<Keyword>, l: Keyword)
    requires InertItems(items)
    ensures |Spelling(l)| >= 6
    ensures ReplaceAll(RenderedLine(items, done), Spelling(l), Short(l)) == RenderedLine(items, done + {l})
  {
    if l == OutputCsv {
      CsvStep(items, done);
    } else {
      PlainStep(items, done, l);
    }
  }

  ghost function KeySet(order: seq<Keyword>): set<Keyword> {
    set k | k in order
  }

  lemma KeySetCons(done: set<Keyword>, order: seq<Keyword>)
    requires |order| > 0
    ensures done + {order[0]} + KeySet(order[1..]) == done + KeySet(order)
  {
    assert order == [order[0]] + order[1..];
  }

  lemma {:induction false} LoopRenders(items: seq<Item>, done: set<Keyword>, order: seq<Keyword>)
    requires InertItems(items)
    ensures ReplaceLoop(RenderedLine(items, done), order) == RenderedLine(items, done + KeySet(order))
    decreases |order|
  {
    if |order| == 0 {
      assert done + KeySet(order) == done;
    } else {
      Step(items, done, order[0]);
      LoopRenders(items, done + {order[0]}, order[1..]);
      KeySetCons(done, order);
    }
  }

  /** The free text of a command is inert: its path holds no `replace` key but an optional leading by-id
      directory, and its mode holds none. */
  ghost predicate InertCommand(c: Command) {
    match c
    case StartCache(path, mode, _, _) => Inert(path) && Inert(mode)
    case AddCore(_, path, _) => Inert(path)
    case SetCacheMode(_, mode) => Inert(mode)
    case _ => true
  }

  lemma KeyHasLetter(k: Keyword)
    ensures |Spelling(k)| >= 6 && !IsDigit(Spelling(k)[2]) && Spelling(k)[2] != '-'
  {
  }

  lemma DigitsInert(text: string, key: string)
    requires |key| >= 6 && !IsDigit(key[2]) && key[2] != '-'
    requires forall c :: c in text ==> IsDigit(c) || c == '-'
    ensures !Occurs(key, text)
  {
    if Occurs(key, text) {
      OccursHas(key, text, 2);
      assert false;
    }
  }

  lemma NumberInert(id: GoInt)
    ensures Inert(Print(id))
  {
    PrintDigits(id);
    var text := Print(id);
    assert text[0] in text && Tail(text) == text;
    forall k: Keyword ensures !Occurs(Spelling(k), text) {
      KeyHasLetter(k);
      DigitsInert(text, Spelling(k));
    }
  }

  lemma ArgumentInert(c: Command, k: Keyword)
    requires InertCommand(c) && Lookup(ArgumentsOf(c), k).Some?
    ensures Inert(Lookup(ArgumentsOf(c), k).value)
  {
    match k
    case CacheIdParam => NumberInert(c.cacheId);
    case CoreIdParam => NumberInert(c.coreId);
    case LineSizeParam => NumberInert(c.lineSize);
    case _ =>
  }

  lemma CommandInert(c: Command)
    requires InertCommand(c)
    ensures InertItems(Items(c))
  {
    ItemsProper(c);
    ParamsMembers(PARAM_ORDER, ArgumentsOf(c));
    SwitchesProper(Operation(c));
    forall it ensures it in Items(c) && it.Param? ==> Inert(it.text) {
      if it in Items(c) && it.Param? {
        assert it in Params(PARAM_ORDER, ArgumentsOf(c));
        ArgumentInert(c, it.k);
      }
    }
  }

  /** Every key is visited, in some order. */
  ghost predicate VisitsAll(order: seq<Keyword>) {
    forall k: Keyword :: k in order
  }

  /** Job-name confluence: the text after the replacement loop does not depend on the order in which Go
      visits the map. */
  lemma Confluence(c: Command, order: seq<Keyword>, other: seq<Keyword>)
    requires InertCommand(c) && VisitsAll(order) && VisitsAll(other)
    ensures ReplaceLoop(Line(c), order) == ReplaceLoop(Line(c), other)
  {
    CommandInert(c);
    LineUntouched(Items(c));
    LoopRenders(Items(c), {}, order);
    LoopRenders(Items(c), {}, other);
    assert {} + KeySet(order) == {} + KeySet(other);
  }
}
