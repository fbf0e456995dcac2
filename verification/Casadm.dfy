/** The casadm command lines: the words each builder appends, the joined line, the argument vector a
    job receives after splitting the line on spaces, and a reader that recovers the command from it. */
module Casadm {
  import opened Text
  import opened Decimal

  /** The fixed words of a command line and the by-id directory: the keys of the `replace` table. */
  datatype Keyword =
    | Bin
    | StartOp | StopOp | AddCoreOp | RemoveCoreOp | ListOp | SetModeOp | StatsOp
    | CacheDevice | CoreDevice | CacheIdParam | CoreIdParam | ModeParam | LineSizeParam | IoClassParam
    | ByIdPath | Force | OutputCsv | ByIdDir

  function Spelling(k: Keyword): string {
    match k
    case Bin => "casadm"
    case StartOp => "--start-cache"
    case StopOp => "--stop-cache"
    case AddCoreOp => "--add-core"
    case RemoveCoreOp => "--remove-core"
    case ListOp => "--list-caches"
    case SetModeOp => "--set-cache-mode"
    case StatsOp => "--stats"
    case CacheDevice => "--cache-device"
    case CoreDevice => "--core-device"
    case CacheIdParam => "--cache-id"
    case CoreIdParam => "--core-id"
    case ModeParam => "--cache-mode"
    case LineSizeParam => "--cache-line-size"
    case IoClassParam => "--io-class-id"
    case ByIdPath => "--by-id-path"
    case Force => "--force"
    case OutputCsv => "--output-format csv"
    case ByIdDir => "/dev/disk/by-id/opencas-csi"
  }

  /** Keywords that are followed by a value of their own. */
  predicate TakesValue(k: Keyword) {
    match k
    case CacheDevice | CoreDevice | CacheIdParam | CoreIdParam | ModeParam | LineSizeParam | IoClassParam => true
    case _ => false
  }

  /** What a builder appends to its slice: one keyword, or a parameter and its value. */
  datatype Item = Switch(k: Keyword) | Param(k: Keyword, text: string)

  predicate Proper(it: Item) {
    match it
    case Switch(k) => !TakesValue(k) && k != ByIdDir
    case Param(k, _) => TakesValue(k)
  }

  /** One constructor per builder. An id of -1 asks for automatic assignment and is left out of the line,
      as are an empty mode and a line size of 0. */
  datatype Command =
    | StartCache(path: string, mode: string, lineSize: GoInt, cacheId: GoInt)
    | StopCache(cacheId: GoInt)
    | AddCore(cacheId: GoInt, path: string, coreId: GoInt)
    | RemoveCore(cacheId: GoInt, coreId: GoInt)
    | ListCaches
    | Stats(cacheId: GoInt, coreId: GoInt)
    | SetCacheMode(cacheId: GoInt, mode: string)

  /** The parameters in the order in which every builder appends those it uses. */
  const PARAM_ORDER: seq<Keyword> := [CacheDevice, CacheIdParam, CoreDevice, CoreIdParam, ModeParam, LineSizeParam]

  datatype Arguments = Arguments(cacheDevice: Option<string>, cacheId: Option<string>, coreDevice: Option<string>,
                                 coreId: Option<string>, mode: Option<string>, lineSize: Option<string>)

  const NO_ARGUMENTS := Arguments(None, None, None, None, None, None)

  function Lookup(a: Arguments, k: Keyword): Option<string> {
    match k
    case CacheDevice => a.cacheDevice
    case CacheIdParam => a.cacheId
    case CoreDevice => a.coreDevice
    case CoreIdParam => a.coreId
    case ModeParam => a.mode
    case LineSizeParam => a.lineSize
    case _ => None
  }

  /** The parameters that are present, each with its value. */
  function Params(order: seq<Keyword>, args: Arguments): seq<Item> {
    if |order| == 0 then []
    else Optional(order[0], Lookup(args, order[0])) + Params(order[1..], args)
  }

  function Optional(k: Keyword, text: Option<string>): seq<Item> {
    if text.Some? then [Param(k, text.value)] else []
  }

  function Operation(c: Command): Keyword {
    match c
    case StartCache(_, _, _, _) => StartOp
    case StopCache(_) => StopOp
    case AddCore(_, _, _) => AddCoreOp
    case RemoveCore(_, _) => RemoveCoreOp
    case ListCaches => ListOp
    case Stats(_, _) => StatsOp
    case SetCacheMode(_, _) => SetModeOp
  }

  function Switches(op: Keyword): (items: seq<Item>)
    ensures |items| >= 2
  {
    match op
    case StartOp => [Switch(Bin), Switch(op), Switch(Force)]
    case ListOp => [Switch(Bin), Switch(op), Switch(ByIdPath), Switch(OutputCsv)]
    case StatsOp => [Switch(Bin), Switch(op), Switch(OutputCsv)]
    case _ => [Switch(Bin), Switch(op)]
  }

  function If(present: bool, text: string): Option<string> {
    if present then Some(text) else None
  }

  function ArgumentsOf(c: Command): Arguments {
    match c
    case StartCache(path, mode, lineSize, cacheId) =>
      NO_ARGUMENTS.(cacheDevice := Some(path), cacheId := If(cacheId != -1, Print(cacheId)),
                    mode := If(mode != "", mode), lineSize := If(lineSize != 0, Print(lineSize)))
    case StopCache(cacheId) => NO_ARGUMENTS.(cacheId := Some(Print(cacheId)))
    case AddCore(cacheId, path, coreId) =>
      NO_ARGUMENTS.(cacheId := Some(Print(cacheId)), coreDevice := Some(path), coreId := If(coreId != -1, Print(coreId)))
    case RemoveCore(cacheId, coreId) => NO_ARGUMENTS.(cacheId := Some(Print(cacheId)), coreId := Some(Print(coreId)))
    case ListCaches => NO_ARGUMENTS
    case Stats(cacheId, coreId) =>
      NO_ARGUMENTS.(cacheId := Some(Print(cacheId)), coreId := If(coreId != -1, Print(coreId)))
    case SetCacheMode(cacheId, mode) => NO_ARGUMENTS.(cacheId := Some(Print(cacheId)), mode := Some(mode))
  }

  function Items(c: Command): (items: seq<Item>)
    ensures |items| >= 2
  {
    Switches(Operation(c)) + Params(PARAM_ORDER, ArgumentsOf(c))
  }

  /** An item as it appears in the line. */
  function ItemText(it: Item): string {
    match it
    case Switch(k) => Spelling(k)
    case Param(k, t) => Spelling(k) + [' '] + t
  }

  function Texts(items: seq<Item>): seq<string> {
    seq(|items|, i requires 0 <= i < |items| => ItemText(items[i]))
  }

  /** The command line a builder returns. */
  function Line(c: Command): string {
    Join(Texts(Items(c)), ' ')
  }

  lemma ParamsStep(i: nat, a: Arguments)
    requires i < |PARAM_ORDER|
    ensures Params(PARAM_ORDER[i..], a) == Optional(PARAM_ORDER[i], Lookup(a, PARAM_ORDER[i])) + Params(PARAM_ORDER[i + 1..], a)
  {
    assert PARAM_ORDER[i..][1..] == PARAM_ORDER[i + 1..];
  }

  lemma ParamsForm(a: Arguments)
    ensures Params(PARAM_ORDER, a) ==
            Optional(CacheDevice, a.cacheDevice) + (Optional(CacheIdParam, a.cacheId)
            + (Optional(CoreDevice, a.coreDevice) + (Optional(CoreIdParam, a.coreId)
            + (Optional(ModeParam, a.mode) + Optional(LineSizeParam, a.lineSize)))))
  {
    assert PARAM_ORDER[0..] == PARAM_ORDER;
    ParamsStep(0, a);
    ParamsStep(1, a);
    ParamsStep(2, a);
    LastParams(a);
  }

  lemma LastParams(a: Arguments)
    ensures Params(PARAM_ORDER[3..], a) ==
            Optional(CoreIdParam, a.coreId) + (Optional(ModeParam, a.mode) + Optional(LineSizeParam, a.lineSize))
  {
    ParamsStep(3, a);
    ParamsStep(4, a);
    ParamsStep(5, a);
    assert Optional(LineSizeParam, a.lineSize) + [] == Optional(LineSizeParam, a.lineSize);
  }

  /** The builders append to a local slice, conditionally, and join it. */
  method StartCacheCmd(path: string, mode: string, lineSize: GoInt, cacheId: GoInt) returns (line: string)
    ensures line == Line(StartCache(path, mode, lineSize, cacheId))
  {
    var cmd := [Switch(Bin), Switch(StartOp), Switch(Force)];
    cmd := cmd + [Param(CacheDevice, path)];
    if cacheId != -1 {
      cmd := cmd + [Param(CacheIdParam, Print(cacheId))];
    }
    if mode != "" {
      cmd := cmd + [Param(ModeParam, mode)];
    }
    if lineSize != 0 {
      cmd := cmd + [Param(LineSizeParam, Print(lineSize))];
    }
    ParamsForm(ArgumentsOf(StartCache(path, mode, lineSize, cacheId)));
    assert cmd == Items(StartCache(path, mode, lineSize, cacheId));
    line := Join(Texts(cmd), ' ');
  }

  method AddCoreCmd(cacheId: GoInt, path: string, coreId: GoInt) returns (line: string)
    ensures line == Line(AddCore(cacheId, path, coreId))
  {
    var cmd := [Switch(Bin), Switch(AddCoreOp)];
    cmd := cmd + [Param(CacheIdParam, Print(cacheId))];
    cmd := cmd + [Param(CoreDevice, path)];
    if coreId != -1 {
      cmd := cmd + [Param(CoreIdParam, Print(coreId))];
    }
    ParamsForm(ArgumentsOf(AddCore(cacheId, path, coreId)));
    assert cmd == Items(AddCore(cacheId, path, coreId));
    line := Join(Texts(cmd), ' ');
  }

  method StatsCmd(cacheId: GoInt, coreId: GoInt) returns (line: string)
    ensures line == Line(Stats(cacheId, coreId))
  {
    var cmd := [Switch(Bin), Switch(StatsOp), Switch(OutputCsv)];
    cmd := cmd + [Param(CacheIdParam, Print(cacheId))];
    if coreId != -1 {
      cmd := cmd + [Param(CoreIdParam, Print(coreId))];
    }
    ParamsForm(ArgumentsOf(Stats(cacheId, coreId)));
    assert cmd == Items(Stats(cacheId, coreId));
    line := Join(Texts(cmd), ' ');
  }

  lemma {:induction false} ParamsMembers(order: seq<Keyword>, args: Arguments)
    ensures forall it :: it in Params(order, args) <==> it.Param? && it.k in order && Lookup(args, it.k) == Some(it.text)
  {
    if |order| > 0 {
      ParamsMembers(order[1..], args);
      assert order == [order[0]] + order[1..];
      var text := Lookup(args, order[0]);
      assert forall it :: it in Optional(order[0], text) <==> it.Param? && it.k == order[0] && text == Some(it.text);
    }
  }

  lemma OrderComplete(k: Keyword, args: Arguments)
    ensures k in PARAM_ORDER ==> TakesValue(k)
    ensures Lookup(args, k).Some? ==> k in PARAM_ORDER
  {
    var o := PARAM_ORDER;
    assert o[0] in o && o[1] in o && o[2] in o && o[3] in o && o[4] in o && o[5] in o;
  }

  lemma SwitchesProper(op: Keyword)
    requires op in {StartOp, StopOp, AddCoreOp, RemoveCoreOp, ListOp, StatsOp, SetModeOp}
    ensures forall it :: it in Switches(op) ==> it.Switch? && Proper(it)
  {
  }

  lemma ItemsProper(c: Command)
    ensures forall it :: it in Items(c) ==> Proper(it)
  {
    ParamsMembers(PARAM_ORDER, ArgumentsOf(c));
    SwitchesProper(Operation(c));
    forall k ensures k in PARAM_ORDER ==> TakesValue(k) {
      OrderComplete(k, NO_ARGUMENTS);
    }
  }

  // ---- The intended argument vector ----

  /** The arguments one item stands for: the csv flag is two, a parameter and its value are two. */
  function ItemArgs(it: Item): (args: seq<string>)
    ensures |args| >= 1
  {
    match it
    case Switch(k) => if k == OutputCsv then ["--output-format", "csv"] else [Spelling(k)]
    case Param(k, t) => [Spelling(k), t]
  }

  function Args(items: seq<Item>): seq<string> {
    if |items| == 0 then [] else ItemArgs(items[0]) + Args(items[1..])
  }

  function Argv(c: Command): seq<string> {
    Args(Items(c))
  }

  lemma ItemJoined(it: Item)
    ensures Join(ItemArgs(it), ' ') == ItemText(it)
  {
    match it
    case Switch(k) =>
      if k == OutputCsv {
        assert ["--output-format", "csv"][1..] == ["csv"];
      }
    case Param(k, t) => assert [Spelling(k), t][1..] == [t];
  }

  lemma {:induction false} JoinedArgs(items: seq<Item>)
    requires |items| >= 1
    ensures |Args(items)| >= 1 && Join(Texts(items), ' ') == Join(Args(items), ' ')
  {
    ItemJoined(items[0]);
    if |items| == 1 {
      assert Args(items) == ItemArgs(items[0]);
    } else {
      JoinedArgs(items[1..]);
      assert Texts(items)[1..] == Texts(items[1..]);
      JoinAppend(ItemArgs(items[0]), Args(items[1..]), ' ');
    }
  }

  /** The free text of a command holds no space: what the `\S+` pattern of the Cache resource asks of a path. */
  predicate SpaceFree(c: Command) {
    match c
    case StartCache(path, mode, _, _) => ' ' !in path && ' ' !in mode
    case AddCore(_, path, _) => ' ' !in path
    case SetCacheMode(_, mode) => ' ' !in mode
    case _ => true
  }

  predicate ItemSpaceFree(it: Item) {
    it.Param? ==> ' ' !in it.text
  }

  /** Every keyword but the csv flag is one space-free word; the csv flag is exactly two. */
  lemma SpellingSpaces(k: Keyword)
    requires k != OutputCsv
    ensures ' ' !in Spelling(k)
  {
  }

  lemma ItemArgsSpaceFree(it: Item)
    requires Proper(it)
    ensures (forall a :: a in ItemArgs(it) ==> ' ' !in a) <==> ItemSpaceFree(it)
  {
    if it.k != OutputCsv {
      SpellingSpaces(it.k);
    }
    assert it.Param? ==> ItemArgs(it)[1] == it.text;
  }

  lemma {:induction false} ArgsSpaceFree(items: seq<Item>)
    requires forall it :: it in items ==> Proper(it)
    ensures (forall a :: a in Args(items) ==> ' ' !in a) <==> (forall it :: it in items ==> ItemSpaceFree(it))
  {
    if |items| > 0 {
      ArgsSpaceFree(items[1..]);
      ItemArgsSpaceFree(items[0]);
      assert items == [items[0]] + items[1..];
      assert forall a :: a in Args(items) <==> a in ItemArgs(items[0]) || a in Args(items[1..]);
    }
  }

  predicate ArgumentsSpaceFree(a: Arguments) {
    forall k :: Lookup(a, k).Some? ==> ' ' !in Lookup(a, k).value
  }

  lemma CommandSpaceFree(c: Command)
    ensures SpaceFree(c) <==> ArgumentsSpaceFree(ArgumentsOf(c))
  {
    forall id: GoInt ensures ' ' !in Print(id) {
      PrintDigits(id);
    }
    var a := ArgumentsOf(c);
    assert Lookup(a, CacheDevice) == a.cacheDevice && Lookup(a, CoreDevice) == a.coreDevice;
    assert Lookup(a, ModeParam) == a.mode;
  }

  lemma ItemsSpaceFree(c: Command)
    ensures SpaceFree(c) <==> forall it :: it in Items(c) ==> ItemSpaceFree(it)
  {
    var a := ArgumentsOf(c);
    CommandSpaceFree(c);
    ParamsMembers(PARAM_ORDER, a);
    SwitchesProper(Operation(c));
    forall k ensures Lookup(a, k).Some? ==> Param(k, Lookup(a, k).value) in Items(c) {
      OrderComplete(k, a);
    }
  }

  /** Splitting the line on spaces yields the intended argument vector exactly when the path and the mode
      hold no space. */
  lemma ArgvExactly(c: Command)
    ensures Split(Line(c), ' ') == Argv(c) <==> SpaceFree(c)
  {
    CommandArgsSpaceFree(c);
    ItemsSplit(Items(c));
  }

  lemma CommandArgsSpaceFree(c: Command)
    ensures (forall a :: a in Argv(c) ==> ' ' !in a) <==> SpaceFree(c)
  {
    ItemsProper(c);
    ArgsSpaceFree(Items(c));
    ItemsSpaceFree(c);
  }

  lemma ItemsSplit(items: seq<Item>)
    requires |items| >= 1
    ensures Split(Join(Texts(items), ' '), ' ') == Args(items) <==> forall a :: a in Args(items) ==> ' ' !in a
  {
    JoinedArgs(items);
    SplitExactly(Args(items), ' ');
  }

  /** Words that were joined come back exactly if none holds the separator. */
  lemma SplitExactly(words: seq<string>, sep: char)
    requires |words| >= 1
    ensures Split(Join(words, sep), sep) == words <==> forall w :: w in words ==> sep !in w
  {
    SplitPieces(Join(words, sep), sep);
    if forall w :: w in words ==> sep !in w {
      SplitJoin(words, sep);
    }
  }

  // ---- A reader of the argument vector ----

  /** Tells a keyword by a few of its characters. */
  function Guess(s: string): Keyword {
    if |s| < 6 || s[0] == 'c' then Bin
    else if s[0] == '/' then ByIdDir
    else
      match s[2]
      case 'a' => AddCoreOp
      case 'r' => RemoveCoreOp
      case 'l' => ListOp
      case 'i' => IoClassParam
      case 'b' => ByIdPath
      case 'f' => Force
      case 'o' => OutputCsv
      case 's' =>
        if s[3] == 'e' then SetModeOp else if s[4] == 'o' then StopOp else if s[5] == 'r' then StartOp else StatsOp
      case _ =>
        if |s| < 9 then CoreIdParam
        else if s[3] == 'o' then (if s[7] == 'i' then CoreIdParam else CoreDevice)
        else
          match s[8]
          case 'd' => CacheDevice
          case 'i' => CacheIdParam
          case 'm' => ModeParam
          case _ => LineSizeParam
  }

  /** A keyword is told correctly even when text follows it, so none is a prefix of another. */
  lemma GuessRight(k: Keyword, s: string)
    requires Spelling(k) <= s
    ensures Guess(s) == k
  {
    var t := Spelling(k);
    assert forall i :: 0 <= i < |t| ==> s[i] == t[i];
  }

  function Lex(args: seq<string>): seq<Item> {
    if |args| == 0 then []
    else if args[0] == "--output-format" && |args| >= 2 then [Switch(OutputCsv)] + Lex(args[2..])
    else
      var k := Guess(args[0]);
      if TakesValue(k) && |args| >= 2 then [Param(k, args[1])] + Lex(args[2..])
      else [Switch(k)] + Lex(args[1..])
  }

  lemma SpellingNotFormat(k: Keyword)
    ensures Spelling(k) != "--output-format"
  {
    GuessRight(k, Spelling(k));
    if k != OutputCsv {
      assert Guess("--output-format") == OutputCsv;
    }
  }

  lemma LexItem(it: Item, rest: seq<string>)
    requires Proper(it)
    ensures Lex(ItemArgs(it) + rest) == [it] + Lex(rest)
  {
    var args := ItemArgs(it) + rest;
    assert args[|ItemArgs(it)|..] == rest;
    if it == Switch(OutputCsv) {
      assert args[0] == "--output-format";
    } else {
      assert args[0] == Spelling(it.k);
      SpellingNotFormat(it.k);
      GuessRight(it.k, args[0]);
    }
  }

  lemma {:induction false} LexArgs(items: seq<Item>)
    requires forall it :: it in items ==> Proper(it)
    ensures Lex(Args(items)) == items
  {
    if |items| > 0 {
      var it, rest := items[0], items[1..];
      LexArgs(rest);
      assert items == [it] + rest;
      LexItem(it, Args(rest));
    }
  }

  function SetArgument(a: Arguments, k: Keyword, text: string): Arguments {
    match k
    case CacheDevice => a.(cacheDevice := Some(text))
    case CacheIdParam => a.(cacheId := Some(text))
    case CoreDevice => a.(coreDevice := Some(text))
    case CoreIdParam => a.(coreId := Some(text))
    case ModeParam => a.(mode := Some(text))
    case LineSizeParam => a.(lineSize := Some(text))
    case _ => a
  }

  /** The parameters of an item list, whatever their order. */
  function ReadParams(items: seq<Item>): Arguments {
    if |items| == 0 then NO_ARGUMENTS
    else
      var rest := ReadParams(items[1..]);
      if items[0].Param? then SetArgument(rest, items[0].k, items[0].text) else rest
  }

  function IdOr(text: Option<string>, default: GoInt): GoInt {
    if text.Some? then Atoi(text.value).value else default
  }

  function TextOr(text: Option<string>): string {
    if text.Some? then text.value else ""
  }

  function Assemble(op: Keyword, a: Arguments, cacheId: GoInt, coreId: GoInt, lineSize: GoInt): Option<Command> {
    match op
    case StartOp => Some(StartCache(TextOr(a.cacheDevice), TextOr(a.mode), lineSize, cacheId))
    case StopOp => Some(StopCache(cacheId))
    case AddCoreOp => Some(AddCore(cacheId, TextOr(a.coreDevice), coreId))
    case RemoveCoreOp => Some(RemoveCore(cacheId, coreId))
    case ListOp => Some(ListCaches)
    case StatsOp => Some(Stats(cacheId, coreId))
    case SetModeOp => Some(SetCacheMode(cacheId, TextOr(a.mode)))
    case _ => None
  }

  function ReadCommand(op: Keyword, a: Arguments): Option<Command> {
    Assemble(op, a, IdOr(a.cacheId, -1), IdOr(a.coreId, -1), IdOr(a.lineSize, 0))
  }

  function ReadItems(items: seq<Item>): Option<Command> {
    if |items| < 2 then None else ReadCommand(items[1].k, ReadParams(items))
  }

  lemma SetLookup(a: Arguments, k: Keyword, text: string, l: Keyword)
    requires k in PARAM_ORDER
    ensures Lookup(SetArgument(a, k, text), l) == if l == k then Some(text) else Lookup(a, l)
  {
  }

  lemma {:induction false} ReadParamsBack(order: seq<Keyword>, args: Arguments, k: Keyword)
    requires forall i, j :: 0 <= i < j < |order| ==> order[i] != order[j]
    requires forall l :: l in order ==> l in PARAM_ORDER
    ensures Lookup(ReadParams(Params(order, args)), k) == if k in order then Lookup(args, k) else None
  {
    if |order| > 0 {
      ReadParamsBack(order[1..], args, k);
      assert order == [order[0]] + order[1..];
      var rest := Params(order[1..], args);
      var items := Params(order, args);
      var text := Lookup(args, order[0]);
      if text.Some? {
        assert items[1..] == rest;
        SetLookup(ReadParams(rest), order[0], text.value, k);
      } else {
        assert items == rest;
      }
    }
  }

  lemma {:induction false} ReadPastSwitches(switches: seq<Item>, rest: seq<Item>)
    requires forall it :: it in switches ==> it.Switch?
    ensures ReadParams(switches + rest) == ReadParams(rest)
  {
    var items := switches + rest;
    if |switches| == 0 {
      assert items == rest;
    } else {
      assert items[1..] == switches[1..] + rest;
      assert items[0] == switches[0] && switches[0] in switches;
      ReadPastSwitches(switches[1..], rest);
    }
  }

  lemma IdRead(text: Option<string>, id: GoInt, default: GoInt)
    requires text == Some(Print(id)) || (text == None && id == default)
    ensures IdOr(text, default) == id
  {
    RoundTrip(id);
  }

  lemma AssembleBack(c: Command, cacheId: GoInt, coreId: GoInt, lineSize: GoInt)
    requires !c.ListCaches? ==> cacheId == c.cacheId
    requires c.AddCore? || c.RemoveCore? || c.Stats? ==> coreId == c.coreId
    requires c.StartCache? ==> lineSize == c.lineSize
    ensures Assemble(Operation(c), ArgumentsOf(c), cacheId, coreId, lineSize) == Some(c)
  {
  }

  lemma CommandBack(c: Command)
    ensures ReadCommand(Operation(c), ArgumentsOf(c)) == Some(c)
  {
    var a := ArgumentsOf(c);
    if !c.ListCaches? {
      IdRead(a.cacheId, c.cacheId, -1);
    }
    if c.AddCore? || c.RemoveCore? || c.Stats? {
      IdRead(a.coreId, c.coreId, -1);
    }
    if c.StartCache? {
      IdRead(a.lineSize, c.lineSize, 0);
    }
    AssembleBack(c, IdOr(a.cacheId, -1), IdOr(a.coreId, -1), IdOr(a.lineSize, 0));
  }

  lemma LookupDetermines(a: Arguments, b: Arguments)
    requires forall k :: k in PARAM_ORDER ==> Lookup(a, k) == Lookup(b, k)
    ensures a == b
  {
    var o := PARAM_ORDER;
    assert o[0] in o && o[1] in o && o[2] in o && o[3] in o && o[4] in o && o[5] in o;
  }

  lemma ParamsBack(op: Keyword, a: Arguments)
    requires op in {StartOp, StopOp, AddCoreOp, RemoveCoreOp, ListOp, StatsOp, SetModeOp}
    ensures ReadItems(Switches(op) + Params(PARAM_ORDER, a)) == ReadCommand(op, a)
  {
    var rest := Params(PARAM_ORDER, a);
    SwitchesProper(op);
    ReadPastSwitches(Switches(op), rest);
    forall k ensures k in PARAM_ORDER ==> Lookup(ReadParams(rest), k) == Lookup(a, k) {
      ReadParamsBack(PARAM_ORDER, a, k);
    }
    LookupDetermines(ReadParams(rest), a);
    assert Switches(op)[1] == Switch(op);
  }

  lemma ReadBack(c: Command)
    ensures ReadItems(Items(c)) == Some(c)
  {
    ParamsBack(Operation(c), ArgumentsOf(c));
    CommandBack(c);
  }

  function ReadArgv(args: seq<string>): Option<Command> {
    ReadItems(Lex(args))
  }

  /** argv round trip: building, joining, splitting and reading recovers the operation, the path, the mode,
      the line size and the ids of every command whose path and mode hold no space. */
  lemma ArgvRoundTrip(c: Command)
    requires SpaceFree(c)
    ensures ReadArgv(Split(Line(c), ' ')) == Some(c)
  {
    ArgvExactly(c);
    ItemsProper(c);
    LexArgs(Items(c));
    ReadBack(c);
  }

  /** Distinct space-free commands have distinct lines. */
  lemma LineInjective(c: Command, d: Command)
    requires SpaceFree(c) && SpaceFree(d) && Line(c) == Line(d)
    ensures c == d
  {
    ArgvRoundTrip(c);
    ArgvRoundTrip(d);
  }
}
