/** The parser of `casadm --list-caches` output: comma-separated records (section 2 of RFC 4180, restricted to
    text without quotes), a cache row followed by its core rows, and an optional "core pool" section. */
module CacheList {
  import opened Text
  import opened Decimal

  /** `cache` stands for the core's pointer back to its cache: the position of that cache in the list. */
  datatype Core = Core(id: GoInt, backend: string, status: string, path: string, cache: nat)

  datatype Cache = Cache(id: GoInt, device: string, status: string, mode: string, volumes: map<string, Core>)

  type Record = seq<string>

  function TrimReturn(line: string): string {
    if line != "" && line[|line| - 1] == '\r' then line[..|line| - 1] else line
  }

  /** The record on one line, none if the line is empty. */
  function LineRecords(line: string): seq<Record> {
    var text := TrimReturn(line);
    if text == "" then [] else [Split(text, ',')]
  }

  function RecordsOf(lines: seq<string>): seq<Record> {
    if |lines| == 0 then [] else LineRecords(lines[0]) + RecordsOf(lines[1..])
  }

  function Records(text: string): seq<Record> {
    RecordsOf(Split(text, '\n'))
  }

  function NewCache(r: Record): Cache
    requires |r| >= 5
  {
    Cache(Atoi(r[1]).value, r[2], r[3], r[4], map[])
  }

  function AddCore(caches: seq<Cache>, core: Core): (after: seq<Cache>)
    requires |caches| >= 1
    ensures |after| == |caches|
  {
    var last := caches[|caches| - 1];
    caches[|caches| - 1 := last.(volumes := last.volumes[core.backend := core])]
  }

  /** The caches once the records are read, starting from those read before. None where the Go code panics:
      a core row before any cache row, or a row with too few fields. */
  function ParseRecords(records: seq<Record>, caches: seq<Cache>): Option<seq<Cache>> {
    if |records| == 0 then Some(caches)
    else
      var r, rest := records[0], records[1..];
      if |r| == 0 then None
      else if r[0] == "cache" then
        if |r| < 5 then None else ParseRecords(rest, caches + [NewCache(r)])
      else if r[0] == "core" then
        if |r| < 6 || |caches| == 0 then None
        else ParseRecords(rest, AddCore(caches, Core(Atoi(r[1]).value, r[2], r[3], r[5], |caches| - 1)))
      else if r[0] == "core pool" then Some(caches)
      else ParseRecords(rest, caches)
  }

  /** The parser: every listing that casadm prints comes back as the caches it shows. */
  method ParseCacheList(output: string) returns (caches: Option<seq<Cache>>)
    requires '"' !in output
    ensures caches == ParseRecords(Records(output), [])
    ensures forall rows, tail :: output == PrintList(rows, tail) && CleanRows(rows) && PoolOrNothing(tail) ==> caches == Some(CachesOf(rows))
  {
    caches := ReadRecords(Records(output));
    ListingsParse(output);
  }

  /** The loop over the records: a current cache, a growing list, a map per cache. */
  method ReadRecords(records: seq<Record>) returns (caches: Option<seq<Cache>>)
    ensures caches == ParseRecords(records, [])
  {
    var list: seq<Cache> := [];
    var i := 0;
    while i < |records|
      invariant 0 <= i <= |records|
      invariant ParseRecords(records[i..], list) == ParseRecords(records, [])
    {
      var r := records[i];
      assert records[i..][0] == r && records[i..][1..] == records[i + 1..];
      if |r| == 0 {
        return None;
      }
      if r[0] == "cache" {
        if |r| < 5 {
          return None;
        }
        list := list + [NewCache(r)];
      } else if r[0] == "core" {
        if |r| < 6 || |list| == 0 {
          return None;
        }
        list := AddCore(list, Core(Atoi(r[1]).value, r[2], r[3], r[5], |list| - 1));
      } else if r[0] == "core pool" {
        return Some(list);
      }
      i := i + 1;
    }
    assert records[i..] == [];
    return Some(list);
  }

  // ---- The listing casadm prints ----

  datatype CoreRow = CoreRow(id: GoInt, backend: string, status: string, path: string)

  datatype CacheRow = CacheRow(id: GoInt, device: string, status: string, mode: string, cores: seq<CoreRow>)

  const HEADER: Record := ["type", "id", "disk", "status", "write policy", "device"]

  function CoreRecord(c: CoreRow): Record {
    ["core", Print(c.id), c.backend, c.status, "-", c.path]
  }

  function CacheRecord(c: CacheRow): Record {
    ["cache", Print(c.id), c.device, c.status, c.mode, "-"]
  }

  function CoreRecords(cores: seq<CoreRow>): seq<Record> {
    if |cores| == 0 then [] else [CoreRecord(cores[0])] + CoreRecords(cores[1..])
  }

  function RowRecords(rows: seq<CacheRow>): seq<Record> {
    if |rows| == 0 then []
    else [CacheRecord(rows[0])] + CoreRecords(rows[0].cores) + RowRecords(rows[1..])
  }

  function PrintRecords(records: seq<Record>): string {
    if |records| == 0 then "" else Join(records[0], ',') + ['\n'] + PrintRecords(records[1..])
  }

  /** The whole output: header, rows, and what follows them (nothing, or a core pool section). */
  function PrintList(rows: seq<CacheRow>, tail: string): string {
    PrintRecords([HEADER] + RowRecords(rows)) + tail
  }

  predicate CleanField(f: string) {
    ',' !in f && '\n' !in f && '\r' !in f && '"' !in f
  }

  predicate CleanRecord(r: Record) {
    |r| >= 2 && forall i :: 0 <= i < |r| ==> CleanField(r[i])
  }

  predicate CleanRecords(records: seq<Record>) {
    |records| == 0 || (CleanRecord(records[0]) && CleanRecords(records[1..]))
  }

  predicate CleanRow(row: CacheRow) {
    && CleanField(row.device) && CleanField(row.status) && CleanField(row.mode)
    && forall i :: 0 <= i < |row.cores| ==>
         CleanField(row.cores[i].backend) && CleanField(row.cores[i].status) && CleanField(row.cores[i].path)
  }

  predicate CleanRows(rows: seq<CacheRow>) {
    forall i :: 0 <= i < |rows| ==> CleanRow(rows[i])
  }

  /** Nothing, or a section whose first row starts with "core pool", whatever follows that row. */
  ghost predicate PoolOrNothing(tail: string) {
    tail == "" || exists r: Record, rest: string ::
      CleanRecord(r) && r[0] == "core pool" && tail == Join(r, ',') + ['\n'] + rest
  }

  // ---- Printing and reading records ----

  lemma {:induction false} JoinClean(r: Record)
    requires |r| >= 1 && forall i :: 0 <= i < |r| ==> CleanField(r[i])
    ensures '\n' !in Join(r, ',') && '\r' !in Join(r, ',') && '"' !in Join(r, ',')
    ensures |r| >= 2 ==> Join(r, ',') != ""
  {
    assert CleanField(r[0]);
    if |r| > 1 {
      JoinClean(r[1..]);
    }
  }

  function LineTexts(records: seq<Record>): seq<string> {
    if |records| == 0 then [] else [Join(records[0], ',')] + LineTexts(records[1..])
  }

  lemma LineSplit(line: string, more: string, tail: string)
    requires '\n' !in line
    ensures Split(line + ['\n'] + more + tail, '\n') == [line] + Split(more + tail, '\n')
  {
    SplitCons(line, more + tail, '\n');
    assert line + ['\n'] + more + tail == line + ['\n'] + (more + tail);
  }

  lemma {:induction false} LinesBack(records: seq<Record>, tail: string)
    requires CleanRecords(records)
    ensures Split(PrintRecords(records) + tail, '\n') == LineTexts(records) + Split(tail, '\n')
  {
    if |records| == 0 {
      assert PrintRecords(records) + tail == tail;
    } else {
      JoinClean(records[0]);
      LinesBack(records[1..], tail);
      LineSplit(Join(records[0], ','), PrintRecords(records[1..]), tail);
    }
  }

  lemma LineBack(r: Record)
    requires CleanRecord(r)
    ensures LineRecords(Join(r, ',')) == [r]
  {
    var line := Join(r, ',');
    JoinClean(r);
    assert line[|line| - 1] in line;
    assert forall w :: w in r ==> CleanField(w);
    SplitJoin(r, ',');
  }

  lemma {:induction false} RecordsOfAppend(a: seq<string>, b: seq<string>)
    ensures RecordsOf(a + b) == RecordsOf(a) + RecordsOf(b)
  {
    if |a| == 0 {
      assert a + b == b;
    } else {
      assert (a + b)[0] == a[0] && (a + b)[1..] == a[1..] + b;
      RecordsOfAppend(a[1..], b);
    }
  }

  lemma {:induction false} RecordsOfTexts(records: seq<Record>)
    requires CleanRecords(records)
    ensures RecordsOf(LineTexts(records)) == records
  {
    if |records| > 0 {
      var line, rest := Join(records[0], ','), LineTexts(records[1..]);
      LineBack(records[0]);
      RecordsOfTexts(records[1..]);
      assert ([line] + rest)[1..] == rest;
      assert records == [records[0]] + records[1..];
    }
  }

  lemma RecordsBack(records: seq<Record>, tail: string)
    requires CleanRecords(records)
    ensures Records(PrintRecords(records) + tail) == records + Records(tail)
  {
    LinesBack(records, tail);
    RecordsOfTexts(records);
    RecordsOfAppend(LineTexts(records), Split(tail, '\n'));
  }

  lemma {:induction false} CleanAppend(a: seq<Record>, b: seq<Record>)
    requires CleanRecords(a) && CleanRecords(b)
    ensures CleanRecords(a + b)
  {
    if |a| == 0 {
      assert a + b == b;
    } else {
      CleanAppend(a[1..], b);
      assert (a + b)[1..] == a[1..] + b;
    }
  }

  lemma NumberClean(id: GoInt)
    ensures CleanField(Print(id))
  {
    PrintDigits(id);
    var s := Print(id);
    assert forall i :: 0 <= i < |s| ==> s[i] in s;
  }

  lemma {:induction false} CoreRecordsClean(cores: seq<CoreRow>)
    requires forall i :: 0 <= i < |cores| ==>
               CleanField(cores[i].backend) && CleanField(cores[i].status) && CleanField(cores[i].path)
    ensures CleanRecords(CoreRecords(cores))
  {
    if |cores| > 0 {
      NumberClean(cores[0].id);
      CoreRecordsClean(cores[1..]);
      assert CleanRecord(CoreRecord(cores[0]));
      assert ([CoreRecord(cores[0])] + CoreRecords(cores[1..]))[1..] == CoreRecords(cores[1..]);
    }
  }

  lemma CacheRecordClean(row: CacheRow)
    requires CleanRow(row)
    ensures CleanRecord(CacheRecord(row))
  {
    NumberClean(row.id);
  }

  lemma {:induction false} RowRecordsClean(rows: seq<CacheRow>)
    requires CleanRows(rows)
    ensures CleanRecords(RowRecords(rows))
  {
    if |rows| > 0 {
      CacheRecordClean(rows[0]);
      CoreRecordsClean(rows[0].cores);
      RowRecordsClean(rows[1..]);
      CleanAppend([CacheRecord(rows[0])], CoreRecords(rows[0].cores));
      CleanAppend([CacheRecord(rows[0])] + CoreRecords(rows[0].cores), RowRecords(rows[1..]));
    }
  }

  // ---- What parsing the printed rows gives ----

  function CoreOf(c: CoreRow, cache: nat): Core {
    Core(c.id, c.backend, c.status, c.path, cache)
  }

  /** The volumes of one cache, keyed by backend path. */
  function Volumes(cores: seq<CoreRow>, cache: nat): map<string, Core> {
    if |cores| == 0 then map[]
    else
      var last := cores[|cores| - 1];
      Volumes(cores[..|cores| - 1], cache)[last.backend := CoreOf(last, cache)]
  }

  function CacheOf(row: CacheRow, position: nat): Cache {
    Cache(row.id, row.device, row.status, row.mode, Volumes(row.cores, position))
  }

  function CachesOf(rows: seq<CacheRow>): seq<Cache> {
    seq(|rows|, i requires 0 <= i < |rows| => CacheOf(rows[i], i))
  }

  lemma ParseCore(c: CoreRow, rest: seq<Record>, caches: seq<Cache>)
    requires |caches| >= 1
    ensures ParseRecords([CoreRecord(c)] + rest, caches) == ParseRecords(rest, AddCore(caches, CoreOf(c, |caches| - 1)))
  {
    RoundTrip(c.id);
    var records := [CoreRecord(c)] + rest;
    assert records[0] == CoreRecord(c) && records[1..] == rest;
  }

  lemma ParseCache(c: CacheRow, rest: seq<Record>, caches: seq<Cache>)
    ensures ParseRecords([CacheRecord(c)] + rest, caches)
            == ParseRecords(rest, caches + [Cache(c.id, c.device, c.status, c.mode, map[])])
  {
    RoundTrip(c.id);
    var records := [CacheRecord(c)] + rest;
    assert records[0] == CacheRecord(c) && records[1..] == rest;
  }

  lemma VolumesStep(cores: seq<CoreRow>, from: nat, cache: nat)
    requires from < |cores|
    ensures Volumes(cores[..from + 1], cache) == Volumes(cores[..from], cache)[cores[from].backend := CoreOf(cores[from], cache)]
  {
    assert cores[..from + 1][..from] == cores[..from];
  }

  /** The core rows of the last cache, from the `from`-th on, when the ones before are in its map. */
  lemma {:induction false} ParseCores(row: CacheRow, from: nat, rest: seq<Record>, before: seq<Cache>)
    requires from <= |row.cores|
    ensures ParseRecords(CoreRecords(row.cores[from..]) + rest, before + [CacheOf(row.(cores := row.cores[..from]), |before|)])
            == ParseRecords(rest, before + [CacheOf(row, |before|)])
    decreases |row.cores| - from
  {
    var cores := row.cores;
    var caches := before + [CacheOf(row.(cores := cores[..from]), |before|)];
    if from == |cores| {
      assert cores[..from] == cores && CoreRecords(cores[from..]) + rest == rest;
      assert row.(cores := cores) == row;
    } else {
      var c := cores[from];
      var tail := CoreRecords(cores[from + 1..]) + rest;
      assert cores[from..][0] == c && cores[from..][1..] == cores[from + 1..];
      assert CoreRecords(cores[from..]) + rest == [CoreRecord(c)] + tail;
      ParseCore(c, tail, caches);
      VolumesStep(cores, from, |before|);
      assert AddCore(caches, CoreOf(c, |before|)) == before + [CacheOf(row.(cores := cores[..from + 1]), |before|)];
      ParseCores(row, from + 1, rest, before);
    }
  }

  /** One cache row and its core rows. */
  lemma ParseRow(row: CacheRow, rest: seq<Record>, before: seq<Cache>)
    ensures ParseRecords([CacheRecord(row)] + (CoreRecords(row.cores) + rest), before)
            == ParseRecords(rest, before + [CacheOf(row, |before|)])
  {
    ParseCache(row, CoreRecords(row.cores) + rest, before);
    assert row.cores[0..] == row.cores && row.cores[..0] == [];
    assert CacheOf(row.(cores := []), |before|) == Cache(row.id, row.device, row.status, row.mode, map[]);
    ParseCores(row, 0, rest, before);
  }

  lemma RowRecordsStep(rows: seq<CacheRow>, from: nat, rest: seq<Record>)
    requires from < |rows|
    ensures RowRecords(rows[from..]) + rest ==
            [CacheRecord(rows[from])] + (CoreRecords(rows[from].cores) + (RowRecords(rows[from + 1..]) + rest))
  {
    assert rows[from..][0] == rows[from] && rows[from..][1..] == rows[from + 1..];
  }

  lemma CachesStep(rows: seq<CacheRow>, from: nat)
    requires from < |rows|
    ensures CachesOf(rows[..from + 1]) == CachesOf(rows[..from]) + [CacheOf(rows[from], from)]
  {
  }

  lemma {:induction false} ParseRows(rows: seq<CacheRow>, from: nat, rest: seq<Record>)
    requires from <= |rows|
    ensures ParseRecords(RowRecords(rows[from..]) + rest, CachesOf(rows[..from])) == ParseRecords(rest, CachesOf(rows))
    decreases |rows| - from
  {
    var before := CachesOf(rows[..from]);
    if from == |rows| {
      assert rows[..from] == rows && RowRecords(rows[from..]) + rest == rest;
    } else {
      var row := rows[from];
      var tail := RowRecords(rows[from + 1..]) + rest;
      RowRecordsStep(rows, from, rest);
      ParseRow(row, tail, before);
      CachesStep(rows, from);
      ParseRows(rows, from + 1, rest);
    }
  }

  lemma PoolRecord(r: Record, rest: string)
    requires CleanRecord(r)
    ensures exists later :: Records(Join(r, ',') + ['\n'] + rest) == [r] + later
  {
    JoinClean(r);
    SplitCons(Join(r, ','), rest, '\n');
    LineBack(r);
    var lines := [Join(r, ',')] + Split(rest, '\n');
    assert lines[1..] == Split(rest, '\n');
    assert RecordsOf(lines) == [r] + RecordsOf(lines[1..]);
  }

  lemma ParseTail(tail: string, caches: seq<Cache>)
    requires PoolOrNothing(tail)
    ensures ParseRecords(Records(tail), caches) == Some(caches)
  {
    if tail == "" {
      assert Split("", '\n') == [""];
      assert RecordsOf([""]) == [];
    } else {
      var r: Record, rest: string :| CleanRecord(r) && r[0] == "core pool" && tail == Join(r, ',') + ['\n'] + rest;
      PoolRecord(r, rest);
    }
  }

  lemma ParseHeader(rest: seq<Record>)
    ensures ParseRecords([HEADER] + rest, []) == ParseRecords(rest, [])
  {
    var all := [HEADER] + rest;
    assert all[0] == HEADER && all[1..] == rest;
  }

  /** Cache list round trip: parsing the printed rows gives the same caches, in order, each with its cores. */
  lemma ListRoundTrip(rows: seq<CacheRow>, tail: string)
    requires CleanRows(rows) && PoolOrNothing(tail)
    ensures ParseRecords(Records(PrintList(rows, tail)), []) == Some(CachesOf(rows))
  {
    RowRecordsClean(rows);
    HeaderClean();
    CleanAppend([HEADER], RowRecords(rows));
    RecordsBack([HEADER] + RowRecords(rows), tail);
    ParseListing(rows, Records(tail));
    ParseTail(tail, CachesOf(rows));
  }

  lemma ListingsParse(output: string)
    ensures forall rows, tail :: output == PrintList(rows, tail) && CleanRows(rows) && PoolOrNothing(tail) ==>
              ParseRecords(Records(output), []) == Some(CachesOf(rows))
  {
    forall rows, tail | output == PrintList(rows, tail) && CleanRows(rows) && PoolOrNothing(tail)
      ensures ParseRecords(Records(output), []) == Some(CachesOf(rows))
    {
      ListRoundTrip(rows, tail);
    }
  }

  lemma {:induction false} PrintedQuoteFree(records: seq<Record>)
    requires CleanRecords(records)
    ensures '"' !in PrintRecords(records)
  {
    if |records| > 0 {
      JoinClean(records[0]);
      PrintedQuoteFree(records[1..]);
    }
  }

  /** The parser accepts every such listing: it holds no quotes unless its last section does. */
  lemma ListingQuoteFree(rows: seq<CacheRow>, tail: string)
    requires CleanRows(rows) && '"' !in tail
    ensures '"' !in PrintList(rows, tail)
  {
    RowRecordsClean(rows);
    HeaderClean();
    CleanAppend([HEADER], RowRecords(rows));
    PrintedQuoteFree([HEADER] + RowRecords(rows));
  }

  lemma ParseListing(rows: seq<CacheRow>, last: seq<Record>)
    ensures ParseRecords([HEADER] + RowRecords(rows) + last, []) == ParseRecords(last, CachesOf(rows))
  {
    assert [HEADER] + RowRecords(rows) + last == [HEADER] + (RowRecords(rows) + last);
    ParseHeader(RowRecords(rows) + last);
    ParseAllRows(rows, last);
  }

  lemma HeaderClean()
    ensures CleanRecords([HEADER])
  {
    assert CleanField("type") && CleanField("id") && CleanField("disk");
    assert CleanField("status") && CleanField("write policy") && CleanField("device");
    assert [HEADER][1..] == [];
  }

  lemma ParseAllRows(rows: seq<CacheRow>, rest: seq<Record>)
    ensures ParseRecords(RowRecords(rows) + rest, []) == ParseRecords(rest, CachesOf(rows))
  {
    assert rows[0..] == rows && CachesOf(rows[..0]) == [];
    ParseRows(rows, 0, rest);
  }

  ghost predicate UniqueBackends(cores: seq<CoreRow>) {
    forall i, j :: 0 <= i < j < |cores| ==> cores[i].backend != cores[j].backend
  }

  ghost function Backends(cores: seq<CoreRow>): set<string> {
    set i | 0 <= i < |cores| :: cores[i].backend
  }

  lemma {:induction false} VolumeKeys(cores: seq<CoreRow>, cache: nat)
    ensures Volumes(cores, cache).Keys == Backends(cores)
  {
    if |cores| > 0 {
      var init, last := cores[..|cores| - 1], cores[|cores| - 1];
      VolumeKeys(init, cache);
      assert forall i :: 0 <= i < |init| ==> cores[i] == init[i];
      assert Backends(cores) == Backends(init) + {last.backend};
    }
  }

  lemma NewKey(m: map<string, Core>, key: string, core: Core)
    requires key !in m
    ensures |m[key := core]| == |m| + 1
  {
    var n := m[key := core];
    assert n.Keys == m.Keys + {key} && |n.Keys| == |n| && |m.Keys| == |m|;
  }

  lemma {:induction false} VolumesCount(cores: seq<CoreRow>, cache: nat)
    requires UniqueBackends(cores)
    ensures |Volumes(cores, cache)| == |cores|
  {
    if |cores| > 0 {
      var init, last := cores[..|cores| - 1], cores[|cores| - 1];
      VolumesCount(init, cache);
      VolumeKeys(init, cache);
      assert last.backend !in Volumes(init, cache);
      NewKey(Volumes(init, cache), last.backend, CoreOf(last, cache));
    }
  }

  lemma {:induction false} VolumeAt(cores: seq<CoreRow>, cache: nat, i: nat)
    requires UniqueBackends(cores) && i < |cores|
    ensures cores[i].backend in Volumes(cores, cache) && Volumes(cores, cache)[cores[i].backend] == CoreOf(cores[i], cache)
  {
    var init := cores[..|cores| - 1];
    if i < |init| {
      VolumeAt(init, cache, i);
      assert init[i] == cores[i];
    }
  }

  /** With uniquely keyed cores nothing is lost: every core row sits in the map of the cache row most recently
      above it and points back to that cache, and there is no other entry. */
  lemma VolumesExact(cores: seq<CoreRow>, cache: nat)
    requires UniqueBackends(cores)
    ensures Volumes(cores, cache).Keys == Backends(cores) && |Volumes(cores, cache)| == |cores|
    ensures forall i :: 0 <= i < |cores| ==> Volumes(cores, cache)[cores[i].backend] == CoreOf(cores[i], cache)
  {
    VolumeKeys(cores, cache);
    VolumesCount(cores, cache);
    forall i | 0 <= i < |cores| ensures Volumes(cores, cache)[cores[i].backend] == CoreOf(cores[i], cache) {
      VolumeAt(cores, cache, i);
    }
  }
}
