/**
 * The update history kept by the logger: a bounded list of update records,
 * the age / package-type filter over it, failed operations, the history part
 * of cleanup, the per-type counts behind the statistics report, and the
 * newest-first order of backup points.
 *
 * The clock (`datetime.now()`) and the local time zone are parameters, and
 * so is `datetime.fromisoformat`: a parser from timestamp text to an
 * optional wall-clock reading (None stands for the ValueError it raises).
 * The history file is the field `persisted`: what the last save wrote.
 */
module Logger {
  import opened Wrappers
  import Strings

  /** At most this many records are kept after an append. */
  const MaxHistory: nat := 1000
  const SecondsPerDay: int := 86400

  datatype UpdateRecord = UpdateRecord(
    timestamp: string,
    operation: string,
    packageType: string,
    packages: seq<string>,
    success: bool,
    durationSeconds: real,
    errorMessage: Option<string>)

  /**
   * A parsed `datetime`: the wall-clock reading in seconds, and the UTC
   * offset in seconds when the value is timezone-aware.
   */
  datatype DateTime = DateTime(clock: int, offset: Option<int>)

  /** `datetime.fromisoformat`; None stands for ValueError. */
  type IsoParser = string -> Option<DateTime>

  // ---------------------------------------------------------------------
  // add_to_history
  // ---------------------------------------------------------------------

  /** The history after appending `record` and keeping only the newest MaxHistory entries. */
  function Appended(history: seq<UpdateRecord>, record: UpdateRecord): (r: seq<UpdateRecord>)
    ensures |r| == if |history| + 1 > MaxHistory then MaxHistory else |history| + 1
    ensures r[|r| - 1] == record
    ensures r == (history + [record])[|history| + 1 - |r|..]
  {
    var h := history + [record];
    if |h| > MaxHistory then h[|h| - MaxHistory..] else h
  }

  /** Below the bound, nothing is dropped. */
  lemma {:induction false} AppendedKeepsAll(history: seq<UpdateRecord>, record: UpdateRecord)
    requires |history| < MaxHistory
    ensures Appended(history, record) == history + [record]
  {
  }

  /** At the bound, exactly the oldest record goes. */
  lemma {:induction false} AppendedDropsOldest(history: seq<UpdateRecord>, record: UpdateRecord)
    requires |history| == MaxHistory
    ensures Appended(history, record) == history[1..] + [record]
  {
    assert (history + [record])[1..] == history[1..] + [record];
  }

  // ---------------------------------------------------------------------
  // Order-preserving filters
  // ---------------------------------------------------------------------

  /** The records of `s` satisfying `keep`, in their original order. */
  function Filter(s: seq<UpdateRecord>, keep: UpdateRecord -> bool): (r: seq<UpdateRecord>)
    ensures |r| <= |s|
  {
    if s == [] then []
    else Filter(s[..|s| - 1], keep) + (if keep(s[|s| - 1]) then [s[|s| - 1]] else [])
  }

  lemma {:induction false} FilterMembers(s: seq<UpdateRecord>, keep: UpdateRecord -> bool, x: UpdateRecord)
    ensures x in Filter(s, keep) <==> x in s && keep(x)
  {
    if s != [] {
      FilterMembers(s[..|s| - 1], keep, x);
      assert s == s[..|s| - 1] + [s[|s| - 1]];
    }
  }

  lemma {:induction false} FilterAppend(a: seq<UpdateRecord>, b: seq<UpdateRecord>, keep: UpdateRecord -> bool)
    ensures Filter(a + b, keep) == Filter(a, keep) + Filter(b, keep)
    decreases |b|
  {
    if b == [] {
      assert a + b == a;
    } else {
      assert (a + b)[..|a + b| - 1] == a + b[..|b| - 1];
      FilterAppend(a, b[..|b| - 1], keep);
    }
  }

  /** A list whose every record passes is its own filter. */
  lemma {:induction false} FilterAll(s: seq<UpdateRecord>, keep: UpdateRecord -> bool)
    requires forall k :: 0 <= k < |s| ==> keep(s[k])
    ensures Filter(s, keep) == s
  {
    if s != [] {
      FilterAll(s[..|s| - 1], keep);
    }
  }

  /** Filtering twice by the same test is filtering once. */
  lemma {:induction false} FilterTwice(s: seq<UpdateRecord>, keep: UpdateRecord -> bool)
    ensures Filter(Filter(s, keep), keep) == Filter(s, keep)
  {
    var f := Filter(s, keep);
    forall k | 0 <= k < |f|
      ensures keep(f[k])
    {
      FilterMembers(s, keep, f[k]);
    }
    FilterAll(f, keep);
  }

  // ---------------------------------------------------------------------
  // get_recent_history / get_failed_operations
  // ---------------------------------------------------------------------

  /**
   * One call's view of time: the parser, the local UTC offset in seconds,
   * the cutoff wall-clock reading, and the optional package type.
   */
  datatype Window = Window(parse: IsoParser, localOffset: int, cutoff: int, packageType: Option<string>)

  /** `datetime.now() - timedelta(days=days)`, in seconds. */
  function Cutoff(now: int, days: int): (r: int)
    ensures days >= 0 ==> r <= now
  {
    now - days * SecondsPerDay
  }

  /** The text handed to the parser: every 'Z' replaced by "+00:00". */
  function Normalized(timestamp: string): string {
    Strings.ReplaceChar(timestamp, 'Z', "+00:00")
  }

  /** The local wall-clock reading a timestamp denotes, or None when the parser rejects it. */
  function LocalTime(w: Window, timestamp: string): (r: Option<int>)
    ensures r.None? <==> w.parse(Normalized(timestamp)).None?
  {
    match w.parse(Normalized(timestamp))
    case None => None
    case Some(d) => Some(if d.offset.None? then d.clock else d.clock - d.offset.value + w.localOffset)
  }

  predicate TypeMatches(record: UpdateRecord, packageType: Option<string>) {
    packageType.None? || record.packageType == packageType.value
  }

  /** A record is recent when its timestamp parses, is no earlier than the cutoff, and its type matches. */
  predicate IsRecent(w: Window, record: UpdateRecord) {
    var t := LocalTime(w, record.timestamp);
    t.Some? && t.value >= w.cutoff && TypeMatches(record, w.packageType)
  }

  function RecentTest(w: Window): UpdateRecord -> bool {
    record => IsRecent(w, record)
  }

  /** get_recent_history, with aware and naive timestamps compared on the local clock. */
  function Recent(history: seq<UpdateRecord>, w: Window): seq<UpdateRecord> {
    Filter(history, RecentTest(w))
  }

  lemma {:induction false} RecentMembers(history: seq<UpdateRecord>, w: Window, x: UpdateRecord)
    ensures x in Recent(history, w) <==> x in history && IsRecent(w, x)
  {
    FilterMembers(history, RecentTest(w), x);
  }

  predicate IsFailed(record: UpdateRecord) {
    !record.success
  }

  /** get_failed_operations over the recent records. */
  function Failed(recent: seq<UpdateRecord>): seq<UpdateRecord> {
    Filter(recent, IsFailed)
  }

  lemma {:induction false} FailedMembers(history: seq<UpdateRecord>, w: Window, x: UpdateRecord)
    ensures x in Failed(Recent(history, w)) <==> x in history && IsRecent(w, x) && !x.success
  {
    FilterMembers(Recent(history, w), IsFailed, x);
    RecentMembers(history, w, x);
  }

  // ---------------------------------------------------------------------
  // get_recent_history as written
  // ---------------------------------------------------------------------

  /**
   * get_recent_history as the code stands: an aware timestamp (one that
   * carried 'Z' or an offset) is compared with the naive cutoff, which
   * raises TypeError; only ValueError is caught, so the whole call fails.
   */
  function RecentAsWritten(history: seq<UpdateRecord>, parse: IsoParser, cutoff: int, packageType: Option<string>)
    : (r: Result<seq<UpdateRecord>>)
    decreases |history|
  {
    if history == [] then Ok([])
    else
      var rest := RecentAsWritten(history[1..], parse, cutoff, packageType);
      match parse(Normalized(history[0].timestamp))
      case None => rest
      case Some(d) =>
        if d.offset.Some? then Err("TypeError: can't compare offset-naive and offset-aware datetimes")
        else if d.clock >= cutoff && TypeMatches(history[0], packageType) then
          (if rest.Ok? then Ok([history[0]] + rest.value) else rest)
        else rest
  }

  /** No record parses to an aware value. */
  predicate AllNaive(history: seq<UpdateRecord>, parse: IsoParser) {
    forall k :: 0 <= k < |history| ==>
      parse(Normalized(history[k].timestamp)).None? || parse(Normalized(history[k].timestamp)).value.offset.None?
  }

  /** On naive timestamps the code as written agrees with Recent, whatever the local offset. */
  lemma {:induction false} AsWrittenAgreesOnNaive(history: seq<UpdateRecord>, w: Window)
    requires AllNaive(history, w.parse)
    ensures RecentAsWritten(history, w.parse, w.cutoff, w.packageType) == Ok(Recent(history, w))
    decreases |history|
  {
    if history != [] {
      assert AllNaive(history[1..], w.parse) by {
        forall k | 0 <= k < |history[1..]|
          ensures history[1..][k] == history[k + 1]
        {
        }
      }
      AsWrittenAgreesOnNaive(history[1..], w);
      var first := history[0];
      assert history == [first] + history[1..];
      FilterAppend([first], history[1..], RecentTest(w));
      assert [first][..0] == [];
      assert Filter([first], RecentTest(w)) == if IsRecent(w, first) then [first] else [];
      var parsed := w.parse(Normalized(first.timestamp));
      assert parsed.None? || parsed.value.offset.None?;
      var rest := RecentAsWritten(history[1..], w.parse, w.cutoff, w.packageType);
      assert RecentTest(w)(first) == IsRecent(w, first);
      if parsed.Some? {
        var d := parsed.value;
        assert LocalTime(w, first.timestamp) == Some(d.clock);
        assert IsRecent(w, first) <==> d.clock >= w.cutoff && TypeMatches(first, w.packageType);
        assert RecentAsWritten(history, w.parse, w.cutoff, w.packageType)
          == if IsRecent(w, first) then Ok([first] + rest.value) else rest;
      } else {
        assert !IsRecent(w, first);
        assert RecentAsWritten(history, w.parse, w.cutoff, w.packageType) == rest;
      }
      assert Recent(history, w) == Filter([first], RecentTest(w)) + Filter(history[1..], RecentTest(w));
      assert Recent(history, w) == (if IsRecent(w, first) then [first] else []) + rest.value;
      assert [] + rest.value == rest.value;
    }
  }

  /** A history whose first record is stamped with a trailing 'Z' makes the call fail. */
  lemma {:induction false} ZuluTimestampRaises(history: seq<UpdateRecord>, parse: IsoParser, cutoff: int, packageType: Option<string>, stem: string)
    requires |history| > 0 && history[0].timestamp == stem + "Z" && 'Z' !in stem
    requires parse(stem + "+00:00").Some? && parse(stem + "+00:00").value.offset.Some?
    ensures RecentAsWritten(history, parse, cutoff, packageType).Err?
  {
    Strings.ReplaceCharAtEnd(stem, 'Z', "+00:00");
  }

  /** With the comparison done on the local clock, the same record is kept exactly when it is recent. */
  lemma {:induction false} ZuluTimestampCompared(history: seq<UpdateRecord>, w: Window, stem: string, d: DateTime)
    requires |history| > 0 && history[0].timestamp == stem + "Z" && 'Z' !in stem
    requires w.parse(stem + "+00:00") == Some(d) && d.offset == Some(0)
    requires TypeMatches(history[0], w.packageType)
    ensures history[0] in Recent(history, w) <==> d.clock + w.localOffset >= w.cutoff
  {
    Strings.ReplaceCharAtEnd(stem, 'Z', "+00:00");
    RecentMembers(history, w, history[0]);
  }

  // ---------------------------------------------------------------------
  // show_statistics: counting
  // ---------------------------------------------------------------------

  /** A dict of counts in insertion order. */
  type Counts = seq<(string, nat)>

  /** `counts[key] = counts.get(key, 0) + 1`: a new key goes last. */
  function Bump(counts: Counts, key: string): (r: Counts)
    ensures |r| == |counts| || |r| == |counts| + 1
  {
    if counts == [] then [(key, 1)]
    else if counts[0].0 == key then [(key, counts[0].1 + 1)] + counts[1..]
    else [counts[0]] + Bump(counts[1..], key)
  }

  /** The counts of `keys`, accumulated in order. */
  function Tally(keys: seq<string>): Counts {
    if keys == [] then [] else Bump(Tally(keys[..|keys| - 1]), keys[|keys| - 1])
  }

  function Lookup(counts: Counts, key: string): nat {
    if counts == [] then 0
    else if counts[0].0 == key then counts[0].1
    else Lookup(counts[1..], key)
  }

  function Total(counts: Counts): nat {
    if counts == [] then 0 else counts[0].1 + Total(counts[1..])
  }

  function KeysOf(counts: Counts): (r: seq<string>)
    ensures |r| == |counts|
  {
    if counts == [] then [] else [counts[0].0] + KeysOf(counts[1..])
  }

  predicate Distinct(keys: seq<string>) {
    forall i, j :: 0 <= i < j < |keys| ==> keys[i] != keys[j]
  }

  lemma {:induction false} BumpEffect(counts: Counts, key: string, other: string)
    ensures Total(Bump(counts, key)) == Total(counts) + 1
    ensures Lookup(Bump(counts, key), other) == Lookup(counts, other) + (if other == key then 1 else 0)
    ensures forall k :: k in KeysOf(Bump(counts, key)) <==> k in KeysOf(counts) || k == key
    ensures Distinct(KeysOf(counts)) ==> Distinct(KeysOf(Bump(counts, key)))
  {
    if counts != [] && counts[0].0 != key {
      BumpEffect(counts[1..], key, other);
      var head := counts[0].0;
      var tail := Bump(counts[1..], key);
      assert KeysOf(Bump(counts, key)) == [head] + KeysOf(tail);
      assert KeysOf(counts) == [head] + KeysOf(counts[1..]);
      if Distinct(KeysOf(counts)) {
        var ks := KeysOf(counts[1..]);
        forall i, j | 0 <= i < j < |ks|
          ensures ks[i] != ks[j]
        {
          assert ks[i] == KeysOf(counts)[i + 1] && ks[j] == KeysOf(counts)[j + 1];
        }
        forall i | 0 <= i < |ks|
          ensures ks[i] != head
        {
          assert ks[i] == KeysOf(counts)[i + 1] && head == KeysOf(counts)[0];
        }
        assert head !in KeysOf(tail);
        ConsDistinct(head, KeysOf(tail));
      }
    } else if counts != [] {
      assert KeysOf(Bump(counts, key)) == [key] + KeysOf(counts[1..]);
      assert KeysOf(counts) == [key] + KeysOf(counts[1..]);
    }
  }

  lemma {:induction false} ConsDistinct(head: string, keys: seq<string>)
    requires Distinct(keys) && head !in keys
    ensures Distinct([head] + keys)
  {
    var r := [head] + keys;
    forall i, j | 0 <= i < j < |r|
      ensures r[i] != r[j]
    {
      assert r[j] == keys[j - 1];
      if i > 0 {
        assert r[i] == keys[i - 1];
      }
    }
  }

  /**
   * The tally of a key sequence: each key appears once, the keys are
   * exactly those of the input, each count is the number of occurrences,
   * and the counts add up to the number of keys.
   */
  lemma {:induction false} TallyCorrect(keys: seq<string>)
    ensures Distinct(KeysOf(Tally(keys)))
    ensures forall k :: k in KeysOf(Tally(keys)) <==> k in keys
    ensures forall key :: Lookup(Tally(keys), key) == multiset(keys)[key]
    ensures Total(Tally(keys)) == |keys|
  {
    if keys != [] {
      var init := keys[..|keys| - 1];
      var last := keys[|keys| - 1];
      TallyCorrect(init);
      assert keys == init + [last];
      forall key
        ensures Lookup(Tally(keys), key) == multiset(keys)[key]
      {
        BumpEffect(Tally(init), last, key);
      }
      BumpEffect(Tally(init), last, last);
    }
  }

  function Operations(records: seq<UpdateRecord>): (r: seq<string>)
    ensures |r| == |records| && forall k :: 0 <= k < |records| ==> r[k] == records[k].operation
  {
    seq(|records|, k requires 0 <= k < |records| => records[k].operation)
  }

  function PackageTypes(records: seq<UpdateRecord>): (r: seq<string>)
    ensures |r| == |records| && forall k :: 0 <= k < |records| ==> r[k] == records[k].packageType
  {
    seq(|records|, k requires 0 <= k < |records| => records[k].packageType)
  }

  function SuccessCount(records: seq<UpdateRecord>): (r: nat)
    ensures r <= |records|
  {
    if records == [] then 0
    else SuccessCount(records[..|records| - 1]) + (if records[|records| - 1].success then 1 else 0)
  }

  function TotalDuration(records: seq<UpdateRecord>): real {
    if records == [] then 0.0
    else TotalDuration(records[..|records| - 1]) + records[|records| - 1].durationSeconds
  }

  /** The figures show_statistics prints: totals, per-operation and per-type counts, successes and summed duration. */
  datatype Statistics = Statistics(
    total: nat,
    operations: Counts,
    packageTypes: Counts,
    successCount: nat,
    totalDuration: real)

  /** No statistics for an empty window ("No operations recorded"), otherwise the counts. */
  function StatisticsOf(recent: seq<UpdateRecord>): Option<Statistics> {
    if recent == [] then None
    else Some(Statistics(|recent|, Tally(Operations(recent)), Tally(PackageTypes(recent)),
                         SuccessCount(recent), TotalDuration(recent)))
  }

  /** Both count tables sum to the number of records, and successes never exceed it. */
  lemma {:induction false} StatisticsConsistent(recent: seq<UpdateRecord>)
    requires recent != []
    ensures var s := StatisticsOf(recent).value;
      && s.total == |recent|
      && Total(s.operations) == s.total
      && Total(s.packageTypes) == s.total
      && Distinct(KeysOf(s.operations)) && Distinct(KeysOf(s.packageTypes))
      && s.successCount <= s.total
  {
    TallyCorrect(Operations(recent));
    TallyCorrect(PackageTypes(recent));
  }

  /** An operation's count is the number of records naming it. */
  lemma {:induction false} OperationCount(recent: seq<UpdateRecord>, op: string)
    requires recent != []
    ensures Lookup(StatisticsOf(recent).value.operations, op) == multiset(Operations(recent))[op]
  {
    TallyCorrect(Operations(recent));
  }

  /** Counting one more key bumps its count. */
  lemma {:induction false} TallySnoc(keys: seq<string>, i: nat)
    requires i < |keys|
    ensures Tally(keys[..i + 1]) == Bump(Tally(keys[..i]), keys[i])
  {
    assert keys[..i + 1][..i] == keys[..i];
  }

  /** One more record adds its success and its duration. */
  lemma {:induction false} RecordsSnoc(records: seq<UpdateRecord>, i: nat)
    requires i < |records|
    ensures SuccessCount(records[..i + 1]) == SuccessCount(records[..i]) + (if records[i].success then 1 else 0)
    ensures TotalDuration(records[..i + 1]) == TotalDuration(records[..i]) + records[i].durationSeconds
  {
    assert records[..i + 1][..i] == records[..i];
  }

  /** The counting loop of show_statistics. */
  method Summarize(recent: seq<UpdateRecord>) returns (stats: Option<Statistics>)
    ensures stats == StatisticsOf(recent)
  {
    if recent == [] {
      return None;
    }
    var operations: Counts := [];
    var packageTypes: Counts := [];
    var successCount := 0;
    var totalDuration := 0.0;
    var i := 0;
    while i < |recent|
      invariant 0 <= i <= |recent|
      invariant operations == Tally(Operations(recent)[..i])
      invariant packageTypes == Tally(PackageTypes(recent)[..i])
      invariant successCount == SuccessCount(recent[..i])
      invariant totalDuration == TotalDuration(recent[..i])
    {
      var record := recent[i];
      TallySnoc(Operations(recent), i);
      TallySnoc(PackageTypes(recent), i);
      RecordsSnoc(recent, i);
      operations := Bump(operations, record.operation);
      packageTypes := Bump(packageTypes, record.packageType);
      if record.success {
        successCount := successCount + 1;
      }
      totalDuration := totalDuration + record.durationSeconds;
      i := i + 1;
    }
    assert Operations(recent)[..i] == Operations(recent);
    assert PackageTypes(recent)[..i] == PackageTypes(recent);
    assert recent[..i] == recent;
    stats := Some(Statistics(|recent|, operations, packageTypes, successCount, totalDuration));
  }

  // ---------------------------------------------------------------------
  // list_backups: newest first
  // ---------------------------------------------------------------------

  /** A backup point's `backup_info.json`. */
  datatype BackupInfo = BackupInfo(fields: map<string, string>)

  /** `x.get('timestamp', '')`. */
  function SortKey(b: BackupInfo): string {
    if "timestamp" in b.fields then b.fields["timestamp"] else ""
  }

  /** Python's `a <= b` on strings: code-point lexicographic order. */
  predicate StrLe(a: string, b: string) {
    a == [] || (b != [] && (a[0] < b[0] || (a[0] == b[0] && StrLe(a[1..], b[1..]))))
  }

  lemma {:induction false} StrLeTotal(a: string, b: string)
    ensures StrLe(a, b) || StrLe(b, a)
  {
    if a != [] && b != [] && a[0] == b[0] {
      StrLeTotal(a[1..], b[1..]);
    }
  }

  lemma {:induction false} StrLeTrans(a: string, b: string, c: string)
    requires StrLe(a, b) && StrLe(b, c)
    ensures StrLe(a, c)
  {
    if a != [] && b != [] && c != [] && a[0] == b[0] && b[0] == c[0] {
      StrLeTrans(a[1..], b[1..], c[1..]);
    }
  }

  /** Keys never increase from left to right. */
  predicate NewestFirst(s: seq<BackupInfo>) {
    forall i, j :: 0 <= i < j < |s| ==> StrLe(SortKey(s[j]), SortKey(s[i]))
  }

  /** Places `b` before the first entry whose key is not greater, keeping ties in arrival order. */
  function InsertNewest(b: BackupInfo, s: seq<BackupInfo>): seq<BackupInfo> {
    if s == [] || StrLe(SortKey(s[0]), SortKey(b)) then [b] + s
    else [s[0]] + InsertNewest(b, s[1..])
  }

  /** `backups.sort(key=lambda x: x.get('timestamp', ''), reverse=True)`. */
  function SortNewestFirst(s: seq<BackupInfo>): seq<BackupInfo> {
    if s == [] then [] else InsertNewest(s[0], SortNewestFirst(s[1..]))
  }

  /** Every key of `s` is at most `key`. */
  predicate KeysAtMost(s: seq<BackupInfo>, key: string) {
    forall j :: 0 <= j < |s| ==> StrLe(SortKey(s[j]), key)
  }

  lemma {:induction false} ConsNewestFirst(b: BackupInfo, s: seq<BackupInfo>)
    requires NewestFirst(s) && KeysAtMost(s, SortKey(b))
    ensures NewestFirst([b] + s)
  {
    var r := [b] + s;
    forall i, j | 0 <= i < j < |r|
      ensures StrLe(SortKey(r[j]), SortKey(r[i]))
    {
      assert r[j] == s[j - 1];
      if i > 0 {
        assert r[i] == s[i - 1];
      }
    }
  }

  lemma {:induction false} SortedBelowHead(s: seq<BackupInfo>, key: string)
    requires NewestFirst(s) && s != [] && StrLe(SortKey(s[0]), key)
    ensures KeysAtMost(s, key)
  {
    forall j | 0 < j < |s|
      ensures StrLe(SortKey(s[j]), key)
    {
      StrLeTrans(SortKey(s[j]), SortKey(s[0]), key);
    }
  }

  lemma {:induction false} InsertNewestBelow(b: BackupInfo, s: seq<BackupInfo>, key: string)
    requires KeysAtMost(s, key) && StrLe(SortKey(b), key)
    ensures KeysAtMost(InsertNewest(b, s), key)
  {
    if s != [] && !StrLe(SortKey(s[0]), SortKey(b)) {
      InsertNewestBelow(b, s[1..], key);
    }
  }

  lemma {:induction false} InsertNewestPerm(b: BackupInfo, s: seq<BackupInfo>)
    ensures multiset(InsertNewest(b, s)) == multiset(s) + multiset{b}
  {
    if s != [] && !StrLe(SortKey(s[0]), SortKey(b)) {
      InsertNewestPerm(b, s[1..]);
      assert s == [s[0]] + s[1..];
    }
  }

  lemma {:induction false} InsertNewestSorted(b: BackupInfo, s: seq<BackupInfo>)
    requires NewestFirst(s)
    ensures NewestFirst(InsertNewest(b, s))
  {
    if s == [] {
    } else if StrLe(SortKey(s[0]), SortKey(b)) {
      SortedBelowHead(s, SortKey(b));
      ConsNewestFirst(b, s);
    } else {
      StrLeTotal(SortKey(s[0]), SortKey(b));
      assert NewestFirst(s[1..]);
      InsertNewestSorted(b, s[1..]);
      InsertNewestBelow(b, s[1..], SortKey(s[0]));
      ConsNewestFirst(s[0], InsertNewest(b, s[1..]));
    }
  }

  /** The sorted list is newest first and holds exactly the listed backups. */
  lemma {:induction false} SortNewestFirstCorrect(s: seq<BackupInfo>)
    ensures NewestFirst(SortNewestFirst(s))
    ensures multiset(SortNewestFirst(s)) == multiset(s)
  {
    if s != [] {
      SortNewestFirstCorrect(s[1..]);
      InsertNewestSorted(s[0], SortNewestFirst(s[1..]));
      InsertNewestPerm(s[0], SortNewestFirst(s[1..]));
      assert s == [s[0]] + s[1..];
    }
  }

  /** The backup directories whose info file was present and decoded, in listing order. */
  function Readable(entries: seq<Option<BackupInfo>>): (r: seq<BackupInfo>)
    ensures |r| <= |entries|
  {
    if entries == [] then []
    else
      var last := entries[|entries| - 1];
      Readable(entries[..|entries| - 1]) + (if last.Some? then [last.value] else [])
  }

  /**
   * list_backups over the directory listing: an entry is None when it is
   * not a directory, has no `backup_info.json`, or that file does not decode.
   */
  method ListBackups(entries: seq<Option<BackupInfo>>) returns (backups: seq<BackupInfo>)
    ensures backups == SortNewestFirst(Readable(entries))
  {
    var found: seq<BackupInfo> := [];
    var i := 0;
    while i < |entries|
      invariant 0 <= i <= |entries|
      invariant found == Readable(entries[..i])
    {
      assert entries[..i + 1][..i] == entries[..i];
      if entries[i].Some? {
        found := found + [entries[i].value];
      }
      i := i + 1;
    }
    assert entries[..i] == entries;
    backups := SortNewestFirst(found);
  }

  // ---------------------------------------------------------------------
  // The logger's history
  // ---------------------------------------------------------------------

  class FlatpackLogger {
    var history: seq<UpdateRecord>
    /** The contents of `update_history.json` as last saved. */
    var persisted: seq<UpdateRecord>

    /** load_history: a missing or undecodable file gives an empty history. */
    constructor(stored: Option<seq<UpdateRecord>>)
      ensures history == (if stored.Some? then stored.value else [])
      ensures persisted == history
    {
      history := if stored.Some? then stored.value else [];
      persisted := if stored.Some? then stored.value else [];
    }

    /**
     * add_to_history: append, keep the newest MaxHistory records, save.
     * `saved` is false when opening the file for writing fails; that error
     * is only logged, and the file keeps what it had.
     */
    method AddToHistory(record: UpdateRecord, saved: bool)
      modifies this
      ensures history == Appended(old(history), record)
      ensures persisted == if saved then history else old(persisted)
    {
      var h := history + [record];
      if |h| > MaxHistory {
        h := h[|h| - MaxHistory..];
      }
      history := h;
      if saved {
        persisted := h;
      }
    }

    /** log_package_operation: record the finished operation (stamped `timestamp`) and return its stamp. */
    method LogPackageOperation(timestamp: string, operation: string, packageType: string, packages: seq<string>,
                               success: bool, duration: real, errorMessage: Option<string>, saved: bool)
      returns (stamp: string)
      modifies this
      ensures history == Appended(old(history),
        UpdateRecord(timestamp, operation, packageType, packages, success, duration, errorMessage))
      ensures persisted == if saved then history else old(persisted)
      ensures stamp == timestamp
    {
      AddToHistory(UpdateRecord(timestamp, operation, packageType, packages, success, duration, errorMessage), saved);
      stamp := timestamp;
    }

    /** get_recent_history: the filtering loop. */
    method GetRecentHistory(w: Window) returns (recent: seq<UpdateRecord>)
      ensures recent == Recent(history, w)
    {
      var records := history;
      recent := [];
      var i := 0;
      while i < |records|
        invariant 0 <= i <= |records|
        invariant recent == Filter(records[..i], RecentTest(w))
      {
        assert records[..i + 1][..i] == records[..i];
        var t := LocalTime(w, records[i].timestamp);
        if t.Some? && t.value >= w.cutoff && TypeMatches(records[i], w.packageType) {
          recent := recent + [records[i]];
        }
        i := i + 1;
      }
      assert records[..i] == records;
    }

    /** get_failed_operations(days): the failures among the records of the last `days` days, of any type. */
    method GetFailedOperations(parse: IsoParser, localOffset: int, now: int, days: int)
      returns (failed: seq<UpdateRecord>)
      ensures failed == Failed(Recent(history, Window(parse, localOffset, Cutoff(now, days), None)))
    {
      var recent := GetRecentHistory(Window(parse, localOffset, Cutoff(now, days), None));
      failed := Failed(recent);
    }

    /** The history part of cleanup_old_logs: keep the recent records, save only when some were dropped. */
    method CleanupHistory(parse: IsoParser, localOffset: int, now: int, days: int, saved: bool) returns (removed: nat)
      modifies this
      ensures history == Recent(old(history), Window(parse, localOffset, Cutoff(now, days), None))
      ensures persisted == if |history| < |old(history)| && saved then history else old(persisted)
      ensures removed == |old(history)| - |history|
    {
      var oldCount := |history|;
      var kept := GetRecentHistory(Window(parse, localOffset, Cutoff(now, days), None));
      history := kept;
      if |kept| < oldCount && saved {
        persisted := kept;
      }
      removed := oldCount - |kept|;
    }

    /** show_statistics(days): the counts over the last `days` days, None when there are none. */
    method ShowStatistics(parse: IsoParser, localOffset: int, now: int, days: int) returns (stats: Option<Statistics>)
      ensures stats == StatisticsOf(Recent(history, Window(parse, localOffset, Cutoff(now, days), None)))
    {
      var recent := GetRecentHistory(Window(parse, localOffset, Cutoff(now, days), None));
      stats := Summarize(recent);
    }
  }

  /** A second cleanup with the same window removes nothing. */
  lemma {:induction false} CleanupIdempotent(history: seq<UpdateRecord>, w: Window)
    ensures Recent(Recent(history, w), w) == Recent(history, w)
  {
    FilterTwice(history, RecentTest(w));
  }
}
