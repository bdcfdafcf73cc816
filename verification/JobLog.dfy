/** The append-only job log and its replay: the last record of each id wins. */
module JobLog {
  import opened Wrappers
  import opened Text
  import opened JobCodec
  import opened JobRecords

  type Jobs = seq<JobRecord>

  // ---- Replay ----

  function Ids(jobs: Jobs): set<string> {
    if jobs == [] then {} else {jobs[0].id} + Ids(jobs[1..])
  }

  predicate UniqueIds(jobs: Jobs) {
    jobs == [] || (jobs[0].id !in Ids(jobs[1..]) && UniqueIds(jobs[1..]))
  }

  /** The first record that has the id. */
  function Find(jobs: Jobs, id: string): Option<JobRecord> {
    if jobs == [] then None
    else if jobs[0].id == id then Some(jobs[0])
    else Find(jobs[1..], id)
  }

  /** The last record written for an id. */
  function Last(records: Jobs, id: string): Option<JobRecord> {
    if records == [] then None
    else if records[|records| - 1].id == id then Some(records[|records| - 1])
    else Last(records[..|records| - 1], id)
  }

  function Upsert(jobs: Jobs, record: JobRecord): Jobs {
    if jobs == [] then [record]
    else if jobs[0].id == record.id then [record] + jobs[1..]
    else [jobs[0]] + Upsert(jobs[1..], record)
  }

  function Replay(records: Jobs): Jobs {
    if records == [] then [] else Upsert(Replay(records[..|records| - 1]), records[|records| - 1])
  }

  lemma {:induction false} FindNeedsId(jobs: Jobs, id: string)
    ensures Find(jobs, id).Some? <==> id in Ids(jobs)
  {
    if jobs != [] {
      FindNeedsId(jobs[1..], id);
    }
  }

  lemma {:induction false} UpsertFinds(jobs: Jobs, record: JobRecord, id: string)
    ensures Find(Upsert(jobs, record), id) == if id == record.id then Some(record) else Find(jobs, id)
    ensures Ids(Upsert(jobs, record)) == Ids(jobs) + {record.id}
    ensures UniqueIds(jobs) ==> UniqueIds(Upsert(jobs, record))
  {
    if jobs != [] {
      UpsertFinds(jobs[1..], record, id);
    }
  }

  /** After replay an id names one job, and it is the last record written. */
  lemma {:induction false} ReplayIsLastWriterWins(records: Jobs, id: string)
    ensures UniqueIds(Replay(records))
    ensures Find(Replay(records), id) == Last(records, id)
  {
    if records != [] {
      var front, last := records[..|records| - 1], records[|records| - 1];
      ReplayIsLastWriterWins(front, id);
      UpsertFinds(Replay(front), last, id);
    }
  }

  // ---- Ordering by time ----

  predicate ByTime(jobs: Jobs) {
    forall i, j | 0 <= i < j < |jobs| :: jobs[i].updatedAt <= jobs[j].updatedAt
  }

  /** Places a job before the first one that is not older. */
  function Insert(job: JobRecord, jobs: Jobs): Jobs {
    if jobs == [] || job.updatedAt <= jobs[0].updatedAt then [job] + jobs
    else [jobs[0]] + Insert(job, jobs[1..])
  }

  /** The stable sort of the standard library. */
  function SortByTime(jobs: Jobs): Jobs {
    if jobs == [] then [] else Insert(jobs[0], SortByTime(jobs[1..]))
  }

  lemma {:induction false} InsertAdds(job: JobRecord, jobs: Jobs)
    ensures multiset(Insert(job, jobs)) == multiset{job} + multiset(jobs)
  {
    if jobs != [] && job.updatedAt > jobs[0].updatedAt {
      InsertAdds(job, jobs[1..]);
      assert jobs == [jobs[0]] + jobs[1..];
    }
  }

  lemma {:induction false} InsertSorts(job: JobRecord, jobs: Jobs)
    requires ByTime(jobs)
    ensures ByTime(Insert(job, jobs))
    ensures Insert(job, jobs)[0].updatedAt ==
            if jobs == [] || job.updatedAt <= jobs[0].updatedAt then job.updatedAt else jobs[0].updatedAt
  {
    if jobs != [] && job.updatedAt > jobs[0].updatedAt {
      InsertSorts(job, jobs[1..]);
    }
  }

  lemma {:induction false} InsertFinds(job: JobRecord, jobs: Jobs, id: string)
    requires job.id !in Ids(jobs) && UniqueIds(jobs)
    ensures UniqueIds(Insert(job, jobs)) && Ids(Insert(job, jobs)) == {job.id} + Ids(jobs)
    ensures Find(Insert(job, jobs), id) == if id == job.id then Some(job) else Find(jobs, id)
  {
    if jobs != [] && job.updatedAt > jobs[0].updatedAt {
      InsertFinds(job, jobs[1..], id);
    } else {
      assert ([job] + jobs)[1..] == jobs;
    }
  }

  function IfAt(job: JobRecord, time: u128): Jobs {
    if job.updatedAt == time then [job] else []
  }

  function AtTime(jobs: Jobs, time: u128): Jobs {
    if jobs == [] then [] else IfAt(jobs[0], time) + AtTime(jobs[1..], time)
  }

  lemma AtTimeCons(job: JobRecord, jobs: Jobs, time: u128)
    ensures AtTime([job] + jobs, time) == IfAt(job, time) + AtTime(jobs, time)
  {
    assert ([job] + jobs)[1..] == jobs;
  }

  lemma {:induction false} InsertIsStable(job: JobRecord, jobs: Jobs, time: u128)
    ensures AtTime(Insert(job, jobs), time) == IfAt(job, time) + AtTime(jobs, time)
  {
    if jobs != [] && job.updatedAt > jobs[0].updatedAt {
      var rest := jobs[1..];
      InsertIsStable(job, rest, time);
      AtTimeCons(jobs[0], Insert(job, rest), time);
      assert IfAt(jobs[0], time) == [] || IfAt(job, time) == [];
      assert forall tail: Jobs :: [] + tail == tail;
    } else {
      AtTimeCons(job, jobs, time);
    }
  }

  /** The view is the replayed jobs, all of them, ordered by time, jobs of one
      time in replay order, and it finds what the replay finds. */
  lemma {:induction false} SortKeepsJobs(jobs: Jobs, id: string, time: u128)
    ensures multiset(SortByTime(jobs)) == multiset(jobs)
    ensures ByTime(SortByTime(jobs))
    ensures AtTime(SortByTime(jobs), time) == AtTime(jobs, time)
    ensures UniqueIds(jobs) ==>
              UniqueIds(SortByTime(jobs)) && Ids(SortByTime(jobs)) == Ids(jobs)
              && Find(SortByTime(jobs), id) == Find(jobs, id)
  {
    if jobs != [] {
      var rest := SortByTime(jobs[1..]);
      assert jobs == [jobs[0]] + jobs[1..];
      SortKeepsJobs(jobs[1..], id, time);
      InsertAdds(jobs[0], rest);
      InsertSorts(jobs[0], rest);
      InsertIsStable(jobs[0], rest, time);
      if UniqueIds(jobs) {
        InsertFinds(jobs[0], rest, id);
      }
    }
  }

  /** What a reader of the log sees. */
  function Latest(records: Jobs): Jobs {
    SortByTime(Replay(records))
  }

  /** Last writer wins through the whole view, and a new record changes what
      the view says about its own id only. */
  lemma LatestIsLastWriterWins(records: Jobs, record: JobRecord, id: string)
    ensures UniqueIds(Latest(records)) && ByTime(Latest(records))
    ensures multiset(Latest(records)) == multiset(Replay(records))
    ensures Find(Latest(records), id) == Last(records, id)
    ensures Find(Latest(records + [record]), id) ==
            if id == record.id then Some(record) else Find(Latest(records), id)
  {
    ReplayIsLastWriterWins(records, id);
    ReplayIsLastWriterWins(records + [record], id);
    SortKeepsJobs(Replay(records), id, 0);
    SortKeepsJobs(Replay(records + [record]), id, 0);
    assert (records + [record])[..|records|] == records;
  }

  // ---- The log file ----

  datatype Entry = Entry(event: string, record: JobRecord)

  function EntryLines(entries: seq<Entry>): seq<string> {
    if entries == [] then [] else [RecordLine(entries[0].event, entries[0].record)] + EntryLines(entries[1..])
  }

  function SeenRecords(entries: seq<Entry>): Jobs {
    if entries == [] then [] else [Seen(entries[0].record)] + SeenRecords(entries[1..])
  }

  /** The records in the readable, non-blank lines. */
  function ParseLines(lines: seq<string>, fallbackBaseline: (string, string) -> string): Jobs {
    if lines == [] then []
    else
      var rest := ParseLines(lines[1..], fallbackBaseline);
      if IsBlank(lines[0]) then rest
      else match ParseRecord(lines[0], fallbackBaseline)
        case Some(record) => [record] + rest
        case None => rest
  }

  predicate NoBreak(s: string) {
    '\n' !in s && '\r' !in s
  }

  lemma {:induction false} EscapeHasNoBreak(value: string)
    ensures NoBreak(Escape(value))
  {
    if value != [] {
      EscapeHasNoBreak(value[1..]);
    }
  }

  lemma RawHasNoBreak(raw: Raw)
    ensures NoBreak(RenderRaw(raw))
  {
    match raw {
      case Digits(n) => assert forall c | c in Decimal(n) :: IsDigit(c);
      case Null =>
      case Quoted(value) => EscapeHasNoBreak(value);
    }
  }

  lemma MarkerHasNoBreak(key: string)
    requires GoodKey(key)
    ensures NoBreak(Marker(key))
  {
    assert forall c | c in key :: KeyChar(c);
  }

  lemma {:induction false} TailHasNoBreak(fields: seq<Field>)
    requires GoodFields(fields)
    ensures NoBreak(Tail(fields)) && Tail(fields) != []
  {
    if fields != [] {
      MarkerHasNoBreak(fields[0].key);
      RawHasNoBreak(fields[0].raw);
      TailHasNoBreak(fields[1..]);
    }
  }

  /** A record is one line whatever its text holds. */
  lemma RecordIsOneLine(event: string, record: JobRecord)
    ensures CleanLine(RecordLine(event, record)) && !IsBlank(RecordLine(event, record))
  {
    var fields := Fields(Values(event, record));
    KeysAreGood();
    TailHasNoBreak(fields);
    var line := RecordLine(event, record);
    assert line == "{" + Tail(fields)[1..];
    assert line[0] == '{';
    assert line[|line| - 1] in line;
  }

  lemma {:induction false} LinesReadAsSeen(entries: seq<Entry>, fallbackBaseline: (string, string) -> string)
    ensures forall line | line in EntryLines(entries) :: CleanLine(line)
    ensures ParseLines(EntryLines(entries), fallbackBaseline) == SeenRecords(entries)
  {
    hide RecordLine, ParseRecord, IsBlank, CleanLine, Seen;
    if entries != [] {
      var Entry(event, record) := entries[0];
      RecordIsOneLine(event, record);
      WrittenRecordReadsAs(event, record, fallbackBaseline);
      LinesReadAsSeen(entries[1..], fallbackBaseline);
    }
  }

  lemma {:induction false} EntryLinesAppend(entries: seq<Entry>, entry: Entry)
    ensures EntryLines(entries + [entry]) == EntryLines(entries) + [RecordLine(entry.event, entry.record)]
  {
    hide RecordLine;
    if entries == [] {
      assert entries + [entry] == [entry];
      assert [entry][1..] == [];
    } else {
      assert (entries + [entry])[1..] == entries[1..] + [entry];
      EntryLinesAppend(entries[1..], entry);
    }
  }

  /** The written file reads back as the appended records, one per line and in
      order, each as the scanner sees it. */
  lemma LogReadsBack(entries: seq<Entry>, fallbackBaseline: (string, string) -> string)
    ensures Lines(Unlines(EntryLines(entries))) == EntryLines(entries)
    ensures ParseLines(Lines(Unlines(EntryLines(entries))), fallbackBaseline) == SeenRecords(entries)
  {
    LinesReadAsSeen(entries, fallbackBaseline);
    LinesRoundTrip(EntryLines(entries));
  }

  function Records(entries: seq<Entry>): Jobs {
    seq(|entries|, i requires 0 <= i < |entries| => entries[i].record)
  }

  lemma {:induction false} SeenAppend(entries: seq<Entry>, entry: Entry)
    ensures SeenRecords(entries + [entry]) == SeenRecords(entries) + [Seen(entry.record)]
  {
    hide Seen;
    if entries == [] {
      assert entries + [entry] == [entry];
      assert [entry][1..] == [];
    } else {
      assert (entries + [entry])[1..] == entries[1..] + [entry];
      SeenAppend(entries[1..], entry);
    }
  }

  /** For an id that needs no escaping the log answers with the last record
      appended under it, as the scanner sees it, whatever other records hold:
      time and process exactly, kind and status exactly if they are plain. */
  lemma {:induction false} LogAnswersLastAppended(entries: seq<Entry>, id: string)
    requires Plain(id)
    ensures match Last(Records(entries), id)
            case None => Last(SeenRecords(entries), id) == None
            case Some(written) =>
              && Last(SeenRecords(entries), id) == Some(Seen(written))
              && Seen(written).id == written.id
              && Seen(written).updatedAt == written.updatedAt && Seen(written).pid == written.pid
              && (Seen(written).kind == written.kind <==> Plain(written.kind))
              && (Seen(written).status == written.status <==> Plain(written.status))
  {
    hide Recovered, Plain, SeenAgent;
    if entries != [] {
      var front, last := entries[..|entries| - 1], entries[|entries| - 1];
      assert entries == front + [last];
      LogAnswersLastAppended(front, id);
      SeenAppend(front, last);
      RecoveredExactly(last.record.id);
      RecoveredIsPlainExactly(last.record.id);
      RecoveredExactly(last.record.kind);
      RecoveredExactly(last.record.status);
      assert Records(entries)[..|front|] == Records(front);
      assert (SeenRecords(front) + [Seen(last.record)])[..|SeenRecords(front)|] == SeenRecords(front);
    }
  }

  class JobStore {
    var content: string

    /** What was appended, oldest first. */
    ghost var entries: seq<Entry>

    ghost predicate Valid()
      reads this
    {
      content == Unlines(EntryLines(entries))
    }

    constructor ()
      ensures Valid() && entries == []
    {
      content, entries := "", [];
    }

    method AppendCodexJobRecord(event: string, record: JobRecord)
      requires Valid()
      modifies this
      ensures Valid() && entries == old(entries) + [Entry(event, record)]
    {
      hide RecordLine;
      EntryLinesAppend(entries, Entry(event, record));
      UnlinesAppend(EntryLines(entries), RecordLine(event, record));
      entries := entries + [Entry(event, record)];
      content := content + RecordLine(event, record) + "\n";
    }

    method LatestCodexJobs(fallbackBaseline: (string, string) -> string) returns (jobs: Jobs)
      requires Valid()
      ensures jobs == Latest(SeenRecords(entries))
    {
      LogReadsBack(entries, fallbackBaseline);
      jobs := ReadJobs(content, fallbackBaseline);
    }

    method FindCodexJob(id: string, fallbackBaseline: (string, string) -> string) returns (job: Option<JobRecord>)
      requires Valid()
      ensures job == Last(SeenRecords(entries), id)
    {
      var jobs := LatestCodexJobs(fallbackBaseline);
      var i := 0;
      while i < |jobs| && jobs[i].id != id
        invariant 0 <= i <= |jobs|
        invariant Find(jobs, id) == Find(jobs[i..], id)
      {
        i := i + 1;
      }
      ghost var anyRecord := JobRecord("", "", "", None, "", "", "", "", "", 0, None);
      LatestIsLastWriterWins(SeenRecords(entries), anyRecord, id);
      job := if i < |jobs| then Some(jobs[i]) else None;
    }
  }

  lemma {:induction false} UpsertAt(jobs: Jobs, record: JobRecord, i: nat)
    requires i <= |jobs| && forall j | 0 <= j < i :: jobs[j].id != record.id
    requires i < |jobs| ==> jobs[i].id == record.id
    ensures Upsert(jobs, record) == if i < |jobs| then jobs[i := record] else jobs + [record]
  {
    if i > 0 {
      UpsertAt(jobs[1..], record, i - 1);
      assert jobs == [jobs[0]] + jobs[1..];
    }
  }

  lemma ParseLinesStep(lines: seq<string>, k: nat, before: Jobs, fallbackBaseline: (string, string) -> string)
    requires k < |lines|
    ensures before + ParseLines(lines[k..], fallbackBaseline) ==
            (if IsBlank(lines[k]) then before
             else match ParseRecord(lines[k], fallbackBaseline)
               case Some(record) => before + [record]
               case None => before)
            + ParseLines(lines[k + 1..], fallbackBaseline)
  {
    hide ParseRecord, IsBlank;
    assert lines[k..][1..] == lines[k + 1..];
  }

  lemma ReplayStep(records: Jobs, record: JobRecord)
    ensures Replay(records + [record]) == Upsert(Replay(records), record)
  {
    assert (records + [record])[..|records|] == records;
  }

  /** Overwrites the job of this id where it stands, or adds it. */
  method Overwrite(jobs: Jobs, record: JobRecord) returns (updated: Jobs)
    ensures updated == Upsert(jobs, record)
  {
    var i := 0;
    while i < |jobs| && jobs[i].id != record.id
      invariant 0 <= i <= |jobs|
      invariant forall j | 0 <= j < i :: jobs[j].id != record.id
    {
      i := i + 1;
    }
    UpsertAt(jobs, record, i);
    updated := if i < |jobs| then jobs[i := record] else jobs + [record];
  }

  /** Replays a log text: each readable line overwrites its job in place or
      adds it, then the jobs are sorted by time. */
  method ReadJobs(content: string, fallbackBaseline: (string, string) -> string) returns (jobs: Jobs)
    ensures jobs == Latest(ParseLines(Lines(content), fallbackBaseline))
  {
    hide ParseRecord, IsBlank;
    var lines := Lines(content);
    jobs := [];
    ghost var records := [];
    assert lines[0..] == lines;
    for k := 0 to |lines|
      invariant jobs == Replay(records)
      invariant ParseLines(lines, fallbackBaseline) == records + ParseLines(lines[k..], fallbackBaseline)
    {
      ParseLinesStep(lines, k, records, fallbackBaseline);
      if !IsBlank(lines[k]) {
        match ParseRecord(lines[k], fallbackBaseline) {
          case None =>
          case Some(record) =>
            ReplayStep(records, record);
            records := records + [record];
            jobs := Overwrite(jobs, record);
        }
      }
    }
    assert lines[|lines|..] == [] && records + [] == records;
    jobs := SortByTime(jobs);
  }
}
