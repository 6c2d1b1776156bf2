/** The log object of `app/audit_engine/store.py` over a mutable directory of files. */
module AuditStore {
  import opened Market
  import opened AuditLog

  /** The directory: all that survives the process. */
  class Directory {
    var files: Disk

    constructor (files: Disk)
      ensures this.files == files
    {
      this.files := files;
    }
  }

  datatype Receipt = Receipt(eventId: nat, path: Path, persisted: bool, duplicate: bool)

  /** How a call ends: with an answer, with the source's exception, or with the death of the process
      (or an operating system error) in the middle of a write. */
  datatype Outcome<T> = Done(value: T) | LogClosed | BadRunId | WriteCutShort

  predicate Alphanumeric(ch: char) {
    'A' <= ch <= 'Z' || 'a' <= ch <= 'z' || '0' <= ch <= '9'
  }

  /** A run id is a safe file name: it starts with a letter or digit and has at most 128 characters. */
  predicate SafeRunId(id: string) {
    && 1 <= |id| <= 128
    && Alphanumeric(id[0])
    && forall i :: 0 <= i < |id| ==> Alphanumeric(id[i]) || id[i] in "._-"
  }

  /** How many of `remaining` bytes get through when successive writes take `chunks`: a write takes no more
      than is left, and a zero-byte write or the end of the chunks stops the append. */
  function Accepted(chunks: seq<nat>, remaining: nat): (n: nat)
    ensures n <= remaining
    decreases |chunks|
  {
    if remaining == 0 || chunks == [] || chunks[0] == 0 then 0
    else
      var k := if chunks[0] <= remaining then chunks[0] else remaining;
      k + Accepted(chunks[1..], remaining - k)
  }

  // ---------------------------------------------------------------- opening the files

  /** Truncate one file after its last completed line. */
  method RecoverTail(directory: Directory, p: Path)
    requires p in directory.files
    modifies directory
    ensures directory.files == old(directory.files)[p := Recovered(old(directory.files)[p])]
  {
    var data := directory.files[p];
    if data == [] || data[|data| - 1] == NEWLINE {
      assert data[..|data|] == data;
      assert directory.files == directory.files[p := data];
      return;
    }
    directory.files := directory.files[p := data[..CompletedLength(data)]];
  }

  /** Decode a file line by line. */
  method ReadCompletedLines(c: Codec, data: seq<Byte>) returns (r: Option<seq<Envelope>>)
    ensures r == ReadLines(c, data)
  {
    var records: seq<Envelope>, i := [], 0;
    assert data[0..] == data;
    while i < |data|
      invariant i <= |data|
      invariant ReadLines(c, data) == Prepend(records, ReadLines(c, data[i..]))
    {
      var rest := data[i..];
      var n := FirstLineLength(rest);
      if n == |rest| {
        return None;
      }
      var decoded := c.decode(rest[..n]);
      if decoded.None? {
        return None;
      }
      assert rest[n + 1..] == data[i + n + 1..];
      PrependTwice(records, [decoded.value], ReadLines(c, data[i + n + 1..]));
      records := records + [decoded.value];
      i := i + n + 1;
    }
    r := Some(records);
  }

  /** Enter one file's records in the index. */
  method IndexRecords(index: map<nat, Path>, p: Path, es: seq<Envelope>) returns (r: Option<map<nat, Path>>)
    ensures r == IndexFile(index, p, es)
  {
    var grown: map<nat, Path> := index;
    for i := 0 to |es|
      invariant IndexFile(index, p, es) == IndexFile(grown, p, es[i..])
    {
      assert es[i..][0] == es[i] && es[i..][1..] == es[i + 1..];
      if es[i].eventId in grown {
        if grown[es[i].eventId] != p {
          return None;
        }
        assert grown[es[i].eventId := p] == grown;
      } else {
        grown := grown[es[i].eventId := p];
      }
    }
    r := Some(grown);
  }

  /** The files after the first `k` of the listing have been recovered, one after the other. */
  ghost function RecoveredInTurn(files: Disk, order: seq<Path>, k: nat): Disk
    requires k <= |order|
  {
    if k == 0 then files
    else
      var before := RecoveredInTurn(files, order, k - 1);
      before[order[k - 1] := Recovered(FileAt(before, order[k - 1]))]
  }

  /** One file is recovered when its turn has come and untouched before. */
  lemma {:induction false} InTurn(files: Disk, order: seq<Path>, k: nat, p: Path)
    requires k <= |order| && p in files
    requires forall i, j :: 0 <= i < j < |order| ==> order[i] != order[j]
    ensures var now := RecoveredInTurn(files, order, k);
            p in now && now[p] == if p in order[..k] then Recovered(files[p]) else files[p]
  {
    if k > 0 {
      InTurn(files, order, k - 1, p);
      assert order[..k] == order[..k - 1] + [order[k - 1]];
    }
  }

  lemma {:induction false} SameFilesInTurn(files: Disk, order: seq<Path>, k: nat)
    requires k <= |order| && forall i :: 0 <= i < |order| ==> order[i] in files
    ensures RecoveredInTurn(files, order, k).Keys == files.Keys
  {
    if k > 0 {
      SameFilesInTurn(files, order, k - 1);
    }
  }

  lemma NextToRecover(files: Disk, order: seq<Path>, k: nat)
    requires Lists(order, files) && k < |order|
    ensures var p, before := order[k], RecoveredInTurn(files, order, k);
            p in before && before[p] == files[p] && p in RecoverAll(files)
  {
    assert order[k] in order;
    InTurn(files, order, k, order[k]);
  }

  lemma AllRecovered(files: Disk, order: seq<Path>)
    requires Lists(order, files)
    ensures RecoveredInTurn(files, order, |order|) == RecoverAll(files)
  {
    forall i | 0 <= i < |order| ensures order[i] in files {
      assert order[i] in order;
    }
    SameFilesInTurn(files, order, |order|);
    assert order[..|order|] == order;
    forall p | p in files ensures RecoveredInTurn(files, order, |order|)[p] == RecoverAll(files)[p] {
      InTurn(files, order, |order|, p);
    }
  }

  /** Index the next file, or fail. */
  function IndexNext(c: Codec, data: seq<Byte>, p: Path, index: map<nat, Path>): Option<map<nat, Path>> {
    match ReadLines(c, data)
    case None => None
    case Some(es) => IndexFile(index, p, es)
  }

  method RecoverAndIndex(directory: Directory, c: Codec, p: Path, index: map<nat, Path>)
    returns (r: Option<map<nat, Path>>)
    requires p in directory.files
    modifies directory
    ensures directory.files == old(directory.files)[p := Recovered(old(directory.files)[p])]
    ensures r == IndexNext(c, Recovered(old(directory.files)[p]), p, index)
  {
    RecoverTail(directory, p);
    var es := ReadCompletedLines(c, directory.files[p]);
    if es.None? {
      return None;
    }
    r := IndexRecords(index, p, es.value);
  }

  lemma IndexAllStep(c: Codec, files: Disk, order: seq<Path>, k: nat, index: map<nat, Path>)
    requires k < |order| && order[k] in files
    ensures IndexAll(c, files, order[k..], index)
            == match IndexNext(c, files[order[k]], order[k], index)
               case None => None
               case Some(next) => IndexAll(c, files, order[k + 1..], next)
  {
    assert order[k..][0] == order[k] && order[k..][1..] == order[k + 1..];
  }

  /** Recover and index the files in the order of the listing. */
  method RebuildIndex(directory: Directory, c: Codec, order: seq<Path>) returns (r: Option<map<nat, Path>>)
    requires Lists(order, directory.files)
    modifies directory
    ensures r == IndexAll(c, RecoverAll(old(directory.files)), order, map[])
    ensures r.Some? ==> directory.files == RecoverAll(old(directory.files))
  {
    ghost var files := directory.files;
    ghost var all := RecoverAll(files);
    var index: map<nat, Path> := map[];
    assert order[0..] == order;
    for k := 0 to |order|
      invariant directory.files == RecoveredInTurn(files, order, k)
      invariant IndexAll(c, all, order, map[]) == IndexAll(c, all, order[k..], index)
    {
      var p := order[k];
      NextToRecover(files, order, k);
      IndexAllStep(c, all, order, k, index);
      var next := RecoverAndIndex(directory, c, p, index);
      if next.None? {
        return None;
      }
      index := next.value;
    }
    AllRecovered(files, order);
    r := Some(index);
  }

  // ---------------------------------------------------------------- the log

  class Log {
    const directory: Directory
    const codec: Codec
    var index: map<nat, Path>
    var closed: bool

    ghost function View(): State
      reads this, directory
    {
      State(directory.files, index)
    }

    constructor (directory: Directory, codec: Codec, index: map<nat, Path>)
      ensures this.directory == directory && this.codec == codec && this.index == index && !closed
    {
      this.directory, this.codec, this.index, this.closed := directory, codec, index, false;
    }

    /** Open the log over what a previous process left; None is the corruption error. */
    static method OpenLog(directory: Directory, codec: Codec, order: seq<Path>) returns (log: Option<Log>)
      requires Lists(order, directory.files)
      modifies directory
      ensures log.Some? <==> Open(codec, old(directory.files), order).Some?
      ensures log.Some? ==>
                && fresh(log.value) && log.value.directory == directory && log.value.codec == codec && !log.value.closed
                && Some(log.value.View()) == Open(codec, old(directory.files), order)
    {
      var index := RebuildIndex(directory, codec, order);
      if index.None? {
        return None;
      }
      var opening := new Log(directory, codec, index.value);
      log := Some(opening);
    }

    /** Write a line chunk by chunk; `written` bytes of it reach the file. */
    method DurableAppend(p: Path, line: seq<Byte>, chunks: seq<nat>) returns (written: nat)
      modifies directory
      ensures written == Accepted(chunks, |line|)
      ensures directory.files == old(directory.files)[p := FileAt(old(directory.files), p) + line[..written]]
    {
      ghost var before := FileAt(directory.files, p);
      written := 0;
      directory.files := directory.files[p := FileAt(directory.files, p)];
      var i := 0;
      assert before + line[..0] == before;
      assert chunks[0..] == chunks;
      while written < |line|
        invariant written <= |line| && i <= |chunks|
        invariant Accepted(chunks, |line|) == written + Accepted(chunks[i..], |line| - written)
        invariant directory.files == old(directory.files)[p := before + line[..written]]
        decreases |line| - written
      {
        if i == |chunks| || chunks[i] == 0 {
          return;
        }
        var k := if chunks[i] <= |line| - written then chunks[i] else |line| - written;
        assert chunks[i..][1..] == chunks[i + 1..];
        assert line[..written] + line[written..written + k] == line[..written + k];
        directory.files := directory.files[p := directory.files[p] + line[written..written + k]];
        assert directory.files[p] == before + line[..written + k];
        written, i := written + k, i + 1;
      }
    }

    /** Append one envelope and acknowledge it once its whole line is written. */
    method Append(runId: string, stream: Stream, e: Envelope, chunks: seq<nat>) returns (r: Outcome<Receipt>)
      modifies this, directory
      ensures closed == old(closed)
      ensures r.LogClosed? <==> old(closed)
      ensures r.BadRunId? <==> !old(closed) && !SafeRunId(runId)
      ensures old(closed) || !SafeRunId(runId) ==> View() == old(View())
      ensures r.Done? ==> View() == Appended(codec, old(View()), runId, stream, e)
      ensures r.Done? && e.eventId in old(index) ==> r.value == Receipt(e.eventId, old(index)[e.eventId], false, true)
      ensures r.Done? && e.eventId !in old(index) ==> r.value == Receipt(e.eventId, PathFor(runId, stream, e), true, false)
      ensures r.WriteCutShort? ==> View() == State(
                AfterDying(codec, old(View()), runId, stream, e, Accepted(chunks, |Line(codec, e)|)), old(index))
      ensures !old(closed) && SafeRunId(runId) ==>
                (r.Done? <==> e.eventId in old(index) || Accepted(chunks, |Line(codec, e)|) == |Line(codec, e)|)
    {
      if closed {
        return LogClosed;
      }
      if !SafeRunId(runId) {
        return BadRunId;
      }
      if e.eventId in index {
        return Done(Receipt(e.eventId, index[e.eventId], false, true));
      }
      var p := PathFor(runId, stream, e);
      var line := Line(codec, e);
      var written := DurableAppend(p, line, chunks);
      assert line[..|line|] == line;
      if written < |line| {
        return WriteCutShort;
      }
      index := index[e.eventId := p];
      r := Done(Receipt(e.eventId, p, true, false));
    }

    /** Read a run's stream day by day, in the order of the days. */
    method Replay(runId: string, stream: Stream, days: seq<int>) returns (r: Outcome<Option<seq<Envelope>>>)
      ensures r.LogClosed? <==> closed
      ensures r.BadRunId? <==> !closed && !SafeRunId(runId)
      ensures !closed && SafeRunId(runId) ==> r == Done(Replayed(codec, directory.files, runId, stream, days))
    {
      if closed {
        return LogClosed;
      }
      if !SafeRunId(runId) {
        return BadRunId;
      }
      var records: seq<Envelope> := [];
      assert days[0..] == days;
      for k := 0 to |days|
        invariant Replayed(codec, directory.files, runId, stream, days)
                  == Prepend(records, Replayed(codec, directory.files, runId, stream, days[k..]))
      {
        assert days[k..][0] == days[k] && days[k..][1..] == days[k + 1..];
        var es := ReadCompletedLines(codec, FileAt(directory.files, Path(days[k], runId, stream)));
        if es.None? {
          return Done(None);
        }
        PrependTwice(records, es.value, Replayed(codec, directory.files, runId, stream, days[k + 1..]));
        records := records + es.value;
      }
      r := Done(Some(records));
    }

    method Close()
      modifies this
      ensures closed && index == old(index)
    {
      closed := true;
    }
  }

  /** The records of the files of `days`, one file after the other. */
  function Replayed(c: Codec, files: Disk, runId: string, stream: Stream, days: seq<int>): Option<seq<Envelope>>
    decreases |days|
  {
    if days == [] then Some([])
    else
      match ReadLines(c, FileAt(files, Path(days[0], runId, stream)))
      case None => None
      case Some(es) => Prepend(es, Replayed(c, files, runId, stream, days[1..]))
  }

  ghost function RecordsOfDays(recs: Records, runId: string, stream: Stream, days: seq<int>): seq<Envelope>
    decreases |days|
  {
    if days == [] then []
    else RecordsAt(recs, Path(days[0], runId, stream)) + RecordsOfDays(recs, runId, stream, days[1..])
  }

  /** After any run of appends and crashes, a replay yields the recorded events day by day. */
  lemma {:induction false} ReplayYieldsTheRecords(c: Codec, s: State, recs: Records,
                                                  runId: string, stream: Stream, days: seq<int>)
    requires Faithful(c) && Represents(c, s, recs)
    ensures Replayed(c, s.files, runId, stream, days) == Some(RecordsOfDays(recs, runId, stream, days))
    decreases |days|
  {
    if days != [] {
      ReadBack(c, RecordsAt(recs, Path(days[0], runId, stream)));
      ReplayYieldsTheRecords(c, s, recs, runId, stream, days[1..]);
    }
  }
}
