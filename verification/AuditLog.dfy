/** The crash-tolerant, idempotent record log: byte files on one side, acknowledged records on the other. */
module AuditLog {
  import opened Market

  type Byte = b: int | 0 <= b < 256 witness 0

  const NEWLINE: Byte := 10

  datatype Stream = Services | RuleTraces | Decisions

  datatype Envelope = Envelope(eventId: nat, day: int, payload: seq<int>)

  /** One file per day, run and stream. */
  datatype Path = Path(day: int, runId: string, stream: Stream)

  function PathFor(runId: string, stream: Stream, e: Envelope): Path {
    Path(e.day, runId, stream)
  }

  /** The canonical record text: any newline-free encoding that can be read back. */
  datatype Codec = Codec(encode: Envelope -> seq<Byte>, decode: seq<Byte> -> Option<Envelope>)

  ghost predicate Faithful(c: Codec) {
    forall e :: NEWLINE !in c.encode(e) && c.decode(c.encode(e)) == Some(e)
  }

  type Disk = map<Path, seq<Byte>>

  type Records = map<Path, seq<Envelope>>

  function Line(c: Codec, e: Envelope): seq<Byte> {
    c.encode(e) + [NEWLINE]
  }

  function Lines(c: Codec, es: seq<Envelope>): seq<Byte> {
    if es == [] then [] else Line(c, es[0]) + Lines(c, es[1..])
  }

  // ---------------------------------------------------------------- reading bytes back

  /** Where the last completed line ends. */
  function CompletedLength(data: seq<Byte>): (n: nat)
    ensures n <= |data|
    ensures n > 0 ==> data[n - 1] == NEWLINE
    ensures NEWLINE !in data[n..]
  {
    if data == [] then 0
    else if data[|data| - 1] == NEWLINE then |data|
    else
      var n := CompletedLength(data[..|data| - 1]);
      assert data[n..] == data[..|data| - 1][n..] + [data[|data| - 1]];
      n
  }

  /** An unterminated final line is a crashed append and is removed. */
  function Recovered(data: seq<Byte>): seq<Byte> {
    data[..CompletedLength(data)]
  }

  /** The length of the first line, or of the data when no line is completed. */
  function FirstLineLength(data: seq<Byte>): (n: nat)
    ensures n <= |data| && NEWLINE !in data[..n]
    ensures n < |data| ==> data[n] == NEWLINE
  {
    if data == [] || data[0] == NEWLINE then 0
    else
      var n := FirstLineLength(data[1..]);
      assert data[..n + 1] == [data[0]] + data[1..][..n];
      n + 1
  }

  /** The records of completed lines; None is the corruption error of an unterminated or unreadable line. */
  function ReadLines(c: Codec, data: seq<Byte>): Option<seq<Envelope>>
    decreases |data|
  {
    if data == [] then Some([])
    else
      var n := FirstLineLength(data);
      if n == |data| then None
      else
        match c.decode(data[..n])
        case None => None
        case Some(e) =>
          match ReadLines(c, data[n + 1..])
          case None => None
          case Some(rest) => Some([e] + rest)
  }

  lemma {:induction false} LinesAppend(c: Codec, es: seq<Envelope>, e: Envelope)
    ensures Lines(c, es + [e]) == Lines(c, es) + Line(c, e)
  {
    if es == [] {
      assert Lines(c, [e]) == Line(c, e) + Lines(c, []);
    } else {
      LinesAppend(c, es[1..], e);
      assert (es + [e])[1..] == es[1..] + [e];
    }
  }

  lemma {:induction false} LinesEndCompleted(c: Codec, es: seq<Envelope>)
    ensures es != [] ==> Lines(c, es) != [] && Lines(c, es)[|Lines(c, es)| - 1] == NEWLINE
    ensures es == [] ==> Lines(c, es) == []
  {
    if |es| > 1 {
      LinesEndCompleted(c, es[1..]);
    } else if |es| == 1 {
      assert Lines(c, es) == Line(c, es[0]);
    }
  }

  lemma NoNewlineAfter(data: seq<Byte>, m: nat, n: nat)
    requires m <= |data| && n <= |data| && NEWLINE !in data[m..]
    ensures m < n ==> data[n - 1] != NEWLINE
  {
    if m < n {
      assert data[m..][n - 1 - m] == data[n - 1];
    }
  }

  /** Only one place ends the completed lines. */
  lemma CompletedLengthIs(data: seq<Byte>, n: nat)
    requires n <= |data| && NEWLINE !in data[n..]
    requires n > 0 ==> data[n - 1] == NEWLINE
    ensures CompletedLength(data) == n
  {
    var m := CompletedLength(data);
    NoNewlineAfter(data, n, m);
    NoNewlineAfter(data, m, n);
  }

  /** Recovery removes a torn tail and nothing else. */
  lemma RecoveryDropsTornTail(c: Codec, es: seq<Envelope>, torn: seq<Byte>)
    requires NEWLINE !in torn
    ensures Recovered(Lines(c, es) + torn) == Lines(c, es)
  {
    var whole := Lines(c, es);
    var data := whole + torn;
    LinesEndCompleted(c, es);
    assert data[|whole|..] == torn && data[..|whole|] == whole;
    CompletedLengthIs(data, |whole|);
  }

  /** Only one place ends the first line. */
  lemma FirstLineLengthIs(data: seq<Byte>, n: nat)
    requires n < |data| && NEWLINE !in data[..n] && data[n] == NEWLINE
    ensures FirstLineLength(data) == n
  {
    var m := FirstLineLength(data);
    assert forall k :: 0 <= k < n ==> data[k] == data[..n][k];
    assert forall k :: 0 <= k < m ==> data[k] == data[..m][k];
  }

  lemma ReadLinesStep(c: Codec, e: Envelope, rest: seq<Byte>)
    requires Faithful(c) && ReadLines(c, rest).Some?
    ensures ReadLines(c, Line(c, e) + rest) == Some([e] + ReadLines(c, rest).value)
  {
    var data := Line(c, e) + rest;
    var n := |c.encode(e)|;
    assert data[..n] == c.encode(e) && data[n] == NEWLINE && data[n + 1..] == rest;
    FirstLineLengthIs(data, n);
  }

  /** Reading what was written gives the records back, in order. */
  lemma {:induction false} ReadBack(c: Codec, es: seq<Envelope>)
    requires Faithful(c)
    ensures ReadLines(c, Lines(c, es)) == Some(es)
  {
    if es != [] {
      ReadBack(c, es[1..]);
      ReadLinesStep(c, es[0], Lines(c, es[1..]));
      assert [es[0]] + es[1..] == es;
    }
  }

  // ---------------------------------------------------------------- the log as a state machine

  datatype State = State(files: Disk, index: map<nat, Path>)

  function FileAt(files: Disk, p: Path): seq<Byte> {
    if p in files then files[p] else []
  }

  function RecoverAll(files: Disk): Disk {
    map p | p in files :: Recovered(files[p])
  }

  /** Index one file's records; an id already indexed under another file is an error. */
  function IndexFile(index: map<nat, Path>, p: Path, es: seq<Envelope>): Option<map<nat, Path>>
    decreases |es|
  {
    if es == [] then Some(index)
    else if es[0].eventId in index && index[es[0].eventId] != p then None
    else IndexFile(index[es[0].eventId := p], p, es[1..])
  }

  /** Index every file in the order given; None is the corruption error. */
  function IndexAll(c: Codec, files: Disk, order: seq<Path>, index: map<nat, Path>): Option<map<nat, Path>>
    decreases |order|
  {
    if order == [] then Some(index)
    else if order[0] !in files then IndexAll(c, files, order[1..], index)
    else
      match ReadLines(c, files[order[0]])
      case None => None
      case Some(es) =>
        match IndexFile(index, order[0], es)
        case None => None
        case Some(next) => IndexAll(c, files, order[1..], next)
  }

  /** `order` lists every file once, as the directory listing does. */
  ghost predicate Lists(order: seq<Path>, files: Disk) {
    && (forall p :: p in files <==> p in order)
    && (forall i, j :: 0 <= i < j < |order| ==> order[i] != order[j])
  }

  function Open(c: Codec, files: Disk, order: seq<Path>): Option<State> {
    var recovered := RecoverAll(files);
    match IndexAll(c, recovered, order, map[])
    case None => None
    case Some(index) => Some(State(recovered, index))
  }

  /** What the caller and the fates may do: append to the end, die after some bytes of an append
      and open again, or just close and open again. */
  datatype Action =
    | Append(runId: string, stream: Stream, event: Envelope)
    | Die(runId: string, stream: Stream, event: Envelope, written: nat)
    | Restart

  function Written(c: Codec, s: State, p: Path, e: Envelope, n: nat): Disk
    requires n <= |Line(c, e)|
  {
    s.files[p := FileAt(s.files, p) + Line(c, e)[..n]]
  }

  /** How a directory lists its files; any listing that names each of them once will do. */
  type Listing = Disk -> seq<Path>

  ghost predicate Complete(listing: Listing) {
    forall files :: Lists(listing(files), files)
  }

  /** The bytes of the line that reach the file when the process dies after `written` of them. */
  function Survivors(c: Codec, e: Envelope, written: nat): (n: nat)
    ensures n <= |Line(c, e)|
  {
    if written <= |Line(c, e)| then written else |Line(c, e)|
  }

  /** An acknowledged append: nothing for a known event, one more line otherwise. */
  function Appended(c: Codec, s: State, run: string, stream: Stream, e: Envelope): State {
    if e.eventId in s.index then s
    else
      var p := PathFor(run, stream, e);
      State(Written(c, s, p, e, |Line(c, e)|), s.index[e.eventId := p])
  }

  /** The files a process leaves that dies while appending `e`; a known event writes nothing. */
  function AfterDying(c: Codec, s: State, run: string, stream: Stream, e: Envelope, written: nat): Disk {
    if e.eventId in s.index then s.files
    else Written(c, s, PathFor(run, stream, e), e, Survivors(c, e, written))
  }

  /** One action on the bytes. None is the corruption error on opening. */
  function Step(c: Codec, listing: Listing, s: State, a: Action): Option<State> {
    match a
    case Append(run, stream, e) => Some(Appended(c, s, run, stream, e))
    case Die(run, stream, e, written) =>
      var files := AfterDying(c, s, run, stream, e, written);
      Open(c, files, listing(files))
    case Restart => Open(c, s.files, listing(s.files))
  }

  function Run(c: Codec, listing: Listing, s: State, actions: seq<Action>): Option<State>
    decreases |actions|
  {
    if actions == [] then Some(s)
    else
      match Step(c, listing, s, actions[0])
      case None => None
      case Some(next) => Run(c, listing, next, actions[1..])
  }

  // ---------------------------------------------------------------- the log as its users see it

  function RecordsAt(recs: Records, p: Path): seq<Envelope> {
    if p in recs then recs[p] else []
  }

  ghost predicate Known(recs: Records, id: nat) {
    exists p, i :: p in recs && 0 <= i < |recs[p]| && recs[p][i].eventId == id
  }

  /** The records after one action: an acknowledged append is there, a dying one only if its last
      byte was written, and an event that is known changes nothing. */
  ghost function Recorded(c: Codec, recs: Records, a: Action): Records {
    match a
    case Append(run, stream, e) =>
      var p := PathFor(run, stream, e);
      if Known(recs, e.eventId) then recs else WithRecord(recs, p, e)
    case Die(run, stream, e, n) => RecordedDying(c, recs, PathFor(run, stream, e), e, n)
    case Restart => recs
  }

  ghost function RecordedDying(c: Codec, recs: Records, p: Path, e: Envelope, written: nat): Records {
    if Known(recs, e.eventId) then recs
    else if written >= |Line(c, e)| then WithRecord(recs, p, e)
    else recs[p := RecordsAt(recs, p)]
  }

  ghost predicate IdsOnce(recs: Records) {
    forall p, i, q, j ::
      (p in recs && q in recs && 0 <= i < |recs[p]| && 0 <= j < |recs[q]| && recs[p][i].eventId == recs[q][j].eventId)
      ==> (p == q && i == j)
  }

  /** No event id is in two files; a file may still repeat it. */
  ghost predicate OneFilePerId(recs: Records) {
    forall p, i, q, j ::
      (p in recs && q in recs && 0 <= i < |recs[p]| && 0 <= j < |recs[q]| && recs[p][i].eventId == recs[q][j].eventId)
      ==> p == q
  }

  /** Every file is readable, and these are its records. */
  ghost predicate Reads(c: Codec, files: Disk, recs: Records) {
    files.Keys == recs.Keys && forall p :: p in files ==> ReadLines(c, files[p]) == Some(recs[p])
  }

  ghost predicate Indexes(index: map<nat, Path>, recs: Records) {
    && (forall id :: id in index <==> Known(recs, id))
    && (forall p, i :: p in recs && 0 <= i < |recs[p]| ==>
          recs[p][i].eventId in index && index[recs[p][i].eventId] == p)
  }

  ghost predicate Stores(c: Codec, files: Disk, recs: Records) {
    files.Keys == recs.Keys && forall p :: p in files ==> files[p] == Lines(c, recs[p])
  }

  /** The bytes, the index and the records agree. */
  ghost predicate Represents(c: Codec, s: State, recs: Records) {
    Stores(c, s.files, recs) && Indexes(s.index, recs) && IdsOnce(recs)
  }

  // ---------------------------------------------------------------- opening

  /** Completed records and perhaps one torn tail. */
  ghost predicate Tailed(c: Codec, data: seq<Byte>, es: seq<Envelope>) {
    exists torn: seq<Byte> :: NEWLINE !in torn && data == Lines(c, es) + torn
  }

  ghost predicate StoresWithTails(c: Codec, files: Disk, recs: Records) {
    files.Keys == recs.Keys && forall p :: p in files ==> Tailed(c, files[p], recs[p])
  }

  lemma RecoveryRestores(c: Codec, files: Disk, recs: Records)
    requires StoresWithTails(c, files, recs)
    ensures Stores(c, RecoverAll(files), recs)
  {
    forall p | p in files ensures RecoverAll(files)[p] == Lines(c, recs[p]) {
      var torn: seq<Byte> :| NEWLINE !in torn && files[p] == Lines(c, recs[p]) + torn;
      RecoveryDropsTornTail(c, recs[p], torn);
    }
  }

  ghost predicate HoldsId(recs: Records, p: Path, id: nat) {
    p in recs && exists i :: 0 <= i < |recs[p]| && recs[p][i].eventId == id
  }

  /** The index holds exactly the records of the files already read. */
  ghost predicate IndexesUpTo(index: map<nat, Path>, recs: Records, done: set<Path>) {
    && (forall id :: id in index ==> index[id] in done && HoldsId(recs, index[id], id))
    && (forall p, i :: p in recs && p in done && 0 <= i < |recs[p]| ==>
          recs[p][i].eventId in index && index[recs[p][i].eventId] == p)
  }

  lemma {:induction false} IndexOneFile(index: map<nat, Path>, recs: Records, done: set<Path>, p: Path, k: nat)
    requires OneFilePerId(recs) && p in recs && p !in done && k <= |recs[p]|
    requires forall id :: id in index && index[id] != p ==> index[id] in done && HoldsId(recs, index[id], id)
    requires forall id :: id in index && index[id] == p ==> exists i :: 0 <= i < k && recs[p][i].eventId == id
    requires forall i :: 0 <= i < k ==> recs[p][i].eventId in index && index[recs[p][i].eventId] == p
    requires forall q, i :: q in recs && q in done && 0 <= i < |recs[q]| ==>
               recs[q][i].eventId in index && index[recs[q][i].eventId] == q
    ensures var r := IndexFile(index, p, recs[p][k..]);
            r.Some? && IndexesUpTo(r.value, recs, done + {p})
    decreases |recs[p]| - k
  {
    if k < |recs[p]| {
      var es, e := recs[p][k..], recs[p][k];
      assert es[1..] == recs[p][k + 1..];
      IndexOneFile(index[e.eventId := p], recs, done, p, k + 1);
    } else {
      assert recs[p][k..] == [];
    }
  }

  function First(order: seq<Path>, k: nat): set<Path>
    requires k <= |order|
  {
    set p | p in order[..k]
  }

  lemma FirstGrows(order: seq<Path>, k: nat)
    requires k < |order|
    ensures First(order, k + 1) == First(order, k) + {order[k]}
  {
    assert order[..k + 1] == order[..k] + [order[k]];
  }

  lemma IndexesAtTheEnd(index: map<nat, Path>, files: Disk, recs: Records, order: seq<Path>)
    requires files.Keys == recs.Keys && Lists(order, files) && IndexesUpTo(index, recs, First(order, |order|))
    ensures Indexes(index, recs)
  {
    forall p | p in recs ensures p in First(order, |order|) {
      assert p in files && order[..|order|] == order;
    }
    forall id ensures id in index <==> Known(recs, id) {
      if id in index {
        var i :| 0 <= i < |recs[index[id]]| && recs[index[id]][i].eventId == id;
        assert Known(recs, id);
      }
      if Known(recs, id) {
        var p, i :| p in recs && 0 <= i < |recs[p]| && recs[p][i].eventId == id;
        assert p in First(order, |order|);
      }
    }
  }

  /** Indexing never meets one id in two files, whatever the order of the listing. */
  lemma {:induction false} IndexEveryFile(c: Codec, files: Disk, recs: Records, order: seq<Path>, k: nat,
                                          index: map<nat, Path>)
    requires Reads(c, files, recs) && OneFilePerId(recs) && Lists(order, files) && k <= |order|
    requires IndexesUpTo(index, recs, First(order, k))
    ensures var r := IndexAll(c, files, order[k..], index);
            r.Some? && Indexes(r.value, recs)
    decreases |order| - k
  {
    if k < |order| {
      var p := order[k];
      assert order[k..][0] == p && order[k..][1..] == order[k + 1..];
      IndexNextFile(index, recs, order, k);
      FirstGrows(order, k);
      IndexEveryFile(c, files, recs, order, k + 1, IndexFile(index, p, recs[p]).value);
    } else {
      assert order[k..] == [];
      IndexesAtTheEnd(index, files, recs, order);
    }
  }

  lemma IndexNextFile(index: map<nat, Path>, recs: Records, order: seq<Path>, k: nat)
    requires OneFilePerId(recs) && k < |order| && order[k] in recs
    requires forall i, j :: 0 <= i < j < |order| ==> order[i] != order[j]
    requires IndexesUpTo(index, recs, First(order, k))
    ensures var r := IndexFile(index, order[k], recs[order[k]]);
            r.Some? && IndexesUpTo(r.value, recs, First(order, k) + {order[k]})
  {
    var p := order[k];
    assert p !in First(order, k);
    assert recs[p][0..] == recs[p];
    IndexOneFile(index, recs, First(order, k), p, 0);
  }

  /** Opening after a crash always succeeds and restores exactly the completed records. */
  lemma OpenRestores(c: Codec, files: Disk, recs: Records, order: seq<Path>)
    requires Faithful(c) && StoresWithTails(c, files, recs) && IdsOnce(recs) && Lists(order, files)
    ensures Open(c, files, order).Some? && Represents(c, Open(c, files, order).value, recs)
  {
    RecoveryRestores(c, files, recs);
    forall p | p in files ensures ReadLines(c, RecoverAll(files)[p]) == Some(recs[p]) {
      ReadBack(c, recs[p]);
    }
    OpensReadable(c, files, recs, order);
  }

  lemma OpensReadable(c: Codec, files: Disk, recs: Records, order: seq<Path>)
    requires Reads(c, RecoverAll(files), recs) && OneFilePerId(recs) && Lists(order, files)
    ensures Open(c, files, order).Some? && Indexes(Open(c, files, order).value.index, recs)
  {
    assert order[0..] == order;
    assert First(order, 0) == {};
    IndexEveryFile(c, RecoverAll(files), recs, order, 0, map[]);
  }

  /** Indexing a file keeps what was indexed and maps each of its ids to it. */
  lemma {:induction false} IndexFileMeans(index: map<nat, Path>, p: Path, es: seq<Envelope>)
    requires IndexFile(index, p, es).Some?
    ensures var r := IndexFile(index, p, es).value;
            && (forall id :: id in index ==> id in r && r[id] == index[id])
            && (forall i :: 0 <= i < |es| ==> es[i].eventId in r && r[es[i].eventId] == p)
    decreases |es|
  {
    if es != [] {
      IndexFileMeans(index[es[0].eventId := p], p, es[1..]);
      var r := IndexFile(index, p, es).value;
      forall i | 0 <= i < |es| ensures es[i].eventId in r && r[es[i].eventId] == p {
        if i > 0 {
          assert es[i] == es[1..][i - 1];
        }
      }
    }
  }

  ghost predicate MapsTo(index: map<nat, Path>, p: Path, es: seq<Envelope>) {
    forall i :: 0 <= i < |es| ==> es[i].eventId in index && index[es[i].eventId] == p
  }

  /** Whatever indexing accepts was readable, and each id leads to the file that holds it. */
  lemma {:induction false} IndexAllMeans(c: Codec, files: Disk, order: seq<Path>, index: map<nat, Path>)
    requires IndexAll(c, files, order, index).Some?
    ensures var r := IndexAll(c, files, order, index).value;
            && (forall id :: id in index ==> id in r && r[id] == index[id])
            && (forall p :: p in order && p in files ==>
                  ReadLines(c, files[p]).Some? && MapsTo(r, p, ReadLines(c, files[p]).value))
    decreases |order|
  {
    if order != [] {
      var p, rest := order[0], order[1..];
      if p !in files {
        IndexAllMeans(c, files, rest, index);
      } else {
        var es := ReadLines(c, files[p]).value;
        IndexFileMeans(index, p, es);
        IndexAllMeans(c, files, rest, IndexFile(index, p, es).value);
      }
    }
  }

  /** Opening fails exactly when a completed line is unreadable or two files hold one event id. */
  lemma OpensExactly(c: Codec, files: Disk, order: seq<Path>)
    requires Lists(order, files)
    ensures Open(c, files, order).Some?
            <==> exists recs :: Reads(c, RecoverAll(files), recs) && OneFilePerId(recs)
  {
    var recovered := RecoverAll(files);
    if Open(c, files, order).Some? {
      IndexAllMeans(c, recovered, order, map[]);
      var recs := map p | p in recovered :: ReadLines(c, recovered[p]).Or([]);
      assert Reads(c, recovered, recs) && OneFilePerId(recs);
    }
    if recs :| Reads(c, recovered, recs) && OneFilePerId(recs) {
      OpensReadable(c, files, recs, order);
    }
  }

  // ---------------------------------------------------------------- the refinement

  function WithRecord(recs: Records, p: Path, e: Envelope): Records {
    recs[p := RecordsAt(recs, p) + [e]]
  }

  lemma OneMoreStored(c: Codec, s: State, recs: Records, p: Path, e: Envelope)
    requires Stores(c, s.files, recs)
    ensures Stores(c, Written(c, s, p, e, |Line(c, e)|), WithRecord(recs, p, e))
  {
    LinesAppend(c, RecordsAt(recs, p), e);
    assert Line(c, e)[..|Line(c, e)|] == Line(c, e);
  }

  lemma OneMoreIndexed(index: map<nat, Path>, recs: Records, p: Path, e: Envelope)
    requires Indexes(index, recs) && !Known(recs, e.eventId)
    ensures Indexes(index[e.eventId := p], WithRecord(recs, p, e))
  {
    MoreIsKnown(recs, p, e);
    var more: Records := WithRecord(recs, p, e);
    var next := index[e.eventId := p];
    forall q, i: int | q in more && 0 <= i < |more[q]|
      ensures more[q][i].eventId in next && next[more[q][i].eventId] == q
    {
      if q in recs && i < |recs[q]| {
        assert more[q][i] == recs[q][i];
        assert Known(recs, recs[q][i].eventId);
      }
    }
  }

  lemma OneMoreRecord(c: Codec, s: State, recs: Records, p: Path, e: Envelope)
    requires Represents(c, s, recs) && !Known(recs, e.eventId)
    ensures Represents(c, State(Written(c, s, p, e, |Line(c, e)|), s.index[e.eventId := p]), WithRecord(recs, p, e))
  {
    OneMoreStored(c, s, recs, p, e);
    OneMoreIndexed(s.index, recs, p, e);
    MoreOnce(recs, p, e);
  }

  lemma MoreIsKnown(recs: Records, p: Path, e: Envelope)
    ensures forall id :: Known(WithRecord(recs, p, e), id) <==> Known(recs, id) || id == e.eventId
  {
    var more := WithRecord(recs, p, e);
    forall id ensures Known(more, id) <==> Known(recs, id) || id == e.eventId {
      if Known(recs, id) {
        var q, i :| q in recs && 0 <= i < |recs[q]| && recs[q][i].eventId == id;
        assert q in more && more[q][i] == recs[q][i];
      }
      if id == e.eventId {
        assert more[p][|RecordsAt(recs, p)|] == e;
      }
    }
  }

  lemma MoreOnce(recs: Records, p: Path, e: Envelope)
    requires IdsOnce(recs) && !Known(recs, e.eventId)
    ensures IdsOnce(WithRecord(recs, p, e))
  {
  }

  lemma NoMoreRecords(recs: Records, p: Path)
    requires IdsOnce(recs)
    ensures IdsOnce(recs[p := RecordsAt(recs, p)])
  {
    if p in recs {
      assert recs[p := recs[p]] == recs;
    } else {
      var more: Records := recs[p := []];
      assert forall q :: q in more && more[q] != [] ==> q in recs && more[q] == recs[q];
    }
  }

  /** A torn line leaves every file with its completed records and at most one torn tail. */
  lemma TornAppend(c: Codec, s: State, recs: Records, p: Path, e: Envelope, n: nat)
    requires Faithful(c) && Represents(c, s, recs) && n < |Line(c, e)|
    ensures StoresWithTails(c, Written(c, s, p, e, n), recs[p := RecordsAt(recs, p)])
  {
    var files, same := Written(c, s, p, e, n), recs[p := RecordsAt(recs, p)];
    assert Line(c, e)[..n] == c.encode(e)[..n];
    IsTailed(c, RecordsAt(recs, p), Line(c, e)[..n]);
    forall q | q in files ensures Tailed(c, files[q], same[q]) {
      if q != p {
        IsTailed(c, recs[q], []);
        assert files[q] == Lines(c, recs[q]) + [];
      }
    }
  }

  lemma IsTailed(c: Codec, es: seq<Envelope>, torn: seq<Byte>)
    requires NEWLINE !in torn
    ensures Tailed(c, Lines(c, es) + torn, es)
  {
  }

  lemma WholeFilesHaveNoTails(c: Codec, files: Disk, recs: Records)
    requires Stores(c, files, recs)
    ensures StoresWithTails(c, files, recs)
  {
    forall p | p in files ensures Tailed(c, files[p], recs[p]) {
      IsTailed(c, recs[p], []);
      assert files[p] == Lines(c, recs[p]) + [];
    }
  }

  lemma RestartRestores(c: Codec, listing: Listing, s: State, recs: Records)
    requires Faithful(c) && Complete(listing) && Represents(c, s, recs)
    ensures Open(c, s.files, listing(s.files)).Some?
    ensures Represents(c, Open(c, s.files, listing(s.files)).value, recs)
  {
    WholeFilesHaveNoTails(c, s.files, recs);
    OpenRestores(c, s.files, recs, listing(s.files));
  }

  /** One action on the bytes is one action on the records, wherever the process dies. */
  lemma StepRefines(c: Codec, listing: Listing, s: State, recs: Records, a: Action)
    requires Faithful(c) && Complete(listing) && Represents(c, s, recs)
    ensures Step(c, listing, s, a).Some?
    ensures Represents(c, Step(c, listing, s, a).value, Recorded(c, recs, a))
  {
    match a
    case Append(run, stream, e) =>
      if !Known(recs, e.eventId) {
        OneMoreRecord(c, s, recs, PathFor(run, stream, e), e);
      }
    case Die(run, stream, e, written) => DyingRefines(c, listing, s, recs, run, stream, e, written);
    case Restart =>
      RestartRestores(c, listing, s, recs);
  }

  lemma DyingRefines(c: Codec, listing: Listing, s: State, recs: Records,
                     run: string, stream: Stream, e: Envelope, written: nat)
    requires Faithful(c) && Complete(listing) && Represents(c, s, recs)
    ensures var files := AfterDying(c, s, run, stream, e, written);
            && Open(c, files, listing(files)).Some?
            && Represents(c, Open(c, files, listing(files)).value, RecordedDying(c, recs, PathFor(run, stream, e), e, written))
  {
    var p := PathFor(run, stream, e);
    if Known(recs, e.eventId) {
      assert AfterDying(c, s, run, stream, e, written) == s.files;
      RestartRestores(c, listing, s, recs);
    } else if written >= |Line(c, e)| {
      assert AfterDying(c, s, run, stream, e, written) == Written(c, s, p, e, |Line(c, e)|);
      WholeLineSurvives(c, listing, s, recs, p, e);
    } else {
      assert AfterDying(c, s, run, stream, e, written) == Written(c, s, p, e, written);
      TornLineVanishes(c, listing, s, recs, p, e, written);
    }
  }

  lemma WholeLineSurvives(c: Codec, listing: Listing, s: State, recs: Records, p: Path, e: Envelope)
    requires Faithful(c) && Complete(listing) && Represents(c, s, recs) && !Known(recs, e.eventId)
    ensures var files := Written(c, s, p, e, |Line(c, e)|);
            && Open(c, files, listing(files)).Some?
            && Represents(c, Open(c, files, listing(files)).value, WithRecord(recs, p, e))
  {
    var files := Written(c, s, p, e, |Line(c, e)|);
    OneMoreRecord(c, s, recs, p, e);
    WholeFilesHaveNoTails(c, files, WithRecord(recs, p, e));
    OpenRestores(c, files, WithRecord(recs, p, e), listing(files));
  }

  lemma TornLineVanishes(c: Codec, listing: Listing, s: State, recs: Records, p: Path, e: Envelope, n: nat)
    requires Faithful(c) && Complete(listing) && Represents(c, s, recs) && n < |Line(c, e)|
    ensures var files := Written(c, s, p, e, n);
            && Open(c, files, listing(files)).Some?
            && Represents(c, Open(c, files, listing(files)).value, recs[p := RecordsAt(recs, p)])
  {
    var files := Written(c, s, p, e, n);
    NoMoreRecords(recs, p);
    TornAppend(c, s, recs, p, e, n);
    OpenRestores(c, files, recs[p := RecordsAt(recs, p)], listing(files));
  }

  ghost function RecordedRun(c: Codec, recs: Records, actions: seq<Action>): Records
    decreases |actions|
  {
    if actions == [] then recs else RecordedRun(c, Recorded(c, recs, actions[0]), actions[1..])
  }

  /** Crash safety over every run: opening never fails, and bytes, index and records agree
      throughout; no event id is ever stored twice. */
  lemma {:induction false} RunRefines(c: Codec, listing: Listing, s: State, recs: Records, actions: seq<Action>)
    requires Faithful(c) && Complete(listing) && Represents(c, s, recs)
    ensures Run(c, listing, s, actions).Some?
    ensures Represents(c, Run(c, listing, s, actions).value, RecordedRun(c, recs, actions))
    decreases |actions|
  {
    if actions != [] {
      StepRefines(c, listing, s, recs, actions[0]);
      RunRefines(c, listing, Step(c, listing, s, actions[0]).value, Recorded(c, recs, actions[0]), actions[1..]);
    }
  }

  const EMPTY_LOG := State(map[], map[])

  lemma EmptyLogRepresents(c: Codec)
    ensures Represents(c, EMPTY_LOG, map[])
  {
  }

  /** From an empty directory, whatever the process does and wherever it dies, the log opens again. */
  lemma RunFromEmptyRefines(c: Codec, listing: Listing, actions: seq<Action>)
    requires Faithful(c) && Complete(listing)
    ensures Run(c, listing, EMPTY_LOG, actions).Some?
    ensures Represents(c, Run(c, listing, EMPTY_LOG, actions).value, RecordedRun(c, map[], actions))
  {
    EmptyLogRepresents(c);
    RunRefines(c, listing, EMPTY_LOG, map[], actions);
  }

  // ---------------------------------------------------------------- what an acknowledgement is worth

  /** Every file of `a` is in `b`, with its records in the same order and perhaps more after them. */
  ghost predicate Extends(a: Records, b: Records) {
    forall p :: p in a ==> p in b && a[p] <= b[p]
  }

  lemma {:induction false} RecordsOnlyGrow(c: Codec, recs: Records, actions: seq<Action>)
    ensures Extends(recs, RecordedRun(c, recs, actions))
    decreases |actions|
  {
    if actions != [] {
      RecordsOnlyGrow(c, Recorded(c, recs, actions[0]), actions[1..]);
    }
  }

  /** What replaying one file yields. */
  function ReadAt(c: Codec, s: State, p: Path): Option<seq<Envelope>> {
    ReadLines(c, FileAt(s.files, p))
  }

  lemma ReadAtRepresented(c: Codec, s: State, recs: Records, p: Path)
    requires Faithful(c) && Represents(c, s, recs)
    ensures ReadAt(c, s, p) == Some(RecordsAt(recs, p))
  {
    if p in recs {
      ReadBack(c, recs[p]);
    }
  }

  /** What one action does to the records of one file. */
  lemma RecordedAt(c: Codec, recs: Records, a: Action, p: Path)
    ensures var next := Recorded(c, recs, a);
            || RecordsAt(next, p) == RecordsAt(recs, p)
            || (&& (a.Append? || a.Die?) && !Known(recs, a.event.eventId) && p == PathFor(a.runId, a.stream, a.event)
                && RecordsAt(next, p) == RecordsAt(recs, p) + [a.event])
  {
  }

  /** One action, a crash included, leaves every file reading as before, but for the one record in
      flight, which its own file may read at the end when its id was not known. */
  lemma AtMostTheRecordInFlight(c: Codec, listing: Listing, s: State, recs: Records, a: Action, p: Path)
    requires Faithful(c) && Complete(listing) && Represents(c, s, recs)
    ensures Step(c, listing, s, a).Some? && ReadAt(c, s, p).Some?
    ensures var before, after := ReadAt(c, s, p), ReadAt(c, Step(c, listing, s, a).value, p);
            || after == before
            || (&& (a.Append? || a.Die?) && a.event.eventId !in s.index && p == PathFor(a.runId, a.stream, a.event)
                && after == Some(before.value + [a.event]))
  {
    StepRefines(c, listing, s, recs, a);
    var next, more := Step(c, listing, s, a).value, Recorded(c, recs, a);
    ReadAtRepresented(c, s, recs, p);
    ReadAtRepresented(c, next, more, p);
    RecordedAt(c, recs, a, p);
    if RecordsAt(more, p) != RecordsAt(recs, p) {
      NotIndexed(c, s, recs, a.event.eventId);
    }
  }

  lemma NotIndexed(c: Codec, s: State, recs: Records, id: nat)
    requires Represents(c, s, recs) && !Known(recs, id)
    ensures id !in s.index
  {
  }

  /** An acknowledged event is known after every later run, crashes included, so that appending
      it again changes nothing; and replaying its file yields it among the completed records. */
  lemma AcknowledgedForever(c: Codec, listing: Listing, s: State, recs: Records,
                            run: string, stream: Stream, e: Envelope, later: seq<Action>)
    requires Faithful(c) && Complete(listing) && Represents(c, s, recs) && !Known(recs, e.eventId)
    ensures var end := Run(c, listing, s, [Append(run, stream, e)] + later);
            && end.Some?
            && Step(c, listing, end.value, Append(run, stream, e)) == Some(end.value)
            && var p := PathFor(run, stream, e);
               && p in end.value.files
               && ReadLines(c, end.value.files[p]).Some?
               && RecordsAt(recs, p) + [e] <= ReadLines(c, end.value.files[p]).value
  {
    var a, p := Append(run, stream, e), PathFor(run, stream, e);
    var actions := [a] + later;
    assert actions[1..] == later;
    RunRefines(c, listing, s, recs, actions);
    var end := RecordedRun(c, recs, actions);
    var first := Recorded(c, recs, a);
    RecordsOnlyGrow(c, first, later);
    assert first[p] <= end[p];
    assert end[p][|RecordsAt(recs, p)|] == e;
    assert Known(end, e.eventId);
    ReadBack(c, end[p]);
  }

  lemma TwoFilesOneId(c: Codec, listing: Listing, files: Disk, recs: Records, p: Path, q: Path, e: Envelope)
    requires Faithful(c) && Complete(listing) && Stores(c, files, recs)
    requires p in recs && q in recs && p != q && e in recs[p] && e in recs[q]
    ensures Open(c, files, listing(files)) == None
  {
    var recovered, order := RecoverAll(files), listing(files);
    WholeFilesHaveNoTails(c, files, recs);
    RecoveryRestores(c, files, recs);
    ReadBack(c, recs[p]);
    ReadBack(c, recs[q]);
    if Open(c, files, order).Some? {
      IndexAllMeans(c, recovered, order, map[]);
      assert false;
    }
  }

  /** The disk after a log and then another one, opened before it wrote, have both accepted `e`. */
  function BothAppended(c: Codec, s: State, p: Path, q: Path, e: Envelope): Disk {
    var first := Written(c, s, p, e, |Line(c, e)|);
    Written(c, State(first, s.index), q, e, |Line(c, e)|)
  }

  lemma BothStored(c: Codec, s: State, recs: Records, p: Path, q: Path, e: Envelope)
    requires Stores(c, s.files, recs)
    ensures Stores(c, BothAppended(c, s, p, q, e), WithRecord(WithRecord(recs, p, e), q, e))
  {
    OneMoreStored(c, s, recs, p, e);
    OneMoreStored(c, State(Written(c, s, p, e, |Line(c, e)|), s.index), WithRecord(recs, p, e), q, e);
  }

  /** An event stored twice in one file stops no opening; it is read twice. */
  lemma OneFileTwice(c: Codec, listing: Listing, files: Disk, recs: Records, p: Path, e: Envelope)
    requires Faithful(c) && Complete(listing) && IdsOnce(recs) && !Known(recs, e.eventId)
    requires Stores(c, files, WithRecord(WithRecord(recs, p, e), p, e))
    ensures Open(c, files, listing(files)).Some?
    ensures ReadLines(c, FileAt(files, p)) == Some(RecordsAt(recs, p) + [e, e])
  {
    var twice := WithRecord(WithRecord(recs, p, e), p, e);
    assert twice[p] == RecordsAt(recs, p) + [e, e];
    ReadBack(c, twice[p]);
    TwiceIsOneFile(recs, p, e);
    StoredIsRead(c, files, twice);
    OpensReadable(c, files, twice, listing(files));
  }

  lemma StoredIsRead(c: Codec, files: Disk, recs: Records)
    requires Faithful(c) && Stores(c, files, recs)
    ensures Reads(c, RecoverAll(files), recs)
  {
    WholeFilesHaveNoTails(c, files, recs);
    RecoveryRestores(c, files, recs);
    forall q | q in recs ensures ReadLines(c, RecoverAll(files)[q]) == Some(recs[q]) {
      ReadBack(c, recs[q]);
    }
  }

  lemma TwiceIsOneFile(recs: Records, p: Path, e: Envelope)
    requires IdsOnce(recs) && !Known(recs, e.eventId)
    ensures OneFilePerId(WithRecord(WithRecord(recs, p, e), p, e))
  {
    MoreOnce(recs, p, e);
    var once: Records := WithRecord(recs, p, e);
    assert once[p][|RecordsAt(recs, p)|] == e;
  }

  /** The guarantee is for one log over its files. A second log opened before the append has an index
      that misses it, and accepts the event again. The next opening then fails exactly when the two
      name different files, by run or by stream; under one file name the file holds the event twice. */
  lemma TwoLogsMayCorrupt(c: Codec, listing: Listing, s: State, recs: Records,
                          run: string, stream: Stream, otherRun: string, otherStream: Stream, e: Envelope)
    requires Faithful(c) && Complete(listing) && Represents(c, s, recs) && !Known(recs, e.eventId)
    ensures var first := Step(c, listing, s, Append(run, stream, e)).value;
            var second := Step(c, listing, State(first.files, s.index), Append(otherRun, otherStream, e)).value;
            && (Step(c, listing, second, Restart) == None <==> run != otherRun || stream != otherStream)
            && (run == otherRun && stream == otherStream ==>
                  ReadAt(c, second, PathFor(run, stream, e)) == Some(RecordsAt(recs, PathFor(run, stream, e)) + [e, e]))
  {
    var p, q := PathFor(run, stream, e), PathFor(otherRun, otherStream, e);
    var files, twice := BothAppended(c, s, p, q, e), WithRecord(WithRecord(recs, p, e), q, e);
    var first := Step(c, listing, s, Append(run, stream, e)).value;
    var second := Step(c, listing, State(first.files, s.index), Append(otherRun, otherStream, e)).value;
    assert second.files == files;
    BothStored(c, s, recs, p, q, e);
    if p == q {
      OneFileTwice(c, listing, files, recs, p, e);
    } else {
      assert twice[p] == RecordsAt(recs, p) + [e] && twice[q] == RecordsAt(recs, q) + [e];
      TwoFilesOneId(c, listing, files, twice, p, q, e);
    }
  }
}
