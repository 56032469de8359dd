/**
 * A model of DefaultIndexUpdater.fetchAndUpdateIndex: bring a local index up
 * to date with a remote one, either by merging the incremental chunks an
 * incremental handler names, or by stating that the index is already up to
 * date, or by replacing it with the full remote index (".gz", falling back to
 * the legacy ".zip" when loading the ".gz" throws FileNotFoundException).
 *
 * The collaborators (the resource fetcher, the incremental handler, Lucene,
 * the index data reader, date parsing, property loading, the side-effect
 * hooks) are inputs: function values that give each call's outcome. What the
 * updater does is recorded as a trace of actions, so that the order of its
 * steps and the calls it makes can be stated exactly. The specification
 * functions `Load` and `Fetch` give the outcome and the trace; the methods
 * `LoadIndexDirectory` and `FetchAndUpdateIndex` compute them step by step.
 */
module IndexUpdater {

  import opened Wrappers
  import opened IndexDirectory

  /** A java.util.Date, as milliseconds since the epoch; `after` is strict `>`. */
  type Timestamp = int

  /** java.util.Properties: key to value. */
  type Properties = map<string, string>

  /**
   * The names the updater uses. IndexingContext is not part of this model; only
   * the suffixes and the fact that the two timestamp keys differ matter here.
   */
  const IndexFile: string := "nexus-maven-repository-index"
  const PropertiesFile: string := IndexFile + ".properties"
  const TimestampKey: string := "nexus.index.timestamp"
  const LegacyTimestampKey: string := "nexus.index.time"

  /** What ResourceFetcher.retrieve does with one name. */
  datatype Fetched =
    | Retrieved(bytes: seq<Byte>)  // the file was written locally with these bytes
    | NotFound                     // FileNotFoundException
    | TransportError               // any other IOException

  /** The exception a failed step throws. */
  datatype Failure = FileNotFound | IOFailure

  datatype Result<T> = Ok(value: T) | Err(failure: Failure)

  /** A result together with the actions taken to reach it, in order. */
  datatype Outcome<T> = Outcome(result: Result<T>, trace: seq<Action>)

  /**
   * A freshly unpacked index: the documents written, in order, into the new temporary
   * index, and the timestamp the transferred index carries, if any.
   */
  datatype Unpacked = Unpacked(docs: seq<Document>, timestamp: Option<Timestamp>)

  /** The observable steps of an update. */
  datatype Action =
    | Connect                           // fetcher.connect
    | CreateTemp(name: string)          // temporary archive file and unpack directory
    | Retrieve(name: string)            // fetcher.retrieve
    | UnpackData                        // unpackIndexData (".gz" transfer format)
    | UnpackArchive                     // unpackIndexArchive (legacy ".zip" format)
    | Filter                            // filterDirectory
    | Merge(docs: seq<Document>)        // context.merge with these documents
    | Replace(docs: seq<Document>)      // context.replace with these documents
    | SideEffect(index: nat, merge: bool) // sideEffects[index].updateIndex(..., merge)
    | DeleteArchive                     // indexArchive.delete
    | DeleteDirectory                   // deleteDirectory(indexDir)
    | Disconnect                        // fetcher.disconnect

  /**
   * An IndexUpdateSideEffect: given the documents and the merge flag, None when it returns
   * normally, else the exception it throws.
   */
  type Hook = (seq<Document>, bool) -> Option<Failure>

  /**
   * The collaborators' answers. Every step that can throw gives either its value or the
   * exception (`Failure`) it throws, so a FileNotFoundException can come from any of them.
   */
  datatype Collaborators = Collaborators(
    connect: Option<Failure>,                                      // fetcher.connect; Some: what it throws
    disconnect: Option<Failure>,                                   // fetcher.disconnect; Some: what it throws
    fetch: string -> Fetched,                                      // ResourceFetcher.retrieve
    loadProperties: seq<Byte> -> Properties,                       // Properties.load
    parseDate: string -> Option<Timestamp>,                        // SimpleDateFormat in GMT; None: ParseException
    readIndexData: seq<Byte> -> Result<Unpacked>,                  // IndexDataReader writing into a new index
    readZip: seq<Byte> -> Result<seq<ZipEntry>>,                   // ZipInputStream
    storeFiles: map<string, seq<Byte>> -> Option<Failure>,         // unpackDirectory's createOutput / writeBytes
    openIndex: map<string, seq<Byte>> -> Result<seq<Slot>>,        // IndexReader.open on the unzipped index
    copyIo: seq<Document> -> Option<Failure>,                      // copyUpdatedDocuments' writer: open, add, optimize, flush
    readTimestamp: map<string, seq<Byte>> -> Option<Timestamp>,    // IndexUtils.getTimestamp
    stampIndex: (seq<Document>, Option<Timestamp>) -> Option<Failure>, // IndexUtils.updateTimestamp on the new index
    updateDocument: Document -> Document,                          // IndexUtils.updateDocument
    filterIo: seq<Slot> -> Option<Failure>,                        // filterDirectory's own Lucene calls on this index
    apply: (seq<Document>, bool) -> Option<Failure>,               // context.merge / replace
    sideEffects: seq<Hook>,                                        // the registered side effects, in order
    incremental: (Option<Properties>, Properties) -> Option<seq<string>>  // IncrementalHandler
  )

  /** IndexUpdateRequest, with what the updater reads of its indexing context. */
  datatype Request = Request(
    forceFullUpdate: bool,
    documentFilter: Option<Document -> bool>,
    contextTimestamp: Option<Timestamp>,         // context.getTimestamp()
    localPropertiesFile: Option<seq<Byte>>       // the stored remote properties; None: IOException reading it
  )

  // ---------------------------------------------------------------------------
  // Properties and timestamps

  /** getTimestamp: the parsed value of `key`; a missing key or a value that does not parse is None. */
  function GetTimestamp(properties: Properties, key: string, parseDate: string -> Option<Timestamp>): (r: Option<Timestamp>)
    ensures r.Some? <==> key in properties && parseDate(properties[key]).Some?
    ensures r.Some? ==> r == parseDate(properties[key])
  {
    if key in properties then parseDate(properties[key]) else None
  }

  /** loadLocallyStoredRemoteProperties: a file that cannot be read gives None, not an error. */
  function LoadLocallyStoredRemoteProperties(file: Option<seq<Byte>>, load: seq<Byte> -> Properties): (r: Option<Properties>)
    ensures r.None? <==> file.None?
    ensures file.Some? ==> r.value == load(file.value)
  {
    match file
    case None => None
    case Some(bytes) => Some(load(bytes))
  }

  /** The remote timestamp the up-to-date check uses: the canonical key, else the legacy one. */
  function RemoteTimestamp(properties: Properties, parseDate: string -> Option<Timestamp>): Option<Timestamp>
  {
    var stamp := GetTimestamp(properties, TimestampKey, parseDate);
    if stamp.Some? then stamp else GetTimestamp(properties, LegacyTimestampKey, parseDate)
  }

  /** Both timestamps are known and the remote one is not after the local one. */
  predicate UpToDate(remote: Option<Timestamp>, local: Option<Timestamp>)
  {
    remote.Some? && local.Some? && remote.value <= local.value
  }

  /** The legacy key is consulted only when the canonical timestamp is absent. */
  lemma LegacyTimestampIgnored(properties: Properties, parseDate: string -> Option<Timestamp>, legacy: string)
    requires GetTimestamp(properties, TimestampKey, parseDate).Some?
    ensures RemoteTimestamp(properties[LegacyTimestampKey := legacy], parseDate)
         == RemoteTimestamp(properties, parseDate)
         == GetTimestamp(properties, TimestampKey, parseDate)
  {
    assert TimestampKey != LegacyTimestampKey by {
      assert |TimestampKey| != |LegacyTimestampKey|;
    }
  }

  // ---------------------------------------------------------------------------
  // Traces

  /** The actions of `t` that satisfy `p`, in order. */
  function Only(t: seq<Action>, p: Action -> bool): seq<Action>
  {
    if t == [] then [] else (if p(t[0]) then [t[0]] else []) + Only(t[1..], p)
  }

  predicate IsConnection(a: Action) { a.Connect? || a.Disconnect? }
  predicate IsRetrieve(a: Action) { a.Retrieve? }
  predicate IsApply(a: Action) { a.Merge? || a.Replace? }
  predicate IsSideEffect(a: Action) { a.SideEffect? }

  /** The position of each step in loadIndexDirectory's fixed order. */
  function Stage(a: Action): nat
  {
    match a
    case Connect => 0
    case CreateTemp(_) => 1
    case Retrieve(_) => 2
    case UnpackData => 3
    case UnpackArchive => 3
    case Filter => 4
    case Merge(_) => 5
    case Replace(_) => 5
    case SideEffect(_, _) => 6
    case DeleteArchive => 7
    case DeleteDirectory => 8
    case Disconnect => 9
  }

  /** Each step is at a stage no earlier than the one before it. */
  predicate Ordered(t: seq<Action>)
  {
    |t| <= 1 || (Stage(t[0]) <= Stage(t[1]) && Ordered(t[1..]))
  }

  /** Every step of `t` is at a stage from `lo` to `hi`. */
  predicate StagesWithin(t: seq<Action>, lo: nat, hi: nat)
  {
    forall a | a in t :: lo <= Stage(a) <= hi
  }

  /** The calls of the first `n` side effects, in list order, all with the same merge flag. */
  function HookCalls(n: nat, merge: bool): seq<Action>
  {
    seq(n, j requires 0 <= j < n => SideEffect(j, merge))
  }

  /** The names in order, as retrieve actions. */
  function Retrievals(names: seq<string>): seq<Action>
  {
    seq(|names|, i requires 0 <= i < |names| => Retrieve(names[i]))
  }

  lemma {:induction false} OnlyAppend(a: seq<Action>, b: seq<Action>, p: Action -> bool)
    ensures Only(a + b, p) == Only(a, p) + Only(b, p)
  {
    if a != [] {
      assert (a + b)[1..] == a[1..] + b;
      OnlyAppend(a[1..], b, p);
    } else {
      assert a + b == b;
    }
  }

  lemma {:induction false} OnlyNone(t: seq<Action>, p: Action -> bool)
    requires forall a | a in t :: !p(a)
    ensures Only(t, p) == []
  {
    if t != [] {
      assert forall a | a in t[1..] :: a in t;
      OnlyNone(t[1..], p);
    }
  }

  lemma {:induction false} OnlyAll(t: seq<Action>, p: Action -> bool)
    requires forall a | a in t :: p(a)
    ensures Only(t, p) == t
  {
    if t != [] {
      assert forall a | a in t[1..] :: a in t;
      OnlyAll(t[1..], p);
      assert [t[0]] + t[1..] == t;
    }
  }

  lemma OnlyOne(x: Action, p: Action -> bool)
    ensures Only([x], p) == if p(x) then [x] else []
  {
    assert [x][1..] == [];
  }

  lemma {:induction false} OrderedJoin(a: seq<Action>, b: seq<Action>, lo: nat, mid: nat, hi: nat)
    requires lo <= mid <= hi
    requires Ordered(a) && StagesWithin(a, lo, mid)
    requires Ordered(b) && StagesWithin(b, mid, hi)
    ensures Ordered(a + b) && StagesWithin(a + b, lo, hi)
  {
    if |a| == 0 {
      assert a + b == b;
    } else {
      assert forall x | x in a[1..] :: x in a;
      OrderedJoin(a[1..], b, lo, mid, hi);
      assert (a + b)[1..] == a[1..] + b;
      if |a| == 1 && |b| > 0 {
        assert a[0] in a && b[0] in b;
      }
    }
  }

  /** Steps that are all at one stage are in order. */
  lemma {:induction false} OrderedSameStage(t: seq<Action>, k: nat)
    requires StagesWithin(t, k, k)
    ensures Ordered(t)
  {
    if |t| > 1 {
      assert t[0] in t && t[1] in t;
      assert forall x | x in t[1..] :: x in t;
      OrderedSameStage(t[1..], k);
    }
  }

  lemma HookCallsAreSideEffects(n: nat, merge: bool)
    ensures forall a | a in HookCalls(n, merge) :: a.SideEffect? && a.merge == merge
    ensures Ordered(HookCalls(n, merge)) && StagesWithin(HookCalls(n, merge), 6, 6)
  {
    forall a | a in HookCalls(n, merge) ensures a.SideEffect? && a.merge == merge {
      var j :| 0 <= j < n && HookCalls(n, merge)[j] == a;
    }
    OrderedSameStage(HookCalls(n, merge), 6);
  }

  // ---------------------------------------------------------------------------
  // loadIndexDirectory

  /** retrieve: the bytes written locally, or the exception it throws. */
  function Retrieval(c: Collaborators, name: string): Result<seq<Byte>>
  {
    match c.fetch(name)
    case Retrieved(bytes) => Ok(bytes)
    case NotFound => Err(FileNotFound)
    case TransportError => Err(IOFailure)
  }

  predicate EndsWith(s: string, suffix: string)
  {
    |suffix| <= |s| && s[|s| - |suffix|..] == suffix
  }

  /**
   * unpackIndexArchive: the legacy archive's flat entries are unpacked into a raw
   * index, whose live documents are copied, updated, into the destination; the raw
   * index's timestamp is stamped onto the destination. The first step to throw ends it.
   */
  function ArchiveContents(c: Collaborators, bytes: seq<Byte>): Result<Unpacked>
  {
    match c.readZip(bytes)
    case Err(f) => Err(f)
    case Ok(entries) =>
      var files := Extracted(entries);
      if c.storeFiles(files).Some? then Err(c.storeFiles(files).value)
      else
        match c.openIndex(files)
        case Err(f) => Err(f)
        case Ok(slots) =>
          var written := Updated(LiveDocs(slots), c.updateDocument);
          if c.copyIo(written).Some? then Err(c.copyIo(written).value)
          else
            var timestamp := c.readTimestamp(files);
            match c.stampIndex(written, timestamp)
            case Some(f) => Err(f)
            case None => Ok(Unpacked(written, timestamp))
  }

  /** The unpack step: nothing for an empty archive, else by transfer format, chosen by the name's suffix. */
  function Unpack(c: Collaborators, name: string, bytes: seq<Byte>): Outcome<Unpacked>
  {
    if |bytes| == 0 then Outcome(Ok(Unpacked([], None)), [])
    else if EndsWith(name, ".gz") then Outcome(c.readIndexData(bytes), [UnpackData])
    else Outcome(ArchiveContents(c, bytes), [UnpackArchive])
  }

  /** The position of the first side effect that throws, or |hooks| when none does. */
  function FirstFailure(hooks: seq<Hook>, docs: seq<Document>, merge: bool): (k: nat)
    ensures k <= |hooks|
    ensures forall j | 0 <= j < k :: hooks[j](docs, merge).None?
    ensures k < |hooks| ==> hooks[k](docs, merge).Some?
  {
    if hooks == [] then 0
    else if hooks[0](docs, merge).Some? then 0
    else 1 + FirstFailure(hooks[1..], docs, merge)
  }

  /**
   * The documents that reach merge/replace: those of the new index (written with create=true,
   * so it has no deleted slots), filtered if a filter is set.
   */
  function Applicable(req: Request, u: Unpacked): seq<Document>
  {
    match req.documentFilter
    case Some(accept) => LiveDocs(Filtered(Fresh(u.docs), accept))
    case None => u.docs
  }

  /** What filterDirectory's own Lucene calls throw, when a filter is set. */
  function FilterFailure(c: Collaborators, req: Request, u: Unpacked): Option<Failure>
  {
    if req.documentFilter.Some? then c.filterIo(Fresh(u.docs)) else None
  }

  /** The filter step, present exactly when the request carries a filter. */
  function Filtering(req: Request): seq<Action>
  {
    if req.documentFilter.Some? then [Filter] else []
  }

  /** context.merge or context.replace, by the merge flag. */
  function Applying(merge: bool, docs: seq<Document>): Action
  {
    if merge then Merge(docs) else Replace(docs)
  }

  /** How many side effects run: none if merge/replace threw, else up to and including the first that throws. */
  function HooksRun(c: Collaborators, docs: seq<Document>, merge: bool): (m: nat)
    ensures m <= |c.sideEffects|
  {
    var k := FirstFailure(c.sideEffects, docs, merge);
    if c.apply(docs, merge).Some? then 0 else if k < |c.sideEffects| then k + 1 else k
  }

  /** What merge/replace or the first side effect to throw throws, if either does. */
  function ApplyFailure(c: Collaborators, docs: seq<Document>, merge: bool): Option<Failure>
  {
    var k := FirstFailure(c.sideEffects, docs, merge);
    if c.apply(docs, merge).Some? then c.apply(docs, merge)
    else if k < |c.sideEffects| then c.sideEffects[k](docs, merge)
    else None
  }

  /**
   * Filter; unless that throws, exactly one of merge or replace, then the side effects in
   * order. The first exception thrown is the result.
   */
  function Apply(c: Collaborators, req: Request, merge: bool, u: Unpacked): Outcome<Option<Timestamp>>
  {
    match FilterFailure(c, req, u)
    case Some(f) => Outcome(Err(f), Filtering(req))
    case None =>
      var notified := Notified(c, merge, Applicable(req, u), u.timestamp);
      Outcome(notified.result, Filtering(req) + notified.trace)
  }

  /** Merge or replace with `docs`, then the side effects; the first exception thrown is the result. */
  function Notified(c: Collaborators, merge: bool, docs: seq<Document>, timestamp: Option<Timestamp>)
    : Outcome<Option<Timestamp>>
  {
    Outcome(match ApplyFailure(c, docs, merge) case Some(f) => Err(f) case None => Ok(timestamp),
            [Applying(merge, docs)] + HookCalls(HooksRun(c, docs, merge), merge))
  }

  /** Retrieve, then unpack what was retrieved. */
  function Unpacking(c: Collaborators, name: string): Outcome<Unpacked>
  {
    match Retrieval(c, name)
    case Err(f) => Outcome(Err(f), [])
    case Ok(bytes) => Unpack(c, name, bytes)
  }

  /** Filter, merge or replace, and run the side effects on what was unpacked, if that succeeded. */
  function Applied(c: Collaborators, req: Request, merge: bool, name: string): Outcome<Option<Timestamp>>
  {
    match Unpacking(c, name).result
    case Err(f) => Outcome(Err(f), [])
    case Ok(u) => Apply(c, req, merge, u)
  }

  /**
   * loadIndexDirectory(merge, name): create the temporary files, retrieve, unpack,
   * filter, merge or replace, run the side effects; delete the temporary archive and
   * directory whatever happened. The result is the unpacked index's timestamp.
   */
  function Load(c: Collaborators, req: Request, merge: bool, name: string): (o: Outcome<Option<Timestamp>>)
    ensures |o.trace| >= 4 && o.trace[..2] == [CreateTemp(name), Retrieve(name)]
    ensures o.trace[|o.trace| - 2..] == [DeleteArchive, DeleteDirectory]
    ensures c.fetch(name).NotFound? ==> o.result == Err(FileNotFound)
    ensures c.fetch(name).TransportError? ==> o.result == Err(IOFailure)
    ensures c.fetch(name) == Retrieved([]) && o.result.Ok? ==> o.result.value.None?
  {
    Outcome(Applied(c, req, merge, name).result,
            [CreateTemp(name), Retrieve(name)] + Unpacking(c, name).trace + Applied(c, req, merge, name).trace
            + [DeleteArchive, DeleteDirectory])
  }

  /** Merge or replace, then the side effects: in stage order, one apply, the hooks that ran. */
  lemma NotifiedShape(c: Collaborators, merge: bool, docs: seq<Document>, timestamp: Option<Timestamp>)
    ensures var t := Notified(c, merge, docs, timestamp).trace;
            && Ordered(t) && StagesWithin(t, 5, 6)
            && Only(t, IsApply) == [Applying(merge, docs)]
            && Only(t, IsSideEffect) == HookCalls(HooksRun(c, docs, merge), merge)
  {
    ApplyThenHooks(Applying(merge, docs), HooksRun(c, docs, merge), merge);
  }

  lemma {:induction false} ApplyThenHooks(x: Action, m: nat, merge: bool)
    requires IsApply(x)
    ensures Ordered([x] + HookCalls(m, merge)) && StagesWithin([x] + HookCalls(m, merge), 5, 6)
    ensures Only([x] + HookCalls(m, merge), IsApply) == [x]
    ensures Only([x] + HookCalls(m, merge), IsSideEffect) == HookCalls(m, merge)
  {
    HookCallsAreSideEffects(m, merge);
    OrderedJoin([x], HookCalls(m, merge), 5, 5, 6);
    OnlyAppend([x], HookCalls(m, merge), IsApply);
    OnlyAppend([x], HookCalls(m, merge), IsSideEffect);
    OnlyOne(x, IsApply);
    OnlyOne(x, IsSideEffect);
    OnlyNone(HookCalls(m, merge), IsApply);
    OnlyAll(HookCalls(m, merge), IsSideEffect);
  }

  /** The filter step in front of merge/replace and the side effects changes neither. */
  lemma {:induction false} AfterFiltering(f: seq<Action>, t: seq<Action>)
    requires f == [] || f == [Filter]
    requires Ordered(t) && StagesWithin(t, 5, 6)
    ensures Ordered(f + t) && StagesWithin(f + t, 4, 6)
    ensures Only(f + t, IsApply) == Only(t, IsApply)
    ensures Only(f + t, IsSideEffect) == Only(t, IsSideEffect)
  {
    OrderedJoin(f, t, 4, 5, 6);
    OnlyAppend(f, t, IsApply);
    OnlyAppend(f, t, IsSideEffect);
    OnlyNone(f, IsApply);
    OnlyNone(f, IsSideEffect);
  }

  /** The filter step alone, when it throws. */
  lemma FilteringOnly(req: Request)
    ensures Ordered(Filtering(req)) && StagesWithin(Filtering(req), 4, 6)
    ensures Only(Filtering(req), IsApply) == [] && Only(Filtering(req), IsSideEffect) == []
  {
    OnlyNone(Filtering(req), IsApply);
    OnlyNone(Filtering(req), IsSideEffect);
  }

  /** An Apply trace is in stage order and lies between the unpack step and the cleanup. */
  lemma ApplyOrdered(c: Collaborators, req: Request, merge: bool, u: Unpacked)
    ensures Ordered(Apply(c, req, merge, u).trace)
    ensures StagesWithin(Apply(c, req, merge, u).trace, 4, 6)
  {
    ApplyParts(c, req, merge, u);
  }

  /** An Apply trace: the filter step alone if it throws, else followed by merge/replace and the side effects. */
  lemma ApplyParts(c: Collaborators, req: Request, merge: bool, u: Unpacked)
    ensures Ordered(Apply(c, req, merge, u).trace) && StagesWithin(Apply(c, req, merge, u).trace, 4, 6)
    ensures FilterFailure(c, req, u).Some? ==>
              Only(Apply(c, req, merge, u).trace, IsApply) == [] && Only(Apply(c, req, merge, u).trace, IsSideEffect) == []
    ensures FilterFailure(c, req, u).None? ==>
              var n := Notified(c, merge, Applicable(req, u), u.timestamp);
              && Only(Apply(c, req, merge, u).trace, IsApply) == Only(n.trace, IsApply)
              && Only(Apply(c, req, merge, u).trace, IsSideEffect) == Only(n.trace, IsSideEffect)
              && Apply(c, req, merge, u).result == n.result
  {
    if FilterFailure(c, req, u).None? {
      var n := Notified(c, merge, Applicable(req, u), u.timestamp);
      NotifiedShape(c, merge, Applicable(req, u), u.timestamp);
      AfterFiltering(Filtering(req), n.trace);
    } else {
      FilteringOnly(req);
    }
  }

  /**
   * An Apply trace holds exactly one merge or replace, of the filtered documents, by the merge
   * flag, unless the filter step throws, and then none.
   */
  lemma ApplyAppliesOnce(c: Collaborators, req: Request, merge: bool, u: Unpacked)
    ensures Only(Apply(c, req, merge, u).trace, IsApply)
         == if FilterFailure(c, req, u).None? then [Applying(merge, Applicable(req, u))] else []
  {
    ApplyParts(c, req, merge, u);
    NotifiedShape(c, merge, Applicable(req, u), u.timestamp);
  }

  /** The side effects of an Apply run in list order, and all of them when it succeeds. */
  lemma ApplyRunsHooks(c: Collaborators, req: Request, merge: bool, u: Unpacked)
    ensures Only(Apply(c, req, merge, u).trace, IsSideEffect) <= HookCalls(|c.sideEffects|, merge)
    ensures Apply(c, req, merge, u).result.Ok? ==>
              Only(Apply(c, req, merge, u).trace, IsSideEffect) == HookCalls(|c.sideEffects|, merge)
  {
    ApplyParts(c, req, merge, u);
    var docs := Applicable(req, u);
    NotifiedShape(c, merge, docs, u.timestamp);
    HookCallsPrefix(HooksRun(c, docs, merge), |c.sideEffects|, merge);
  }

  lemma HookCallsPrefix(m: nat, n: nat, merge: bool)
    requires m <= n
    ensures HookCalls(m, merge) <= HookCalls(n, merge)
  {
  }

  /**
   * An Apply succeeds, with the unpacked index's timestamp, exactly when the filter step,
   * merge/replace and every side effect return normally. Otherwise it fails with what the
   * first of them to throw threw, whatever kind of exception that is.
   */
  lemma ApplySucceeds(c: Collaborators, req: Request, merge: bool, u: Unpacked)
    ensures var docs := Applicable(req, u);
            Apply(c, req, merge, u).result.Ok?
            <==> FilterFailure(c, req, u).None? && c.apply(docs, merge).None?
                 && forall j | 0 <= j < |c.sideEffects| :: c.sideEffects[j](docs, merge).None?
    ensures Apply(c, req, merge, u).result.Ok? ==> Apply(c, req, merge, u).result.value == u.timestamp
    ensures FilterFailure(c, req, u).Some? ==> Apply(c, req, merge, u).result == Err(FilterFailure(c, req, u).value)
    ensures var docs := Applicable(req, u);
            FilterFailure(c, req, u).None? && c.apply(docs, merge).Some?
            ==> Apply(c, req, merge, u).result == Err(c.apply(docs, merge).value)
    ensures var docs := Applicable(req, u);
            forall k | 0 <= k < |c.sideEffects| ::
              FilterFailure(c, req, u).None? && c.apply(docs, merge).None?
              && (forall j | 0 <= j < k :: c.sideEffects[j](docs, merge).None?) && c.sideEffects[k](docs, merge).Some?
              ==> Apply(c, req, merge, u).result == Err(c.sideEffects[k](docs, merge).value)
  {
    var docs := Applicable(req, u);
    var n := FirstFailure(c.sideEffects, docs, merge);
    assert FilterFailure(c, req, u).None? ==> Apply(c, req, merge, u).result == Notified(c, merge, docs, u.timestamp).result;
    forall k | 0 <= k < |c.sideEffects| && (forall j | 0 <= j < k :: c.sideEffects[j](docs, merge).None?)
                                        && c.sideEffects[k](docs, merge).Some?
      ensures k == n
    {
    }
  }

  /**
   * The documents merge/replace receives are exactly the unpacked ones the filter accepts, in
   * order. filterDirectory's loop as written, bounded by numDocs, gives the same documents here,
   * because the index it filters has just been written and has no deleted slots.
   */
  lemma ApplicableAccepted(req: Request, u: Unpacked)
    ensures req.documentFilter.Some? ==>
              && Applicable(req, u) == Select(u.docs, req.documentFilter.value)
              && (forall d | d in Applicable(req, u) :: req.documentFilter.value(d))
              && Applicable(req, u) == LiveDocs(FilteredAsWritten(Fresh(u.docs), req.documentFilter.value))
    ensures req.documentFilter.None? ==> Applicable(req, u) == u.docs
  {
    if req.documentFilter.Some? {
      var accept := req.documentFilter.value;
      FreshLiveDocs(u.docs);
      FilteredLiveDocs(Fresh(u.docs), accept);
      SelectAccepts(u.docs, accept);
      FilterAsWrittenAgreesWithoutDeletions(Fresh(u.docs), accept);
    }
  }

  lemma UnpackingOrdered(c: Collaborators, name: string)
    ensures Ordered(Unpacking(c, name).trace) && StagesWithin(Unpacking(c, name).trace, 3, 3)
  {
  }

  lemma AppliedOrdered(c: Collaborators, req: Request, merge: bool, name: string)
    ensures Ordered(Applied(c, req, merge, name).trace) && StagesWithin(Applied(c, req, merge, name).trace, 4, 6)
  {
    if Unpacking(c, name).result.Ok? {
      ApplyOrdered(c, req, merge, Unpacking(c, name).result.value);
    }
  }

  /** The four parts of a load's trace, each within its stages, make an ordered trace. */
  lemma LoadParts(head: seq<Action>, unpacking: seq<Action>, applying: seq<Action>, tail: seq<Action>)
    requires Ordered(head) && StagesWithin(head, 1, 2)
    requires Ordered(unpacking) && StagesWithin(unpacking, 3, 3)
    requires Ordered(applying) && StagesWithin(applying, 4, 6)
    requires Ordered(tail) && StagesWithin(tail, 7, 8)
    ensures Ordered(head + unpacking + applying + tail) && StagesWithin(head + unpacking + applying + tail, 1, 8)
    ensures StagesWithin(unpacking + applying + tail, 3, 8)
  {
    OrderedJoin(head, unpacking, 1, 3, 3);
    OrderedJoin(head + unpacking, applying, 1, 3, 6);
    OrderedJoin(head + unpacking + applying, tail, 1, 6, 8);
    OrderedJoin(unpacking, applying, 3, 3, 6);
    OrderedJoin(unpacking + applying, tail, 3, 6, 8);
  }

  /** The steps of a load after its retrieve: unpack, apply, clean up. */
  function AfterRetrieve(c: Collaborators, req: Request, merge: bool, name: string): seq<Action>
  {
    Unpacking(c, name).trace + Applied(c, req, merge, name).trace + [DeleteArchive, DeleteDirectory]
  }

  lemma LoadTrace(c: Collaborators, req: Request, merge: bool, name: string)
    ensures var t := [CreateTemp(name), Retrieve(name)] + Unpacking(c, name).trace
                     + Applied(c, req, merge, name).trace + [DeleteArchive, DeleteDirectory];
            Ordered(t) && StagesWithin(t, 1, 8)
    ensures StagesWithin(AfterRetrieve(c, req, merge, name), 3, 8)
  {
    UnpackingOrdered(c, name);
    AppliedOrdered(c, req, merge, name);
    LoadParts([CreateTemp(name), Retrieve(name)], Unpacking(c, name).trace, Applied(c, req, merge, name).trace,
              [DeleteArchive, DeleteDirectory]);
  }

  /**
   * A load's steps come in loadIndexDirectory's fixed order (create, retrieve, unpack,
   * filter, merge or replace, side effects, delete the archive, delete the directory).
   */
  lemma LoadOrdered(c: Collaborators, req: Request, merge: bool, name: string)
    ensures Ordered(Load(c, req, merge, name).trace)
    ensures StagesWithin(Load(c, req, merge, name).trace, 1, 8)
  {
    LoadTrace(c, req, merge, name);
  }

  /** No step of a trace between `lo` and `hi` is of a kind whose stage lies outside that range. */
  lemma {:induction false} OnlyOutsideStages(t: seq<Action>, lo: nat, hi: nat, p: Action -> bool)
    requires StagesWithin(t, lo, hi)
    requires || (p == IsConnection && 1 <= lo && hi <= 8)
             || (p == IsRetrieve && 3 <= lo)
             || (p == IsApply && (hi < 5 || 5 < lo))
             || (p == IsSideEffect && (hi < 6 || 6 < lo))
    ensures Only(t, p) == []
  {
    OnlyNone(t, p);
  }

  lemma {:induction false} RetrieveFirst(name: string, rest: seq<Action>)
    requires StagesWithin(rest, 3, 8)
    ensures Only([CreateTemp(name), Retrieve(name)] + rest, IsRetrieve) == [Retrieve(name)]
  {
    assert [CreateTemp(name), Retrieve(name)] == [CreateTemp(name)] + [Retrieve(name)];
    OnlyAppend([CreateTemp(name), Retrieve(name)], rest, IsRetrieve);
    OnlyAppend([CreateTemp(name)], [Retrieve(name)], IsRetrieve);
    OnlyOne(CreateTemp(name), IsRetrieve);
    OnlyOne(Retrieve(name), IsRetrieve);
    OnlyOutsideStages(rest, 3, 8, IsRetrieve);
  }

  /** A load retrieves its own file once and nothing else. */
  lemma LoadRetrievesOnce(c: Collaborators, req: Request, merge: bool, name: string)
    ensures Only(Load(c, req, merge, name).trace, IsRetrieve) == [Retrieve(name)]
  {
    LoadTrace(c, req, merge, name);
    LoadSplit(c, req, merge, name);
    RetrieveFirst(name, AfterRetrieve(c, req, merge, name));
  }

  lemma LoadSplit(c: Collaborators, req: Request, merge: bool, name: string)
    ensures Load(c, req, merge, name).trace == [CreateTemp(name), Retrieve(name)] + AfterRetrieve(c, req, merge, name)
  {
    Regroup([CreateTemp(name), Retrieve(name)], Unpacking(c, name).trace, Applied(c, req, merge, name).trace,
            [DeleteArchive, DeleteDirectory]);
  }

  lemma Regroup(a: seq<Action>, b: seq<Action>, c: seq<Action>, d: seq<Action>)
    ensures a + b + c + d == a + (b + c + d)
  {
  }

  /** A load does not touch the connection. */
  lemma LoadKeepsConnection(c: Collaborators, req: Request, merge: bool, name: string)
    ensures Only(Load(c, req, merge, name).trace, IsConnection) == []
  {
    LoadOrdered(c, req, merge, name);
    OnlyOutsideStages(Load(c, req, merge, name).trace, 1, 8, IsConnection);
  }

  /** Of four parts, only the third holds steps of kind `p`. */
  lemma {:induction false} OnlyThird(head: seq<Action>, unpacking: seq<Action>, applying: seq<Action>, tail: seq<Action>,
                                     p: Action -> bool)
    requires p == IsApply || p == IsSideEffect
    requires StagesWithin(head, 1, 2) && StagesWithin(unpacking, 3, 3) && StagesWithin(tail, 7, 8)
    ensures Only(head + unpacking + applying + tail, p) == Only(applying, p)
  {
    OnlyAppend(head, unpacking, p);
    OnlyAppend(head + unpacking, applying, p);
    OnlyAppend(head + unpacking + applying, tail, p);
    OnlyOutsideStages(head, 1, 2, p);
    OnlyOutsideStages(unpacking, 3, 3, p);
    OnlyOutsideStages(tail, 7, 8, p);
  }

  /** What a load applies and which side effects it runs is what its Apply step does. */
  lemma LoadOnly(c: Collaborators, req: Request, merge: bool, name: string, p: Action -> bool)
    requires p == IsApply || p == IsSideEffect
    ensures Only(Load(c, req, merge, name).trace, p) == Only(Applied(c, req, merge, name).trace, p)
  {
    UnpackingOrdered(c, name);
    OnlyThird([CreateTemp(name), Retrieve(name)], Unpacking(c, name).trace, Applied(c, req, merge, name).trace,
              [DeleteArchive, DeleteDirectory], p);
  }

  /** The load gets as far as merge/replace: retrieving, unpacking and filtering returned normally. */
  predicate ReachesApply(c: Collaborators, req: Request, name: string)
  {
    Unpacking(c, name).result.Ok? && FilterFailure(c, req, Unpacking(c, name).result.value).None?
  }

  /**
   * A load merges or replaces at most once, exactly once when it gets as far as applying,
   * with the documents the filter accepts; merge exactly when the flag says so.
   */
  lemma LoadAppliesOnce(c: Collaborators, req: Request, merge: bool, name: string)
    ensures Only(Load(c, req, merge, name).trace, IsApply)
         == if ReachesApply(c, req, name)
            then [Applying(merge, Applicable(req, Unpacking(c, name).result.value))]
            else []
    ensures Load(c, req, merge, name).result.Ok? ==> |Only(Load(c, req, merge, name).trace, IsApply)| == 1
    ensures forall a | a in Only(Load(c, req, merge, name).trace, IsApply) :: a.Merge? == merge
    ensures req.documentFilter.Some? && Unpacking(c, name).result.Ok? ==> Filter in Load(c, req, merge, name).trace
  {
    LoadOnly(c, req, merge, name, IsApply);
    if Unpacking(c, name).result.Ok? {
      ApplyAppliesOnce(c, req, merge, Unpacking(c, name).result.value);
      assert Filtering(req) <= Applied(c, req, merge, name).trace;
    } else {
      OnlyNone([], IsApply);
    }
  }

  /** The side effects run in list order, each with the load's merge flag, and all of them when the load succeeds. */
  lemma LoadRunsHooks(c: Collaborators, req: Request, merge: bool, name: string)
    ensures Only(Load(c, req, merge, name).trace, IsSideEffect) <= HookCalls(|c.sideEffects|, merge)
    ensures Load(c, req, merge, name).result.Ok? ==>
              Only(Load(c, req, merge, name).trace, IsSideEffect) == HookCalls(|c.sideEffects|, merge)
  {
    LoadOnly(c, req, merge, name, IsSideEffect);
    if Unpacking(c, name).result.Ok? {
      ApplyRunsHooks(c, req, merge, Unpacking(c, name).result.value);
    } else {
      OnlyNone([], IsSideEffect);
    }
  }

  // ---------------------------------------------------------------------------
  // fetchAndUpdateIndex

  const GzFile: string := IndexFile + ".gz"
  const ZipFile: string := IndexFile + ".zip"

  /** A load of one named chunk: its outcome for each name. */
  type ChunkLoad = string -> Outcome<Option<Timestamp>>

  /** The chunk load of the incremental branch: loadIndexDirectory with merge set. */
  function IncrementalLoad(c: Collaborators, req: Request): ChunkLoad
  {
    name => Load(c, req, true, name)
  }

  /** Load each named chunk in list order; the first failure propagates and ends the loop. */
  function LoadAll(load: ChunkLoad, files: seq<string>): Outcome<()>
    decreases |files|
  {
    if files == [] then Outcome(Ok(()), [])
    else
      var first := load(files[0]);
      if first.result.Err? then Outcome(Err(first.result.failure), first.trace)
      else
        var rest := LoadAll(load, files[1..]);
        Outcome(rest.result, first.trace + rest.trace)
  }

  /** The incremental branch: merge each named chunk in list order; the first failure propagates. */
  function LoadEach(c: Collaborators, req: Request, files: seq<string>): Outcome<()>
  {
    LoadAll(IncrementalLoad(c, req), files)
  }

  /** The position of the first name whose load fails, or |files| when none does. */
  function FirstFailing(load: ChunkLoad, files: seq<string>): (k: nat)
    ensures k <= |files|
    ensures forall j | 0 <= j < k :: load(files[j]).result.Ok?
    ensures k < |files| ==> load(files[k]).result.Err?
    decreases |files|
  {
    if files == [] then 0
    else if load(files[0]).result.Err? then 0
    else 1 + FirstFailing(load, files[1..])
  }

  /** The position of the first named chunk whose incremental load fails, or |files| when none does. */
  function FirstFailedLoad(c: Collaborators, req: Request, files: seq<string>): (k: nat)
    ensures k <= |files|
    ensures forall j | 0 <= j < k :: Load(c, req, true, files[j]).result.Ok?
    ensures k < |files| ==> Load(c, req, true, files[k]).result.Err?
  {
    FirstFailing(IncrementalLoad(c, req), files)
  }

  /** The full update: replace from the ".gz" index, or from the ".zip" one when the ".gz" load throws FileNotFoundException. */
  function FullLoad(c: Collaborators, req: Request): Outcome<Option<Timestamp>>
  {
    var gz := Load(c, req, false, GzFile);
    if gz.result == Err(FileNotFound) then
      var zip := Load(c, req, false, ZipFile);
      Outcome(zip.result, gz.trace + zip.trace)
    else gz
  }

  /** The part of fetchAndUpdateIndex between connect and the disconnect in its finally block. */
  function Connected(c: Collaborators, req: Request): Outcome<Option<Timestamp>>
  {
    if req.forceFullUpdate then FullLoad(c, req)
    else
      var local := LoadLocallyStoredRemoteProperties(req.localPropertiesFile, c.loadProperties);
      match Retrieval(c, PropertiesFile)
      case Err(f) => Outcome(Err(f), [Retrieve(PropertiesFile)])
      case Ok(bytes) =>
        var remote := c.loadProperties(bytes);
        var stamp := GetTimestamp(remote, TimestampKey, c.parseDate);
        var files := if stamp.Some? then c.incremental(local, remote) else None;
        var rest :=
          if files.Some? then
            var merged := LoadEach(c, req, files.value);
            Outcome(if merged.result.Ok? then Ok(stamp) else Err(merged.result.failure), merged.trace)
          else if UpToDate(RemoteTimestamp(remote, c.parseDate), req.contextTimestamp) then Outcome(Ok(None), [])
          else FullLoad(c, req);
        Outcome(rest.result, [Retrieve(PropertiesFile)] + rest.trace)
  }

  /** The finally block: an exception disconnect throws replaces the outcome of the body. */
  function Finally<T>(disconnect: Option<Failure>, r: Result<T>): Result<T>
  {
    match disconnect
    case Some(f) => Err(f)
    case None => r
  }

  /**
   * fetchAndUpdateIndex: the new index timestamp (None when the index was already up
   * to date, or when the loaded index carries none), or the failure that escaped.
   * connect is called before the try block, so when it throws nothing else happens.
   */
  function Fetch(c: Collaborators, req: Request): (o: Outcome<Option<Timestamp>>)
    ensures |o.trace| >= 1 && o.trace[0] == Connect
    ensures c.connect.None? ==> |o.trace| >= 2 && o.trace[|o.trace| - 1] == Disconnect
  {
    match c.connect
    case Some(f) => Outcome(Err(f), [Connect])
    case None =>
      var connected := Connected(c, req);
      Outcome(Finally(c.disconnect, connected.result), [Connect] + connected.trace + [Disconnect])
  }

  lemma RetrievalsCons(files: seq<string>)
    requires files != []
    ensures Retrievals(files) == [Retrieve(files[0])] + Retrievals(files[1..])
  {
  }

  lemma RetrievalsPrefix(files: seq<string>, n: nat)
    requires n <= |files|
    ensures Retrievals(files[..n]) == Retrievals(files)[..n]
  {
  }

  /** One load's retrieve followed by the rest's. */
  lemma {:induction false} RetrievesStep(first: seq<Action>, rest: seq<Action>, name: string)
    requires Only(first, IsRetrieve) == [Retrieve(name)]
    ensures Only(first + rest, IsRetrieve) == [Retrieve(name)] + Only(rest, IsRetrieve)
  {
    OnlyAppend(first, rest, IsRetrieve);
  }

  /** The loop retrieves the names in list order, up to and including the first whose load fails. */
  lemma {:induction false} LoadAllRetrieves(load: ChunkLoad, files: seq<string>)
    requires forall name :: Only(load(name).trace, IsRetrieve) == [Retrieve(name)]
    ensures LoadAll(load, files).result.Ok? ==> Only(LoadAll(load, files).trace, IsRetrieve) == Retrievals(files)
    ensures LoadAll(load, files).result.Err? ==>
              && FirstFailing(load, files) < |files|
              && Only(LoadAll(load, files).trace, IsRetrieve) == Retrievals(files[..FirstFailing(load, files) + 1])
    decreases |files|
  {
    if files == [] {
      OnlyNone([], IsRetrieve);
    } else {
      var first := load(files[0]);
      if first.result.Ok? {
        var rest := LoadAll(load, files[1..]);
        LoadAllRetrieves(load, files[1..]);
        RetrievesStep(first.trace, rest.trace, files[0]);
        if rest.result.Ok? {
          RetrievalsCons(files);
        } else {
          var k := FirstFailing(load, files[1..]);
          RetrievalsCons(files[..k + 2]);
          assert files[..k + 2][1..] == files[1..][..k + 1];
        }
      } else {
        assert Retrievals(files[..1]) == [Retrieve(files[0])];
      }
    }
  }

  /** The loop succeeds exactly when every load does; otherwise it fails as the first failing load did. */
  lemma {:induction false} LoadAllSucceeds(load: ChunkLoad, files: seq<string>)
    ensures LoadAll(load, files).result.Ok? <==> FirstFailing(load, files) == |files|
    ensures LoadAll(load, files).result.Err? ==>
              load(files[FirstFailing(load, files)]).result == Err(LoadAll(load, files).result.failure)
    decreases |files|
  {
    if files != [] && load(files[0]).result.Ok? {
      LoadAllSucceeds(load, files[1..]);
      if LoadAll(load, files[1..]).result.Err? {
        assert files[1..][FirstFailing(load, files[1..])] == files[FirstFailing(load, files)];
      }
    }
  }

  /** When no load replaces or touches the connection, neither does the loop. */
  lemma {:induction false} LoadAllMerges(load: ChunkLoad, files: seq<string>)
    requires forall name :: forall a | a in Only(load(name).trace, IsApply) :: a.Merge?
    requires forall name :: Only(load(name).trace, IsConnection) == []
    ensures forall a | a in Only(LoadAll(load, files).trace, IsApply) :: a.Merge?
    ensures Only(LoadAll(load, files).trace, IsConnection) == []
    decreases |files|
  {
    if files == [] {
      OnlyNone([], IsApply);
      OnlyNone([], IsConnection);
    } else {
      var first := load(files[0]);
      if first.result.Ok? {
        var rest := LoadAll(load, files[1..]);
        LoadAllMerges(load, files[1..]);
        OnlyAppend(first.trace, rest.trace, IsApply);
        OnlyAppend(first.trace, rest.trace, IsConnection);
      }
    }
  }

  /** Each incremental chunk load retrieves exactly its own name. */
  lemma IncrementalLoadRetrievesOnce(c: Collaborators, req: Request)
    ensures forall name :: Only(IncrementalLoad(c, req)(name).trace, IsRetrieve) == [Retrieve(name)]
  {
    forall name ensures Only(IncrementalLoad(c, req)(name).trace, IsRetrieve) == [Retrieve(name)] {
      LoadRetrievesOnce(c, req, true, name);
    }
  }

  /**
   * The incremental loop retrieves the named files in list order, up to and including the
   * first whose load fails, and all of them when it succeeds.
   */
  lemma LoadEachRetrieves(c: Collaborators, req: Request, files: seq<string>)
    ensures Only(LoadEach(c, req, files).trace, IsRetrieve) <= Retrievals(files)
    ensures LoadEach(c, req, files).result.Ok? ==> Only(LoadEach(c, req, files).trace, IsRetrieve) == Retrievals(files)
    ensures LoadEach(c, req, files).result.Err? ==>
              && FirstFailedLoad(c, req, files) < |files|
              && Only(LoadEach(c, req, files).trace, IsRetrieve) == Retrievals(files[..FirstFailedLoad(c, req, files) + 1])
  {
    IncrementalLoadRetrievesOnce(c, req);
    LoadAllRetrieves(IncrementalLoad(c, req), files);
    if LoadEach(c, req, files).result.Err? {
      RetrievalsPrefix(files, FirstFailedLoad(c, req, files) + 1);
    }
  }

  /**
   * The incremental loop succeeds exactly when every load does; otherwise it fails as the
   * first failing load did, after every earlier load succeeded.
   */
  lemma LoadEachSucceeds(c: Collaborators, req: Request, files: seq<string>)
    ensures LoadEach(c, req, files).result.Ok? <==>
              forall i | 0 <= i < |files| :: Load(c, req, true, files[i]).result.Ok?
    ensures LoadEach(c, req, files).result.Err? ==>
              && FirstFailedLoad(c, req, files) < |files|
              && Load(c, req, true, files[FirstFailedLoad(c, req, files)]).result
                 == Err(LoadEach(c, req, files).result.failure)
  {
    LoadAllSucceeds(IncrementalLoad(c, req), files);
  }

  /** The incremental loop only merges, never replaces, and does not touch the connection. */
  lemma LoadEachMerges(c: Collaborators, req: Request, files: seq<string>)
    ensures forall a | a in Only(LoadEach(c, req, files).trace, IsApply) :: a.Merge?
    ensures Only(LoadEach(c, req, files).trace, IsConnection) == []
  {
    forall name ensures forall a | a in Only(IncrementalLoad(c, req)(name).trace, IsApply) :: a.Merge? {
      LoadAppliesOnce(c, req, true, name);
    }
    forall name ensures Only(IncrementalLoad(c, req)(name).trace, IsConnection) == [] {
      LoadKeepsConnection(c, req, true, name);
    }
    LoadAllMerges(IncrementalLoad(c, req), files);
  }

  /** The ".gz" load throws FileNotFoundException, from its retrieve or from any later step. */
  predicate GzNotFound(c: Collaborators, req: Request)
  {
    Load(c, req, false, GzFile).result == Err(FileNotFound)
  }

  /**
   * The full update retrieves the ".gz" index, and the ".zip" one exactly when the ".gz" load
   * throws FileNotFoundException (in particular when the ".gz" is not found); it replaces and
   * never merges, and it does not touch the connection.
   */
  lemma FullLoadFallback(c: Collaborators, req: Request)
    ensures Only(FullLoad(c, req).trace, IsRetrieve)
         == [Retrieve(GzFile)] + (if GzNotFound(c, req) then [Retrieve(ZipFile)] else [])
    ensures c.fetch(GzFile).NotFound? ==> GzNotFound(c, req)
    ensures forall a | a in Only(FullLoad(c, req).trace, IsApply) :: a.Replace?
    ensures Only(FullLoad(c, req).trace, IsConnection) == []
    ensures !GzNotFound(c, req) ==> FullLoad(c, req) == Load(c, req, false, GzFile)
    ensures GzNotFound(c, req) ==> FullLoad(c, req).result == Load(c, req, false, ZipFile).result
  {
    ReplacingLoad(c, req, GzFile);
    if GzNotFound(c, req) {
      ReplacingLoad(c, req, ZipFile);
      FallbackTrace(Load(c, req, false, GzFile).trace, Load(c, req, false, ZipFile).trace);
    }
  }

  /** A replacing load retrieves its own file once, only replaces, and does not touch the connection. */
  lemma ReplacingLoad(c: Collaborators, req: Request, name: string)
    ensures Only(Load(c, req, false, name).trace, IsRetrieve) == [Retrieve(name)]
    ensures forall a | a in Only(Load(c, req, false, name).trace, IsApply) :: a.Replace?
    ensures Only(Load(c, req, false, name).trace, IsConnection) == []
  {
    LoadRetrievesOnce(c, req, false, name);
    LoadAppliesOnce(c, req, false, name);
    LoadKeepsConnection(c, req, false, name);
  }

  /** The ".gz" load's steps followed by the ".zip" load's. */
  lemma {:induction false} FallbackTrace(gz: seq<Action>, zip: seq<Action>)
    requires Only(gz, IsRetrieve) == [Retrieve(GzFile)] && Only(zip, IsRetrieve) == [Retrieve(ZipFile)]
    requires forall a | a in Only(gz, IsApply) :: a.Replace?
    requires forall a | a in Only(zip, IsApply) :: a.Replace?
    requires Only(gz, IsConnection) == [] && Only(zip, IsConnection) == []
    ensures Only(gz + zip, IsRetrieve) == [Retrieve(GzFile), Retrieve(ZipFile)]
    ensures forall a | a in Only(gz + zip, IsApply) :: a.Replace?
    ensures Only(gz + zip, IsConnection) == []
  {
    OnlyAppend(gz, zip, IsRetrieve);
    OnlyAppend(gz, zip, IsApply);
    OnlyAppend(gz, zip, IsConnection);
  }

  /**
   * The ".gz" is retrieved and unpacked and merge/replace returns normally, but the first side
   * effect throws FileNotFoundException: the full update still goes on to the ".zip".
   */
  lemma SideEffectNotFoundFallsBack(c: Collaborators, req: Request)
    requires Unpacking(c, GzFile).result.Ok? && req.documentFilter.None?
    requires forall docs, merge :: c.apply(docs, merge).None?
    requires |c.sideEffects| > 0 && forall docs, merge :: c.sideEffects[0](docs, merge) == Some(FileNotFound)
    ensures c.fetch(GzFile).Retrieved?
    ensures Only(FullLoad(c, req).trace, IsRetrieve) == [Retrieve(GzFile), Retrieve(ZipFile)]
    ensures FullLoad(c, req).result == Load(c, req, false, ZipFile).result
  {
    var u := Unpacking(c, GzFile).result.value;
    assert FirstFailure(c.sideEffects, Applicable(req, u), false) == 0;
    assert GzNotFound(c, req);
    FullLoadFallback(c, req);
  }

  /** The properties the remote publishes, when they could be retrieved. */
  function RemoteProperties(c: Collaborators): Option<Properties>
  {
    match Retrieval(c, PropertiesFile)
    case Ok(bytes) => Some(c.loadProperties(bytes))
    case Err(_) => None
  }

  /** The chunk names the incremental handler gives, when it is asked at all. */
  function IncrementalFiles(c: Collaborators, req: Request, remote: Properties): Option<seq<string>>
  {
    if GetTimestamp(remote, TimestampKey, c.parseDate).Some?
    then c.incremental(LoadLocallyStoredRemoteProperties(req.localPropertiesFile, c.loadProperties), remote)
    else None
  }

  lemma ConnectedKeepsConnection(c: Collaborators, req: Request)
    ensures Only(Connected(c, req).trace, IsConnection) == []
  {
    FullLoadFallback(c, req);
    if !req.forceFullUpdate && RemoteProperties(c).Some? {
      var remote := RemoteProperties(c).value;
      var files := IncrementalFiles(c, req, remote);
      var rest := if files.Some? then LoadEach(c, req, files.value).trace
                  else if UpToDate(RemoteTimestamp(remote, c.parseDate), req.contextTimestamp) then []
                  else FullLoad(c, req).trace;
      if files.Some? {
        LoadEachMerges(c, req, files.value);
      } else {
        OnlyNone([], IsConnection);
      }
      assert Connected(c, req).trace == [Retrieve(PropertiesFile)] + rest;
      OnlyAppend([Retrieve(PropertiesFile)], rest, IsConnection);
      OnlyOne(Retrieve(PropertiesFile), IsConnection);
    } else if !req.forceFullUpdate {
      OnlyOne(Retrieve(PropertiesFile), IsConnection);
    }
  }

  /**
   * fetchAndUpdateIndex connects once at the start and, once connected, disconnects once at
   * the end on every path. A connect that throws ends the update with its exception and
   * without a disconnect; a disconnect that throws replaces whatever the body produced.
   */
  lemma FetchDisconnects(c: Collaborators, req: Request)
    ensures Only(Fetch(c, req).trace, IsConnection) == if c.connect.None? then [Connect, Disconnect] else [Connect]
    ensures c.connect.Some? ==> Fetch(c, req) == Outcome(Err(c.connect.value), [Connect])
    ensures c.connect.None? && c.disconnect.Some? ==> Fetch(c, req).result == Err(c.disconnect.value)
    ensures c.connect.None? && c.disconnect.None? ==> Fetch(c, req).result == Connected(c, req).result
  {
    if c.connect.None? {
      var inner := Connected(c, req).trace;
      ConnectedKeepsConnection(c, req);
      OnlyAppend([Connect], inner, IsConnection);
      OnlyAppend([Connect] + inner, [Disconnect], IsConnection);
      OnlyOne(Disconnect, IsConnection);
    }
    OnlyOne(Connect, IsConnection);
  }

  /**
   * fetchIndexProperties: connect, retrieve and load the remote properties, and disconnect in a
   * finally block. As in fetchAndUpdateIndex, connect is called before the try block.
   */
  function FetchIndexProperties(c: Collaborators): Outcome<Properties>
  {
    match c.connect
    case Some(f) => Outcome(Err(f), [Connect])
    case None =>
      var downloaded := match Retrieval(c, PropertiesFile)
                        case Ok(bytes) => Ok(c.loadProperties(bytes))
                        case Err(f) => Err(f);
      Outcome(Finally(c.disconnect, downloaded), [Connect, Retrieve(PropertiesFile), Disconnect])
  }

  /**
   * Fetching the properties alone: a failed connect ends it; otherwise it retrieves only the
   * properties file and disconnects, and yields the properties the unforced update reads, unless
   * the retrieve or disconnect throws. The unforced update starts with the same steps.
   */
  lemma FetchIndexPropertiesShape(c: Collaborators, req: Request)
    ensures c.connect.Some? ==> FetchIndexProperties(c) == Outcome(Err(c.connect.value), [Connect])
    ensures c.connect.None? ==>
              && FetchIndexProperties(c).trace == [Connect, Retrieve(PropertiesFile), Disconnect]
              && (FetchIndexProperties(c).result.Ok? <==> c.disconnect.None? && RemoteProperties(c).Some?)
              && (FetchIndexProperties(c).result.Ok? ==> FetchIndexProperties(c).result.value == RemoteProperties(c).value)
              && (c.disconnect.None? && RemoteProperties(c).None? ==>
                    FetchIndexProperties(c).result == Err(Retrieval(c, PropertiesFile).failure))
    ensures c.connect.None? && !req.forceFullUpdate ==>
              |Fetch(c, req).trace| >= 3 && Fetch(c, req).trace[..2] == FetchIndexProperties(c).trace[..2]
  {
    if c.connect.None? && !req.forceFullUpdate {
      var connected := Connected(c, req);
      assert connected.trace[0] == Retrieve(PropertiesFile);
      assert Fetch(c, req).trace == [Connect] + connected.trace + [Disconnect];
    }
  }

  /** Retrieves and applies between connect and disconnect are those of what lies between. */
  lemma {:induction false} OnlyInside(t: seq<Action>, p: Action -> bool)
    requires p == IsRetrieve || p == IsApply
    ensures Only([Connect] + t + [Disconnect], p) == Only(t, p)
  {
    OnlyAppend([Connect], t, p);
    OnlyAppend([Connect] + t, [Disconnect], p);
    OnlyOne(Connect, p);
    OnlyOne(Disconnect, p);
  }

  /** What follows the properties retrieve. */
  lemma {:induction false} OnlyAfterProperties(t: seq<Action>)
    ensures Only([Retrieve(PropertiesFile)] + t, IsRetrieve) == [Retrieve(PropertiesFile)] + Only(t, IsRetrieve)
    ensures Only([Retrieve(PropertiesFile)] + t, IsApply) == Only(t, IsApply)
  {
    OnlyAppend([Retrieve(PropertiesFile)], t, IsRetrieve);
    OnlyAppend([Retrieve(PropertiesFile)], t, IsApply);
    OnlyOne(Retrieve(PropertiesFile), IsRetrieve);
    OnlyOne(Retrieve(PropertiesFile), IsApply);
  }

  lemma IncrementalShape(c: Collaborators, req: Request)
    requires c.connect.None? && !req.forceFullUpdate && RemoteProperties(c).Some?
    requires IncrementalFiles(c, req, RemoteProperties(c).value).Some?
    ensures var merged := LoadEach(c, req, IncrementalFiles(c, req, RemoteProperties(c).value).value);
            && Fetch(c, req).trace == [Connect] + ([Retrieve(PropertiesFile)] + merged.trace) + [Disconnect]
            && Fetch(c, req).result
               == Finally(c.disconnect,
                          if merged.result.Ok? then Ok(GetTimestamp(RemoteProperties(c).value, TimestampKey, c.parseDate))
                          else Err(merged.result.failure))
  {
  }

  /**
   * The incremental branch: taken when the canonical timestamp is present and the handler gives
   * a list (even an empty one). Each chunk is merged in list order, no full index is retrieved,
   * nothing is replaced, and on success the canonical timestamp is returned.
   */
  lemma IncrementalPath(c: Collaborators, req: Request)
    requires c.connect.None? && !req.forceFullUpdate && RemoteProperties(c).Some?
    requires IncrementalFiles(c, req, RemoteProperties(c).value).Some?
    ensures var files := IncrementalFiles(c, req, RemoteProperties(c).value).value;
            var o := Fetch(c, req);
            && Only(o.trace, IsRetrieve) <= [Retrieve(PropertiesFile)] + Retrievals(files)
            && (FirstFailedLoad(c, req, files) < |files| ==>
                  Only(o.trace, IsRetrieve)
                  == [Retrieve(PropertiesFile)] + Retrievals(files[..FirstFailedLoad(c, req, files) + 1]))
            && (FirstFailedLoad(c, req, files) == |files| ==>
                  Only(o.trace, IsRetrieve) == [Retrieve(PropertiesFile)] + Retrievals(files))
            && (c.disconnect.None? && o.result.Err? ==>
                  && FirstFailedLoad(c, req, files) < |files|
                  && Load(c, req, true, files[FirstFailedLoad(c, req, files)]).result == Err(o.result.failure))
            && (o.result.Ok? <==>
                  c.disconnect.None? && forall i | 0 <= i < |files| :: Load(c, req, true, files[i]).result.Ok?)
            && (o.result.Ok? ==>
                  && o.result.value == GetTimestamp(RemoteProperties(c).value, TimestampKey, c.parseDate)
                  && o.result.value.Some?
                  && Only(o.trace, IsRetrieve) == [Retrieve(PropertiesFile)] + Retrievals(files))
            && (forall a | a in Only(o.trace, IsApply) :: a.Merge?)
  {
    var files := IncrementalFiles(c, req, RemoteProperties(c).value).value;
    var merged := LoadEach(c, req, files);
    LoadEachRetrieves(c, req, files);
    LoadEachSucceeds(c, req, files);
    LoadEachMerges(c, req, files);
    IncrementalShape(c, req);
    OnlyInside([Retrieve(PropertiesFile)] + merged.trace, IsRetrieve);
    OnlyInside([Retrieve(PropertiesFile)] + merged.trace, IsApply);
    OnlyAfterProperties(merged.trace);
  }

  /**
   * Already up to date: with no incremental list, when both the remote timestamp and the
   * context's are known and the remote one is not after it, only the properties are
   * retrieved, no index is loaded, and the result is None.
   */
  lemma UpToDateShortCircuit(c: Collaborators, req: Request)
    requires c.connect.None? && !req.forceFullUpdate && RemoteProperties(c).Some?
    requires IncrementalFiles(c, req, RemoteProperties(c).value).None?
    requires UpToDate(RemoteTimestamp(RemoteProperties(c).value, c.parseDate), req.contextTimestamp)
    ensures Fetch(c, req) == Outcome(Finally(c.disconnect, Ok(None)), [Connect, Retrieve(PropertiesFile), Disconnect])
  {
  }

  /**
   * An incremental update that succeeded returns the remote timestamp. Run again against that
   * timestamp, with the handler now giving no list, the update finds the index up to date and
   * loads nothing.
   */
  lemma SecondFetchIsNoOp(c: Collaborators, req: Request,
                          incremental: (Option<Properties>, Properties) -> Option<seq<string>>)
    requires c.connect.None? && c.disconnect.None? && !req.forceFullUpdate && RemoteProperties(c).Some?
    requires IncrementalFiles(c, req, RemoteProperties(c).value).Some?
    requires Fetch(c, req).result.Ok?
    requires IncrementalFiles(c.(incremental := incremental), req, RemoteProperties(c).value).None?
    ensures Fetch(c.(incremental := incremental), req.(contextTimestamp := Fetch(c, req).result.value))
         == Outcome(Ok(None), [Connect, Retrieve(PropertiesFile), Disconnect])
  {
    IncrementalPath(c, req);
    var c' := c.(incremental := incremental);
    var req' := req.(contextTimestamp := Fetch(c, req).result.value);
    assert IncrementalFiles(c', req', RemoteProperties(c').value) == IncrementalFiles(c', req, RemoteProperties(c).value);
    UpToDateShortCircuit(c', req');
  }

  lemma StaleShape(c: Collaborators, req: Request)
    requires c.connect.None? && !req.forceFullUpdate && RemoteProperties(c).Some?
    requires IncrementalFiles(c, req, RemoteProperties(c).value).None?
    requires !UpToDate(RemoteTimestamp(RemoteProperties(c).value, c.parseDate), req.contextTimestamp)
    ensures Fetch(c, req) == Outcome(Finally(c.disconnect, FullLoad(c, req).result),
                                     [Connect] + ([Retrieve(PropertiesFile)] + FullLoad(c, req).trace) + [Disconnect])
  {
  }

  /**
   * Not up to date (or either timestamp unknown) and no incremental list: after the
   * properties, the full update runs: ".gz", then ".zip" only if the ".gz" load throws
   * FileNotFoundException, replacing and never merging; its result is the update's result
   * unless disconnect throws.
   */
  lemma StaleFullUpdate(c: Collaborators, req: Request)
    requires c.connect.None? && !req.forceFullUpdate && RemoteProperties(c).Some?
    requires IncrementalFiles(c, req, RemoteProperties(c).value).None?
    requires !UpToDate(RemoteTimestamp(RemoteProperties(c).value, c.parseDate), req.contextTimestamp)
    ensures Fetch(c, req).result == Finally(c.disconnect, FullLoad(c, req).result)
    ensures Only(Fetch(c, req).trace, IsRetrieve)
         == [Retrieve(PropertiesFile), Retrieve(GzFile)] + (if GzNotFound(c, req) then [Retrieve(ZipFile)] else [])
    ensures forall a | a in Only(Fetch(c, req).trace, IsApply) :: a.Replace?
  {
    StaleShape(c, req);
    FullLoadFallback(c, req);
    StaleTrace(FullLoad(c, req).trace, [Retrieve(GzFile)] + (if GzNotFound(c, req) then [Retrieve(ZipFile)] else []));
  }

  /** A full update's retrieves and replaces, seen from the whole update after the properties. */
  lemma {:induction false} StaleTrace(t: seq<Action>, retrieves: seq<Action>)
    requires Only(t, IsRetrieve) == retrieves
    requires forall a | a in Only(t, IsApply) :: a.Replace?
    ensures Only([Connect] + ([Retrieve(PropertiesFile)] + t) + [Disconnect], IsRetrieve)
         == [Retrieve(PropertiesFile)] + retrieves
    ensures forall a | a in Only([Connect] + ([Retrieve(PropertiesFile)] + t) + [Disconnect], IsApply) :: a.Replace?
  {
    OnlyInside([Retrieve(PropertiesFile)] + t, IsRetrieve);
    OnlyInside([Retrieve(PropertiesFile)] + t, IsApply);
    OnlyAfterProperties(t);
  }

  /**
   * A forced update goes straight to the full update: neither properties file is read and
   * the first retrieve is the ".gz" index.
   */
  lemma ForcedFullUpdate(c: Collaborators, req: Request)
    requires c.connect.None? && req.forceFullUpdate
    ensures Fetch(c, req).result == Finally(c.disconnect, FullLoad(c, req).result)
    ensures Only(Fetch(c, req).trace, IsRetrieve)
         == [Retrieve(GzFile)] + (if GzNotFound(c, req) then [Retrieve(ZipFile)] else [])
    ensures forall a | a in Only(Fetch(c, req).trace, IsApply) :: a.Replace?
  {
    assert Fetch(c, req).trace == [Connect] + FullLoad(c, req).trace + [Disconnect];
    FullLoadFallback(c, req);
    OnlyInside(FullLoad(c, req).trace, IsRetrieve);
    OnlyInside(FullLoad(c, req).trace, IsApply);
  }

  /** What a forced update does does not depend on the properties, their timestamps or the incremental handler. */
  lemma ForcedIgnoresProperties(c: Collaborators, req: Request,
                                loadProperties: seq<Byte> -> Properties,
                                parseDate: string -> Option<Timestamp>,
                                incremental: (Option<Properties>, Properties) -> Option<seq<string>>,
                                localPropertiesFile: Option<seq<Byte>>, contextTimestamp: Option<Timestamp>)
    requires req.forceFullUpdate
    ensures Fetch(c.(loadProperties := loadProperties, parseDate := parseDate, incremental := incremental),
                  req.(localPropertiesFile := localPropertiesFile, contextTimestamp := contextTimestamp))
         == Fetch(c, req)
  {
    var c' := c.(loadProperties := loadProperties, parseDate := parseDate, incremental := incremental);
    var req' := req.(localPropertiesFile := localPropertiesFile, contextTimestamp := contextTimestamp);
    LoadUsesOnlyIndexCollaborators(c, c', req, req', GzFile);
    LoadUsesOnlyIndexCollaborators(c, c', req, req', ZipFile);
  }

  lemma LoadUsesOnlyIndexCollaborators(c: Collaborators, c': Collaborators, req: Request, req': Request, name: string)
    requires c'.fetch == c.fetch && c'.readIndexData == c.readIndexData && c'.readZip == c.readZip
    requires c'.storeFiles == c.storeFiles && c'.openIndex == c.openIndex && c'.copyIo == c.copyIo
    requires c'.readTimestamp == c.readTimestamp && c'.stampIndex == c.stampIndex
    requires c'.updateDocument == c.updateDocument && c'.filterIo == c.filterIo
    requires c'.apply == c.apply && c'.sideEffects == c.sideEffects
    requires req'.documentFilter == req.documentFilter
    ensures Load(c', req', false, name) == Load(c, req, false, name)
  {
    assert Unpacking(c', name) == Unpacking(c, name) by {
      if Retrieval(c, name).Ok? {
        assert ArchiveContents(c', Retrieval(c, name).value) == ArchiveContents(c, Retrieval(c, name).value);
      }
    }
    assert Applied(c', req', false, name) == Applied(c, req, false, name) by {
      if Unpacking(c, name).result.Ok? {
        var u := Unpacking(c, name).result.value;
        assert Applicable(req', u) == Applicable(req, u);
        assert Apply(c', req', false, u) == Apply(c, req, false, u);
      }
    }
  }

  /** A properties file that cannot be retrieved fails the update (no full update is tried). */
  lemma PropertiesRequired(c: Collaborators, req: Request)
    requires c.connect.None? && !req.forceFullUpdate && Retrieval(c, PropertiesFile).Err?
    ensures Fetch(c, req) == Outcome(Finally(c.disconnect, Err(Retrieval(c, PropertiesFile).failure)),
                                     [Connect, Retrieve(PropertiesFile), Disconnect])
    ensures c.disconnect.None? ==> (Fetch(c, req).result == Err(FileNotFound) <==> c.fetch(PropertiesFile).NotFound?)
  {
  }

  // ---------------------------------------------------------------------------
  // The updater, step by step

  /** unpackIndexArchive: unzip into a raw index, copy its live documents updated, keep its timestamp. */
  method UnpackIndexArchive(c: Collaborators, bytes: seq<Byte>) returns (r: Result<Unpacked>)
    ensures r == ArchiveContents(c, bytes)
  {
    var entries := c.readZip(bytes);
    if entries.Err? {
      return Err(entries.failure);
    }
    var files := UnpackDirectory(entries.value);
    var stored := c.storeFiles(files);
    if stored.Some? {
      return Err(stored.value);
    }
    var source := c.openIndex(files);
    if source.Err? {
      return Err(source.failure);
    }
    var written := CopyUpdatedDocuments(source.value, c.updateDocument);
    var copied := c.copyIo(written);
    if copied.Some? {
      return Err(copied.value);
    }
    var timestamp := c.readTimestamp(files);
    var stamped := c.stampIndex(written, timestamp);
    if stamped.Some? {
      return Err(stamped.value);
    }
    r := Ok(Unpacked(written, timestamp));
  }

  /** The side-effect loop of loadIndexDirectory: call each hook in list order; a hook that throws ends the loop. */
  method RunSideEffects(hooks: seq<Hook>, docs: seq<Document>, merge: bool)
    returns (calls: seq<Action>, thrown: Option<Failure>)
    ensures thrown.Some? <==> FirstFailure(hooks, docs, merge) < |hooks|
    ensures thrown.Some? ==> thrown == hooks[FirstFailure(hooks, docs, merge)](docs, merge)
    ensures calls == HookCalls(if thrown.Some? then FirstFailure(hooks, docs, merge) + 1 else |hooks|, merge)
  {
    calls := [];
    thrown := None;
    var i := 0;
    while i < |hooks| && thrown.None?
      invariant i <= |hooks|
      invariant calls == HookCalls(i, merge)
      invariant thrown.None? ==> i <= FirstFailure(hooks, docs, merge)
      invariant thrown.Some? ==> 0 < i == FirstFailure(hooks, docs, merge) + 1 && thrown == hooks[i - 1](docs, merge)
    {
      calls := calls + [SideEffect(i, merge)];
      assert calls == HookCalls(i + 1, merge);
      thrown := hooks[i](docs, merge);
      i := i + 1;
    }
  }

  /** loadIndexDirectory, step by step. */
  method LoadIndexDirectory(c: Collaborators, req: Request, merge: bool, name: string) returns (o: Outcome<Option<Timestamp>>)
    ensures o == Load(c, req, merge, name)
  {
    var trace := [CreateTemp(name), Retrieve(name)];
    var result: Result<Option<Timestamp>>;
    var retrieved := Retrieval(c, name);
    if retrieved.Err? {
      result := Err(retrieved.failure);
    } else {
      var bytes := retrieved.value;
      var unpacked: Result<Unpacked> := Ok(Unpacked([], None));
      if |bytes| > 0 {
        if EndsWith(name, ".gz") {
          trace := trace + [UnpackData];
          unpacked := c.readIndexData(bytes);
        } else {
          trace := trace + [UnpackArchive];
          unpacked := UnpackIndexArchive(c, bytes);
        }
      }
      assert trace == [CreateTemp(name), Retrieve(name)] + Unpacking(c, name).trace;
      assert unpacked == Unpacking(c, name).result;
      if unpacked.Err? {
        result := Err(unpacked.failure);
      } else {
        var applied := ApplyUnpacked(c, req, merge, unpacked.value);
        trace := trace + applied.trace;
        result := applied.result;
      }
    }
    o := Outcome(result, trace + [DeleteArchive, DeleteDirectory]);
  }

  /**
   * filterDirectory on the freshly written index, with its loop as written, bounded by numDocs;
   * then the documents left live.
   */
  method FilterNewIndex(docs: seq<Document>, accept: Document -> bool) returns (kept: seq<Document>)
    ensures kept == Select(docs, accept)
  {
    var directory := new Slot[|docs|](i requires 0 <= i < |docs| => Slot(docs[i], false));
    assert directory[..] == Fresh(docs);
    FilterDirectoryAsWritten(directory, accept);
    kept := LiveDocs(directory[..]);
    FilterAsWrittenAgreesWithoutDeletions(Fresh(docs), accept);
    FilteredLiveDocs(Fresh(docs), accept);
    FreshLiveDocs(docs);
  }

  /** The part of loadIndexDirectory after unpacking: filter, merge or replace, side effects. */
  method ApplyUnpacked(c: Collaborators, req: Request, merge: bool, u: Unpacked) returns (o: Outcome<Option<Timestamp>>)
    ensures o == Apply(c, req, merge, u)
  {
    var trace := [];
    var docs := u.docs;
    if req.documentFilter.Some? {
      trace := trace + [Filter];
      docs := FilterNewIndex(u.docs, req.documentFilter.value);
      ApplicableAccepted(req, u);
      var failure := c.filterIo(Fresh(u.docs));
      if failure.Some? {
        return Outcome(Err(failure.value), trace);
      }
    }
    assert docs == Applicable(req, u);
    var result, calls := MergeAndNotify(c, merge, docs, u.timestamp);
    o := Outcome(result, trace + calls);
  }

  /** context.merge or context.replace, then the side effects; the first exception thrown is the result. */
  method MergeAndNotify(c: Collaborators, merge: bool, docs: seq<Document>, timestamp: Option<Timestamp>)
    returns (result: Result<Option<Timestamp>>, trace: seq<Action>)
    ensures Outcome(result, trace) == Notified(c, merge, docs, timestamp)
  {
    var applied := c.apply(docs, merge);
    if applied.Some? {
      assert HookCalls(0, merge) == [];
      return Err(applied.value), [Applying(merge, docs)] + HookCalls(0, merge);
    }
    var calls, thrown := RunSideEffects(c.sideEffects, docs, merge);
    result := if thrown.Some? then Err(thrown.value) else Ok(timestamp);
    trace := [Applying(merge, docs)] + calls;
  }

  /** The full update in fetchAndUpdateIndex: ".gz", and ".zip" when the ".gz" load throws FileNotFoundException. */
  method FullUpdate(c: Collaborators, req: Request) returns (o: Outcome<Option<Timestamp>>)
    ensures o == FullLoad(c, req)
  {
    var gz := LoadIndexDirectory(c, req, false, GzFile);
    if gz.result == Err(FileNotFound) {
      var zip := LoadIndexDirectory(c, req, false, ZipFile);
      o := Outcome(zip.result, gz.trace + zip.trace);
    } else {
      o := gz;
    }
  }

  /** The incremental loop in fetchAndUpdateIndex: merge each named chunk in order; a failed load ends it. */
  method MergeIncrementally(c: Collaborators, req: Request, files: seq<string>) returns (o: Outcome<()>)
    ensures o == LoadEach(c, req, files)
  {
    var trace := [];
    var i := 0;
    while i < |files|
      invariant 0 <= i <= |files|
      invariant LoadEach(c, req, files)
             == Outcome(LoadEach(c, req, files[i..]).result, trace + LoadEach(c, req, files[i..]).trace)
    {
      assert files[i..][0] == files[i] && files[i..][1..] == files[i + 1..];
      var loaded := LoadIndexDirectory(c, req, true, files[i]);
      if loaded.result.Err? {
        return Outcome(Err(loaded.result.failure), trace + loaded.trace);
      }
      trace := trace + loaded.trace;
      i := i + 1;
    }
    assert files[i..] == [];
    o := Outcome(Ok(()), trace);
  }

  /** fetchAndUpdateIndex, step by step. */
  method FetchAndUpdateIndex(c: Collaborators, req: Request) returns (o: Outcome<Option<Timestamp>>)
    ensures o == Fetch(c, req)
  {
    if c.connect.Some? {
      return Outcome(Err(c.connect.value), [Connect]);
    }
    var body: Outcome<Option<Timestamp>>;
    if req.forceFullUpdate {
      body := FullUpdate(c, req);
    } else {
      var local := LoadLocallyStoredRemoteProperties(req.localPropertiesFile, c.loadProperties);
      var retrieved := Retrieval(c, PropertiesFile);
      if retrieved.Err? {
        body := Outcome(Err(retrieved.failure), [Retrieve(PropertiesFile)]);
      } else {
        var properties := c.loadProperties(retrieved.value);
        var updateTimestamp := GetTimestamp(properties, TimestampKey, c.parseDate);
        var filenames: Option<seq<string>> := None;
        if updateTimestamp.Some? {
          filenames := c.incremental(local, properties);
        } else {
          updateTimestamp := GetTimestamp(properties, LegacyTimestampKey, c.parseDate);
        }
        if filenames.Some? {
          var merged := MergeIncrementally(c, req, filenames.value);
          body := Outcome(if merged.result.Ok? then Ok(updateTimestamp) else Err(merged.result.failure),
                          [Retrieve(PropertiesFile)] + merged.trace);
        } else if UpToDate(updateTimestamp, req.contextTimestamp) {
          body := Outcome(Ok(None), [Retrieve(PropertiesFile)]);
        } else {
          var full := FullUpdate(c, req);
          body := Outcome(full.result, [Retrieve(PropertiesFile)] + full.trace);
        }
      }
    }
    var result := body.result;
    if c.disconnect.Some? {
      result := Err(c.disconnect.value);
    }
    o := Outcome(result, [Connect] + body.trace + [Disconnect]);
  }
}
