/**
  The file watcher of app/tools/file_watcher.py: the event value a watcher reports,
  the filter a watcher applies to raw filesystem notifications, and the manager that
  keeps the watchers, their observer threads and their callbacks in three tables
  keyed by watcher id.

  The filesystem and the clock are the caller's: `Path.exists` and `Path.resolve` are
  function parameters, and every `datetime.now()` is an `Instant` passed in. Each
  watchdog observer thread is represented by its state alone.
 */
module FileWatcher {
  import opened Wrappers
  import opened Glob
  import opened Paths
  import opened Seqs
  import Json

  /** A timestamp, as `datetime.isoformat()` renders it. */
  type Instant = string

  /** `Path(p).resolve()` on the host filesystem. */
  type Resolver = string -> string

  /** Identity of a callable registered with `add_event_callback`. */
  type CallbackId = nat

  // ---------------------------------------------------------------------------
  // FileWatcherEvent

  datatype EventKind = Created | Modified | Deleted | Moved

  function KindName(k: EventKind): string {
    match k
    case Created => "created"
    case Modified => "modified"
    case Deleted => "deleted"
    case Moved => "moved"
  }

  function ParseKind(s: string): Option<EventKind> {
    if s == "created" then Some(Created)
    else if s == "modified" then Some(Modified)
    else if s == "deleted" then Some(Deleted)
    else if s == "moved" then Some(Moved)
    else None
  }

  /** A filtered, normalised filesystem change. `srcPath` is the pre-move path and is
      present only for moves. */
  datatype WatcherEvent = WatcherEvent(
    kind: EventKind,
    path: string,
    isDirectory: bool,
    srcPath: Option<string>,
    timestamp: Instant)

  /** The invariant every reported event keeps: only a move carries a source path. */
  predicate WellFormed(e: WatcherEvent) {
    e.srcPath.Some? ==> e.kind == Moved
  }

  /** `FileWatcherEvent(event_type, path, is_directory, src_path, timestamp)`: both paths
      are resolved, an empty or missing source path is dropped, and a missing timestamp
      is the current time. */
  function NewEvent(kind: EventKind, path: string, isDirectory: bool, srcPath: Option<string>,
                    timestamp: Option<Instant>, now: Instant, resolve: Resolver): (e: WatcherEvent)
    ensures e.kind == kind && e.isDirectory == isDirectory && e.path == resolve(path)
    ensures e.srcPath.Some? <==> srcPath.Some? && srcPath.value != ""
    ensures e.srcPath.Some? ==> e.srcPath.value == resolve(srcPath.value)
    ensures e.timestamp == if timestamp.Some? then timestamp.value else now
    ensures WellFormed(e) <==> kind == Moved || e.srcPath.None?
  {
    var src := if srcPath.Some? && srcPath.value != "" then Some(resolve(srcPath.value)) else None;
    WatcherEvent(kind, resolve(path), isDirectory, src, if timestamp.Some? then timestamp.value else now)
  }

  const EventKeys: set<string> :=
    {"event_type", "path", "is_directory", "src_path", "timestamp", "filename", "parent_dir"}

  /** `FileWatcherEvent.to_dict()` */
  function ToDict(e: WatcherEvent): (d: Json.Value)
    ensures d.Obj? && d.fields.Keys == EventKeys
    ensures d.fields["src_path"] == Json.Null <==> e.srcPath.None?
    ensures d.fields["filename"] == Json.Str(Basename(e.path))
    ensures d.fields["parent_dir"] == Json.Str(Dirname(e.path))
  {
    EventObject(e, Basename(e.path), Dirname(e.path))
  }

  /** The dictionary of `to_dict`, with the two names derived from the path given. */
  function EventObject(e: WatcherEvent, filename: string, parentDir: string): (d: Json.Value)
    ensures d.Obj? && d.fields.Keys == EventKeys
    ensures d.fields["src_path"] == Json.Null <==> e.srcPath.None?
    ensures d.fields["filename"] == Json.Str(filename) && d.fields["parent_dir"] == Json.Str(parentDir)
  {
    Json.Obj(map[
      "event_type" := Json.Str(KindName(e.kind)),
      "path" := Json.Str(e.path),
      "is_directory" := Json.Bool(e.isDirectory),
      "src_path" := if e.srcPath.Some? then Json.Str(e.srcPath.value) else Json.Null,
      "timestamp" := Json.Str(e.timestamp),
      "filename" := Json.Str(filename),
      "parent_dir" := Json.Str(parentDir)])
  }

  /** How a subscriber reads an event back out of its dictionary form. */
  function FromDict(d: Json.Value): Option<WatcherEvent> {
    if !d.Obj? || !(EventKeys <= d.fields.Keys) then None
    else
      var f := d.fields;
      if !f["event_type"].Str? || !f["path"].Str? || !f["is_directory"].Bool? || !f["timestamp"].Str? then None
      else if !(f["src_path"].Null? || f["src_path"].Str?) then None
      else match ParseKind(f["event_type"].s)
        case None => None
        case Some(k) =>
          Some(WatcherEvent(k, f["path"].s, f["is_directory"].b,
                            if f["src_path"].Str? then Some(f["src_path"].s) else None,
                            f["timestamp"].s))
  }

  /** The dictionary form loses nothing: the event can be read back from it. */
  lemma ToDictRoundTrip(e: WatcherEvent)
    ensures FromDict(ToDict(e)) == Some(e)
  {
    EventObjectRoundTrip(e, Basename(e.path), Dirname(e.path));
  }

  /** Whatever the derived names, the other five entries determine the event. */
  lemma EventObjectRoundTrip(e: WatcherEvent, filename: string, parentDir: string)
    ensures FromDict(EventObject(e, filename, parentDir)) == Some(e)
  {
    assert ParseKind(KindName(e.kind)) == Some(e.kind);
  }

  // ---------------------------------------------------------------------------
  // AsyncFileEventHandler

  /** The `filters` dictionary a watcher is created with; `None` is an absent key. */
  datatype FilterSpec = FilterSpec(
    filePatterns: Option<seq<string>>,
    excludePatterns: Option<seq<string>>,
    specificFiles: Option<seq<string>>,
    recursive: Option<bool>,
    includeDirectories: Option<bool>)

  /** The handler's filter settings once `_setup_filters` has read them. */
  datatype FilterConfig = FilterConfig(
    filePatterns: seq<string>,
    excludePatterns: seq<string>,
    includeDirectories: bool,
    specificFiles: set<string>)

  function OptOr<T>(o: Option<T>, default: T): T {
    if o.Some? then o.value else default
  }

  /** `_setup_filters`: defaults `['*']`, `[]`, `True` and `[]`, and the specific files
      turned into a set of resolved paths. */
  function SetupFilters(spec: FilterSpec, resolve: Resolver): (cfg: FilterConfig)
    ensures spec.filePatterns.None? ==> cfg.filePatterns == ["*"]
    ensures spec.excludePatterns.None? ==> cfg.excludePatterns == []
    ensures spec.includeDirectories.None? ==> cfg.includeDirectories
    ensures spec.filePatterns.Some? ==> cfg.filePatterns == spec.filePatterns.value
    ensures spec.excludePatterns.Some? ==> cfg.excludePatterns == spec.excludePatterns.value
    ensures spec.includeDirectories.Some? ==> cfg.includeDirectories == spec.includeDirectories.value
    ensures forall f :: f in OptOr(spec.specificFiles, []) ==> resolve(f) in cfg.specificFiles
    ensures forall a :: a in cfg.specificFiles ==> exists f :: f in OptOr(spec.specificFiles, []) && resolve(f) == a
  {
    var files := OptOr(spec.specificFiles, []);
    FilterConfig(
      OptOr(spec.filePatterns, ["*"]),
      OptOr(spec.excludePatterns, []),
      OptOr(spec.includeDirectories, true),
      set f | f in files :: resolve(f))
  }

  /** The filters `create_file_watcher` builds from its arguments: a missing or empty
      list of file patterns becomes `['*']`. */
  function ToolFilters(filePatterns: Option<seq<string>>, excludePatterns: Option<seq<string>>,
                       specificFiles: Option<seq<string>>, recursive: bool, includeDirectories: bool): (spec: FilterSpec)
    ensures spec.filePatterns.Some? && spec.filePatterns.value != []
    ensures filePatterns.Some? && filePatterns.value != [] ==> spec.filePatterns == filePatterns
    ensures !(filePatterns.Some? && filePatterns.value != []) ==> spec.filePatterns == Some(["*"])
    ensures spec.recursive == Some(recursive) && spec.includeDirectories == Some(includeDirectories)
    ensures spec.excludePatterns == Some(OptOr(excludePatterns, []))
    ensures spec.specificFiles == Some(OptOr(specificFiles, []))
  {
    FilterSpec(
      Some(if filePatterns.Some? && filePatterns.value != [] then filePatterns.value else ["*"]),
      Some(OptOr(excludePatterns, [])),
      Some(OptOr(specificFiles, [])),
      Some(recursive),
      Some(includeDirectories))
  }

  /** The include loop: some pattern matches the file name. */
  function AnyMatch(patterns: seq<string>, name: string): (r: bool)
    ensures r <==> exists i :: 0 <= i < |patterns| && Match(name, patterns[i])
  {
    if patterns == [] then false
    else if Match(name, patterns[0]) then true
    else
      var r := AnyMatch(patterns[1..], name);
      assert forall i :: 1 <= i < |patterns| ==> patterns[i] == patterns[1..][i - 1];
      r
  }

  /** The exclude loop: some pattern matches the file name or the absolute path. */
  function AnyExcluded(patterns: seq<string>, name: string, absPath: string): (r: bool)
    ensures r <==> exists i :: 0 <= i < |patterns| && (Match(name, patterns[i]) || Match(absPath, patterns[i]))
  {
    if patterns == [] then false
    else if Match(name, patterns[0]) || Match(absPath, patterns[0]) then true
    else
      var r := AnyExcluded(patterns[1..], name, absPath);
      assert forall i :: 1 <= i < |patterns| ==> patterns[i] == patterns[1..][i - 1];
      r
  }

  /** `_should_process_event` for a notification about `rawPath`; the file name is taken
      from the path as given, the absolute path from its resolution. */
  function ShouldProcess(cfg: FilterConfig, rawPath: string, isDirectory: bool, resolve: Resolver): (r: bool)
    ensures r <==>
      && (!isDirectory || cfg.includeDirectories)
      && (cfg.specificFiles == {} || resolve(rawPath) in cfg.specificFiles)
      && !(exists i :: 0 <= i < |cfg.excludePatterns| &&
             (Match(PathName(rawPath), cfg.excludePatterns[i]) || Match(resolve(rawPath), cfg.excludePatterns[i])))
      && (cfg.specificFiles != {} || exists i :: 0 <= i < |cfg.filePatterns| && Match(PathName(rawPath), cfg.filePatterns[i]))
  {
    var absPath := resolve(rawPath);
    var name := PathName(rawPath);
    if isDirectory && !cfg.includeDirectories then false
    else if cfg.specificFiles != {} && absPath !in cfg.specificFiles then false
    else if AnyExcluded(cfg.excludePatterns, name, absPath) then false
    else if cfg.specificFiles == {} then AnyMatch(cfg.filePatterns, name)
    else true
  }

  /** An exclude pattern rejects a path even when it is one of the specific files. */
  lemma ExcludeBeatsSpecificFiles(cfg: FilterConfig, rawPath: string, isDirectory: bool, resolve: Resolver, i: nat)
    requires i < |cfg.excludePatterns|
    requires Match(PathName(rawPath), cfg.excludePatterns[i]) || Match(resolve(rawPath), cfg.excludePatterns[i])
    ensures !ShouldProcess(cfg, rawPath, isDirectory, resolve)
  {
  }

  /** With specific files, a listed path that is not excluded passes whatever the file
      patterns are; an unlisted path never passes. */
  lemma SpecificFilesOverridePatterns(cfg: FilterConfig, rawPath: string, isDirectory: bool, resolve: Resolver)
    requires cfg.specificFiles != {}
    ensures ShouldProcess(cfg, rawPath, isDirectory, resolve) <==>
      && (!isDirectory || cfg.includeDirectories)
      && resolve(rawPath) in cfg.specificFiles
      && !AnyExcluded(cfg.excludePatterns, PathName(rawPath), resolve(rawPath))
  {
  }

  /** Without specific files, an empty list of file patterns lets nothing through. */
  lemma EmptyPatternsMatchNothing(cfg: FilterConfig, rawPath: string, isDirectory: bool, resolve: Resolver)
    requires cfg.specificFiles == {} && cfg.filePatterns == []
    ensures !ShouldProcess(cfg, rawPath, isDirectory, resolve)
  {
  }

  /** The defaults of `create_file_watcher`: with no exclude patterns and no specific
      files, every file event passes. */
  lemma ToolDefaultsPassEverything(rawPath: string, isDirectory: bool, resolve: Resolver)
    ensures ShouldProcess(SetupFilters(ToolFilters(None, None, None, true, true), resolve), rawPath, isDirectory, resolve)
  {
    var cfg := SetupFilters(ToolFilters(None, None, None, true, true), resolve);
    assert cfg.filePatterns == ["*"];
    StarMatchesAll(PathName(rawPath));
    assert Match(PathName(rawPath), cfg.filePatterns[0]);
  }

  /** One include pattern `*A` and one exclude pattern `*B`, no specific files: an event
      passes iff its name ends with A, and neither its name nor its resolved path ends
      with B. */
  lemma SuffixFilters(includeSuffix: string, excludeSuffix: string, rawPath: string, resolve: Resolver)
    requires Literal(includeSuffix) && Literal(excludeSuffix)
    ensures var cfg := FilterConfig(["*" + includeSuffix], ["*" + excludeSuffix], true, {});
      ShouldProcess(cfg, rawPath, false, resolve) <==>
        && EndsWith(PathName(rawPath), includeSuffix)
        && !EndsWith(PathName(rawPath), excludeSuffix)
        && !EndsWith(resolve(rawPath), excludeSuffix)
  {
    StarSuffixMatch(PathName(rawPath), includeSuffix);
    StarSuffixMatch(PathName(rawPath), excludeSuffix);
    StarSuffixMatch(resolve(rawPath), excludeSuffix);
  }

  /** Include `*.txt`, exclude `*.tmp`, no specific files. */
  const TxtNotTmp := FilterConfig(["*.txt"], ["*.tmp"], true, {})

  /** Under `*.txt` minus `*.tmp`, `a.txt` passes unless it resolves to a path that
      ends in `.tmp`. */
  lemma TxtPasses(resolve: Resolver)
    ensures ShouldProcess(TxtNotTmp, "a.txt", false, resolve) <==> !EndsWith(resolve("a.txt"), ".tmp")
  {
    assert Literal(".txt") && Literal(".tmp");
    assert "*.txt" == "*" + ".txt" && "*.tmp" == "*" + ".tmp";
    NameOfPlainFile("a.txt");
    SuffixFilters(".txt", ".tmp", "a.txt", resolve);
    assert "a.txt"[1..] == ".txt";
  }

  /** Under `*.txt` minus `*.tmp`, `a.tmp` never passes. */
  lemma TmpRejected(resolve: Resolver)
    ensures !ShouldProcess(TxtNotTmp, "a.tmp", false, resolve)
  {
    assert Literal(".tmp") && "*.tmp" == "*" + ".tmp";
    NameOfPlainFile("a.tmp");
    StarSuffixMatch("a.tmp", ".tmp");
    assert "a.tmp"[1..] == ".tmp";
    ExcludeBeatsSpecificFiles(TxtNotTmp, "a.tmp", false, resolve, 0);
  }

  /** Under `*.txt` minus `*.tmp`, `a.txt.tmp` never passes. */
  lemma TxtTmpRejected(resolve: Resolver)
    ensures !ShouldProcess(TxtNotTmp, "a.txt.tmp", false, resolve)
  {
    assert Literal(".tmp") && "*.tmp" == "*" + ".tmp";
    NameOfPlainFile("a.txt.tmp");
    StarSuffixMatch("a.txt.tmp", ".tmp");
    assert "a.txt.tmp"[5..] == ".tmp";
    ExcludeBeatsSpecificFiles(TxtNotTmp, "a.txt.tmp", false, resolve, 0);
  }

  lemma {:induction false} NoSlashAfterLastSlash(p: string)
    requires NoSlash(p)
    ensures AfterLastSlash(p) == 0
    decreases |p|
  {
    if p != [] {
      NoSlashAfterLastSlash(p[..|p| - 1]);
    }
  }

  /** The name of a path without slashes, other than `.`, is the path itself. */
  lemma NameOfPlainFile(p: string)
    requires p != [] && p != "." && NoSlash(p)
    ensures PathName(p) == p
  {
    NoSlashAfterLastSlash(p);
  }

  /** A notification as watchdog delivers it; `destPath` is meaningful for moves only. */
  datatype RawEvent = RawEvent(kind: EventKind, srcPath: string, destPath: string, isDirectory: bool)

  /** `on_created`, `on_modified`, `on_deleted` and `on_moved`: the filter is applied to
      the pre-move path, and a move is reported at its destination with the source path
      attached. */
  function HandleRaw(cfg: FilterConfig, raw: RawEvent, now: Instant, resolve: Resolver): (r: Option<WatcherEvent>)
    ensures r.Some? <==> ShouldProcess(cfg, raw.srcPath, raw.isDirectory, resolve)
    ensures r.Some? ==> WellFormed(r.value)
    ensures r.Some? ==> r.value.kind == raw.kind && r.value.isDirectory == raw.isDirectory && r.value.timestamp == now
    ensures r.Some? ==> r.value.path == resolve(if raw.kind == Moved then raw.destPath else raw.srcPath)
    ensures r.Some? && raw.kind == Moved && raw.srcPath != "" ==> r.value.srcPath == Some(resolve(raw.srcPath))
  {
    if !ShouldProcess(cfg, raw.srcPath, raw.isDirectory, resolve) then None
    else if raw.kind == Moved then Some(NewEvent(Moved, raw.destPath, raw.isDirectory, Some(raw.srcPath), None, now, resolve))
    else Some(NewEvent(raw.kind, raw.srcPath, raw.isDirectory, None, None, now, resolve))
  }

  // ---------------------------------------------------------------------------
  // FileWatcherManager

  datatype Status = StatusCreated | Running | Stopped

  /** A Python thread is started at most once and, once finished, stays finished. */
  datatype ThreadState = NotStarted | Alive | Finished

  /** The `watcher_info` dictionary. */
  datatype WatcherInfo = WatcherInfo(
    id: string,
    path: string,
    filters: FilterSpec,
    created: Instant,
    status: Status,
    eventCount: nat,
    started: Option<Instant>,
    stopped: Option<Instant>,
    lastEvent: Option<Instant>)

  /** The exceptions the manager raises. */
  datatype WatcherError =
    | PathDoesNotExist(path: string)   // ValueError: watch path does not exist
    | AlreadyExists(id: string)        // ValueError: watcher already exists
    | NotFound(id: string)             // ValueError: watcher not found
    | StartedTwice(id: string)         // RuntimeError from Thread.start on a finished observer

  /** What `get_watcher_status` returns: a copy of the info plus `is_alive`. */
  datatype StatusReport = StatusReport(info: WatcherInfo, isAlive: bool)

  function NewInfo(id: string, path: string, filters: FilterSpec, now: Instant): WatcherInfo {
    WatcherInfo(id, path, filters, now, StatusCreated, 0, None, None, None)
  }

  /** How the recorded status and timestamps follow the observer thread. */
  predicate Lifecycle(info: WatcherInfo, t: ThreadState) {
    && (info.status == StatusCreated <==> t == NotStarted)
    && (info.status == Running ==> t == Alive)
    && (t == Finished ==> info.status == Stopped)
    && (info.started.Some? <==> info.status != StatusCreated)
    && (info.stopped.Some? <==> info.status == Stopped)
  }

  /** Deleting a key undoes any earlier change to that key's value. */
  lemma DropUpdated<V>(before: map<string, V>, after: map<string, V>, k: string)
    requires after.Keys == before.Keys
    requires forall j :: j in before && j != k ==> after[j] == before[j]
    ensures after - {k} == before - {k}
  {
  }

  /** `s` without `x`. */
  function Without(s: seq<string>, x: string): (r: seq<string>)
    ensures forall y :: y in r <==> y in s && y != x
    ensures Distinct(s) ==> Distinct(r)
    ensures x !in s ==> r == s
    ensures |s| > 0 && s[0] == x && Distinct(s) ==> r == s[1..]
  {
    if s == [] then []
    else
      var rest := Without(s[1..], x);
      assert forall y :: y in s[1..] ==> y in s;
      assert Distinct(s) ==> Distinct(s[1..]) && s[0] !in s[1..] by {
        if Distinct(s) {
          DistinctTail(s);
        }
      }
      assert Distinct(s) && s[0] != x ==> Distinct([s[0]] + rest) by {
        if Distinct(s) && s[0] != x {
          DistinctCons(s[0], rest);
        }
      }
      assert s == [s[0]] + s[1..];
      if s[0] == x then rest else [s[0]] + rest
  }

  /** Position of the first occurrence of `x` in `s`. */
  function IndexOf<T(==)>(s: seq<T>, x: T): (i: nat)
    requires x in s
    ensures i < |s| && s[i] == x && x !in s[..i]
  {
    if s[0] == x then 0
    else
      var j := IndexOf(s[1..], x);
      assert s[..j + 1] == [s[0]] + s[1..][..j];
      j + 1
  }

  /** `list.remove(x)` with the `ValueError` ignored: the first occurrence of `x` is
      taken out, and a list without `x` is left as it is. */
  function RemoveFirst<T(==)>(s: seq<T>, x: T): (r: seq<T>)
    ensures x !in s ==> r == s
    ensures x in s ==> |r| == |s| - 1 && multiset(r) + multiset{x} == multiset(s)
    ensures x in s ==> forall j :: 0 <= j < |r| ==> r[j] == if j < IndexOf(s, x) then s[j] else s[j + 1]
  {
    if x in s then
      var i := IndexOf(s, x);
      assert s == s[..i] + [x] + s[i + 1..];
      s[..i] + s[i + 1..]
    else s
  }

  /** The callbacks that raise, in the order they ran. */
  function Failures(cbs: seq<CallbackId>, e: WatcherEvent, raises: (CallbackId, WatcherEvent) -> bool): (r: seq<CallbackId>)
    ensures forall c :: c in r <==> c in cbs && raises(c, e)
    decreases |cbs|
  {
    if cbs == [] then []
    else
      var init := cbs[..|cbs| - 1];
      var last := cbs[|cbs| - 1];
      assert cbs == init + [last];
      Failures(init, e, raises) + if raises(last, e) then [last] else []
  }

  /** The invariant of the manager's tables: the same keys in all three, `order` lists
      them once each, and every watcher's status agrees with its observer thread. */
  ghost predicate Tables(watchers: map<string, WatcherInfo>, observers: map<string, ThreadState>,
                         callbacks: map<string, seq<CallbackId>>, order: seq<string>) {
    && watchers.Keys == observers.Keys
    && watchers.Keys == callbacks.Keys
    && (forall k :: k in watchers <==> k in order)
    && Distinct(order)
    && (forall k :: k in watchers ==> watchers[k].id == k && Lifecycle(watchers[k], observers[k]))
  }

  /** Deleting a watcher from all tables keeps them consistent. */
  lemma TablesForget(watchers: map<string, WatcherInfo>, observers: map<string, ThreadState>,
                     callbacks: map<string, seq<CallbackId>>, order: seq<string>, id: string)
    requires Tables(watchers, observers, callbacks, order)
    ensures Tables(watchers - {id}, observers - {id}, callbacks - {id}, Without(order, id))
  {
  }

  /** A new watcher in state `created` with no callbacks, appended to the order. */
  lemma TablesAdd(watchers: map<string, WatcherInfo>, observers: map<string, ThreadState>,
                  callbacks: map<string, seq<CallbackId>>, order: seq<string>, info: WatcherInfo)
    requires Tables(watchers, observers, callbacks, order)
    requires info.id !in watchers && Lifecycle(info, NotStarted)
    ensures Tables(watchers[info.id := info], observers[info.id := NotStarted], callbacks[info.id := []], order + [info.id])
  {
    DistinctSnoc(order, info.id);
  }

  /** A watcher's record and observer replaced by a consistent pair. */
  lemma TablesUpdate(watchers: map<string, WatcherInfo>, observers: map<string, ThreadState>,
                     callbacks: map<string, seq<CallbackId>>, order: seq<string>, info: WatcherInfo, t: ThreadState)
    requires Tables(watchers, observers, callbacks, order)
    requires info.id in watchers && Lifecycle(info, t)
    ensures Tables(watchers[info.id := info], observers[info.id := t], callbacks, order)
  {
  }

  /** A watcher's record replaced by one that still agrees with its observer. */
  lemma TablesUpdateInfo(watchers: map<string, WatcherInfo>, observers: map<string, ThreadState>,
                         callbacks: map<string, seq<CallbackId>>, order: seq<string>, info: WatcherInfo)
    requires Tables(watchers, observers, callbacks, order)
    requires info.id in watchers && Lifecycle(info, observers[info.id])
    ensures Tables(watchers[info.id := info], observers, callbacks, order)
  {
  }

  /** Any change to the callback table that keeps its keys. */
  lemma TablesCallbacks(watchers: map<string, WatcherInfo>, observers: map<string, ThreadState>,
                        callbacks: map<string, seq<CallbackId>>, order: seq<string>, id: string, cbs: seq<CallbackId>)
    requires Tables(watchers, observers, callbacks, order) && id in callbacks
    ensures Tables(watchers, observers, callbacks[id := cbs], order)
  {
  }

  /** `_handle_file_event`'s loop: every callback runs, in order, and those that raise
      are collected. */
  method RunCallbacks(cbs: seq<CallbackId>, e: WatcherEvent, raises: (CallbackId, WatcherEvent) -> bool)
    returns (invoked: seq<CallbackId>, failed: seq<CallbackId>)
    ensures invoked == cbs
    ensures failed == Failures(cbs, e, raises)
  {
    invoked, failed := [], [];
    var i := 0;
    while i < |cbs|
      invariant 0 <= i <= |cbs|
      invariant invoked == cbs[..i]
      invariant failed == Failures(cbs[..i], e, raises)
    {
      var cb := cbs[i];
      invoked := invoked + [cb];
      if raises(cb, e) {
        failed := failed + [cb];
      }
      assert cbs[..i + 1][..i] == cbs[..i];
      i := i + 1;
    }
    assert cbs[..i] == cbs;
  }

  class Manager {
    var watchers: map<string, WatcherInfo>
    var observers: map<string, ThreadState>
    var callbacks: map<string, seq<CallbackId>>
    /** The insertion order of the `watchers` dictionary. */
    var order: seq<string>
    /** The filter settings of each watcher's event handler, which the observer holds;
        they are fixed when the handler is created. */
    var handlers: map<string, FilterConfig>

    /** The three tables have the same keys, `order` lists them once each, every
        watcher's status agrees with its observer thread, and every observer has its
        handler. */
    ghost predicate Valid()
      reads this
    {
      Tables(watchers, observers, callbacks, order) && handlers.Keys == observers.Keys
    }

    constructor ()
      ensures Valid()
      ensures watchers == map[] && observers == map[] && callbacks == map[] && order == [] && handlers == map[]
    {
      watchers, observers, callbacks, order, handlers := map[], map[], map[], [], map[];
    }

    /** `create_watcher`: the path must exist, which is checked before the id is; a new
        id enters all three tables in state `created`, and its handler reads the filters
        (resolving the specific files) once, now. */
    method CreateWatcher(id: string, watchPath: string, filters: FilterSpec,
                         pathExists: string -> bool, resolve: Resolver, now: Instant)
      returns (r: Result<WatcherInfo, WatcherError>)
      requires Valid()
      modifies this
      ensures Valid()
      ensures !pathExists(watchPath) ==> r == Err(PathDoesNotExist(watchPath)) && unchanged(this)
      ensures pathExists(watchPath) && id in old(watchers) ==> r == Err(AlreadyExists(id)) && unchanged(this)
      ensures pathExists(watchPath) && id !in old(watchers) ==>
        && r == Ok(NewInfo(id, resolve(watchPath), filters, now))
        && watchers == old(watchers)[id := r.value]
        && observers == old(observers)[id := NotStarted]
        && callbacks == old(callbacks)[id := []]
        && order == old(order) + [id]
        && handlers == old(handlers)[id := SetupFilters(filters, resolve)]
    {
      if !pathExists(watchPath) {
        return Err(PathDoesNotExist(watchPath));
      }
      var absPath := resolve(watchPath);
      if id in watchers {
        return Err(AlreadyExists(id));
      }
      var handler := SetupFilters(filters, resolve);
      var info := NewInfo(id, absPath, filters, now);
      TablesAdd(watchers, observers, callbacks, order, info);
      watchers, observers, callbacks, order := watchers[id := info], observers[id := NotStarted], callbacks[id := []], order + [id];
      handlers := handlers[id := handler];
      assert handlers.Keys == old(handlers).Keys + {id};
      r := Ok(info);
    }

    /** `start_watcher`: a live observer is left alone; a new one is started. A finished
        observer cannot be started again, and `Thread.start` raises. */
    method StartWatcher(id: string, now: Instant) returns (r: Result<WatcherInfo, WatcherError>)
      requires Valid()
      modifies this
      ensures Valid()
      ensures id !in old(watchers) ==> r == Err(NotFound(id)) && unchanged(this)
      ensures id in old(watchers) && old(observers[id]) == Alive ==> r == Ok(old(watchers[id])) && unchanged(this)
      ensures id in old(watchers) && old(observers[id]) == Finished ==> r == Err(StartedTwice(id)) && unchanged(this)
      ensures id in old(watchers) && old(observers[id]) == NotStarted ==>
        && r == Ok(old(watchers[id]).(status := Running, started := Some(now)))
        && watchers == old(watchers)[id := r.value]
        && observers == old(observers)[id := Alive]
        && callbacks == old(callbacks) && order == old(order) && handlers == old(handlers)
    {
      if id !in watchers {
        return Err(NotFound(id));
      }
      var observer := observers[id];
      if observer == Finished {
        return Err(StartedTwice(id));
      }
      if observer == NotStarted {
        var info := watchers[id].(status := Running, started := Some(now));
        TablesUpdate(watchers, observers, callbacks, order, info, Alive);
        watchers, observers := watchers[id := info], observers[id := Alive];
      }
      r := Ok(watchers[id]);
    }

    /** `stop_watcher`: only a live observer is stopped; `joined` says whether it ended
        within the five-second join. The watcher is marked stopped either way. */
    method StopWatcher(id: string, joined: bool, now: Instant) returns (r: Result<WatcherInfo, WatcherError>)
      requires Valid()
      modifies this
      ensures Valid()
      ensures id !in old(watchers) ==> r == Err(NotFound(id)) && unchanged(this)
      ensures id in old(watchers) && old(observers[id]) != Alive ==> r == Ok(old(watchers[id])) && unchanged(this)
      ensures id in old(watchers) && old(observers[id]) == Alive ==>
        && r == Ok(old(watchers[id]).(status := Stopped, stopped := Some(now)))
        && watchers == old(watchers)[id := r.value]
        && observers == old(observers)[id := if joined then Finished else Alive]
        && callbacks == old(callbacks) && order == old(order) && handlers == old(handlers)
    {
      if id !in watchers {
        return Err(NotFound(id));
      }
      if observers[id] == Alive {
        var info := watchers[id].(status := Stopped, stopped := Some(now));
        var t := if joined then Finished else Alive;
        TablesUpdate(watchers, observers, callbacks, order, info, t);
        watchers, observers := watchers[id := info], observers[id := t];
      }
      r := Ok(watchers[id]);
    }

    /** A stopped observer that outlived the five-second join ends on its own later: from
        then on it is not alive, a second `stop_watcher` leaves it alone and
        `start_watcher` raises. Nothing but the thread's state changes. */
    method ObserverExited(id: string)
      requires Valid() && id in watchers && observers[id] == Alive && watchers[id].status == Stopped
      modifies this
      ensures Valid()
      ensures observers == old(observers)[id := Finished]
      ensures watchers == old(watchers) && callbacks == old(callbacks) && order == old(order) && handlers == old(handlers)
    {
      TablesUpdate(watchers, observers, callbacks, order, watchers[id], Finished);
      observers := observers[id := Finished];
    }

    /** `remove_watcher`: false for an unknown id; otherwise stop, then delete the id
        from all three tables. */
    method RemoveWatcher(id: string, joined: bool, now: Instant) returns (removed: bool)
      requires Valid()
      modifies this
      ensures Valid()
      ensures removed == (id in old(watchers))
      ensures !removed ==> unchanged(this)
      ensures removed ==>
        && watchers == old(watchers) - {id}
        && observers == old(observers) - {id}
        && callbacks == old(callbacks) - {id}
        && order == Without(old(order), id)
        && handlers == old(handlers) - {id}
    {
      if id !in watchers {
        return false;
      }
      ghost var w0, o0, c0, ord0 := watchers, observers, callbacks, order;
      var _ := StopWatcher(id, joined, now);
      assert callbacks == c0 && order == ord0 && handlers == old(handlers);
      ghost var w1, o1 := watchers, observers;
      Forget(id);
      DropUpdated(w0, w1, id);
      DropUpdated(o0, o1, id);
      removed := true;
    }

    /** The deletions of `remove_watcher`: the id leaves all three tables, and its
        handler goes with its observer. */
    method Forget(id: string)
      requires Valid() && id in watchers
      modifies this
      ensures Valid()
      ensures watchers == old(watchers) - {id}
      ensures observers == old(observers) - {id}
      ensures callbacks == old(callbacks) - {id}
      ensures order == Without(old(order), id)
      ensures handlers == old(handlers) - {id}
    {
      TablesForget(watchers, observers, callbacks, order, id);
      watchers, observers, callbacks, order := watchers - {id}, observers - {id}, callbacks - {id}, Without(order, id);
      handlers := handlers - {id};
    }

    /** `list_watchers`: every watcher's info, in the order the watchers were created. */
    method ListWatchers() returns (infos: seq<WatcherInfo>)
      requires Valid()
      ensures |infos| == |order|
      ensures forall i :: 0 <= i < |order| ==> infos[i] == watchers[order[i]]
      ensures forall k :: k in watchers ==> watchers[k] in infos
    {
      var w, o := watchers, order;
      infos := seq(|o|, i requires 0 <= i < |o| && o[i] in w => w[o[i]]);
      forall k | k in watchers ensures watchers[k] in infos {
        var i :| 0 <= i < |order| && order[i] == k;
        assert infos[i] == watchers[k];
      }
    }

    /** `get_watcher_status` */
    method GetWatcherStatus(id: string) returns (r: Result<StatusReport, WatcherError>)
      requires Valid()
      ensures id !in watchers ==> r == Err(NotFound(id))
      ensures id in watchers ==> r.Ok? && r.value.info == watchers[id]
      ensures id in watchers ==> (r.value.isAlive <==> observers[id] == Alive)
      ensures r.Ok? && r.value.isAlive ==> r.value.info.status != StatusCreated && r.value.info.started.Some?
    {
      if id !in watchers {
        return Err(NotFound(id));
      }
      r := Ok(StatusReport(watchers[id], observers[id] == Alive));
    }

    /** `add_event_callback`: appended for a known id, ignored otherwise. */
    method AddEventCallback(id: string, cb: CallbackId)
      requires Valid()
      modifies this
      ensures Valid()
      ensures callbacks == if id in old(callbacks) then old(callbacks)[id := old(callbacks[id]) + [cb]] else old(callbacks)
      ensures watchers == old(watchers) && observers == old(observers) && order == old(order) && handlers == old(handlers)
    {
      if id in callbacks {
        TablesCallbacks(watchers, observers, callbacks, order, id, callbacks[id] + [cb]);
        callbacks := callbacks[id := callbacks[id] + [cb]];
      }
    }

    /** `remove_event_callback`: the first registration of `cb` goes; an absent callback
        or an unknown id changes nothing. */
    method RemoveEventCallback(id: string, cb: CallbackId)
      requires Valid()
      modifies this
      ensures Valid()
      ensures callbacks == if id in old(callbacks) then old(callbacks)[id := RemoveFirst(old(callbacks[id]), cb)] else old(callbacks)
      ensures watchers == old(watchers) && observers == old(observers) && order == old(order) && handlers == old(handlers)
    {
      if id in callbacks {
        TablesCallbacks(watchers, observers, callbacks, order, id, RemoveFirst(callbacks[id], cb));
        callbacks := callbacks[id := RemoveFirst(callbacks[id], cb)];
      }
    }

    /** `_handle_file_event`: a registered watcher counts the event and records its
        time; then every callback runs, in registration order, whether or not an
        earlier one raised (`raises` says which ones do). */
    method HandleFileEvent(id: string, e: WatcherEvent, now: Instant, raises: (CallbackId, WatcherEvent) -> bool)
      returns (invoked: seq<CallbackId>, failed: seq<CallbackId>)
      requires Valid()
      modifies this
      ensures Valid()
      ensures id in old(watchers) ==>
        watchers == old(watchers)[id := old(watchers[id]).(eventCount := old(watchers[id]).eventCount + 1, lastEvent := Some(now))]
      ensures id !in old(watchers) ==> watchers == old(watchers)
      ensures observers == old(observers) && callbacks == old(callbacks) && order == old(order) && handlers == old(handlers)
      ensures invoked == if id in callbacks then callbacks[id] else []
      ensures failed == Failures(invoked, e, raises)
    {
      if id in watchers {
        var info := watchers[id].(eventCount := watchers[id].eventCount + 1, lastEvent := Some(now));
        TablesUpdateInfo(watchers, observers, callbacks, order, info);
        watchers := watchers[id := info];
      }
      var cbs := if id in callbacks then callbacks[id] else [];
      invoked, failed := RunCallbacks(cbs, e, raises);
    }

    /** A notification from the observer thread of watcher `id`: only a live observer
        reports, the event loop must still be open, and only events that pass the
        filters its handler set up at creation reach `_handle_file_event`. The event's
        own path is resolved now. */
    method Deliver(id: string, raw: RawEvent, loopOpen: bool, now: Instant, resolve: Resolver,
                   raises: (CallbackId, WatcherEvent) -> bool)
      returns (delivered: Option<WatcherEvent>)
      requires Valid()
      modifies this
      ensures Valid()
      ensures delivered ==
        if id in old(watchers) && old(observers[id]) == Alive && loopOpen
        then HandleRaw(old(handlers[id]), raw, now, resolve)
        else None
      ensures delivered.Some? ==>
        watchers == old(watchers)[id := old(watchers[id]).(eventCount := old(watchers[id]).eventCount + 1, lastEvent := Some(now))]
      ensures delivered.None? ==> watchers == old(watchers)
      ensures observers == old(observers) && callbacks == old(callbacks) && order == old(order) && handlers == old(handlers)
    {
      delivered := None;
      if id in watchers && observers[id] == Alive && loopOpen {
        delivered := HandleRaw(handlers[id], raw, now, resolve);
        if delivered.Some? {
          var _, _ := HandleFileEvent(id, delivered.value, now, raises);
        }
      }
    }

    /** `cleanup_all`: every watcher is removed, in creation order; afterwards the three
        tables are empty. */
    method CleanupAll(joined: string -> bool, now: Instant)
      requires Valid()
      modifies this
      ensures Valid()
      ensures watchers == map[] && observers == map[] && callbacks == map[] && order == [] && handlers == map[]
    {
      var ids := order;
      var i := 0;
      while i < |ids|
        invariant 0 <= i <= |ids|
        invariant Valid()
        invariant order == ids[i..]
      {
        var removed := RemoveWatcher(ids[i], joined(ids[i]), now);
        i := i + 1;
      }
      assert watchers.Keys == {};
      assert observers.Keys == {};
      assert callbacks.Keys == {};
      assert handlers.Keys == {};
    }
  }
}
