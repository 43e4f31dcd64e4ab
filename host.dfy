/** The state a background job and the web view act on: the shared cache
    (Django's cache, a key-value registry), the temporary directories of this
    machine, the log files, and a trace of the externally visible effects in
    the order they happen. */
module Host {
  import opened Json

  /** A value stored in the cache: a process id, or a set of job ids. */
  datatype Value = Pid(pid: int) | JobSet(ids: set<string>)

  /** One externally visible effect. */
  datatype Event =
    | FileWritten(dir: nat, name: string, doc: Json)
    | DirRemoved(dir: nat)
    | KeySet(key: string, value: Value)
    | KeyDeleted(key: string)
    | Launched(pid: int)
    | GroupSignalled(pgid: int)
    | CommandRun(project: nat, output: nat)

  function Contents(logs: map<string, seq<string>>, path: string): seq<string> {
    if path in logs then logs[path] else []
  }

  /** A snapshot of the whole host state, so that operations can be specified
      as functions from the state before to the state after. */
  datatype World = World(
    registry: map<string, Value>,
    dirs: set<nat>,
    nextTemp: nat,
    logs: map<string, seq<string>>,
    events: seq<Event>)
  {
    /** Every existing temporary directory has a name handed out earlier. */
    ghost predicate Valid() {
      forall d :: d in dirs ==> d < nextTemp
    }

    /** The contents of a log file; a missing file reads as empty. */
    function LogOf(path: string): seq<string> {
      Contents(logs, path)
    }
  }

  class Host {
    /** The cache: key -> value. */
    var registry: map<string, Value>
    /** Existing temporary directories; what is written into them is recorded in the trace. */
    var dirs: set<nat>
    /** The next name tempfile.mkdtemp hands out; names are never reused. */
    var nextTemp: nat
    /** Log files: path -> the chunks written to it, in order. */
    var logs: map<string, seq<string>>
    /** Every effect so far, in order. */
    var events: seq<Event>

    function State(): World
      reads this
    {
      World(registry, dirs, nextTemp, logs, events)
    }

    ghost predicate Valid()
      reads this
    {
      State().Valid()
    }

    constructor (registry0: map<string, Value>, logs0: map<string, seq<string>>)
      ensures Valid()
      ensures registry == registry0 && logs == logs0
      ensures dirs == {} && events == []
    {
      registry := registry0;
      dirs := {};
      nextTemp := 0;
      logs := logs0;
      events := [];
    }

    /** tempfile.mkdtemp(): a new, empty directory whose name was never used before. */
    method MakeTemp() returns (d: nat)
      modifies this`dirs, this`nextTemp
      ensures old(Valid()) ==> Valid() && d !in old(dirs)
      ensures d == old(nextTemp)
      ensures dirs == old(dirs) + {d} && nextTemp == old(nextTemp) + 1
    {
      d := nextTemp;
      dirs := dirs + {d};
      nextTemp := nextTemp + 1;
    }

    /** open(dir / name, 'w') followed by json.dump(doc, f). */
    method WriteFile(d: nat, name: string, doc: Json)
      requires d in dirs
      modifies this`events
      ensures events == old(events) + [FileWritten(d, name, doc)]
    {
      events := events + [FileWritten(d, name, doc)];
    }

    /** shutil.rmtree(d): removes the directory with its files; `ok` is false
        (FileNotFoundError) when it does not exist. */
    method RemoveTree(d: nat) returns (ok: bool)
      modifies this`dirs, this`events
      ensures ok == (d in old(dirs))
      ensures dirs == if ok then old(dirs) - {d} else old(dirs)
      ensures events == if ok then old(events) + [DirRemoved(d)] else old(events)
    {
      ok := d in dirs;
      if ok {
        dirs := dirs - {d};
        events := events + [DirRemoved(d)];
      }
    }

    /** cache.set(key, value, timeout=None). */
    method CacheSet(key: string, value: Value)
      modifies this`registry, this`events
      ensures registry == old(registry)[key := value]
      ensures events == old(events) + [KeySet(key, value)]
    {
      registry := registry[key := value];
      events := events + [KeySet(key, value)];
    }

    /** cache.delete(key): removing an absent key is not an error. */
    method CacheDelete(key: string)
      modifies this`registry, this`events
      ensures registry == old(registry) - {key}
      ensures events == old(events) + [KeyDeleted(key)]
    {
      registry := registry - {key};
      events := events + [KeyDeleted(key)];
    }

    /** open(path, 'w'): creates the file or truncates it. */
    method OpenTruncate(path: string)
      modifies this`logs
      ensures logs == old(logs)[path := []]
    {
      logs := logs[path := []];
    }

    /** write(chunk) at the end of the file; open(path, 'a') creates it when absent. */
    method Append(path: string, chunk: string)
      modifies this`logs
      ensures logs == old(logs)[path := Contents(old(logs), path) + [chunk]]
    {
      logs := logs[path := Contents(logs, path) + [chunk]];
    }

    /** subprocess.Popen(..., preexec_fn=os.setsid): the child leads a new process group whose id is its pid. */
    method Launch(pid: int)
      modifies this`events
      ensures events == old(events) + [Launched(pid)]
    {
      events := events + [Launched(pid)];
    }

    /** os.killpg(pgid, SIGTERM). */
    method SignalGroup(pgid: int)
      modifies this`events
      ensures events == old(events) + [GroupSignalled(pgid)]
    {
      events := events + [GroupSignalled(pgid)];
    }

    /** subprocess.run on the JIPipe command line, given the directory holding the
        project file and the output folder; the exit status is decided elsewhere. */
    method RunCommand(project: nat, output: nat)
      modifies this`events
      ensures events == old(events) + [CommandRun(project, output)]
    {
      events := events + [CommandRun(project, output)];
    }
  }
}
