/**
 * The project lifecycle (kscope/core/project.h): a project binds one engine
 * and one code base under a persisted configuration file. Two flags record
 * whether the configuration was loaded and whether the project is open.
 *
 * The file system is a value: a set of existing directories and a map from
 * file paths to INI files whose keys are "group/key". The engine's and code
 * base's reactions are parameters; the calls made on them are logged.
 */
module Projects {

  /** The configuration parameters of a project. */
  datatype Params = Params(
    projPath: string, name: string, rootPath: string,
    engineString: string, codebaseString: string)

  /** An INI file: whether it can be read, and its "group/key" entries. */
  datatype IniFile = IniFile(readable: bool, entries: map<string, string>)

  /** The part of the file system a project touches. */
  datatype Disk = Disk(dirs: set<string>, files: map<string, IniFile>)

  /** How a call into the engine or code base ended: it returned, or it threw. */
  datatype CallOutcome = Returned(ok: bool) | Threw

  /** The exceptions the project operations throw. */
  datatype ProjectError =
    | NotLoaded
    | CannotOverwriteProject
    | CannotCreateDir(dir: string)
    | CannotOverwriteFile(path: string)
    | EngineThrew
    | CodebaseThrew

  datatype Status = Ok | Failed(error: ProjectError)

  /**
   * The state of a project object: its configuration file name, parameters,
   * the two flags, and the strings passed to engine open() and code base
   * load(), oldest first.
   */
  datatype ProjectState = ProjectState(
    configFileName: string, params: Params, loaded: bool, open: bool,
    engineOpens: seq<string>, codebaseLoads: seq<string>)

  /** The outcome of create(): new project state, new disk, and status. */
  datatype CreateResult = CreateResult(state: ProjectState, disk: Disk, status: Status)

  const NameKey := "Project/Name"
  const RootPathKey := "Project/RootPath"
  const EngineStringKey := "Project/EngineString"
  const CodebaseStringKey := "Project/CodebaseString"

  /** A project that has just been constructed, before load(). */
  function Fresh(configFileName: string): ProjectState
  {
    ProjectState(configFileName, Params("", "", "", "", ""), false, false, [], [])
  }

  predicate EndsWithSlash(p: string)
  {
    |p| > 0 && p[|p| - 1] == '/'
  }

  function WithTrailingSlash(p: string): (r: string)
    ensures EndsWithSlash(r)
    ensures EndsWithSlash(p) ==> r == p
    ensures !EndsWithSlash(p) ==> r == p + "/"
  {
    if EndsWithSlash(p) then p else p + "/"
  }

  /** The key of a directory: an empty path names the current directory. */
  function DirEntry(p: string): string
  {
    WithTrailingSlash(if p == "" then "." else p)
  }

  /** A file's path inside a directory (QDir::filePath on a relative name). */
  function FilePath(dir: string, name: string): string
  {
    DirEntry(dir) + name
  }

  /** The configuration file's path: the project path and file name, concatenated. */
  function ConfigPath(s: ProjectState): string
  {
    s.params.projPath + s.configFileName
  }

  /** A settings value, or the given default when the key is absent. */
  function Value(entries: map<string, string>, key: string, default: string): string
  {
    if key in entries then entries[key] else default
  }

  /** What the project invariant demands: an open project is a loaded one. */
  predicate OpenImpliesLoaded(s: ProjectState)
  {
    s.open ==> s.loaded
  }

  /**
   * load(): a missing or unreadable configuration file leaves the project as
   * it is. Otherwise the project path is stored with a trailing '/', the
   * parameters are read from the "Project" group (Name defaults to "",
   * RootPath to "/", the engine and code base strings to "") and the project
   * is marked loaded. The file checked is the one inside the directory, but
   * the values are read from the stored path and the file name: for the
   * empty path, the check is on the current directory while the values come
   * from the file name under "/".
   */
  function Loaded(s: ProjectState, disk: Disk, projPath: string): (r: ProjectState)
    ensures var f := FilePath(projPath, s.configFileName);
      f !in disk.files || !disk.files[f].readable ==> r == s
    ensures var f := FilePath(projPath, s.configFileName);
      f in disk.files && disk.files[f].readable ==>
        && r.loaded
        && r.params.projPath == WithTrailingSlash(projPath)
        && EndsWithSlash(r.params.projPath)
        && r.open == s.open
        && r.engineOpens == s.engineOpens && r.codebaseLoads == s.codebaseLoads
    ensures projPath != "" && r.loaded && !s.loaded ==>
        var entries := disk.files[FilePath(projPath, s.configFileName)].entries;
        && r.params.name == Value(entries, NameKey, "")
        && r.params.rootPath == Value(entries, RootPathKey, "/")
        && r.params.engineString == Value(entries, EngineStringKey, "")
        && r.params.codebaseString == Value(entries, CodebaseStringKey, "")
    ensures projPath == "" && r.loaded && !s.loaded ==>
        && FilePath(projPath, s.configFileName) == "./" + s.configFileName
        && r.params.projPath == "/"
        && var cp := "/" + s.configFileName;
           var entries := if cp in disk.files && disk.files[cp].readable then disk.files[cp].entries else map[];
           && r.params.name == Value(entries, NameKey, "")
           && r.params.rootPath == Value(entries, RootPathKey, "/")
           && r.params.engineString == Value(entries, EngineStringKey, "")
           && r.params.codebaseString == Value(entries, CodebaseStringKey, "")
  {
    var f := FilePath(projPath, s.configFileName);
    if f !in disk.files || !disk.files[f].readable then s
    else
      var pp := WithTrailingSlash(projPath);
      var cp := pp + s.configFileName;
      var entries := if cp in disk.files && disk.files[cp].readable then disk.files[cp].entries else map[];
      s.(params := Params(pp,
                          Value(entries, NameKey, ""),
                          Value(entries, RootPathKey, "/"),
                          Value(entries, EngineStringKey, ""),
                          Value(entries, CodebaseStringKey, "")),
         loaded := true)
  }

  /**
   * open(): nothing to do when already open; refused when not loaded.
   * Otherwise the engine is opened with the engine string and the code base
   * loaded with the code base string; an exception from either propagates
   * and leaves the project closed. Their boolean results are ignored: once
   * both return, the project is open.
   */
  function Opened(s: ProjectState, engine: CallOutcome, codebase: CallOutcome): (r: (ProjectState, Status))
    ensures s.open ==> r == (s, Ok)
    ensures !s.open && !s.loaded ==> r == (s, Failed(NotLoaded))
    ensures r.0.open <==> s.open || (s.loaded && engine.Returned? && codebase.Returned?)
    ensures r.1 == Ok <==> r.0.open
    ensures r.0.params == s.params && r.0.loaded == s.loaded
    ensures !s.open && s.loaded ==>
      && r.0.engineOpens == s.engineOpens + [s.params.engineString]
      && r.0.codebaseLoads == s.codebaseLoads + (if engine.Returned? then [s.params.codebaseString] else [])
  {
    if s.open then (s, Ok)
    else if !s.loaded then (s, Failed(NotLoaded))
    else
      var s1 := s.(engineOpens := s.engineOpens + [s.params.engineString]);
      if engine.Threw? then (s1, Failed(EngineThrew))
      else
        var s2 := s1.(codebaseLoads := s1.codebaseLoads + [s.params.codebaseString]);
        if codebase.Threw? then (s2, Failed(CodebaseThrew))
        else (s2.(open := true), Ok)
  }

  /** close(): clears the open flag and nothing else. */
  function Closed(s: ProjectState): (r: ProjectState)
    ensures !r.open
    ensures r.params == s.params && r.loaded == s.loaded
    ensures r.engineOpens == s.engineOpens && r.codebaseLoads == s.codebaseLoads
  {
    s.(open := false)
  }

  /** The four "Project" entries written for the given parameters over an existing file. */
  function WithProjectGroup(existing: map<string, string>, p: Params): map<string, string>
  {
    existing[NameKey := p.name][RootPathKey := p.rootPath]
            [EngineStringKey := p.engineString][CodebaseStringKey := p.codebaseString]
  }

  /** Writes the configuration through QSettings at `target`, merging into any file there. */
  function WriteConfig(disk: Disk, target: string, p: Params): Disk
  {
    var existing := if target in disk.files then disk.files[target].entries else map[];
    disk.(files := disk.files[target := IniFile(true, WithProjectGroup(existing, p))])
  }

  /**
   * The guard steps that create() runs before writing: the project must be
   * neither open nor loaded, its directory must exist or be creatable, and
   * no configuration file may exist in it. On success, the disk with the
   * directory made.
   */
  function CreateGuards(s: ProjectState, disk: Disk, p: Params, mkpathOk: bool): CreateResult
  {
    if s.open || s.loaded then CreateResult(s, disk, Failed(CannotOverwriteProject))
    else
      var d := DirEntry(p.projPath);
      if d !in disk.dirs && !mkpathOk then CreateResult(s, disk, Failed(CannotCreateDir(p.projPath)))
      else
        var disk1 := disk.(dirs := disk.dirs + {d});
        var f := FilePath(p.projPath, s.configFileName);
        if f in disk1.files then CreateResult(s, disk1, Failed(CannotOverwriteFile(f)))
        else CreateResult(s, disk1, Ok)
  }

  /**
   * create() as the source writes it: the guard checks for the file inside
   * the project directory, but the settings are then written to the project
   * path and file name concatenated, with no separator added.
   */
  function CreatedAsWritten(s: ProjectState, disk: Disk, p: Params, mkpathOk: bool): (r: CreateResult)
    ensures r.status == Created(s, disk, p, mkpathOk).status && r.state == Created(s, disk, p, mkpathOk).state
    ensures r.status.Failed? ==> r.disk == Created(s, disk, p, mkpathOk).disk && r.disk.files == disk.files
    ensures r.status == Ok ==>
      var f := p.projPath + s.configFileName;
      f in r.disk.files && r.disk.files[f].readable &&
      (var e := r.disk.files[f].entries;
       && Value(e, NameKey, "") == p.name && Value(e, RootPathKey, "/") == p.rootPath
       && Value(e, EngineStringKey, "") == p.engineString
       && Value(e, CodebaseStringKey, "") == p.codebaseString)
    ensures EndsWithSlash(p.projPath) ==> r == Created(s, disk, p, mkpathOk)
  {
    var g := CreateGuards(s, disk, p, mkpathOk);
    if g.status.Failed? then g
    else
      var s1 := s.(params := p);
      CreateResult(s1, WriteConfig(g.disk, ConfigPath(s1), p), Ok)
  }

  /**
   * create(), with the settings written to the file the guard checked.
   * It fails without touching any state when the project is open or loaded;
   * it fails when the directory is absent and cannot be made, or when the
   * configuration file already exists. On success it copies the parameters,
   * writes the four "Project" entries, and leaves both flags as they were, so
   * the project is not open afterwards. No existing file is ever changed.
   */
  function Created(s: ProjectState, disk: Disk, p: Params, mkpathOk: bool): (r: CreateResult)
    ensures s.open || s.loaded ==> r == CreateResult(s, disk, Failed(CannotOverwriteProject))
    ensures !s.open && !s.loaded && DirEntry(p.projPath) !in disk.dirs && !mkpathOk ==>
      r == CreateResult(s, disk, Failed(CannotCreateDir(p.projPath)))
    ensures !s.open && !s.loaded && FilePath(p.projPath, s.configFileName) in disk.files ==>
      r.status.Failed? && r.disk.files == disk.files && r.state == s
    ensures (&& !s.open && !s.loaded && (DirEntry(p.projPath) in disk.dirs || mkpathOk)
             && FilePath(p.projPath, s.configFileName) !in disk.files) ==>
      r.status == Ok && DirEntry(p.projPath) in r.disk.dirs
    ensures r.status.Failed? ==> r.state == s && r.disk.files == disk.files
    ensures r.status == Ok ==> r.state == s.(params := p)
    ensures r.status == Ok ==>
      var f := FilePath(p.projPath, s.configFileName);
      f in r.disk.files && r.disk.files[f].readable &&
      (var e := r.disk.files[f].entries;
       && Value(e, NameKey, "") == p.name && Value(e, RootPathKey, "/") == p.rootPath
       && Value(e, EngineStringKey, "") == p.engineString
       && Value(e, CodebaseStringKey, "") == p.codebaseString)
    ensures forall f :: f in disk.files ==> f in r.disk.files && r.disk.files[f] == disk.files[f]
  {
    var g := CreateGuards(s, disk, p, mkpathOk);
    if g.status.Failed? then g
    else CreateResult(s.(params := p), WriteConfig(g.disk, FilePath(p.projPath, s.configFileName), p), Ok)
  }

  /**
   * Finding, as written: with a project path that lacks a trailing '/',
   * create() passes its guard and then changes a file that already existed,
   * and the project it wrote cannot be loaded back from its own path.
   */
  lemma CreateAsWrittenMissesSeparator()
    ensures var conf := "kscope.conf";
      var p := Params("/p", "demo", "/src", "cscope", "files");
      var existing := IniFile(true, map["Project/Name" := "other"]);
      var disk := Disk({"/p/"}, map["/pkscope.conf" := existing]);
      var r := CreatedAsWritten(Fresh(conf), disk, p, false);
      && r.status == Ok
      && r.disk.files["/pkscope.conf"] != existing
      && !Loaded(Fresh(conf), r.disk, "/p").loaded
  {
    var conf := "kscope.conf";
    var p := Params("/p", "demo", "/src", "cscope", "files");
    var existing := IniFile(true, map["Project/Name" := "other"]);
    var disk := Disk({"/p/"}, map["/pkscope.conf" := existing]);
    assert !EndsWithSlash("/p");
    assert DirEntry("/p") == "/p/";
    assert FilePath("/p", conf) == "/p/kscope.conf";
    assert "/p/kscope.conf" != "/pkscope.conf" by {
      assert "/p/kscope.conf"[2] != "/pkscope.conf"[2];
    }
    assert CreateGuards(Fresh(conf), disk, p, false).status == Ok;
    assert ConfigPath(Fresh(conf).(params := p)) == "/pkscope.conf";
    var r := CreatedAsWritten(Fresh(conf), disk, p, false);
    assert r.disk.files["/pkscope.conf"].entries[NameKey] == "demo";
    assert existing.entries[NameKey] == "other";
    assert r.disk.files.Keys == {"/pkscope.conf"};
  }

  /**
   * Corrected create() round-trips through load(): a project created at a
   * non-empty path loads back from that path with the same parameters, the
   * path gaining a trailing '/'.
   */
  lemma CreateThenLoad(conf: string, disk: Disk, p: Params, mkpathOk: bool)
    requires p.projPath != ""
    requires Created(Fresh(conf), disk, p, mkpathOk).status == Ok
    ensures var d := Created(Fresh(conf), disk, p, mkpathOk).disk;
      var t := Loaded(Fresh(conf), d, p.projPath);
      t.loaded && !t.open && t.params == p.(projPath := WithTrailingSlash(p.projPath))
  {
    var d := Created(Fresh(conf), disk, p, mkpathOk).disk;
    var f := FilePath(p.projPath, conf);
    assert WithTrailingSlash(p.projPath) + conf == f;
    var e := d.files[f].entries;
    assert Value(e, NameKey, "") == p.name;
    assert Value(e, RootPathKey, "/") == p.rootPath;
    assert Value(e, EngineStringKey, "") == p.engineString;
    assert Value(e, CodebaseStringKey, "") == p.codebaseString;
  }

  /** One call on a project, with the environment's reaction. */
  datatype ProjectOp =
    | LoadOp(projPath: string)
    | OpenOp(engine: CallOutcome, codebase: CallOutcome)
    | CreateOp(params: Params, mkpathOk: bool)
    | CloseOp

  /** The project and disk after one call. */
  function Apply(s: ProjectState, disk: Disk, op: ProjectOp): (ProjectState, Disk)
  {
    match op
    case LoadOp(path) => (Loaded(s, disk, path), disk)
    case OpenOp(e, c) => (Opened(s, e, c).0, disk)
    case CreateOp(p, ok) =>
      var r := Created(s, disk, p, ok);
      (r.state, r.disk)
    case CloseOp => (Closed(s), disk)
  }

  /** The project and disk after a sequence of calls. */
  function Run(s: ProjectState, disk: Disk, ops: seq<ProjectOp>): (ProjectState, Disk)
    decreases |ops|
  {
    if ops == [] then (s, disk)
    else
      var n := Apply(s, disk, ops[0]);
      Run(n.0, n.1, ops[1..])
  }

  /**
   * Every operation keeps "open implies loaded": from a freshly constructed
   * project, no sequence of calls opens a project that is not loaded.
   */
  lemma {:induction false} RunKeepsOpenImpliesLoaded(s: ProjectState, disk: Disk, ops: seq<ProjectOp>)
    requires OpenImpliesLoaded(s)
    ensures OpenImpliesLoaded(Run(s, disk, ops).0)
    decreases |ops|
  {
    if ops != [] {
      var n := Apply(s, disk, ops[0]);
      assert OpenImpliesLoaded(n.0);
      RunKeepsOpenImpliesLoaded(n.0, n.1, ops[1..]);
    }
  }

  /**
   * The project object. The engine and code base are represented by the
   * strings they were opened and loaded with.
   */
  class Project {
    const configFileName: string
    var params: Params
    var loaded: bool
    var open: bool
    var engineOpens: seq<string>
    var codebaseLoads: seq<string>

    function Abs(): ProjectState
      reads this
    {
      ProjectState(configFileName, params, loaded, open, engineOpens, codebaseLoads)
    }

    /** Starts unloaded and closed, then attempts to load the configuration. */
    constructor (configFileName: string, projPath: string, disk: Disk)
      ensures Abs() == Loaded(Fresh(configFileName), disk, projPath)
    {
      this.configFileName := configFileName;
      params := Params("", "", "", "", "");
      loaded, open := false, false;
      engineOpens, codebaseLoads := [], [];
      new;
      Load(projPath, disk);
    }

    method Load(projPath: string, disk: Disk)
      modifies this
      ensures Abs() == Loaded(old(Abs()), disk, projPath)
    {
      var f := FilePath(projPath, configFileName);
      if f !in disk.files || !disk.files[f].readable {
        return;
      }
      params := params.(projPath := projPath);
      if !EndsWithSlash(params.projPath) {
        params := params.(projPath := params.projPath + "/");
      }
      var cp := params.projPath + configFileName;
      var entries := if cp in disk.files && disk.files[cp].readable then disk.files[cp].entries else map[];
      params := params.(name := Value(entries, NameKey, ""));
      params := params.(rootPath := Value(entries, RootPathKey, "/"));
      params := params.(engineString := Value(entries, EngineStringKey, ""));
      params := params.(codebaseString := Value(entries, CodebaseStringKey, ""));
      loaded := true;
    }

    method Open(engine: CallOutcome, codebase: CallOutcome) returns (status: Status)
      modifies this
      ensures (Abs(), status) == Opened(old(Abs()), engine, codebase)
    {
      if open {
        return Ok;
      }
      if !loaded {
        return Failed(NotLoaded);
      }
      engineOpens := engineOpens + [params.engineString];
      if engine.Threw? {
        return Failed(EngineThrew);
      }
      codebaseLoads := codebaseLoads + [params.codebaseString];
      if codebase.Threw? {
        return Failed(CodebaseThrew);
      }
      open := true;
      status := Ok;
    }

    method Create(p: Params, disk: Disk, mkpathOk: bool) returns (status: Status, disk': Disk)
      modifies this
      ensures CreateResult(Abs(), disk', status) == Created(old(Abs()), disk, p, mkpathOk)
    {
      if open || loaded {
        return Failed(CannotOverwriteProject), disk;
      }
      var d := DirEntry(p.projPath);
      if d !in disk.dirs && !mkpathOk {
        return Failed(CannotCreateDir(p.projPath)), disk;
      }
      disk' := disk.(dirs := disk.dirs + {d});
      var f := FilePath(p.projPath, configFileName);
      if f in disk'.files {
        return Failed(CannotOverwriteFile(f)), disk';
      }
      params := p;
      disk' := WriteConfig(disk', f, params);
      status := Ok;
    }

    method Close()
      modifies this
      ensures Abs() == Closed(old(Abs()))
    {
      open := false;
    }

    /** A copy of the parameters, whether or not the project is open. */
    method GetCurrentParams() returns (p: Params)
      ensures p == params
    {
      p := params;
    }
  }
}
