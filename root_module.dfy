/** A root module: a directory with its own Terraform executor, version,
    parser and schema cache, loaded by a six-stage pipeline in which a failing
    stage never stops the later ones. */
module RootModules {
  import opened Wrappers
  import opened Errors
  import opened Exec
  import opened SchemaStorage
  import opened Lang

  /** One entry of the module manifest (.terraform/modules/modules.json). */
  datatype Record = Record(key: string, sourceAddr: string, dir: string, version: string)

  /** A parsed module manifest: replaced wholesale, never edited in place. */
  datatype Manifest = Manifest(rootDir: string, records: seq<Record>)

  /** Functions the root module relies on but that are not part of this
      model: path comparison and joining, the classification of manifest
      records, the directory a lock file belongs to, and the parsers of
      manifests, versions and configuration. */
  datatype Host = Host(
    pathEquals: (string, string) -> bool,
    join: (string, string) -> string,
    isRoot: Record -> bool,
    isExternal: Record -> bool,
    moduleDirOf: string -> string,
    parseManifest: string -> Result<Manifest, Error>,
    parseVersion: string -> Option<Version>,
    findParser: string -> Outcome<Error>)

  /** What running Terraform gives during one load: the discovered binary
      path, the `terraform version` answer and the provider schemas. */
  datatype ToolOutcomes = ToolOutcomes(
    discover: Result<string, Error>,
    version: Result<string, Error>,
    providerSchemas: Result<ProviderSchemas, Error>)

  /** The aggregation of `load`: multierror.Append skips nil errors, so the
      result lists the stage errors that occurred, in stage order. */
  function Collect(stageErrors: seq<Option<Error>>): (errs: seq<Error>)
    ensures |errs| <= |stageErrors|
  {
    if stageErrors == [] then []
    else (if stageErrors[0].Some? then [stageErrors[0].value] else []) + Collect(stageErrors[1..])
  }

  /** Aggregating two runs of stages one after the other gives the first
      run's errors followed by the second's: stage order is kept. */
  lemma {:induction false} CollectConcat(first: seq<Option<Error>>, second: seq<Option<Error>>)
    ensures Collect(first + second) == Collect(first) + Collect(second)
  {
    if first != [] {
      assert (first + second)[1..] == first[1..] + second;
      CollectConcat(first[1..], second);
    } else {
      assert first + second == second;
    }
  }

  /** An error is reported exactly when some stage produced it. */
  lemma {:induction false} CollectedErrors(stageErrors: seq<Option<Error>>)
    ensures forall e :: e in Collect(stageErrors) <==> Some(e) in stageErrors
  {
    if stageErrors != [] {
      CollectedErrors(stageErrors[1..]);
      assert stageErrors == [stageErrors[0]] + stageErrors[1..];
    }
  }

  /** No error is reported when every stage succeeded. */
  lemma {:induction false} CollectNone(stageErrors: seq<Option<Error>>)
    ensures Collect(stageErrors) == [] <==> forall i :: 0 <= i < |stageErrors| ==> stageErrors[i].None?
  {
    if stageErrors != [] {
      CollectNone(stageErrors[1..]);
      assert forall i :: 1 <= i < |stageErrors| ==> stageErrors[i] == stageErrors[1..][i - 1];
    }
  }

  /** A manifest record that ReferencesModulePath accepts for `p`: neither
      the root module nor an external one, and located at `p`. */
  predicate LocalRecordAt(m: Manifest, r: Record, p: string, host: Host)
  {
    !host.isRoot(r) && !host.isExternal(r) && host.pathEquals(host.join(m.rootDir, r.dir), p)
  }

  class RootModule {
    const path: string

    // loading
    var isLoading: bool
    /** StartLoading has recorded a cancel function for its context. */
    var cancelLoading: bool
    /** That cancel function has been called. */
    var loadCancelled: bool
    var loadErr: seq<Error>

    // module cache
    var moduleManifestFile: Option<string>
    var moduleManifest: Option<Manifest>

    // plugin cache
    var pluginLockFile: Option<string>
    var schemaStorage: Storage?
    var schemaLoaded: bool

    // terraform executor
    var tfLoaded: bool
    var tfExec: Executor?
    var tfExecPath: string
    var tfExecTimeout: int
    var tfExecLogPath: string

    // terraform discovery
    var tfDiscoErr: Option<Error>
    var tfVersion: string
    var tfVersionErr: Option<Error>

    // language parser
    var parserLoaded: bool
    var parser: LanguageParser?

    /** What every operation keeps: nothing is built before what it needs,
        the "loaded" flags are set whenever their reference is, and the
        schema slot is free between operations. */
    ghost predicate Valid()
      reads this, schemaStorage
    {
      && (tfExec != null ==> tfLoaded)
      && (tfVersion != "" ==> tfExec != null)
      && (schemaStorage != null ==> tfExec != null && !schemaStorage.held)
      && (schemaLoaded ==> tfLoaded)
      && (parser != null ==> parserLoaded)
    }

    /** newRootModule: nothing discovered, nothing loaded. */
    constructor (dir: string)
      ensures path == dir && Valid()
      ensures !isLoading && !cancelLoading && !loadCancelled && loadErr == []
      ensures moduleManifestFile.None? && moduleManifest.None? && pluginLockFile.None?
      ensures schemaStorage == null && !schemaLoaded
      ensures !tfLoaded && tfExec == null && tfExecPath == "" && tfExecTimeout == 0 && tfExecLogPath == ""
      ensures tfDiscoErr.None? && tfVersion == "" && tfVersionErr.None?
      ensures !parserLoaded && parser == null
    {
      path := dir;
      isLoading, cancelLoading, loadCancelled, loadErr := false, false, false, [];
      moduleManifestFile, moduleManifest, pluginLockFile := None, None, None;
      schemaStorage, schemaLoaded := null, false;
      tfLoaded, tfExec, tfExecPath, tfExecTimeout, tfExecLogPath := false, null, "", 0, "";
      tfDiscoErr, tfVersion, tfVersionErr := None, "", None;
      parserLoaded, parser := false, null;
    }

    /** The directory the module was created for; `path` is fixed at
        construction, so no operation changes the answer. */
    function Path(): (p: string)
      ensures p == path
    {
      path
    }

    /** No load is in progress. */
    function IsLoadingDone(): (done: bool)
      reads this
      ensures done <==> !isLoading
    {
      !isLoading
    }

    /** What the last load reported; empty when every stage succeeded. */
    function LoadError(): (errs: seq<Error>)
      reads this
      ensures errs == loadErr
    {
      loadErr
    }

    /** Executor discovery has run; TerraformExecutor() then no longer
        answers "not loaded yet". */
    function IsTerraformLoaded(): (loaded: bool)
      reads this
      ensures loaded <==> tfLoaded
      ensures loaded <==> TerraformExecutor() != Failure(ExecutorNotLoaded)
    {
      tfLoaded
    }

    /** The parser stage has run; Parser() then no longer answers "not
        loaded yet". */
    function IsParserLoaded(): (loaded: bool)
      reads this
      ensures loaded <==> parserLoaded
      ensures loaded <==> Parser() != Failure(ParserNotLoaded)
    {
      parserLoaded
    }

    /** The schema stage has run; it only runs after executor discovery. */
    function IsSchemaLoaded(): (loaded: bool)
      reads this, schemaStorage
      ensures loaded <==> schemaLoaded
      ensures Valid() && loaded ==> IsTerraformLoaded()
    {
      schemaLoaded
    }

    /** Record a fresh cancel function for the loading context and run the
        loading goroutine, here to completion. `stages` holds each stage's
        own error. */
    method StartLoading(tools: ToolOutcomes, host: Host) returns (ghost stages: seq<Option<Error>>)
      requires Valid()
      modifies this`cancelLoading, this`loadErr,
               this`isLoading, this`loadCancelled, this`moduleManifestFile, this`moduleManifest,
               this`tfLoaded, this`tfExec, this`tfDiscoErr, this`tfVersion, this`tfVersionErr,
               this`schemaStorage, this`parserLoaded, this`parser, this`schemaLoaded, this`pluginLockFile,
               schemaStorage, tfExec
      ensures Valid()
      ensures cancelLoading && loadCancelled && IsLoadingDone()
      ensures IsTerraformLoaded() && IsParserLoaded() && IsSchemaLoaded()
      ensures |stages| == 6 && LoadError() == Collect(stages)
      ensures LoadError() == [] <==> forall i :: 0 <= i < 6 ==> stages[i].None?
      ensures moduleManifestFile == old(moduleManifestFile)
      ensures ManifestStageDone(old(moduleManifest), host.parseManifest, stages[0])
      ensures ExecutorStageDone(old(tfExec), tools.discover, stages[1])
      ensures VersionStageDone(old(tfVersion), tools.version, stages[2])
      ensures StorageStageDone(old(schemaStorage), host.parseVersion, stages[3])
      ensures ParserStageDone(old(parser), host.findParser, stages[4])
      ensures SchemaStageDone(old(schemaStorage), old(StoredSchemas()), host.moduleDirOf, tools.providerSchemas, stages[5])
      ensures pluginLockFile == old(pluginLockFile)
      ensures old(tfExec) == null && tfExecPath == "" && tools.discover.Failure? ==>
        tools.discover.error in LoadError() && TerraformExecutor() == Failure(NoExecutorAvailable)
      ensures tfExec != old(tfExec) ==> fresh(tfExec)
      ensures schemaStorage != old(schemaStorage) ==> fresh(schemaStorage)
      ensures parser != old(parser) ==> fresh(parser)
      ensures old(schemaStorage) != null && schemaStorage != old(schemaStorage) ==> unchanged(old(schemaStorage))
      ensures old(tfExec) != null && tfExec != old(tfExec) ==> unchanged(old(tfExec))
    {
      cancelLoading := true;
      loadCancelled := false;
      stages := RunLoading(tools, host);
    }

    /** The loading goroutine: the pipeline's aggregate error becomes
        LoadError(). */
    method RunLoading(tools: ToolOutcomes, host: Host) returns (ghost stages: seq<Option<Error>>)
      requires Valid()
      modifies this`loadErr,
               this`isLoading, this`loadCancelled, this`moduleManifestFile, this`moduleManifest,
               this`tfLoaded, this`tfExec, this`tfDiscoErr, this`tfVersion, this`tfVersionErr,
               this`schemaStorage, this`parserLoaded, this`parser, this`schemaLoaded, this`pluginLockFile,
               schemaStorage, tfExec
      ensures tfExec != old(tfExec) ==> fresh(tfExec)
      ensures schemaStorage != old(schemaStorage) ==> fresh(schemaStorage)
      ensures parser != old(parser) ==> fresh(parser)
      ensures old(schemaStorage) != null && schemaStorage != old(schemaStorage) ==> unchanged(old(schemaStorage))
      ensures old(tfExec) != null && tfExec != old(tfExec) ==> unchanged(old(tfExec))
      ensures Valid()
      ensures IsLoadingDone() && loadCancelled == (old(loadCancelled) || cancelLoading)
      ensures IsTerraformLoaded() && IsParserLoaded() && IsSchemaLoaded()
      ensures |stages| == 6 && LoadError() == Collect(stages)
      ensures LoadError() == [] <==> forall i :: 0 <= i < 6 ==> stages[i].None?
      ensures moduleManifestFile == old(moduleManifestFile)
      ensures ManifestStageDone(old(moduleManifest), host.parseManifest, stages[0])
      ensures ExecutorStageDone(old(tfExec), tools.discover, stages[1])
      ensures VersionStageDone(old(tfVersion), tools.version, stages[2])
      ensures StorageStageDone(old(schemaStorage), host.parseVersion, stages[3])
      ensures ParserStageDone(old(parser), host.findParser, stages[4])
      ensures SchemaStageDone(old(schemaStorage), old(StoredSchemas()), host.moduleDirOf, tools.providerSchemas, stages[5])
      ensures pluginLockFile == old(pluginLockFile)
      ensures old(tfExec) == null && tfExecPath == "" && tools.discover.Failure? ==>
        tools.discover.error in LoadError() && TerraformExecutor() == Failure(NoExecutorAvailable)
    {
      var errs;
      errs, stages := Load(tools, host);
      loadErr := errs;
      CollectNone(stages);
      if old(tfExec) == null && tfExecPath == "" && tools.discover.Failure? {
        CollectedErrors(stages);
        assert stages[1] == Some(tools.discover.error);
      }
    }

    method CancelLoading()
      modifies this`isLoading, this`loadCancelled
      ensures !isLoading
      ensures loadCancelled == (old(loadCancelled) || (old(isLoading) && cancelLoading))
    {
      if isLoading && cancelLoading {
        loadCancelled := true;
      }
      isLoading := false;
    }

    /** The pipeline. `stages` holds each stage's error in stage order; the
        result aggregates them. */
    method Load(tools: ToolOutcomes, host: Host) returns (errs: seq<Error>, ghost stages: seq<Option<Error>>)
      requires Valid()
      modifies this`isLoading, this`loadCancelled, this`moduleManifestFile, this`moduleManifest,
               this`tfLoaded, this`tfExec, this`tfDiscoErr, this`tfVersion, this`tfVersionErr,
               this`schemaStorage, this`parserLoaded, this`parser, this`schemaLoaded, this`pluginLockFile,
               schemaStorage, tfExec
      ensures Valid()
      ensures |stages| == 6 && errs == Collect(stages)
      // the deferred CancelLoading clears the flag and fires a recorded handle
      ensures IsLoadingDone() && loadCancelled == (old(loadCancelled) || cancelLoading)
      // every stage counts as attempted, whichever failed
      ensures tfLoaded && parserLoaded && schemaLoaded
      ensures moduleManifestFile == old(moduleManifestFile)
      ensures ManifestStageDone(old(moduleManifest), host.parseManifest, stages[0])
      ensures ExecutorStageDone(old(tfExec), tools.discover, stages[1])
      ensures VersionStageDone(old(tfVersion), tools.version, stages[2])
      ensures StorageStageDone(old(schemaStorage), host.parseVersion, stages[3])
      ensures ParserStageDone(old(parser), host.findParser, stages[4])
      ensures SchemaStageDone(old(schemaStorage), old(StoredSchemas()), host.moduleDirOf, tools.providerSchemas, stages[5])
      ensures pluginLockFile == old(pluginLockFile)
      ensures tfExec != old(tfExec) ==> fresh(tfExec)
      ensures schemaStorage != old(schemaStorage) ==> fresh(schemaStorage)
      ensures parser != old(parser) ==> fresh(parser)
      ensures old(schemaStorage) != null && schemaStorage != old(schemaStorage) ==> unchanged(old(schemaStorage))
      ensures old(tfExec) != null && tfExec != old(tfExec) ==> unchanged(old(tfExec))
    {
      isLoading := true;
      var all := RunStages(tools, host);
      stages := all;
      errs := Collect(all);
      CancelLoading();
    }

    /** The six stages in order, each run whatever the earlier ones gave. */
    method RunStages(tools: ToolOutcomes, host: Host) returns (stages: seq<Option<Error>>)
      requires Valid()
      modifies this`moduleManifestFile, this`moduleManifest, this`tfLoaded, this`tfExec, this`tfDiscoErr,
               this`tfVersion, this`tfVersionErr, this`schemaStorage, this`parserLoaded, this`parser,
               this`schemaLoaded, this`pluginLockFile, schemaStorage, tfExec
      ensures Valid() && |stages| == 6
      ensures tfLoaded && parserLoaded && schemaLoaded
      ensures moduleManifestFile == old(moduleManifestFile)
      ensures ManifestStageDone(old(moduleManifest), host.parseManifest, stages[0])
      ensures ExecutorStageDone(old(tfExec), tools.discover, stages[1])
      ensures VersionStageDone(old(tfVersion), tools.version, stages[2])
      ensures StorageStageDone(old(schemaStorage), host.parseVersion, stages[3])
      ensures ParserStageDone(old(parser), host.findParser, stages[4])
      ensures SchemaStageDone(old(schemaStorage), old(StoredSchemas()), host.moduleDirOf, tools.providerSchemas, stages[5])
      ensures pluginLockFile == old(pluginLockFile)
      ensures tfExec != old(tfExec) ==> fresh(tfExec)
      ensures schemaStorage != old(schemaStorage) ==> fresh(schemaStorage)
      ensures parser != old(parser) ==> fresh(parser)
      ensures old(schemaStorage) != null && schemaStorage != old(schemaStorage) ==> unchanged(old(schemaStorage))
      ensures old(tfExec) != null && tfExec != old(tfExec) ==> unchanged(old(tfExec))
    {
      var first := RunDiscoveryStages(tools, host);
      var second := RunCompatibilityStages(tools, host);
      stages := first + second;
    }

    /** Stage 1 as it leaves the root module. */
    ghost predicate ManifestStageDone(manifest0: Option<Manifest>, parseManifest: string -> Result<Manifest, Error>,
                                      err: Option<Error>)
      reads this`moduleManifestFile, this`moduleManifest
    {
      match moduleManifestFile
      case None => err.None? && moduleManifest == manifest0
      case Some(file) =>
        match parseManifest(file)
        case Failure(e) => err == Some(e) && moduleManifest == manifest0
        case Success(m) => err.None? && moduleManifest == Some(m)
    }

    /** Stage 2 as it leaves the root module: a failed discovery keeps the
        executor there was. */
    ghost predicate ExecutorStageDone(exec0: Executor?, discover: Result<string, Error>, err: Option<Error>)
      reads this`tfExecPath, this`tfExec, this`tfDiscoErr
    {
      && err == tfDiscoErr
      && err == (if tfExecPath == "" && discover.Failure? then Some(discover.error) else None)
      && (err.Some? ==> tfExec == exec0)
      && (err.None? ==>
            && tfExec != null && tfExec != exec0
            && tfExec.execPath == (if tfExecPath != "" then tfExecPath else discover.value))
    }

    /** Stage 3 as it leaves the root module. */
    ghost predicate VersionStageDone(version0: string, version: Result<string, Error>, err: Option<Error>)
      reads this`tfExec, this`tfVersion, this`tfVersionErr
    {
      && err == tfVersionErr
      && err == (if tfExec != null && version.Failure? then Some(version.error) else None)
      && tfVersion == (if tfExec != null && version.Success? then version.value else version0)
    }

    /** Stage 4 as it leaves the root module. */
    ghost predicate StorageStageDone(storage0: Storage?, parseVersion: string -> Option<Version>, err: Option<Error>)
      reads this`tfVersion, this`schemaStorage
    {
      var chosen := ConverterForVersion(tfVersion, parseVersion(tfVersion));
      && err == (if tfVersion != "" && chosen.Failure? then Some(chosen.error) else None)
      && (tfVersion != "" && chosen.Success? ==>
            schemaStorage != null && schemaStorage != storage0 && schemaStorage.converter == chosen.value)
      && (tfVersion == "" || chosen.Failure? ==> schemaStorage == storage0)
    }

    /** Stage 5 as it leaves the root module. */
    ghost predicate ParserStageDone(parser0: LanguageParser?, findParser: string -> Outcome<Error>, err: Option<Error>)
      reads this`tfVersion, this`schemaStorage, this`parser, parser
    {
      var found := findParser(tfVersion);
      && err == (if tfVersion != "" && found.Fail? then Some(found.error) else None)
      && (tfVersion != "" && found.Pass? ==>
            parser != null && parser != parser0 && parser.version == tfVersion && parser.schemaReader == schemaStorage)
      && (tfVersion == "" || found.Fail? ==> parser == parser0)
    }

    /** The snapshot of the storage in use, if there is one. */
    ghost function StoredSchemas(): Option<ProviderSchemas>
      reads this`schemaStorage, schemaStorage
    {
      if schemaStorage != null then schemaStorage.ps else None
    }

    /** Stage 6 as it leaves the root module, given the storage and snapshot
        the load started with: a failed retrieval is not reported and keeps
        the snapshot there was (none in a storage stage 4 just built). */
    ghost predicate SchemaStageDone(storage0: Storage?, ps0: Option<ProviderSchemas>, moduleDirOf: string -> string,
                                    fetched: Result<ProviderSchemas, Error>, err: Option<Error>)
      reads this`pluginLockFile, this`schemaStorage, this`tfExec, schemaStorage, tfExec
    {
      && err == (if pluginLockFile.Some? && schemaStorage == null then Some(SchemaCacheNotAvailable) else None)
      && (pluginLockFile.Some? && schemaStorage != null ==>
            && tfExec != null
            && tfExec.workdir == moduleDirOf(pluginLockFile.value)
            && (fetched.Success? ==> schemaStorage.ps == Some(fetched.value)))
      && (schemaStorage != null && (pluginLockFile.None? || fetched.Failure?) ==>
            schemaStorage.ps == if schemaStorage == storage0 then ps0 else None)
    }

    method RunDiscoveryStages(tools: ToolOutcomes, host: Host) returns (stages: seq<Option<Error>>)
      requires Valid()
      modifies this`moduleManifestFile, this`moduleManifest, this`tfLoaded, this`tfExec,
               this`tfDiscoErr, this`tfVersion, this`tfVersionErr
      ensures Valid() && tfLoaded && |stages| == 3
      ensures moduleManifestFile == old(moduleManifestFile)
      ensures ManifestStageDone(old(moduleManifest), host.parseManifest, stages[0])
      ensures ExecutorStageDone(old(tfExec), tools.discover, stages[1])
      ensures VersionStageDone(old(tfVersion), tools.version, stages[2])
      ensures tfExec != old(tfExec) ==> fresh(tfExec)
      ensures old(schemaStorage) != null && schemaStorage != old(schemaStorage) ==> unchanged(old(schemaStorage))
      ensures old(tfExec) != null && tfExec != old(tfExec) ==> unchanged(old(tfExec))
    {
      var manifestErr := UpdateModuleManifest(moduleManifestFile, host.parseManifest);
      assert ManifestStageDone(old(moduleManifest), host.parseManifest, manifestErr);
      var execErr := DiscoverTerraformExecutor(tools.discover);
      tfDiscoErr := execErr;
      assert ExecutorStageDone(old(tfExec), tools.discover, execErr);
      var versionErr := DiscoverTerraformVersion(tools.version);
      tfVersionErr := versionErr;
      stages := [manifestErr, execErr, versionErr];
    }

    method RunCompatibilityStages(tools: ToolOutcomes, host: Host) returns (stages: seq<Option<Error>>)
      requires Valid() && tfLoaded
      modifies this`schemaStorage, this`parserLoaded, this`parser, this`schemaLoaded, this`pluginLockFile,
               schemaStorage, tfExec
      ensures Valid() && parserLoaded && schemaLoaded && |stages| == 3
      ensures pluginLockFile == old(pluginLockFile)
      ensures StorageStageDone(old(schemaStorage), host.parseVersion, stages[0])
      ensures ParserStageDone(old(parser), host.findParser, stages[1])
      ensures SchemaStageDone(old(schemaStorage), old(StoredSchemas()), host.moduleDirOf, tools.providerSchemas, stages[2])
      ensures schemaStorage != old(schemaStorage) ==> fresh(schemaStorage)
      ensures parser != old(parser) ==> fresh(parser)
      ensures tfExec != null && !(pluginLockFile.Some? && schemaStorage != null) ==> tfExec.workdir == old(tfExec.workdir)
      ensures tfExec != null ==> tfExec.execLogPath == old(tfExec.execLogPath) && tfExec.timeout == old(tfExec.timeout)
      ensures old(schemaStorage) != null && schemaStorage != old(schemaStorage) ==> unchanged(old(schemaStorage))
    {
      var storageErr := FindCompatibleStateStorage(host.parseVersion);
      assert StorageStageDone(old(schemaStorage), host.parseVersion, storageErr);
      var parserErr := FindCompatibleLangParser(host.findParser);
      assert ParserStageDone(old(parser), host.findParser, parserErr);
      var schemaErr := UpdateSchemaCache(pluginLockFile, host.moduleDirOf, tools.providerSchemas);
      stages := [storageErr, parserErr, schemaErr];
    }

    /** Stage 2. The "loaded" flag is set on every path; a failed discovery
        leaves the previous executor in place. */
    method DiscoverTerraformExecutor(discover: Result<string, Error>) returns (err: Option<Error>)
      requires Valid()
      modifies this`tfLoaded, this`tfExec
      ensures Valid()
      ensures tfLoaded
      ensures err == if tfExecPath == "" && discover.Failure? then Some(discover.error) else None
      ensures err.Some? ==> tfExec == old(tfExec)
      ensures err.None? ==>
        && tfExec != null && fresh(tfExec)
        && tfExec.execPath == (if tfExecPath != "" then tfExecPath else discover.value)
        && tfExec.workdir == path
        && tfExec.execLogPath == (if tfExecLogPath != "" then Some(tfExecLogPath) else None)
        && tfExec.timeout == (if tfExecTimeout != 0 then Some(tfExecTimeout) else None)
    {
      var tfPath := tfExecPath;
      if tfPath == "" {
        match discover
        case Failure(e) =>
          tfLoaded := true;
          return Some(e);
        case Success(found) =>
          tfPath := found;
      }

      var tf := new Executor(tfPath);
      tf.SetWorkdir(path);
      if tfExecLogPath != "" {
        tf.SetExecLogPath(tfExecLogPath);
      }
      if tfExecTimeout != 0 {
        tf.SetTimeout(tfExecTimeout);
      }
      tfExec := tf;
      tfLoaded := true;
      return None;
    }

    /** Stage 3: ask the executor, if there is one, for its version. */
    method DiscoverTerraformVersion(version: Result<string, Error>) returns (err: Option<Error>)
      requires Valid()
      modifies this`tfVersion
      ensures Valid()
      ensures tfExec == null ==> err.None? && tfVersion == old(tfVersion)
      ensures tfExec != null && version.Failure? ==> err == Some(version.error) && tfVersion == old(tfVersion)
      ensures tfExec != null && version.Success? ==> err.None? && tfVersion == version.value
    {
      if tfExec == null {
        return None;
      }
      match version
      case Failure(e) =>
        return Some(e);
      case Success(v) =>
        tfVersion := v;
        return None;
    }

    /** Stage 4: a storage whose converter suits the version, if the version
        is known and supported. */
    method FindCompatibleStateStorage(parseVersion: string -> Option<Version>) returns (err: Option<Error>)
      requires Valid()
      modifies this`schemaStorage
      ensures Valid()
      ensures var chosen := ConverterForVersion(tfVersion, parseVersion(tfVersion));
        && err == (if tfVersion != "" && chosen.Failure? then Some(chosen.error) else None)
        && (tfVersion != "" && chosen.Success? ==>
              && schemaStorage != null && fresh(schemaStorage)
              && schemaStorage.converter == chosen.value && schemaStorage.ps.None?)
        && (tfVersion == "" || chosen.Failure? ==> schemaStorage == old(schemaStorage))
    {
      if tfVersion == "" {
        return None;
      }
      var created := NewStorageForVersion(tfVersion, parseVersion);
      match created
      case Failure(e) =>
        return Some(e);
      case Success(s) =>
        schemaStorage := s;
        return None;
    }

    /** Stage 5: a parser for the version, reading schemas from the storage
        when there is one. The "loaded" flag is set on every path. */
    method FindCompatibleLangParser(findParser: string -> Outcome<Error>) returns (err: Option<Error>)
      requires Valid()
      modifies this`parserLoaded, this`parser
      ensures Valid()
      ensures parserLoaded
      ensures var found := findParser(tfVersion);
        && err == (if tfVersion != "" && found.Fail? then Some(found.error) else None)
        && (tfVersion != "" && found.Pass? ==>
              parser != null && fresh(parser) && parser.version == tfVersion && parser.schemaReader == schemaStorage)
        && (tfVersion == "" || found.Fail? ==> parser == old(parser))
    {
      if tfVersion == "" {
        parserLoaded := true;
        return None;
      }
      match findParser(tfVersion)
      case Fail(e) =>
        parserLoaded := true;
        return Some(e);
      case Pass =>
        var p := new LanguageParser(tfVersion);
        if schemaStorage != null {
          p.SetSchemaReader(schemaStorage);
        }
        parser := p;
        parserLoaded := true;
        return None;
    }

    method UpdateModuleManifest(lockFile: Option<string>, parseManifest: string -> Result<Manifest, Error>)
      returns (err: Option<Error>)
      modifies this`moduleManifestFile, this`moduleManifest
      ensures lockFile.None? ==>
        err.None? && moduleManifestFile == old(moduleManifestFile) && moduleManifest == old(moduleManifest)
      ensures lockFile.Some? ==> moduleManifestFile == lockFile
      ensures lockFile.Some? && parseManifest(lockFile.value).Failure? ==>
        err == Some(parseManifest(lockFile.value).error) && moduleManifest == old(moduleManifest)
      ensures lockFile.Some? && parseManifest(lockFile.value).Success? ==>
        err.None? && moduleManifest == Some(parseManifest(lockFile.value).value)
    {
      if lockFile.None? {
        return None;
      }
      moduleManifestFile := lockFile;
      match parseManifest(lockFile.value)
      case Failure(e) =>
        return Some(e);
      case Success(m) =>
        moduleManifest := Some(m);
        return None;
    }

    function Parser(): (r: Result<LanguageParser, Error>)
      reads this
      ensures r.Success? <==> parserLoaded && parser != null
      ensures r.Success? ==> r.value == parser
      ensures r == Failure(ParserNotLoaded) <==> !parserLoaded
      ensures r == Failure(NoParserAvailable) <==> parserLoaded && parser == null
    {
      if !parserLoaded then Failure(ParserNotLoaded)
      else if parser == null then Failure(NoParserAvailable)
      else Success(parser)
    }

    function TerraformExecutor(): (r: Result<Executor, Error>)
      reads this
      ensures r.Success? <==> tfLoaded && tfExec != null
      ensures r.Success? ==> r.value == tfExec
      ensures r == Failure(ExecutorNotLoaded) <==> !tfLoaded
      ensures r == Failure(NoExecutorAvailable) <==> tfLoaded && tfExec == null
    {
      if !tfLoaded then Failure(ExecutorNotLoaded)
      else if tfExec == null then Failure(NoExecutorAvailable)
      else Success(tfExec)
    }

    /** Whether a local (non-root, non-external) module of the manifest lives
        at `p`. */
    method ReferencesModulePath(p: string, host: Host) returns (found: bool)
      ensures found <==>
        moduleManifest.Some? && exists r :: r in moduleManifest.value.records && LocalRecordAt(moduleManifest.value, r, p, host)
    {
      if moduleManifest.None? {
        return false;
      }
      var m := moduleManifest.value;
      for i := 0 to |m.records|
        invariant forall j :: 0 <= j < i ==> !LocalRecordAt(m, m.records[j], p, host)
      {
        var r := m.records[i];
        if host.isRoot(r) {
          continue;
        }
        if host.isExternal(r) {
          continue;
        }
        var absPath := host.join(m.rootDir, r.dir);
        if host.pathEquals(absPath, p) {
          assert LocalRecordAt(m, r, p, host);
          return true;
        }
      }
      return false;
    }

    /** Stage 6 and the watcher's refresh. A failed retrieval is dropped so
        the module stays usable; the schema can be fetched again later. */
    method UpdateSchemaCache(lockFile: Option<string>, moduleDirOf: string -> string, fetched: Result<ProviderSchemas, Error>)
      returns (err: Option<Error>)
      requires Valid()
      modifies this`schemaLoaded, this`pluginLockFile, schemaStorage, tfExec
      ensures Valid()
      ensures tfExec != null ==> tfExec.execLogPath == old(tfExec.execLogPath) && tfExec.timeout == old(tfExec.timeout)
      ensures !old(tfLoaded) ==>
        err == Some(SchemaExecutorNotAvailable) && schemaLoaded == old(schemaLoaded) && pluginLockFile == old(pluginLockFile)
      ensures old(tfLoaded) ==> schemaLoaded
      ensures old(tfLoaded) && lockFile.None? ==> err.None? && pluginLockFile == old(pluginLockFile)
      ensures old(tfLoaded) && lockFile.Some? && schemaStorage == null ==>
        err == Some(SchemaCacheNotAvailable) && pluginLockFile == old(pluginLockFile)
      ensures old(tfLoaded) && lockFile.Some? && schemaStorage != null ==>
        && err.None? && pluginLockFile == lockFile
        && tfExec.workdir == moduleDirOf(lockFile.value)
        && schemaStorage.ps == (if fetched.Success? then Some(fetched.value) else old(schemaStorage.ps))
      ensures !(old(tfLoaded) && lockFile.Some? && schemaStorage != null) ==>
        && (schemaStorage != null ==> schemaStorage.ps == old(schemaStorage.ps))
        && (tfExec != null ==> tfExec.workdir == old(tfExec.workdir))
    {
      if !tfLoaded {
        return Some(SchemaExecutorNotAvailable);
      }
      if lockFile.None? {
        schemaLoaded := true;
        return None;
      }
      if schemaStorage == null {
        schemaLoaded := true;
        return Some(SchemaCacheNotAvailable);
      }
      pluginLockFile := lockFile;
      var retrievalErr := schemaStorage.ObtainSchemasForModule(tfExec, moduleDirOf(lockFile.value), fetched);
      schemaLoaded := true;
      return None;
    }

    /** The files whose change should trigger re-discovery: the plugin lock
        file, then the module manifest, each only when known. */
    function PathsToWatch(): (files: seq<string>)
      reads this
      ensures |files| == (if pluginLockFile.Some? then 1 else 0) + (if moduleManifestFile.Some? then 1 else 0)
      ensures forall f :: f in files <==> pluginLockFile == Some(f) || moduleManifestFile == Some(f)
      ensures pluginLockFile.Some? ==> files[0] == pluginLockFile.value
      ensures moduleManifestFile.Some? ==> files[|files| - 1] == moduleManifestFile.value
    {
      (if pluginLockFile.Some? then [pluginLockFile.value] else []) +
      (if moduleManifestFile.Some? then [moduleManifestFile.value] else [])
    }

    /** `p` names the module manifest this root module watches. */
    function IsKnownModuleManifestFile(p: string, host: Host): (known: bool)
      reads this
      ensures known <==> exists f :: f in PathsToWatch() && moduleManifestFile == Some(f) && host.pathEquals(f, p)
    {
      moduleManifestFile.Some? && host.pathEquals(moduleManifestFile.value, p)
    }

    /** `p` names the plugin lock file this root module watches. */
    function IsKnownPluginLockFile(p: string, host: Host): (known: bool)
      reads this
      ensures known <==> exists f :: f in PathsToWatch() && pluginLockFile == Some(f) && host.pathEquals(f, p)
    {
      pluginLockFile.Some? && host.pathEquals(pluginLockFile.value, p)
    }

    /** A path is a known lock or manifest file exactly when it matches one
        of the watched paths under the host's path comparison. */
    lemma KnownFilesAreWatched(p: string, host: Host)
      ensures IsKnownPluginLockFile(p, host) || IsKnownModuleManifestFile(p, host)
        <==> exists f :: f in PathsToWatch() && host.pathEquals(f, p)
    {
    }
  }
}
