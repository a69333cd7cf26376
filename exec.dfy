/** The Terraform executor as the core sees it: an object created for one
    binary whose settings the core updates. Running the binary (`Version`,
    `ProviderSchemas`) is outside the model; callers receive those outcomes
    as parameters. */
module Exec {
  import opened Wrappers

  class Executor {
    const execPath: string
    var workdir: string
    /** None until SetExecLogPath is called: the executor keeps its default. */
    var execLogPath: Option<string>
    /** None until SetTimeout is called: the executor keeps its default. */
    var timeout: Option<int>

    /** exec.NewExecutor: an executor for the binary at `execPath`. */
    constructor (execPath: string)
      ensures this.execPath == execPath
      ensures workdir == "" && execLogPath.None? && timeout.None?
    {
      this.execPath := execPath;
      workdir := "";
      execLogPath := None;
      timeout := None;
    }

    method SetWorkdir(dir: string)
      modifies this`workdir
      ensures workdir == dir
    {
      workdir := dir;
    }

    method SetExecLogPath(logPath: string)
      modifies this`execLogPath
      ensures execLogPath == Some(logPath)
    {
      execLogPath := Some(logPath);
    }

    method SetTimeout(t: int)
      modifies this`timeout
      ensures timeout == Some(t)
    {
      timeout := Some(t);
    }
  }
}
