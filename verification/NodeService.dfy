/** Installing the node service, and planning an installation without touching anything. */
module NodeService {
  import opened Prelude
  import opened ServiceEnvironment

  datatype Request = Request(observerEnv: string, workerEnv: string, environment: map<string, string>,
                             installRoot: string)

  datatype Plan = Plan(release: string, environment: string)

  /** The one text the installer may write for a request. */
  ghost predicate IsEnvironmentOf(n: Request, text: string) {
    var values := Values(n.observerEnv, n.workerEnv, n.environment);
    (forall name <- values :: !HasControl(values[name])) && IsTextOf(values, text)
  }

  lemma OneEnvironmentEach(n: Request, text: string, text': string)
    requires IsEnvironmentOf(n, text) && IsEnvironmentOf(n, text')
    ensures text == text'
  {
    hide Values, IsTextOf;
    TextIsDetermined(Values(n.observerEnv, n.workerEnv, n.environment), text, text');
  }

  class Node {
    const normalize: Request -> Option<Request>
    var files: map<string, string>
    ghost var faults: nat                // outside steps that failed

    function EnvironmentPath(n: Request): string { n.installRoot + "/service.env" }

    method Fails() returns (fails: bool)
      modifies `faults
      ensures faults == old(faults) + (if fails then 1 else 0)
    {
      fails := *;
      if fails {
        faults := faults + 1;
      }
    }

    /** The release named after the binaries' content, if they can be read. */
    method ReleaseId() returns (r: Option<string>)
      modifies `faults
      ensures faults == old(faults) + (if r.None? then 1 else 0)
    {
      r := AnyName();
      if r.None? {
        faults := faults + 1;
      }
    }

    method AnyName() returns (r: Option<string>)
    {
      r := *;
    }

    method Render(n: Request) returns (r: Option<string>)
      ensures r.Some? ==> IsEnvironmentOf(n, r.value)
      ensures r.None? ==> forall text: string :: !IsEnvironmentOf(n, text)
    {
      hide Values, IsTextOf;
      r := RenderEnvironment(n.observerEnv, n.workerEnv, n.environment);
    }

    /** The request is refused, or one of its values cannot be written. */
    ghost predicate Unrenderable(request: Request) {
      normalize(request).None? || forall text: string :: !IsEnvironmentOf(normalize(request).value, text)
    }

    /** Validate and render exactly as an installation does, changing nothing. */
    method PlanInstall(request: Request) returns (r: Option<Plan>)
      modifies `faults
      ensures r.None? ==> faults > old(faults) || Unrenderable(request)
      ensures r.Some? ==> normalize(request).Some? && IsEnvironmentOf(normalize(request).value, r.value.environment)
    {
      var n := normalize(request);
      if n.None? {
        return None;
      }
      var release := ReleaseId();
      if release.None? {
        return None;
      }
      var environment := Render(n.value);
      r := if environment.None? then None else Some(Plan(release.value, environment.value));
    }

    /** The atomic file write. */
    method WriteAtomic(path: string, content: string) returns (wrote: bool)
      modifies this
      ensures files == if wrote then old(files)[path := content] else old(files)
      ensures faults == old(faults) + (if wrote then 0 else 1)
    {
      var fails := Fails();
      wrote := !fails;
      if wrote {
        files := files[path := content];
      }
    }

    /**
     Install up to and including the environment file; the unit, the release switch and the service manager
     come after it. The file is either untouched or the text a plan of the same request shows.
     */
    method InstallEnvironment(request: Request) returns (ok: bool)
      modifies this
      ensures ok ==> normalize(request).Some? && EnvironmentPath(normalize(request).value) in files
                     && IsEnvironmentOf(normalize(request).value, files[EnvironmentPath(normalize(request).value)])
                     && var path := EnvironmentPath(normalize(request).value);
                     && files == old(files)[path := files[path]] && path == normalize(request).value.installRoot
                                                                            + "/service.env"
      ensures !ok ==> files == old(files) && (faults > old(faults) || Unrenderable(request))
    {
      ok := false;
      var n := normalize(request);
      if n.None? {
        return;
      }
      var fails := Fails();
      if fails {
        return;
      }
      var release := ReleaseId();
      if release.None? {
        return;
      }
      var environment := Render(n.value);
      if environment.None? {
        return;
      }
      ok := WriteAtomic(EnvironmentPath(n.value), environment.value);
    }

    /** The plan shows what the installation writes. */
    method PlanThenInstall(request: Request) returns (plan: Option<Plan>, ok: bool)
      modifies this
      ensures plan.Some? && ok ==>
                normalize(request).Some? && EnvironmentPath(normalize(request).value) in files
                && files[EnvironmentPath(normalize(request).value)] == plan.value.environment
    {
      plan := PlanInstall(request);
      ok := InstallEnvironment(request);
      if plan.Some? && ok {
        OneEnvironmentEach(normalize(request).value, plan.value.environment,
                           files[EnvironmentPath(normalize(request).value)]);
      }
    }
  }
}
