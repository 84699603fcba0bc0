/** Plugin loading (audiokit/plugins/base.py): the allow-list check of a
    plugin's imports, the order of the checks before a plugin runs, and
    which failures skip a plugin and which abort loading. Signature and
    checksum verification (audiokit/plugins/security.py) and the parse of
    the plugin's source are inputs. */
module Plugins {
  import opened Wrappers

  /** The only top-level modules a plugin may import. */
  const SafeImports: set<string> := {"typer", "pathlib", "datetime", "json", "yaml", "csv"}

  /** `name.split('.')[0]`: the text before the first dot. */
  function TopLevel(name: string): (r: string)
    ensures |r| <= |name| && name[..|r|] == r
    ensures '.' !in r
    ensures r == name || name[|r|] == '.'
  {
    if |name| == 0 || name[0] == '.' then ""
    else [name[0]] + TopLevel(name[1..])
  }

  /** An import statement as the syntax tree records it: `import a.b, c`
      lists its names; `from a.b import c` its module, which is absent for
      a relative `from . import c`. */
  datatype Import = ImportNames(names: seq<string>) | ImportFrom(moduleName: Option<string>)

  /** The failures of loading one plugin. Only `SecurityError` is the
      `PluginSecurityError` that `load_plugins` catches. */
  datatype PluginError =
    | SecurityError(message: string)
    | VerificationError(message: string)   // security.py's PluginVerificationError
    | NoModuleName                         // `None.split` on a relative import: AttributeError
    | SyntaxError                          // the source does not parse
    | ProtocolCheck                        // `issubclass` on a protocol that is not runtime-checkable: TypeError

  const ForbiddenPrefix := "Forbidden import: "

  predicate AllowedName(name: string) {
    TopLevel(name) in SafeImports
  }

  predicate Allowed(imp: Import) {
    match imp
    case ImportNames(names) => forall k :: 0 <= k < |names| ==> AllowedName(names[k])
    case ImportFrom(m) => m.Some? && AllowedName(m.value)
  }

  /** The first forbidden name of an `import` statement, if any. */
  function FirstForbidden(names: seq<string>): (r: Option<nat>)
    ensures r.None? <==> forall k :: 0 <= k < |names| ==> AllowedName(names[k])
    ensures r.Some? ==> r.value < |names| && !AllowedName(names[r.value]) &&
                        forall k :: 0 <= k < r.value ==> AllowedName(names[k])
  {
    if |names| == 0 then None
    else if !AllowedName(names[0]) then Some(0)
    else match FirstForbidden(names[1..])
      case None => None
      case Some(k) => Some(k + 1)
  }

  /** The check of one statement. */
  function CheckImport(imp: Import): (r: Result<(), PluginError>)
    ensures r.Ok? <==> Allowed(imp)
    ensures imp.ImportFrom? && imp.moduleName.None? ==> r == Err(NoModuleName)
    ensures imp.ImportFrom? && imp.moduleName.Some? && r.Err? ==> r.error == SecurityError(ForbiddenPrefix + imp.moduleName.value)
    ensures imp.ImportNames? && r.Err? ==>
      exists k :: 0 <= k < |imp.names| && !AllowedName(imp.names[k]) &&
                  r.error == SecurityError(ForbiddenPrefix + imp.names[k])
  {
    match imp
    case ImportNames(names) =>
      (match FirstForbidden(names)
       case None => Ok(())
       case Some(k) => Err(SecurityError(ForbiddenPrefix + names[k])))
    case ImportFrom(m) =>
      if m.None? then Err(NoModuleName)
      else if !AllowedName(m.value) then Err(SecurityError(ForbiddenPrefix + m.value))
      else Ok(())
  }

  /** `_validate_imports`, over the statements in the order the tree walk
      visits them: the first failing statement decides. */
  function ValidateImports(imps: seq<Import>): (r: Result<(), PluginError>)
    ensures r.Ok? <==> forall i :: 0 <= i < |imps| ==> Allowed(imps[i])
    ensures r.Err? ==> exists i :: 0 <= i < |imps| && CheckImport(imps[i]) == r &&
                                   forall j :: 0 <= j < i ==> Allowed(imps[j])
  {
    if |imps| == 0 then Ok(())
    else if CheckImport(imps[0]).Err? then CheckImport(imps[0])
    else
      var rest := ValidateImports(imps[1..]);
      assert rest.Err? ==> exists i :: 0 <= i < |imps| && CheckImport(imps[i]) == rest &&
                                       forall j :: 0 <= j < i ==> Allowed(imps[j]) by {
        if rest.Err? {
          var i :| 0 <= i < |imps[1..]| && CheckImport(imps[1..][i]) == rest &&
                   forall j :: 0 <= j < i ==> Allowed(imps[1..][j]);
          assert CheckImport(imps[i + 1]) == rest;
          forall j | 0 <= j < i + 1
            ensures Allowed(imps[j])
          {
            if j > 0 {
              assert imps[j] == imps[1..][j - 1];
            }
          }
        }
      }
      rest
  }

  /** Validation looks at statements in order: a file that passes can be
      extended by allowed statements, and the verdict on a file whose
      prefix already fails is that prefix's verdict. */
  lemma {:induction false} ValidateAppend(a: seq<Import>, b: seq<Import>)
    ensures ValidateImports(a).Err? ==> ValidateImports(a + b) == ValidateImports(a)
    ensures ValidateImports(a).Ok? ==> ValidateImports(a + b) == ValidateImports(b)
  {
    if |a| > 0 {
      assert (a + b)[0] == a[0];
      assert (a + b)[1..] == a[1..] + b;
      ValidateAppend(a[1..], b);
    } else {
      assert a + b == b;
    }
  }

  /** A plugin file: its name, whether the signature file exists, whether
      signature and checksum verify, its import statements (`None` when
      the source does not parse), and whether the executed module's
      namespace holds a class, defined there or imported. */
  datatype PluginFile = PluginFile(name: string, signed: bool, verifies: bool, imports: Option<seq<Import>>,
                                   holdsClass: bool)

  const MissingSignature := "Missing signature file"
  const VerificationFailedPrefix := "Plugin verification failed: "

  /** What `issubclass(obj, CLIPlugin)` does with a class: as written the
      protocol is not runtime-checkable and the check raises a TypeError
      (`ProtocolRaises`); a runtime-checkable protocol answers it
      (`RuntimeCheckable`). */
  datatype ClassCheck = ProtocolRaises | RuntimeCheckable

  /** The checks that come before the module is executed. */
  predicate PassesChecks(f: PluginFile) {
    f.signed && f.verifies && f.imports.Some? &&
    forall i :: 0 <= i < |f.imports.value| ==> Allowed(f.imports.value[i])
  }

  /** `_load_plugin`: signature, then imports, then the module is executed
      and its classes are checked against the protocol; `Ok` means the
      module was executed and the scan finished. */
  function LoadPlugin(f: PluginFile, check: ClassCheck): (r: Result<(), PluginError>)
    ensures r.Ok? <==> PassesChecks(f) && !(check == ProtocolRaises && f.holdsClass)
    ensures !f.signed ==> r == Err(VerificationError(MissingSignature))
    ensures f.signed && !f.verifies ==> r == Err(SecurityError(VerificationFailedPrefix + f.name))
    ensures f.signed && f.verifies && f.imports.Some? && ValidateImports(f.imports.value).Err? ==>
      r == ValidateImports(f.imports.value)
    ensures PassesChecks(f) && check == ProtocolRaises && f.holdsClass ==> r == Err(ProtocolCheck)
  {
    if !f.signed then Err(VerificationError(MissingSignature))
    else if !f.verifies then Err(SecurityError(VerificationFailedPrefix + f.name))
    else if f.imports.None? then Err(SyntaxError)
    else if ValidateImports(f.imports.value).Err? then ValidateImports(f.imports.value)
    else if check == ProtocolRaises && f.holdsClass then Err(ProtocolCheck)
    else Ok(())
  }

  /** What `load_plugins` did: the plugins whose load finished and the ones
      reported as blocked (with the message), in directory order, and the
      failure that stopped it, if any. */
  datatype Outcome = Outcome(loaded: seq<string>, blocked: seq<(string, string)>, aborted: Option<PluginError>)

  /** Some file of that name passes every check. */
  predicate Loadable(files: seq<PluginFile>, name: string, check: ClassCheck) {
    exists i :: 0 <= i < |files| && files[i].name == name && LoadPlugin(files[i], check).Ok?
  }

  lemma LoadableTail(files: seq<PluginFile>, name: string, check: ClassCheck)
    requires |files| > 0 && Loadable(files[1..], name, check)
    ensures Loadable(files, name, check)
  {
    var i :| 0 <= i < |files[1..]| && files[1..][i].name == name && LoadPlugin(files[1..][i], check).Ok?;
    assert files[i + 1] == files[1..][i];
  }

  /** A failure `load_plugins` catches: the plugin is blocked and loading
      goes on. */
  predicate Tolerated(r: Result<(), PluginError>) {
    r.Ok? || r.error.SecurityError?
  }

  /** `load_plugins`: a security error blocks that plugin and loading goes
      on; any other failure ends loading, keeping what was loaded before. */
  function LoadPlugins(files: seq<PluginFile>, check: ClassCheck): (r: Outcome)
    ensures r.aborted.Some? ==> !r.aborted.value.SecurityError?
    ensures r.aborted.None? ==> |r.loaded| + |r.blocked| == |files|
    ensures forall k :: 0 <= k < |r.loaded| ==> Loadable(files, r.loaded[k], check)
    ensures (forall i :: 0 <= i < |files| ==> Tolerated(LoadPlugin(files[i], check))) <==> r.aborted.None?
  {
    if |files| == 0 then Outcome([], [], None)
    else
      var rest := LoadPlugins(files[1..], check);
      assert forall k :: 0 <= k < |rest.loaded| ==> Loadable(files, rest.loaded[k], check) by {
        forall k | 0 <= k < |rest.loaded|
          ensures Loadable(files, rest.loaded[k], check)
        {
          LoadableTail(files, rest.loaded[k], check);
        }
      }
      AllToleratedCons(files, check);
      match LoadPlugin(files[0], check)
      case Ok(_) =>
        var loaded := [files[0].name] + rest.loaded;
        assert forall k :: 0 < k < |loaded| ==> loaded[k] == rest.loaded[k - 1];
        Outcome(loaded, rest.blocked, rest.aborted)
      case Err(SecurityError(m)) => Outcome(rest.loaded, [(files[0].name, m)] + rest.blocked, rest.aborted)
      case Err(e) => Outcome([], [], Some(e))
  }

  /** Every load of a non-empty directory is tolerated exactly when the
      first one is and every later one is. */
  lemma AllToleratedCons(files: seq<PluginFile>, check: ClassCheck)
    requires |files| > 0
    ensures (forall i :: 0 <= i < |files| ==> Tolerated(LoadPlugin(files[i], check))) <==>
      Tolerated(LoadPlugin(files[0], check)) &&
      forall i :: 0 <= i < |files[1..]| ==> Tolerated(LoadPlugin(files[1..][i], check))
  {
    if Tolerated(LoadPlugin(files[0], check)) &&
       forall i :: 0 <= i < |files[1..]| ==> Tolerated(LoadPlugin(files[1..][i], check))
    {
      forall i | 0 < i < |files|
        ensures Tolerated(LoadPlugin(files[i], check))
      {
        assert files[i] == files[1..][i - 1];
      }
    }
  }

  /** A plugin with a forbidden import is never executed, wherever it sits
      in the directory. */
  lemma ForbiddenNeverRuns(files: seq<PluginFile>, i: nat, check: ClassCheck)
    requires forall a, b :: 0 <= a < b < |files| ==> files[a].name != files[b].name
    requires i < |files| && files[i].imports.Some?
    requires exists j :: 0 <= j < |files[i].imports.value| && !Allowed(files[i].imports.value[j])
    ensures files[i].name !in LoadPlugins(files, check).loaded
  {
  }

  /** The first failure that is not a security error stops loading: every
      plugin before it was loaded or blocked, and none after it is
      looked at. */
  lemma {:induction false} StopsAt(files: seq<PluginFile>, i: nat, check: ClassCheck)
    requires i < |files| && !Tolerated(LoadPlugin(files[i], check))
    requires forall j :: 0 <= j < i ==> Tolerated(LoadPlugin(files[j], check))
    ensures LoadPlugins(files, check).aborted == Some(LoadPlugin(files[i], check).error)
    ensures |LoadPlugins(files, check).loaded| + |LoadPlugins(files, check).blocked| == i
  {
    if i > 0 {
      var rest := files[1..];
      assert rest[i - 1] == files[i];
      forall j | 0 <= j < i - 1
        ensures Tolerated(LoadPlugin(rest[j], check))
      {
        assert rest[j] == files[j + 1];
      }
      StopsAt(rest, i - 1, check);
      assert Tolerated(LoadPlugin(files[0], check));
    }
  }

  /** A missing signature file is not a security error, so it stops the
      loading of every later plugin. */
  lemma UnsignedStopsLoading(files: seq<PluginFile>, i: nat, check: ClassCheck)
    requires i < |files| && !files[i].signed
    requires forall j :: 0 <= j < i ==> Tolerated(LoadPlugin(files[j], check))
    ensures LoadPlugins(files, check).aborted == Some(VerificationError(MissingSignature))
    ensures |LoadPlugins(files, check).loaded| + |LoadPlugins(files, check).blocked| == i
  {
    StopsAt(files, i, check);
  }

  /** As written, the first plugin that passes every check and holds a
      class is executed, then its protocol check raises and stops loading:
      no plugin with a class ever finishes loading. */
  lemma ClassStopsLoadingAsWritten(files: seq<PluginFile>, i: nat)
    requires i < |files| && PassesChecks(files[i]) && files[i].holdsClass
    requires forall j :: 0 <= j < i ==> Tolerated(LoadPlugin(files[j], ProtocolRaises))
    ensures LoadPlugins(files, ProtocolRaises).aborted == Some(ProtocolCheck)
    ensures |LoadPlugins(files, ProtocolRaises).loaded| + |LoadPlugins(files, ProtocolRaises).blocked| == i
  {
    StopsAt(files, i, ProtocolRaises);
  }

  function Names(files: seq<PluginFile>): (r: seq<string>)
    ensures |r| == |files| && forall i :: 0 <= i < |files| ==> r[i] == files[i].name
  {
    seq(|files|, i requires 0 <= i < |files| => files[i].name)
  }

  /** With a runtime-checkable protocol, a directory of plugins that all
      pass their checks loads every one of them, in order, blocking none. */
  lemma {:induction false} AllLoadRuntimeCheckable(files: seq<PluginFile>)
    requires forall i :: 0 <= i < |files| ==> PassesChecks(files[i])
    ensures LoadPlugins(files, RuntimeCheckable) == Outcome(Names(files), [], None)
  {
    if |files| > 0 {
      AllLoadRuntimeCheckable(files[1..]);
      assert Names(files) == [files[0].name] + Names(files[1..]);
    }
  }
}
