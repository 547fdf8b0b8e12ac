/**
 * `private_media/views.py`: loading a class from a dotted import path, and the
 * view that serves a private file only to a caller with read permission. The
 * server and the permissions object, which the module builds once at import
 * time, are an immutable configuration passed to the view.
 */
module Views {
  import opened Wrappers
  import opened Http
  import opened Servers

  /** Why `get_class` fails. */
  datatype ConfigError =
    | NoClassPath                                         // no import path at all
    | NotAModule(importPath: string)                      // the path has no dot
    | ImportFailed(moduleName: string)                    // import_module raised ImportError
    | MissingAttribute(moduleName: string, name: string)  // the module lacks the attribute
    | EmptyModuleName                                     // import_module('') raises ValueError
    | RelativeImport(moduleName: string)                  // import_module('.x') raises TypeError
  {
    /** The four failures `get_class` turns into ImproperlyConfigured; the other two escape it. */
    predicate ImproperlyConfigured() {
      NoClassPath? || NotAModule? || ImportFailed? || MissingAttribute?
    }
  }

  /**
   * A module path `import_module` can look up without a package: not empty
   * and not relative.
   */
  predicate Importable(moduleName: string) {
    moduleName != [] && moduleName[0] != '.'
  }

  /** `s.rindex(c)`, with None where Python raises ValueError. */
  function LastIndexOf(s: string, c: char): (r: Option<nat>)
    ensures r.None? <==> c !in s
    ensures r.Some? ==> r.value < |s| && s[r.value] == c && c !in s[r.value + 1..]
  {
    if s == [] then None
    else if s[|s| - 1] == c then Some(|s| - 1)
    else
      var init := s[..|s| - 1];
      assert s == init + [s[|s| - 1]];
      var r := LastIndexOf(init, c);
      assert r.Some? ==> s[r.value + 1..] == init[r.value + 1..] + [s[|s| - 1]];
      r
  }

  /**
   * The split `get_class` makes: module path and class name on either side
   * of the last dot, or None when the path has no dot.
   */
  function SplitClassPath(path: string): (r: Option<(string, string)>)
    ensures r.None? <==> '.' !in path
    ensures r.Some? ==> r.value.0 + "." + r.value.1 == path && '.' !in r.value.1
  {
    match LastIndexOf(path, '.')
    case None => None
    case Some(dot) =>
      assert path == path[..dot] + "." + path[dot + 1..];
      Some((path[..dot], path[dot + 1..]))
  }

  /** Splitting undoes joining whenever the class name has no dot. */
  lemma SplitAtLastDot(moduleName: string, name: string)
    requires '.' !in name
    ensures SplitClassPath(moduleName + "." + name) == Some((moduleName, name))
  {
    var path := moduleName + "." + name;
    assert path[|moduleName|] == '.';
    var dot := LastIndexOf(path, '.').value;
    assert dot == |moduleName|;
    assert path[..dot] == moduleName;
    assert path[dot + 1..] == name;
  }

  /**
   * `get_class(import_path)`: modules are a partial map from module path to
   * the module's attributes, so a missing key stands for an ImportError and
   * a missing attribute for an AttributeError. An empty or relative module
   * path makes `import_module` raise ValueError or TypeError, which
   * `get_class` does not catch.
   */
  function GetClass<T(==)>(importPath: Option<string>, modules: map<string, map<string, T>>): (r: Result<T, ConfigError>)
    ensures importPath.None? ==> r == Err(NoClassPath)
    ensures importPath.Some? && '.' !in importPath.value ==> r == Err(NotAModule(importPath.value))
    ensures importPath.Some? && '.' in importPath.value ==>
      var (moduleName, name) := SplitClassPath(importPath.value).value;
      (moduleName == [] ==> r == Err(EmptyModuleName)) &&
      (moduleName != [] && moduleName[0] == '.' ==> r == Err(RelativeImport(moduleName))) &&
      (Importable(moduleName) && moduleName !in modules ==> r == Err(ImportFailed(moduleName))) &&
      (Importable(moduleName) && moduleName in modules && name !in modules[moduleName] ==>
         r == Err(MissingAttribute(moduleName, name))) &&
      (Importable(moduleName) && moduleName in modules && name in modules[moduleName] ==>
         r == Ok(modules[moduleName][name]))
    ensures r.Ok? ==> exists moduleName :: moduleName in modules && r.value in modules[moduleName].Values
  {
    match importPath
    case None => Err(NoClassPath)
    case Some(path) =>
      match SplitClassPath(path)
      case None => Err(NotAModule(path))
      case Some((moduleName, name)) =>
        if moduleName == [] then Err(EmptyModuleName)
        else if moduleName[0] == '.' then Err(RelativeImport(moduleName))
        else if moduleName !in modules then Err(ImportFailed(moduleName))
        else if name !in modules[moduleName] then Err(MissingAttribute(moduleName, name))
        else Ok(modules[moduleName][name])
  }

  /**
   * A class named by an importable module and a dot-free name is found
   * exactly when both exist; otherwise the failure is ImproperlyConfigured.
   */
  lemma GetClassByName<T>(moduleName: string, name: string, modules: map<string, map<string, T>>)
    requires '.' !in name
    ensures var r := GetClass(Some(moduleName + "." + name), modules);
      r.Ok? <==> Importable(moduleName) && moduleName in modules && name in modules[moduleName]
    ensures var r := GetClass(Some(moduleName + "." + name), modules);
      r.Err? ==> (r.error.ImproperlyConfigured() <==> Importable(moduleName))
    ensures var r := GetClass(Some(moduleName + "." + name), modules);
      r.Ok? ==> r.value == modules[moduleName][name]
  {
    SplitAtLastDot(moduleName, name);
  }

  /** A dot-led path such as `.Foo` fails with the ValueError of an empty module name, not ImproperlyConfigured. */
  lemma EmptyModuleEscapes<T>(modules: map<string, map<string, T>>)
    ensures GetClass(Some(".Foo"), modules) == Err(EmptyModuleName)
    ensures !EmptyModuleName.ImproperlyConfigured()
  {
    SplitAtLastDot("", "Foo");
    assert "" + "." + "Foo" == ".Foo";
  }

  /**
   * The permissions class: the one PRIVATE_MEDIA_PERMISSIONS names when the
   * setting exists (None when absent, Some(None) when set to None), and
   * DefaultPrivatePermissions otherwise.
   */
  function LoadPermissions<T(==)>(setting: Option<Option<string>>, modules: map<string, map<string, T>>, default: T)
    : (r: Result<T, ConfigError>)
    ensures setting.None? ==> r == Ok(default)
    ensures setting.Some? ==> r == GetClass(setting.value, modules)
    ensures setting == Some(None) ==> r == Err(NoClassPath)
    ensures setting.Some? && r.Ok? ==> exists moduleName :: moduleName in modules && r.value in modules[moduleName].Values
  {
    match setting
    case None => Ok(default)
    case Some(path) => GetClass(path, modules)
  }

  /** A permissions setting naming an existing class loads exactly that class. */
  lemma ConfiguredPermissions<T>(moduleName: string, name: string, modules: map<string, map<string, T>>, default: T)
    requires '.' !in name && Importable(moduleName) && moduleName in modules && name in modules[moduleName]
    ensures LoadPermissions(Some(Some(moduleName + "." + name)), modules, default) == Ok(modules[moduleName][name])
  {
    GetClassByName(moduleName, name, modules);
  }

  /**
   * What the view is configured with: the server, the settings, the world the
   * server reads, and the permissions object's `has_read_permission`.
   */
  datatype App = App(server: Server, settings: Settings, env: Env, hasReadPermission: (Request, string) -> bool)

  const ProtectedNotFound := "Protected file not found"

  /**
   * What `serve_private_file` gives back. Without read permission it raises
   * PermissionDenied under DEBUG and Http404 otherwise; with it, it is the
   * server's answer for the unchanged path.
   */
  function ServePrivateFileResult(app: App, req: Request, path: string): (r: Result<Response, Exception>)
    ensures !app.hasReadPermission(req, path) ==> r.Err?
    ensures !app.hasReadPermission(req, path) ==> (r.error == PermissionDenied <==> app.settings.debug)
    ensures !app.hasReadPermission(req, path) && !app.settings.debug ==> r.error == Http404(ProtectedNotFound)
    ensures app.hasReadPermission(req, path) ==> r == ServeResult(app.server, app.settings, app.env, req, path)
  {
    if !app.hasReadPermission(req, path) then
      if app.settings.debug then Err(PermissionDenied) else Err(Http404(ProtectedNotFound))
    else
      ServeResult(app.server, app.settings, app.env, req, path)
  }

  /**
   * A denied request never reaches the server: two configurations that agree
   * on the permission oracle and DEBUG give the same answer, whatever their
   * servers, server settings and files.
   */
  lemma DeniedIgnoresServer(app: App, other: App, req: Request, path: string)
    requires app.hasReadPermission == other.hasReadPermission
    requires app.settings.debug == other.settings.debug
    requires !app.hasReadPermission(req, path)
    ensures ServePrivateFileResult(app, req, path) == ServePrivateFileResult(other, req, path)
  {
  }

  /** `serve_private_file`: calls the server only when permission is granted. */
  method ServePrivateFile(app: App, req: Request, path: string) returns (out: Outcome)
    ensures out.Returned? ==> fresh(out.response)
    ensures Delivers(out, ServePrivateFileResult(app, req, path))
  {
    if !app.hasReadPermission(req, path) {
      if app.settings.debug {
        return Raised(PermissionDenied);
      } else {
        return Raised(Http404(ProtectedNotFound));
      }
    }
    out := Serve(app.server, app.settings, app.env, req, path);
  }
}
