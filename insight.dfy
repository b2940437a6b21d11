/**
 * The synchronous body of package-insight's `normalize`: the fixed sequence
 * of helper calls and statements that maps the raw descriptor's keys into
 * `normalized`, as phases that follow the source's groups of statements.
 * Each phase is a function from the state before it to its outcome, and a
 * method that runs it on the helpers' state; a throw ends the sequence where
 * it happened (the source's `catch` hands it to the callback).
 */
module PackageInsight {
  import opened Base
  import opened Props
  import opened Js
  import opened Merge
  import opened MergeHelpers
  import opened Formats
  import opened Steps

  /** `options.type === "component"`, or any other type. */
  datatype Kind = Component | Package

  /** `@extends`, `uid`, `name`, `description`, `version` and `_id`. */
  function Identity(d: Desc, s: St): Outcome {
    var s1 :- AnyToArray(d, s, "@extends", "@extends", None);
    var s2 :- String(d, s1, "uid");
    var s3 :- String(d, s2, "name");
    var s4 :- String(d, s3, "description");
    var s5 :- String(d, s4, "version");
    IdCheck(d, s5)
  }

  /** `_from`, then `boot` and `dist` merged into `boot` and `locator`. */
  function Origin(d: Desc, s: St): Outcome {
    var s1 :- FromLocator(d, s);
    var s2 :- MergeObjectTo(d, s1, "boot", Name("boot"), None);
    MergeObjectTo(d, s2, "dist", Name("locator"), None)
  }

  /** A component installs with `"component"` unless `normalized.pm.install` is already truthy. */
  function InstallDefault(d: Desc, s: St): Outcome {
    var s1 :- Ensure(s, d.normalized, "pm", EmptyObject);
    var pm := Lookup(s1.heap, d.normalized, "pm");
    var install :- At(s1, pm, "install");
    if Truthy(install) then Ok(s1) else Set(s1, pm, "install", Str("component"))
  }

  /** `pm` and `pm.install`. */
  function PackageManager(d: Desc, s: St, kind: Kind): Outcome {
    var s1 :- Object(d, s, "pm");
    var s2 :- StringToObject(Insight, d, s1, "pm", Name("install"), None);
    if kind == Component then InstallDefault(d, s2) else Ok(s2)
  }

  /** `homepage`, `bugs` and `twitter`, the handle without its `@`. */
  function Social(d: Desc, s: St): Outcome {
    var s1 :- String(d, s, "homepage");
    var s2 :- ObjectToObject(Insight, d, s1, "bugs", Path(["social", "bugs"]), None);
    var s3 :- StringToObject(Insight, d, s2, "bugs", Path(["social", "bugs", "url"]), None);
    StringToObject(Insight, d, s3, "twitter", Path(["social", "bugs", "twitter"]), Some(StripAt))
  }

  /** A component's `repo` and its `dependencies` and `development` maps. */
  function ComponentSources(d: Desc, s: St): Outcome {
    var s1 :- StringToArray(d, s, "repo", "repositories", Some(RepoUrl));
    var s2 :- ObjectToObject(Insight, d, s1, "dependencies", Path(["dependencies", "required"]), Some(ComponentDeps));
    ObjectToObject(Insight, d, s2, "development", Path(["dependencies", "development"]), Some(ComponentDeps))
  }

  /** A package's repositories and its dependency maps and bundled lists. */
  function PackageSources(d: Desc, s: St): Outcome {
    var s1 :- Array(d, s, "repositories");
    var s2 :- AnyToArray(d, s1, "repository", "repositories", None);
    var s3 :- ObjectToObject(Insight, d, s2, "dependencies", Path(["dependencies", "required"]), None);
    var s4 :- ObjectToObject(Insight, d, s3, "devDependencies", Path(["dependencies", "development"]), None);
    var s5 :- ObjectToObject(Insight, d, s4, "optionalDependencies", Path(["dependencies", "optional"]), None);
    var s6 :- ArrayToObject(Insight, d, s5, "bundledDependencies", Path(["dependencies", "bundled"]), None);
    ArrayToObject(Insight, d, s6, "bundleDependencies", Path(["dependencies", "bundled"]), None)
  }

  /** The entries `deps.forEach(name => bundled[name] = false)` files for the first `n` elements. */
  function BundledNames(h: Heap, o: Obj, n: nat): Props<Val> {
    if n == 0 then []
    else
      var acc := BundledNames(h, o, n - 1);
      match ElementAt(o, n - 1)
      case None => acc
      case Some(e) => Put(acc, Text(h, e), Bool(false))
  }

  /** Some element of the first `n` is present and converts to the key `k`. */
  predicate Names(h: Heap, o: Obj, n: nat, k: string) {
    exists i | 0 <= i < n :: ElementAt(o, i).Some? && Text(h, ElementAt(o, i).value) == k
  }

  /** The bundled object has a `false` entry exactly for the name of each element, and nothing else. */
  lemma {:induction false} BundledNamesEntries(h: Heap, o: Obj, n: nat, k: string)
    ensures Get(BundledNames(h, o, n), k) == if Names(h, o, n, k) then Some(Bool(false)) else None
  {
    if n > 0 {
      BundledNamesEntries(h, o, n - 1, k);
      var acc := BundledNames(h, o, n - 1);
      match ElementAt(o, n - 1)
      case None =>
        assert Names(h, o, n, k) ==> Names(h, o, n - 1, k);
        assert Names(h, o, n - 1, k) ==> Names(h, o, n, k);
      case Some(e) =>
        GetPut(acc, Text(h, e), Bool(false), k);
        if k == Text(h, e) {
          assert Names(h, o, n, k);
        } else {
          assert Names(h, o, n, k) ==> Names(h, o, n - 1, k);
          assert Names(h, o, n - 1, k) ==> Names(h, o, n, k);
        }
    }
  }

  /**
   * `normalized.dependencies.bundled`, when set, is replaced by a new object
   * that maps each of its names to `false`; only an array has `forEach`.
   */
  function Bundled(d: Desc, s: St): Outcome {
    var dependencies :- At(s, d.normalized, "dependencies");
    if !Truthy(dependencies) then Ok(s)
    else
      var deps := Lookup(s.heap, dependencies, "bundled");
      if !Truthy(deps) then Ok(s)
      else
        var n := New(s, EmptyObject);
        var s1 :- Set(n.0, dependencies, "bundled", n.1);
        if !IsArray(s1.heap, deps) then Err(Stop(s1, TypeError))
        else
          var list := s1.heap[deps.loc];
          Ok(s1.(heap := s1.heap[|s.heap| := Obj(false, BundledNames(s1.heap, list, list.length), 0)]))
  }

  /** The mapping keys merged into the dependency maps. */
  function Mappings(d: Desc, s: St): Outcome {
    var s1 :- MergeObjectTo(d, s, "mappings", Path(["dependencies", "required"]), None);
    var s2 :- MergeObjectTo(d, s1, "devMappings", Path(["dependencies", "development"]), None);
    MergeObjectTo(d, s2, "optionalMappings", Path(["dependencies", "optional"]), None)
  }

  /** The repositories and dependencies, by kind. */
  function Sources(d: Desc, s: St, kind: Kind): Outcome {
    if kind == Component then ComponentSources(d, s)
    else
      var s1 :- PackageSources(d, s);
      var s2 :- Bundled(d, s1);
      Mappings(d, s2)
  }

  /** `shrinkwrap`, `publishConfig`, `engines` (twice, around `engine`), `os` and `bin`. */
  function Requirements(d: Desc, s: St): Outcome {
    var s1 :- BooleanToObject(Insight, d, s, "shrinkwrap", Path(["config", "shrinkwrap"]));
    var s2 :- ObjectToObject(Insight, d, s1, "publishConfig", Path(["config", "publish"]), None);
    var s3 :- ObjectToObject(Insight, d, s2, "engines", Path(["requirements", "engines"]), None);
    var s4 :- MergeObjectTo(d, s3, "engine", Path(["requirements", "engines"]), None);
    var s5 :- ObjectToObject(Insight, d, s4, "engines", Path(["requirements", "engines"]), None);
    var s6 :- ObjectToObject(Insight, d, s5, "os", Path(["config", "os"]), None);
    ObjectToObject(Insight, d, s6, "bin", Path(["config", "bin"]), None)
  }

  /** A package's `scripts`, then `on`, `env`, `layout`, `directories`, `implements`, `config` and the overlay object. */
  function Layout(d: Desc, s: St, kind: Kind): Outcome {
    var s1 :- if kind == Component then Ok(s) else ObjectToObject(Insight, d, s, "scripts", Path(["exports", "scripts"]), None);
    var s2 :- ObjectToObject(Insight, d, s1, "on", Path(["events", "listen"]), None);
    var s3 :- ObjectToObject(Insight, d, s2, "env", Path(["requirements", "env"]), None);
    var s4 :- ObjectToObject(Insight, d, s3, "layout", Path(["layout"]), None);
    var s5 :- MergeObjectTo(d, s4, "directories", Path(["layout", "directories"]), None);
    var s6 :- ObjectToObject(Insight, d, s5, "implements", Path(["config", "implements"]), None);
    var s7 :- Object(d, s6, "config");
    DefaultObject(d, s7, "overlay", "overlay")
  }

  /** A component's exported files, each list or map made into a map of relative paths. */
  function ComponentExportKeys(d: Desc, s: St): Outcome {
    var s1 :- AnyToObject(Insight, d, s, "scripts", Path(["exports", "scripts"]), Some(ComponentExports));
    var s2 :- AnyToObject(Insight, d, s1, "styles", Path(["exports", "styles"]), Some(ComponentExports));
    var s3 :- AnyToObject(Insight, d, s2, "images", Path(["exports", "images"]), Some(ComponentExports));
    var s4 :- AnyToObject(Insight, d, s3, "fonts", Path(["exports", "fonts"]), Some(ComponentExports));
    AnyToObject(Insight, d, s4, "files", Path(["exports", "resources"]), Some(ComponentExports))
  }

  /** `licenses`, `license`, `main`, and the exports by kind. */
  function Exports(d: Desc, s: St, kind: Kind): Outcome {
    var s1 :- Array(d, s, "licenses");
    var s2 :- AnyToArray(d, s1, "license", "licenses", None);
    var s3 :- StringToObject(Insight, d, s2, "main", Path(["exports", "main"]), Some(PrefixRelative));
    if kind == Component then ComponentExportKeys(d, s3) else DefaultObject(d, s3, "component", "exports")
  }

  /** `readme`, `readmeFilename`, `man`, `keywords`, `maintainers`, `contributors` and `author`. */
  function Files(d: Desc, s: St): Outcome {
    var s1 := Remove(s, "readme");
    var s2 :- StringToObject(Insight, d, s1, "readmeFilename", Path(["files", "readme"]), Some(PrefixRelative));
    var s3 :- AnyToObject(Insight, d, s2, "man", Path(["files", "man"]), None);
    var s4 :- Array(d, s3, "keywords");
    var s5 :- Array(d, s4, "maintainers");
    var s6 :- Array(d, s5, "contributors");
    AnyToArray(d, s6, "author", "contributors", None)
  }

  /** The whole synchronous mapping, phase after phase. */
  function Normalized(d: Desc, s: St, kind: Kind): Outcome {
    var s1 :- Identity(d, s);
    var s2 :- Origin(d, s1);
    var s3 :- PackageManager(d, s2, kind);
    var s4 :- Social(d, s3);
    var s5 :- Sources(d, s4, kind);
    var s6 :- Requirements(d, s5);
    var s7 :- Layout(d, s6, kind);
    var s8 :- Exports(d, s7, kind);
    Files(d, s8)
  }

  method RunIdentity(hp: Helpers) returns (r: Result<(), Thrown>)
    modifies hp
    ensures Pack(hp.State(), r) == Identity(hp.desc, old(hp.State()))
  {
    r := Ok(());
    var _ :- hp.AnyToArray("@extends", "@extends", None);
    var _ :- hp.String("uid");
    var _ :- hp.String("name");
    var _ :- hp.String("description");
    var _ :- hp.String("version");
    r := RunIdCheck(hp);
  }

  method RunOrigin(hp: Helpers) returns (r: Result<(), Thrown>)
    modifies hp
    ensures Pack(hp.State(), r) == Origin(hp.desc, old(hp.State()))
  {
    r := Ok(());
    var _ :- RunFromLocator(hp);
    var _ :- hp.MergeObjectTo("boot", Name("boot"), None);
    r := hp.MergeObjectTo("dist", Name("locator"), None);
  }

  method RunInstallDefault(hp: Helpers) returns (r: Result<(), Thrown>)
    modifies hp
    ensures Pack(hp.State(), r) == InstallDefault(hp.desc, old(hp.State()))
  {
    r := Ok(());
    var _ :- hp.Ensure(hp.desc.normalized, "pm", EmptyObject);
    var pm := Lookup(hp.heap, hp.desc.normalized, "pm");
    var install :- Read(hp.heap, pm, "install");
    if !Truthy(install) {
      hp.heap :- Write(hp.heap, pm, "install", Str("component"));
    }
  }

  method RunPackageManager(hp: Helpers, kind: Kind) returns (r: Result<(), Thrown>)
    requires hp.variant == Insight
    modifies hp
    ensures Pack(hp.State(), r) == PackageManager(hp.desc, old(hp.State()), kind)
  {
    r := Ok(());
    var _ :- hp.Object("pm");
    var _ :- hp.StringToObject("pm", Name("install"), None);
    if kind == Component {
      r := RunInstallDefault(hp);
    }
  }

  method RunSocial(hp: Helpers) returns (r: Result<(), Thrown>)
    requires hp.variant == Insight
    modifies hp
    ensures Pack(hp.State(), r) == Social(hp.desc, old(hp.State()))
  {
    r := Ok(());
    var _ :- hp.String("homepage");
    var _ :- hp.ObjectToObject("bugs", Path(["social", "bugs"]), None);
    var _ :- hp.StringToObject("bugs", Path(["social", "bugs", "url"]), None);
    r := hp.StringToObject("twitter", Path(["social", "bugs", "twitter"]), Some(StripAt));
  }

  method RunComponentSources(hp: Helpers) returns (r: Result<(), Thrown>)
    requires hp.variant == Insight
    modifies hp
    ensures Pack(hp.State(), r) == ComponentSources(hp.desc, old(hp.State()))
  {
    r := Ok(());
    var _ :- hp.StringToArray("repo", "repositories", Some(RepoUrl));
    var _ :- hp.ObjectToObject("dependencies", Path(["dependencies", "required"]), Some(ComponentDeps));
    r := hp.ObjectToObject("development", Path(["dependencies", "development"]), Some(ComponentDeps));
  }

  method RunPackageSources(hp: Helpers) returns (r: Result<(), Thrown>)
    requires hp.variant == Insight
    modifies hp
    ensures Pack(hp.State(), r) == PackageSources(hp.desc, old(hp.State()))
  {
    r := Ok(());
    var _ :- hp.Array("repositories");
    var _ :- hp.AnyToArray("repository", "repositories", None);
    var _ :- hp.ObjectToObject("dependencies", Path(["dependencies", "required"]), None);
    var _ :- hp.ObjectToObject("devDependencies", Path(["dependencies", "development"]), None);
    var _ :- hp.ObjectToObject("optionalDependencies", Path(["dependencies", "optional"]), None);
    var _ :- hp.ArrayToObject("bundledDependencies", Path(["dependencies", "bundled"]), None);
    r := hp.ArrayToObject("bundleDependencies", Path(["dependencies", "bundled"]), None);
  }

  /** The `forEach` over the bundled list: the entries for its first `length` elements, collected in order. */
  method BundledEntries(h: Heap, list: Obj) returns (entries: Props<Val>)
    ensures entries == BundledNames(h, list, list.length)
  {
    entries := [];
    var i := 0;
    while i < list.length
      invariant 0 <= i <= list.length
      invariant entries == BundledNames(h, list, i)
      decreases list.length - i
    {
      var name := ElementAt(list, i);
      if name.Some? {
        entries := Put(entries, Text(h, name.value), Bool(false));
      }
      i := i + 1;
    }
  }

  method RunBundled(hp: Helpers) returns (r: Result<(), Thrown>)
    modifies hp
    ensures Pack(hp.State(), r) == Bundled(hp.desc, old(hp.State()))
  {
    r := Ok(());
    var dependencies :- Read(hp.heap, hp.desc.normalized, "dependencies");
    if Truthy(dependencies) {
      var deps := Lookup(hp.heap, dependencies, "bundled");
      if Truthy(deps) {
        var loc := |hp.heap|;
        hp.heap := hp.heap + [EmptyObject];
        hp.heap :- Write(hp.heap, dependencies, "bundled", Ref(loc));
        if !IsArray(hp.heap, deps) {
          return Err(TypeError);
        }
        var entries := BundledEntries(hp.heap, hp.heap[deps.loc]);
        hp.heap := hp.heap[loc := Obj(false, entries, 0)];
      }
    }
  }

  method RunMappings(hp: Helpers) returns (r: Result<(), Thrown>)
    modifies hp
    ensures Pack(hp.State(), r) == Mappings(hp.desc, old(hp.State()))
  {
    r := Ok(());
    var _ :- hp.MergeObjectTo("mappings", Path(["dependencies", "required"]), None);
    var _ :- hp.MergeObjectTo("devMappings", Path(["dependencies", "development"]), None);
    r := hp.MergeObjectTo("optionalMappings", Path(["dependencies", "optional"]), None);
  }

  method RunSources(hp: Helpers, kind: Kind) returns (r: Result<(), Thrown>)
    requires hp.variant == Insight
    modifies hp
    ensures Pack(hp.State(), r) == Sources(hp.desc, old(hp.State()), kind)
  {
    if kind == Component {
      r := RunComponentSources(hp);
    } else {
      r := Ok(());
      var _ :- RunPackageSources(hp);
      var _ :- RunBundled(hp);
      r := RunMappings(hp);
    }
  }

  method RunRequirements(hp: Helpers) returns (r: Result<(), Thrown>)
    requires hp.variant == Insight
    modifies hp
    ensures Pack(hp.State(), r) == Requirements(hp.desc, old(hp.State()))
  {
    r := Ok(());
    var _ :- hp.BooleanToObject("shrinkwrap", Path(["config", "shrinkwrap"]));
    var _ :- hp.ObjectToObject("publishConfig", Path(["config", "publish"]), None);
    var _ :- hp.ObjectToObject("engines", Path(["requirements", "engines"]), None);
    var _ :- hp.MergeObjectTo("engine", Path(["requirements", "engines"]), None);
    var _ :- hp.ObjectToObject("engines", Path(["requirements", "engines"]), None);
    var _ :- hp.ObjectToObject("os", Path(["config", "os"]), None);
    r := hp.ObjectToObject("bin", Path(["config", "bin"]), None);
  }

  method RunLayout(hp: Helpers, kind: Kind) returns (r: Result<(), Thrown>)
    requires hp.variant == Insight
    modifies hp
    ensures Pack(hp.State(), r) == Layout(hp.desc, old(hp.State()), kind)
  {
    r := Ok(());
    if kind != Component {
      var _ :- hp.ObjectToObject("scripts", Path(["exports", "scripts"]), None);
    }
    var _ :- hp.ObjectToObject("on", Path(["events", "listen"]), None);
    var _ :- hp.ObjectToObject("env", Path(["requirements", "env"]), None);
    var _ :- hp.ObjectToObject("layout", Path(["layout"]), None);
    var _ :- hp.MergeObjectTo("directories", Path(["layout", "directories"]), None);
    var _ :- hp.ObjectToObject("implements", Path(["config", "implements"]), None);
    var _ :- hp.Object("config");
    r := RunDefaultObject(hp, "overlay", "overlay");
  }

  method RunComponentExportKeys(hp: Helpers) returns (r: Result<(), Thrown>)
    requires hp.variant == Insight
    modifies hp
    ensures Pack(hp.State(), r) == ComponentExportKeys(hp.desc, old(hp.State()))
  {
    r := Ok(());
    var _ :- hp.AnyToObject("scripts", Path(["exports", "scripts"]), Some(ComponentExports));
    var _ :- hp.AnyToObject("styles", Path(["exports", "styles"]), Some(ComponentExports));
    var _ :- hp.AnyToObject("images", Path(["exports", "images"]), Some(ComponentExports));
    var _ :- hp.AnyToObject("fonts", Path(["exports", "fonts"]), Some(ComponentExports));
    r := hp.AnyToObject("files", Path(["exports", "resources"]), Some(ComponentExports));
  }

  method RunExports(hp: Helpers, kind: Kind) returns (r: Result<(), Thrown>)
    requires hp.variant == Insight
    modifies hp
    ensures Pack(hp.State(), r) == Exports(hp.desc, old(hp.State()), kind)
  {
    r := Ok(());
    var _ :- hp.Array("licenses");
    var _ :- hp.AnyToArray("license", "licenses", None);
    var _ :- hp.StringToObject("main", Path(["exports", "main"]), Some(PrefixRelative));
    if kind == Component {
      r := RunComponentExportKeys(hp);
    } else {
      r := RunDefaultObject(hp, "component", "exports");
    }
  }

  method RunFiles(hp: Helpers) returns (r: Result<(), Thrown>)
    requires hp.variant == Insight
    modifies hp
    ensures Pack(hp.State(), r) == Files(hp.desc, old(hp.State()))
  {
    r := Ok(());
    hp.Remove("readme");
    var _ :- hp.StringToObject("readmeFilename", Path(["files", "readme"]), Some(PrefixRelative));
    var _ :- hp.AnyToObject("man", Path(["files", "man"]), None);
    var _ :- hp.Array("keywords");
    var _ :- hp.Array("maintainers");
    var _ :- hp.Array("contributors");
    r := hp.AnyToArray("author", "contributors", None);
  }

  /** package-insight's `normalize` up to its asynchronous steps. */
  method Normalize(hp: Helpers, kind: Kind) returns (r: Result<(), Thrown>)
    requires hp.variant == Insight
    modifies hp
    ensures Pack(hp.State(), r) == Normalized(hp.desc, old(hp.State()), kind)
  {
    r := Ok(());
    var _ :- RunIdentity(hp);
    var _ :- RunOrigin(hp);
    var _ :- RunPackageManager(hp, kind);
    var _ :- RunSocial(hp);
    var _ :- RunSources(hp, kind);
    var _ :- RunRequirements(hp);
    var _ :- RunLayout(hp, kind);
    var _ :- RunExports(hp, kind);
    r := RunFiles(hp);
  }
}
