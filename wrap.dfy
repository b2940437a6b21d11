/**
 * packagewrap's `normalize`: the same kind of mapping as package-insight's,
 * with its own helpers (the `Wrap` variant), no value formatters, and every
 * configuration key gathered under `config`. The phases follow the source's
 * groups of statements; a throw ends the sequence where it happened.
 */
module PackageWrap {
  import opened Base
  import opened Props
  import opened Js
  import opened Merge
  import opened MergeHelpers
  import opened Steps

  /** `uid`, `name`, `description`, `version`, `_id`, `_from` and `dist`. */
  function Identity(d: Desc, s: St): Outcome {
    var s1 :- String(d, s, "uid");
    var s2 :- String(d, s1, "name");
    var s3 :- String(d, s2, "description");
    var s4 :- String(d, s3, "version");
    var s5 :- IdCheck(d, s4);
    var s6 :- FromLocator(d, s5);
    MergeObjectTo(d, s6, "dist", Name("locator"), None)
  }

  /** `pm`, `pm.install`, `homepage`, `bugs` and `bugs.url`. */
  function Contacts(d: Desc, s: St): Outcome {
    var s1 :- Object(d, s, "pm");
    var s2 :- StringToObject(Wrap, d, s1, "pm", Name("install"), None);
    var s3 :- String(d, s2, "homepage");
    var s4 :- Object(d, s3, "bugs");
    StringToObject(Wrap, d, s4, "bugs", Name("url"), None)
  }

  /** The repositories, the dependency maps and bundled lists, and the mappings merged into them. */
  function Sources(d: Desc, s: St): Outcome {
    var s1 :- Array(d, s, "repositories");
    var s2 :- AnyToArray(d, s1, "repository", "repositories", None);
    var s3 :- ObjectToObject(Wrap, d, s2, "dependencies", Path(["dependencies", "required"]), None);
    var s4 :- ObjectToObject(Wrap, d, s3, "devDependencies", Path(["dependencies", "development"]), None);
    var s5 :- ObjectToObject(Wrap, d, s4, "optionalDependencies", Path(["dependencies", "optional"]), None);
    var s6 :- ArrayToObject(Wrap, d, s5, "bundledDependencies", Path(["dependencies", "bundled"]), None);
    var s7 :- ArrayToObject(Wrap, d, s6, "bundleDependencies", Path(["dependencies", "bundled"]), None);
    var s8 :- MergeObjectTo(d, s7, "mappings", Path(["dependencies", "required"]), None);
    var s9 :- MergeObjectTo(d, s8, "devMappings", Path(["dependencies", "development"]), None);
    MergeObjectTo(d, s9, "optionalMappings", Path(["dependencies", "optional"]), None)
  }

  /** `shrinkwrap` to `publishConfig`, `engines` (twice, around `engine`), `os` and `bin`. */
  function Requirements(d: Desc, s: St): Outcome {
    var s1 :- BooleanToObject(Wrap, d, s, "shrinkwrap", Path(["config", "shrinkwrap"]));
    var s2 :- ObjectToObject(Wrap, d, s1, "publishConfig", Path(["config", "publish"]), None);
    var s3 :- ObjectToObject(Wrap, d, s2, "engines", Path(["config", "engines"]), None);
    var s4 :- MergeObjectTo(d, s3, "engine", Path(["config", "engines"]), None);
    var s5 :- ObjectToObject(Wrap, d, s4, "engines", Path(["config", "engines"]), None);
    var s6 :- ObjectToObject(Wrap, d, s5, "os", Path(["config", "os"]), None);
    ObjectToObject(Wrap, d, s6, "bin", Path(["config", "bin"]), None)
  }

  /** `main`, `scripts`, `directories`, `implements`, `component`, `config` and the overlay object. */
  function Config(d: Desc, s: St): Outcome {
    var s1 :- StringToObject(Wrap, d, s, "main", Path(["config", "main"]), None);
    var s2 :- ObjectToObject(Wrap, d, s1, "scripts", Path(["config", "scripts"]), None);
    var s3 :- ObjectToObject(Wrap, d, s2, "directories", Path(["config", "directories"]), None);
    var s4 :- ObjectToObject(Wrap, d, s3, "implements", Path(["config", "implements"]), None);
    var s5 :- ObjectToObject(Wrap, d, s4, "component", Path(["config", "exports"]), None);
    var s6 :- Object(d, s5, "config");
    ResetOverlay(d, s6)
  }

  /** `licenses`, `license`, `readme`, `readmeFilename`, `man`, `keywords`, `maintainers`, `contributors` and `author`. */
  function Files(d: Desc, s: St): Outcome {
    var s1 :- Array(d, s, "licenses");
    var s2 :- AnyToArray(d, s1, "license", "licenses", None);
    var s3 := Remove(s2, "readme");
    var s4 :- StringToObject(Wrap, d, s3, "readmeFilename", Path(["files", "readme"]), None);
    var s5 :- AnyToObject(Wrap, d, s4, "man", Path(["files", "man"]), None);
    var s6 :- Array(d, s5, "keywords");
    var s7 :- Array(d, s6, "maintainers");
    var s8 :- Array(d, s7, "contributors");
    AnyToArray(d, s8, "author", "contributors", None)
  }

  /** The whole synchronous mapping, phase after phase. */
  function Normalized(d: Desc, s: St): Outcome {
    var s1 :- Identity(d, s);
    var s2 :- Contacts(d, s1);
    var s3 :- Sources(d, s2);
    var s4 :- Requirements(d, s3);
    var s5 :- Config(d, s4);
    Files(d, s5)
  }

  method RunIdentity(hp: Helpers) returns (r: Result<(), Thrown>)
    modifies hp
    ensures Pack(hp.State(), r) == Identity(hp.desc, old(hp.State()))
  {
    r := Ok(());
    var _ :- hp.String("uid");
    var _ :- hp.String("name");
    var _ :- hp.String("description");
    var _ :- hp.String("version");
    var _ :- RunIdCheck(hp);
    var _ :- RunFromLocator(hp);
    r := hp.MergeObjectTo("dist", Name("locator"), None);
  }

  method RunContacts(hp: Helpers) returns (r: Result<(), Thrown>)
    requires hp.variant == Wrap
    modifies hp
    ensures Pack(hp.State(), r) == Contacts(hp.desc, old(hp.State()))
  {
    r := Ok(());
    var _ :- hp.Object("pm");
    var _ :- hp.StringToObject("pm", Name("install"), None);
    var _ :- hp.String("homepage");
    var _ :- hp.Object("bugs");
    r := hp.StringToObject("bugs", Name("url"), None);
  }

  method RunSources(hp: Helpers) returns (r: Result<(), Thrown>)
    requires hp.variant == Wrap
    modifies hp
    ensures Pack(hp.State(), r) == Sources(hp.desc, old(hp.State()))
  {
    r := Ok(());
    var _ :- hp.Array("repositories");
    var _ :- hp.AnyToArray("repository", "repositories", None);
    var _ :- hp.ObjectToObject("dependencies", Path(["dependencies", "required"]), None);
    var _ :- hp.ObjectToObject("devDependencies", Path(["dependencies", "development"]), None);
    var _ :- hp.ObjectToObject("optionalDependencies", Path(["dependencies", "optional"]), None);
    var _ :- hp.ArrayToObject("bundledDependencies", Path(["dependencies", "bundled"]), None);
    var _ :- hp.ArrayToObject("bundleDependencies", Path(["dependencies", "bundled"]), None);
    var _ :- hp.MergeObjectTo("mappings", Path(["dependencies", "required"]), None);
    var _ :- hp.MergeObjectTo("devMappings", Path(["dependencies", "development"]), None);
    r := hp.MergeObjectTo("optionalMappings", Path(["dependencies", "optional"]), None);
  }

  method RunRequirements(hp: Helpers) returns (r: Result<(), Thrown>)
    requires hp.variant == Wrap
    modifies hp
    ensures Pack(hp.State(), r) == Requirements(hp.desc, old(hp.State()))
  {
    r := Ok(());
    var _ :- hp.BooleanToObject("shrinkwrap", Path(["config", "shrinkwrap"]));
    var _ :- hp.ObjectToObject("publishConfig", Path(["config", "publish"]), None);
    var _ :- hp.ObjectToObject("engines", Path(["config", "engines"]), None);
    var _ :- hp.MergeObjectTo("engine", Path(["config", "engines"]), None);
    var _ :- hp.ObjectToObject("engines", Path(["config", "engines"]), None);
    var _ :- hp.ObjectToObject("os", Path(["config", "os"]), None);
    r := hp.ObjectToObject("bin", Path(["config", "bin"]), None);
  }

  method RunConfig(hp: Helpers) returns (r: Result<(), Thrown>)
    requires hp.variant == Wrap
    modifies hp
    ensures Pack(hp.State(), r) == Config(hp.desc, old(hp.State()))
  {
    r := Ok(());
    var _ :- hp.StringToObject("main", Path(["config", "main"]), None);
    var _ :- hp.ObjectToObject("scripts", Path(["config", "scripts"]), None);
    var _ :- hp.ObjectToObject("directories", Path(["config", "directories"]), None);
    var _ :- hp.ObjectToObject("implements", Path(["config", "implements"]), None);
    var _ :- hp.ObjectToObject("component", Path(["config", "exports"]), None);
    var _ :- hp.Object("config");
    r := RunResetOverlay(hp);
  }

  method RunFiles(hp: Helpers) returns (r: Result<(), Thrown>)
    requires hp.variant == Wrap
    modifies hp
    ensures Pack(hp.State(), r) == Files(hp.desc, old(hp.State()))
  {
    r := Ok(());
    var _ :- hp.Array("licenses");
    var _ :- hp.AnyToArray("license", "licenses", None);
    hp.Remove("readme");
    var _ :- hp.StringToObject("readmeFilename", Path(["files", "readme"]), None);
    var _ :- hp.AnyToObject("man", Path(["files", "man"]), None);
    var _ :- hp.Array("keywords");
    var _ :- hp.Array("maintainers");
    var _ :- hp.Array("contributors");
    r := hp.AnyToArray("author", "contributors", None);
  }

  /** packagewrap's `normalize` up to its asynchronous overlay step. */
  method Normalize(hp: Helpers) returns (r: Result<(), Thrown>)
    requires hp.variant == Wrap
    modifies hp
    ensures Pack(hp.State(), r) == Normalized(hp.desc, old(hp.State()))
  {
    r := Ok(());
    var _ :- RunIdentity(hp);
    var _ :- RunContacts(hp);
    var _ :- RunSources(hp);
    var _ :- RunRequirements(hp);
    var _ :- RunConfig(hp);
    r := RunFiles(hp);
  }
}
