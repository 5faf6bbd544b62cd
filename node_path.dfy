/** `path.basename(p, ".thrift")` as Node's POSIX path module computes it.
    The module is library code outside the repository; both compilers call
    it only with the extension `.thrift`, so only that form is modelled.
 */
module NodePath {
  import opened Text
  import opened ThriftAst
  import opened Emit

  const Ext: string := ".thrift"

  /** Every character of `p` is `/`. */
  predicate AllSlashes(p: string)
  {
    forall i :: 0 <= i < |p| ==> p[i] == '/'
  }

  /** `p` without its trailing `/` characters. */
  function TrimTrailingSlashes(p: string): (r: string)
    ensures |r| <= |p| && r == p[..|r|]
    ensures r == [] || r[|r| - 1] != '/'
    ensures forall i :: |r| <= i < |p| ==> p[i] == '/'
    ensures r == [] <==> AllSlashes(p)
  {
    if p != [] && p[|p| - 1] == '/' then TrimTrailingSlashes(p[..|p| - 1]) else p
  }

  /** What follows the last `/` of `p`, or all of `p`. */
  function LastComponent(p: string): (r: string)
    ensures '/' !in r
    ensures |r| <= |p| && r == p[|p| - |r|..]
    ensures |r| < |p| ==> p[|p| - |r| - 1] == '/'
  {
    match LastIndexOf(p, '/')
    case Some(j) => p[j + 1..]
    case None => p
  }

  /** `path.basename(p, '.thrift')`: the last component, trailing slashes
      ignored, with `.thrift` removed unless it is the whole component.  A
      path equal to the extension gives `""`, and a path of seven or more
      slashes comes back unchanged.  When the path has seven or more
      characters and its last component is a shorter ending of `.thrift`
      (`thrift`, `ift`, `t`), the extension match never completes and the
      component comes back with the trailing slashes that followed it. */
  function ThriftBasename(p: string): (r: string)
    ensures p == Ext ==> r == ""
    ensures p != Ext && |Ext| <= |p| && AllSlashes(p) ==> r == p
    ensures !(p == Ext || (|Ext| <= |p| && AllSlashes(p))) ==>
      var t := TrimTrailingSlashes(p);
      var base := LastComponent(t);
      && (EndsWith(base, Ext) && base != Ext ==> '/' !in r && r + Ext == base)
      && (IsPartialExt(p, base) ==> r == base + p[|t|..] && AllSlashes(p[|t|..]))
      && (!(EndsWith(base, Ext) && base != Ext) && !IsPartialExt(p, base) ==> r == base)
  {
    var t := TrimTrailingSlashes(p);
    if p == Ext then ""
    else if |Ext| <= |p| && t == [] then p
    else
      var base := LastComponent(t);
      if EndsWith(base, Ext) && base != Ext then
        DropExt(base);
        base[..|base| - |Ext|]
      else if IsPartialExt(p, base) then
        KeepSlashes(p, t, base);
        p[|t| - |base|..]
      else base
  }

  /** The extension is matched against the path (seven or more characters)
      and the last component `base` is a shorter ending of it. */
  predicate IsPartialExt(p: string, base: string)
  {
    |Ext| <= |p| && EndsWith(Ext, base) && base != Ext
  }

  /** From the start of the last component to the end of the path is the
      component followed by the trailing slashes. */
  lemma KeepSlashes(p: string, t: string, base: string)
    requires |t| <= |p| && t == p[..|t|] && |base| <= |t| && base == t[|t| - |base|..]
    requires forall i :: |t| <= i < |p| ==> p[i] == '/'
    ensures p[|t| - |base|..] == base + p[|t|..]
    ensures AllSlashes(p[|t|..])
  {
    assert p[|t| - |base|..] == p[|t| - |base|..|t|] + p[|t|..];
    assert p[|t| - |base|..|t|] == t[|t| - |base|..];
    forall i | 0 <= i < |p[|t|..]|
      ensures p[|t|..][i] == '/'
    {
      assert p[|t|..][i] == p[|t| + i];
    }
  }

  /** Removing the `.thrift` ending leaves the rest of the component. */
  lemma DropExt(base: string)
    requires EndsWith(base, Ext) && '/' !in base
    ensures base[..|base| - |Ext|] + Ext == base
    ensures '/' !in base[..|base| - |Ext|]
  {
    var r := base[..|base| - |Ext|];
    assert base[|base| - |Ext|..] == Ext;
    forall i | 0 <= i < |r|
      ensures r[i] != '/'
    {
      assert r[i] == base[i];
    }
  }

  /** A name with no `/` and no `.thrift` ending is its own base name: the
      service `MyTestService` is written to `MyTestService.d.ts`. */
  lemma BasenameOfPlainName(name: string)
    requires name != [] && '/' !in name && !EndsWith(name, Ext)
    ensures ThriftBasename(name) == name
  {
    assert name[|name| - 1] != '/';
    assert LastIndexOf(name, '/').None?;
  }

  /** The last `/` of `dir + "/" + base` is the one before `base`. */
  lemma LastSlash(dir: string, base: string)
    requires '/' !in base
    ensures LastIndexOf(dir + "/" + base, '/') == Some(|dir|)
  {
    var p := dir + "/" + base;
    assert p[|dir|] == '/';
    var r := LastIndexOf(p, '/');
    if r.None? || r.value < |dir| || r.value > |dir| {
      assert false;
    }
  }

  lemma NoSlashWithExt(name: string)
    requires '/' !in name
    ensures '/' !in name + Ext
  {
    var base := name + Ext;
    forall i | 0 <= i < |base|
      ensures base[i] != '/'
    {
      if i < |name| { assert base[i] == name[i]; }
    }
  }

  /** The last component of `dir/name.thrift` is `name.thrift`. */
  lemma ComponentOfFile(dir: string, name: string)
    requires '/' !in name
    ensures LastComponent(dir + "/" + name + Ext) == name + Ext
  {
    var base := name + Ext;
    var p := dir + "/" + base;
    assert dir + "/" + name + Ext == p;
    NoSlashWithExt(name);
    LastSlash(dir, base);
    assert p[|dir| + 1..] == base;
  }

  /** A path not ending in `/` whose last component ends in `.thrift` has
      that component, without the ending, as its base name. */
  lemma BasenameOfComponent(p: string, base: string)
    requires p != [] && p[|p| - 1] != '/' && |p| > |Ext|
    requires LastComponent(p) == base && EndsWith(base, Ext) && base != Ext
    ensures ThriftBasename(p) + Ext == base
  {
    assert TrimTrailingSlashes(p) == p;
    assert !AllSlashes(p);
  }

  /** `dir/name.thrift` has base name `name`. */
  lemma BasenameOfFile(dir: string, name: string)
    requires name != [] && '/' !in name
    ensures ThriftBasename(dir + "/" + name + Ext) == name
  {
    var base := name + Ext;
    var p := dir + "/" + name + Ext;
    ComponentOfFile(dir, name);
    assert p[|p| - 1] == 't';
    assert EndsWith(base, Ext) && base != Ext by {
      assert base[|base| - |Ext|..] == Ext;
    }
    BasenameOfComponent(p, base);
    var r := ThriftBasename(p);
    assert r == (r + Ext)[..|r|];
  }

  /** A last component that is a shorter ending of `.thrift` keeps its
      trailing slash once the path has seven or more characters:
      `x/thrift/` has base name `thrift/`. */
  lemma PartialExtKeepsSlash(dir: string, base: string)
    requires base != [] && '/' !in base && EndsWith(Ext, base) && base != Ext
    requires |Ext| <= |dir| + |base| + 2
    ensures ThriftBasename(dir + "/" + base + "/") == base + "/"
  {
    var p := dir + "/" + base + "/";
    var q := dir + "/" + base;
    assert p[..|p| - 1] == q && p[|p| - 1] == '/';
    assert q[|q| - 1] == base[|base| - 1] != '/';
    assert TrimTrailingSlashes(p) == q;
    LastSlash(dir, base);
    assert LastComponent(q) == base by {
      assert q[|dir| + 1..] == base;
    }
    assert p[|q|..] == "/";
  }
}
