/** Where a migration's staged disk lands in the PVC store. */
module StagedFile {
  import opened Common
  import opened PvcStorage
  import M = MigrationPlan

  /** What Kubernetes guarantees of an object's name, as far as paths are concerned. */
  predicate PlainName(s: string) {
    s != "" && s != "." && '/' !in s && !HasDotDot(s)
  }

  lemma {:induction false} FirstNameOf(name: string, rest: string)
    requires '/' !in name
    ensures FirstName(name + "/" + rest) == (name, rest)
  {
    var s := name + "/" + rest;
    if name == [] {
      assert s[0] == '/' && s[1..] == rest;
    } else {
      assert s[0] == name[0] && s[1..] == name[1..] + "/" + rest;
      FirstNameOf(name[1..], rest);
      assert [name[0]] + name[1..] == name;
    }
  }

  lemma {:induction false} OnlyName(name: string)
    requires '/' !in name
    ensures FirstName(name) == (name, "")
  {
    if name != [] {
      OnlyName(name[1..]);
      assert [name[0]] + name[1..] == name;
    }
  }

  lemma NamesOf(name: string, rest: string)
    requires PlainName(name)
    ensures Names(name + "/" + rest) == [name] + Names(rest)
  {
    FirstNameOf(name, rest);
  }

  lemma NameAlone(name: string)
    requires PlainName(name)
    ensures Names(name) == [name]
  {
    OnlyName(name);
    assert Names("") == [];
  }

  lemma {:induction false} AfterFirstSlash(name: string, rest: string)
    requires '/' !in name
    ensures AfterSlash(name + "/" + rest) == Some(rest)
  {
    var s := name + "/" + rest;
    if name == [] {
      assert s[0] == '/' && s[1..] == rest;
    } else {
      assert s[0] == name[0] && s[1..] == name[1..] + "/" + rest;
      AfterFirstSlash(name[1..], rest);
    }
  }

  lemma SlashSeparatesDots(a: string, b: string)
    requires !HasDotDot(a) && !HasDotDot(b)
    ensures !HasDotDot(a + "/" + b)
  {
    var s := a + "/" + b;
    forall i | 0 <= i < |s| - 1
      ensures !(s[i] == '.' && s[i + 1] == '.')
    {
      if i + 1 < |a| {
        assert s[i] == a[i] && s[i + 1] == a[i + 1];
      } else if i > |a| {
        assert s[i] == b[i - |a| - 1] && s[i + 1] == b[i - |a|];
      }
    }
  }

  const ROOT := "vmmigrations"
  const LEAF := "export.qcow2"

  /** A relative path of four names. */
  function Joined(a: string, b: string, c: string, d: string): string {
    a + "/" + (b + "/" + (c + "/" + d))
  }

  lemma JoinedResolves(a: string, b: string, c: string, d: string)
    requires PlainName(a) && PlainName(b) && PlainName(c) && PlainName(d)
    ensures Names(Joined(a, b, c, d)) == [a, b, c, d]
    ensures !HasDotDot(Joined(a, b, c, d))
  {
    NameAlone(d);
    NamesOf(c, d);
    NamesOf(b, c + "/" + d);
    NamesOf(a, b + "/" + (c + "/" + d));
    SlashSeparatesDots(c, d);
    SlashSeparatesDots(b, c + "/" + d);
    SlashSeparatesDots(a, b + "/" + (c + "/" + d));
  }

  function StagedTail(c: M.Config): string {
    Joined(ROOT, c.namespace, c.name, LEAF)
  }

  lemma FixedNamesArePlain()
    ensures PlainName(ROOT) && PlainName(LEAF)
  {
  }

  /** The address a PVC-staged migration uses, split at its scheme and at the claim's name. */
  lemma UrlForm(c: M.Config, pvcName: string)
    requires c.storage.Some? && c.storage.value.Pvc? && pvcName != ""
    ensures M.StorageUrl(c, pvcName) == Some(SCHEME + (pvcName + "/" + StagedTail(c)))
  {
    var url := "pvc://" + pvcName + "/vmmigrations/" + c.namespace + "/" + c.name + "/export.qcow2";
    assert "/vmmigrations/" == "/" + ROOT + "/";
    assert "/export.qcow2" == "/" + LEAF;
    assert url == SCHEME + (pvcName + "/" + StagedTail(c));
  }

  lemma SchemeDrops(bare: string)
    requires bare != "" && !IsSpace(bare[|bare| - 1])
    ensures TrimScheme(TrimSpace(SCHEME + bare)) == bare
  {
    var s := SCHEME + bare;
    assert s[0] == 'p' && s[|s| - 1] == bare[|bare| - 1];
    assert TrimSpace(s) == s;
    assert s[|SCHEME|..] == bare;
  }

  /** The exporter and the importer both resolve the migration's address to one file below their mount. */
  lemma StagedUrlResolves(c: M.Config, pvcName: string, mount: Path)
    requires c.storage.Some? && c.storage.value.Pvc?
    requires PlainName(pvcName) && PlainName(c.namespace) && PlainName(c.name)
    ensures M.StorageUrl(c, pvcName).Some?
    ensures ParsePath(mount, M.StorageUrl(c, pvcName).value) == Some(mount + [ROOT, c.namespace, c.name, LEAF])
  {
    UrlForm(c, pvcName);
    var tail := StagedTail(c);
    var bare := pvcName + "/" + tail;
    FixedNamesArePlain();
    JoinedResolves(ROOT, c.namespace, c.name, LEAF);
    assert bare[|bare| - 1] == LEAF[|LEAF| - 1];
    SchemeDrops(bare);
    SlashSeparatesDots(pvcName, tail);
    AfterFirstSlash(pvcName, tail);
  }

  /** Two migrations share a staged file below a mount exactly when they are the same object. */
  lemma StagedFilesDistinct(c: M.Config, pvcC: string, d: M.Config, pvcD: string, mount: Path)
    requires c.storage.Some? && c.storage.value.Pvc? && d.storage.Some? && d.storage.value.Pvc?
    requires PlainName(pvcC) && PlainName(c.namespace) && PlainName(c.name)
    requires PlainName(pvcD) && PlainName(d.namespace) && PlainName(d.name)
    ensures M.StorageUrl(c, pvcC).Some? && M.StorageUrl(d, pvcD).Some?
    ensures ParsePath(mount, M.StorageUrl(c, pvcC).value) == ParsePath(mount, M.StorageUrl(d, pvcD).value)
            <==> c.namespace == d.namespace && c.name == d.name
  {
    StagedUrlResolves(c, pvcC, mount);
    StagedUrlResolves(d, pvcD, mount);
    var p, q := mount + [ROOT, c.namespace, c.name, LEAF], mount + [ROOT, d.namespace, d.name, LEAF];
    assert p[|mount| + 1] == c.namespace && p[|mount| + 2] == c.name;
    assert q[|mount| + 1] == d.namespace && q[|mount| + 2] == d.name;
  }

  lemma {:induction false} SlashSplits(s: string)
    ensures AfterSlash(s) == if '/' in s then Some(FirstName(s).1) else None
  {
    if s != [] && s[0] != '/' {
      SlashSplits(s[1..]);
      assert '/' in s <==> '/' in s[1..];
    }
  }

  /**
    An address is accepted if and only if, without its scheme, it has a slash and no two dots in
    a row; what comes before the first slash is dropped.
   */
  lemma AcceptedIff(mount: Path, url: string)
    ensures var bare := TrimScheme(TrimSpace(url));
            ParsePath(mount, url)
            == if '/' in bare && !HasDotDot(bare) then Some(mount + Names(FirstName(bare).1)) else None
  {
    SlashSplits(TrimScheme(TrimSpace(url)));
  }

  /** The documented form without a slash is refused. */
  lemma BarePathIsRefused(mount: Path)
    ensures ParsePath(mount, "path") == None
  {
    AcceptedIff(mount, "path");
    assert TrimScheme(TrimSpace("path")) == "path";
  }

  /** No address leads out of the mount. */
  lemma ResolvedBelowMount(mount: Path, url: string)
    ensures ParsePath(mount, url).Some? ==>
              mount <= ParsePath(mount, url).value
              && forall i :: |mount| <= i < |ParsePath(mount, url).value| ==> ParsePath(mount, url).value[i] != ".."
  {
    var bare := TrimScheme(TrimSpace(url));
    if !HasDotDot(bare) && AfterSlash(bare).Some? {
      AfterSlashKeepsDots(bare);
      NamesHaveNoDotDot(AfterSlash(bare).value);
    }
  }

  lemma {:induction false} AfterSlashKeepsDots(s: string)
    requires !HasDotDot(s) && AfterSlash(s).Some?
    ensures !HasDotDot(AfterSlash(s).value)
  {
    TailKeepsDots(s);
    if s[0] != '/' {
      AfterSlashKeepsDots(s[1..]);
    }
  }

  lemma TailKeepsDots(s: string)
    requires s != "" && !HasDotDot(s)
    ensures !HasDotDot(s[1..])
  {
    forall i | 0 <= i < |s[1..]| - 1
      ensures !(s[1..][i] == '.' && s[1..][i + 1] == '.')
    {
      assert s[1..][i] == s[i + 1] && s[1..][i + 1] == s[i + 1 + 1];
    }
  }

  lemma {:induction false} RestKeepsDots(s: string)
    requires !HasDotDot(s)
    ensures !HasDotDot(FirstName(s).1)
  {
    if s != [] {
      TailKeepsDots(s);
      if s[0] != '/' {
        RestKeepsDots(s[1..]);
      }
    }
  }

  lemma {:induction false} NamesHaveNoDotDot(s: string)
    requires !HasDotDot(s)
    ensures ".." !in Names(s)
    decreases |s|
  {
    if s != [] {
      var (name, rest) := FirstName(s);
      assert name <= s;
      RestKeepsDots(s);
      NamesHaveNoDotDot(rest);
    }
  }
}
