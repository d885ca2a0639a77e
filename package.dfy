/** The package record handed to the per-package callback, its dependency, file
    and changelog entries, and the attribute scans that more than one decoder
    performs. Every string field the document did not supply is `None` (NULL in
    the record); every collection is built by prepending. */
module PackageModel {
  import opened Xml

  datatype Option<+T> = None | Some(value: T)

  datatype Dependency = Dependency(
    name: string,
    flags: Option<string>,
    epoch: Option<string>,
    version: Option<string>,
    release: Option<string>)

  datatype PackageFile = PackageFile(name: Option<string>, fileType: Option<string>)

  datatype ChangelogEntry = ChangelogEntry(
    author: Option<string>,
    date: Option<string>,
    changelog: Option<string>)

  datatype Package = Package(
    pkgId: Option<string>,
    name: Option<string>,
    arch: Option<string>,
    version: Option<string>,
    epoch: Option<string>,
    release: Option<string>,
    summary: Option<string>,
    description: Option<string>,
    url: Option<string>,
    timeFile: Option<string>,
    timeBuild: Option<string>,
    rpmLicense: Option<string>,
    rpmVendor: Option<string>,
    rpmGroup: Option<string>,
    rpmBuildhost: Option<string>,
    rpmSourcerpm: Option<string>,
    rpmHeaderStart: Option<string>,
    rpmHeaderEnd: Option<string>,
    rpmPackager: Option<string>,
    sizePackage: Option<string>,
    sizeInstalled: Option<string>,
    sizeArchive: Option<string>,
    locationHref: Option<string>,
    checksumType: Option<string>,
    checksumValue: Option<string>,
    requiresList: seq<Dependency>,
    providesList: seq<Dependency>,
    conflictsList: seq<Dependency>,
    obsoletesList: seq<Dependency>,
    files: seq<PackageFile>,
    changelogs: seq<ChangelogEntry>)

  /** A freshly allocated record: no field set, every list empty. */
  const NewPackage: Package :=
    Package(None, None, None, None, None, None, None, None, None, None, None, None, None,
            None, None, None, None, None, None, None, None, None, None, None, None,
            [], [], [], [], [], [])

  /** The file type stored when the document gives none. */
  const DefaultFileType: string := "file"

  // ---------------------------------------------------------------------------
  // Attribute lookup: the decoders scan the pairs front to back and overwrite
  // the target field on every match, so the last pair with a key decides.

  /** The value of the last pair whose key is `key`, if any. */
  function Lookup(attrs: Attrs, key: string): (r: Option<string>)
    ensures r.None? <==> forall i :: 0 <= i < |attrs| ==> attrs[i].0 != key
    ensures r.Some? ==>
      exists i :: 0 <= i < |attrs| && attrs[i] == (key, r.value) &&
        forall j :: i < j < |attrs| ==> attrs[j].0 != key
    decreases |attrs|
  {
    if attrs == [] then None
    else if attrs[|attrs| - 1].0 == key then
      Some(attrs[|attrs| - 1].1)
    else
      var r := Lookup(attrs[..|attrs| - 1], key);
      assert forall i :: 0 <= i < |attrs| - 1 ==> attrs[..|attrs| - 1][i] == attrs[i];
      r
  }

  /** A field after a scan for `key`: the last matching value, else what it held. */
  function Override(prior: Option<string>, attrs: Attrs, key: string): Option<string>
  {
    match Lookup(attrs, key)
    case Some(v) => Some(v)
    case None => prior
  }

  /** One more pair scanned: it decides the key when it carries it. */
  lemma LookupSnoc(attrs: Attrs, i: nat, key: string)
    requires i < |attrs|
    ensures Lookup(attrs[..i + 1], key) ==
            if attrs[i].0 == key then Some(attrs[i].1) else Lookup(attrs[..i], key)
  {
    assert attrs[..i + 1][..i] == attrs[..i];
  }

  /** The duplicate-key rule: a later pair with the same key overrides an earlier
      one, and pairs with other keys do not matter. */
  lemma {:induction false} LastPairWins(attrs: Attrs, key: string, v: string, rest: Attrs)
    requires forall j :: 0 <= j < |rest| ==> rest[j].0 != key
    ensures Lookup(attrs + [(key, v)] + rest, key) == Some(v)
    decreases |rest|
  {
    if rest != [] {
      var all := attrs + [(key, v)] + rest;
      var shorter := attrs + [(key, v)] + rest[..|rest| - 1];
      assert all[..|all| - 1] == shorter;
      LastPairWins(attrs, key, v, rest[..|rest| - 1]);
    }
  }

  // ---------------------------------------------------------------------------
  // Scans shared by the decoders.

  /** The record after the `<version>` attributes epoch, ver and rel. */
  function WithVersion(p: Package, attrs: Attrs): Package
  {
    p.(epoch := Override(p.epoch, attrs, "epoch"),
       version := Override(p.version, attrs, "ver"),
       release := Override(p.release, attrs, "rel"))
  }

  /** The scan of a `<version>` tag's attributes, as all three decoders run it. */
  method ReadVersion(p: Package, attrs: Attrs) returns (q: Package)
    ensures q == WithVersion(p, attrs)
  {
    q := p;
    var i := 0;
    while i < |attrs|
      invariant 0 <= i <= |attrs|
      invariant q == WithVersion(p, attrs[..i])
    {
      var (attr, value) := attrs[i];
      LookupSnoc(attrs, i, "epoch");
      LookupSnoc(attrs, i, "ver");
      LookupSnoc(attrs, i, "rel");
      if attr == "epoch" {
        q := q.(epoch := Some(value));
      } else if attr == "ver" {
        q := q.(version := Some(value));
      } else if attr == "rel" {
        q := q.(release := Some(value));
      }
      i := i + 1;
    }
    assert attrs[..i] == attrs;
  }

  /** The record after the `<package>` attributes pkgid, name and arch. */
  function WithIdentity(p: Package, attrs: Attrs): Package
  {
    p.(pkgId := Override(p.pkgId, attrs, "pkgid"),
       name := Override(p.name, attrs, "name"),
       arch := Override(p.arch, attrs, "arch"))
  }

  /** The scan of a `<package>` tag's attributes in the filelist and other decoders. */
  method ReadIdentity(p: Package, attrs: Attrs) returns (q: Package)
    ensures q == WithIdentity(p, attrs)
  {
    q := p;
    var i := 0;
    while i < |attrs|
      invariant 0 <= i <= |attrs|
      invariant q == WithIdentity(p, attrs[..i])
    {
      var (attr, value) := attrs[i];
      LookupSnoc(attrs, i, "pkgid");
      LookupSnoc(attrs, i, "name");
      LookupSnoc(attrs, i, "arch");
      if attr == "pkgid" {
        q := q.(pkgId := Some(value));
      }
      if attr == "name" {
        q := q.(name := Some(value));
      } else if attr == "arch" {
        q := q.(arch := Some(value));
      }
      i := i + 1;
    }
    assert attrs[..i] == attrs;
  }

  /** A closed `<file>`: its name is the buffered text, its type the one given on
      the open tag or else "file". */
  function ClosedFile(draft: PackageFile, text: string): (f: PackageFile)
    ensures f.name == Some(text)
    ensures f.fileType.Some?
    ensures draft.fileType.Some? ==> f.fileType == draft.fileType
    ensures draft.fileType.None? ==> f.fileType == Some(DefaultFileType)
  {
    PackageFile(Some(text), if draft.fileType.Some? then draft.fileType else Some(DefaultFileType))
  }

  // ---------------------------------------------------------------------------
  // Lists.

  /** The list reversed, as g_slist_reverse leaves it. */
  function Reverse<T>(s: seq<T>): (r: seq<T>)
    ensures |r| == |s|
    ensures forall i :: 0 <= i < |s| ==> r[i] == s[|s| - 1 - i]
  {
    if s == [] then [] else Reverse(s[1..]) + [s[0]]
  }

  /** Reversing twice restores the list. */
  lemma ReverseReverse<T>(s: seq<T>)
    ensures Reverse(Reverse(s)) == s
  {
    assert forall i :: 0 <= i < |s| ==> Reverse(Reverse(s))[i] == s[i];
  }

  /** Prepending then reversing appends. */
  lemma ReversePrepend<T>(x: T, s: seq<T>)
    ensures Reverse([x] + s) == Reverse(s) + [x]
  {
    assert forall i :: 0 <= i < |s| + 1 ==> Reverse([x] + s)[i] == (Reverse(s) + [x])[i];
  }

  /** Reversal distributes over concatenation, swapping the parts. */
  lemma ReverseAppend<T>(a: seq<T>, b: seq<T>)
    ensures Reverse(a + b) == Reverse(b) + Reverse(a)
  {
    assert forall i :: 0 <= i < |a| + |b| ==> Reverse(a + b)[i] == (Reverse(b) + Reverse(a))[i];
  }
}
