/** What the filelists decoder guarantees: the text-buffer discipline, one
    callback per closed package and none for a truncated one, identity taken
    from the `<package>` attributes alone, and files in reverse document order. */
module FilelistProps {
  import opened Xml
  import opened PackageModel
  import opened Filelist

  // ---------------------------------------------------------------------------
  // Running streams piece by piece.

  lemma RunSnoc(c: Ctx, evs: seq<Event>, e: Event)
    requires Consistent(c) && Safe(c, evs)
    ensures Safe(c, evs + [e]) <==> StepOk(Run(c, evs), e)
    ensures Safe(c, evs + [e]) ==> Run(c, evs + [e]) == Step(Run(c, evs), e)
  {
    RunAppend(c, evs, [e]);
  }

  lemma RunOne(c: Ctx, e: Event)
    requires Consistent(c) && StepOk(c, e)
    ensures Safe(c, [e]) && Run(c, [e]) == Step(c, e)
  {
    assert [e][1..] == [];
  }

  lemma RunThen(c: Ctx, a: seq<Event>, b: seq<Event>)
    requires Consistent(c) && Safe(c, a) && Safe(Run(c, a), b)
    ensures Safe(c, a + b) && Run(c, a + b) == Run(Run(c, a), b)
  {
    RunAppend(c, a, b);
  }

  /** The events of the first node of a forest, run on their own. */
  lemma {:induction false} RunNode(c: Ctx, ns: seq<Node>)
    requires Consistent(c) && ns != [] && Safe(c, Events(ns))
    ensures ns[0].CharData? ==>
      Safe(OnCharacters(c, ns[0].s), Events(ns[1..])) &&
      Run(c, Events(ns)) == Run(OnCharacters(c, ns[0].s), Events(ns[1..]))
    ensures ns[0].Element? ==>
      Safe(OnStart(c, ns[0].tag, ns[0].attrs), Events(ns[0].children)) &&
      EndOk(Run(OnStart(c, ns[0].tag, ns[0].attrs), Events(ns[0].children)), ns[0].tag) &&
      Safe(OnEnd(Run(OnStart(c, ns[0].tag, ns[0].attrs), Events(ns[0].children)), ns[0].tag), Events(ns[1..])) &&
      Run(c, Events(ns)) ==
        Run(OnEnd(Run(OnStart(c, ns[0].tag, ns[0].attrs), Events(ns[0].children)), ns[0].tag), Events(ns[1..]))
  {
    var rest := Events(ns[1..]);
    match ns[0]
    case CharData(s) =>
      assert Events(ns) == [Text(s)] + rest;
      RunAppend(c, [Text(s)], rest);
      assert [Text(s)][1..] == [];
    case Element(t, a, ch) =>
      var inner := Events(ch);
      assert Events(ns) == [Start(t, a)] + (inner + ([End(t)] + rest));
      RunAppend(c, [Start(t, a)], inner + ([End(t)] + rest));
      assert [Start(t, a)][1..] == [];
      var c1 := OnStart(c, t, a);
      assert Run(c, [Start(t, a)]) == c1;
      RunAppend(c1, inner, [End(t)] + rest);
      var c2 := Run(c1, inner);
      RunAppend(c2, [End(t)], rest);
      assert [End(t)][1..] == [];
  }

  // ---------------------------------------------------------------------------
  // Single events.

  /** The text buffer holds exactly the characters received since the most
      recent start or end tag. */
  lemma {:induction false} BufferHoldsCharsSinceLastTag(c: Ctx, evs: seq<Event>)
    requires Consistent(c) && Safe(c, evs)
    ensures Run(c, evs).text == CharsSinceLastTag(c.text, evs)
    decreases |evs|
  {
    if evs != [] {
      var init := evs[..|evs| - 1];
      var e := evs[|evs| - 1];
      assert init + [e] == evs;
      RunAppend(c, init, [e]);
      BufferHoldsCharsSinceLastTag(c, init);
      RunSnoc(c, init, e);
    }
  }

  /** The callback fires on `</package>` inside a package, with the open record,
      and on no other event; it leaves no record and no file open. */
  lemma PackageEndEmitsRecord(c: Ctx, e: Event)
    requires Consistent(c) && StepOk(c, e)
    ensures Step(c, e).emitted ==
      if c.state == InPackage && e == End("package") then c.emitted + [c.current.value] else c.emitted
    ensures c.state == InPackage && e == End("package") ==>
      Step(c, e).state == Toplevel && Step(c, e).current.None? && Step(c, e).file.None?
  {
  }

  /** `<package>` opens a record whose identity is the last pkgid, name and arch
      attribute; every other tag at top level is ignored. */
  lemma PackageOpenTakesIdentity(c: Ctx, name: string, attrs: Attrs)
    requires Consistent(c) && c.state == Toplevel
    ensures OnStart(c, name, attrs) ==
      if name == "package" then
        c.(state := InPackage, text := "",
           current := Some(NewPackage.(pkgId := Lookup(attrs, "pkgid"), name := Lookup(attrs, "name"),
                                       arch := Lookup(attrs, "arch"))))
      else c.(text := "")
  {
  }

  /** Inside a package no event changes the record's identity, the state, or
      what was emitted, until `</package>`. */
  lemma {:induction false} IdentityFixedInsidePackage(c: Ctx, evs: seq<Event>)
    requires Consistent(c) && c.state == InPackage && Safe(c, evs)
    requires forall i :: 0 <= i < |evs| ==> !Mentions(evs[i], "package")
    ensures var r := Run(c, evs);
      r.state == InPackage && r.emitted == c.emitted &&
      r.current.value.pkgId == c.current.value.pkgId &&
      r.current.value.name == c.current.value.name &&
      r.current.value.arch == c.current.value.arch
    decreases |evs|
  {
    if evs != [] {
      assert !Mentions(evs[0], "package");
      IdentityFixedInsidePackage(Step(c, evs[0]), evs[1..]);
    }
  }

  /** `</file>` prepends one file named by the buffered text, typed by the open
      tag's last `type` attribute or else "file", and clears the cursor. */
  lemma FileCloseAddsOneFile(c: Ctx)
    requires Consistent(c) && c.state == InPackage && c.file.Some?
    ensures var r := OnEnd(c, "file");
      r.state == InPackage && r.file.None? &&
      r.current.value.files == [PackageFile(Some(c.text),
        if c.file.value.fileType.Some? then c.file.value.fileType else Some(DefaultFileType))]
        + c.current.value.files
  {
  }

  // ---------------------------------------------------------------------------
  // Files in document order.

  /** A `<file>` element with the given attributes and name. */
  function FileElement(a: Attrs, n: string): seq<Event>
  {
    [Start("file", a), Text(n), End("file")]
  }

  /** Consecutive `<file>` elements. */
  function FileElements(fs: seq<(Attrs, string)>): seq<Event>
    decreases |fs|
  {
    if fs == [] then [] else FileElements(fs[..|fs| - 1]) + FileElement(fs[|fs| - 1].0, fs[|fs| - 1].1)
  }

  /** The files those elements describe, in document order. */
  function FilesBuilt(fs: seq<(Attrs, string)>): (r: seq<PackageFile>)
    ensures |r| == |fs|
  {
    seq(|fs|, i requires 0 <= i < |fs| => ClosedFile(NewFile(fs[i].0), fs[i].1))
  }

  /** One `<file>` element inside a package prepends its file. */
  lemma OneFile(c: Ctx, a: Attrs, n: string)
    requires Consistent(c) && c.state == InPackage
    ensures Safe(c, FileElement(a, n))
    ensures Run(c, FileElement(a, n)) ==
      c.(current := Some(c.current.value.(files := [ClosedFile(NewFile(a), n)] + c.current.value.files)),
         file := None, text := "")
  {
    var e := FileElement(a, n);
    var c1 := Step(c, e[0]);
    var c2 := Step(c1, e[1]);
    assert c2.text == n && c2.file == Some(NewFile(a));
    RunOne(c, e[0]);
    RunOne(c1, e[1]);
    RunOne(c2, e[2]);
    RunThen(c, [e[0]], [e[1]]);
    RunThen(c, [e[0], e[1]], [e[2]]);
    assert [e[0], e[1]] + [e[2]] == e;
  }

  /** The last element's file comes first in the reversed list. */
  lemma ReverseBuiltSnoc(fs: seq<(Attrs, string)>)
    requires fs != []
    ensures Reverse(FilesBuilt(fs)) ==
      [ClosedFile(NewFile(fs[|fs| - 1].0), fs[|fs| - 1].1)] + Reverse(FilesBuilt(fs[..|fs| - 1]))
  {
    var x := ClosedFile(NewFile(fs[|fs| - 1].0), fs[|fs| - 1].1);
    assert FilesBuilt(fs) == FilesBuilt(fs[..|fs| - 1]) + [x];
    ReverseAppend(FilesBuilt(fs[..|fs| - 1]), [x]);
    assert Reverse([x]) == [x];
  }

  /** Files come out in reverse document order: the list is built by prepending
      and, unlike changelogs, never reversed. */
  lemma {:induction false} FilesInReverseDocumentOrder(c: Ctx, fs: seq<(Attrs, string)>)
    requires Consistent(c) && c.state == InPackage
    ensures Safe(c, FileElements(fs))
    ensures var r := Run(c, FileElements(fs));
      r.state == InPackage && r.emitted == c.emitted &&
      r.current.value == c.current.value.(files := Reverse(FilesBuilt(fs)) + c.current.value.files)
    decreases |fs|
  {
    var p := c.current.value;
    if fs == [] {
      assert Reverse(FilesBuilt(fs)) + p.files == p.files;
    } else {
      var init := fs[..|fs| - 1];
      var last := fs[|fs| - 1];
      FilesInReverseDocumentOrder(c, init);
      var m := Run(c, FileElements(init));
      OneFile(m, last.0, last.1);
      RunThen(c, FileElements(init), FileElement(last.0, last.1));
      var x := ClosedFile(NewFile(last.0), last.1);
      ReverseBuiltSnoc(fs);
      PrependAssoc(x, Reverse(FilesBuilt(init)), p.files);
    }
  }

  lemma PrependAssoc<T>(x: T, a: seq<T>, b: seq<T>)
    ensures [x] + (a + b) == ([x] + a) + b
  {
  }

  // ---------------------------------------------------------------------------
  // Whole documents.

  /** Without `</package>` an open record stays open and nothing is emitted. */
  lemma {:induction false} OpenWithoutPackageEnd(c: Ctx, evs: seq<Event>)
    requires Consistent(c) && c.state == InPackage && Safe(c, evs)
    requires forall i :: 0 <= i < |evs| ==> !Mentions(evs[i], "package")
    ensures Run(c, evs).state == InPackage && Run(c, evs).emitted == c.emitted
  {
    IdentityFixedInsidePackage(c, evs);
  }

  /** A package element, opened at top level, produces exactly one callback,
      with the record its body built, and returns to top level. */
  lemma {:induction false} PackageElementEmitsOnce(c: Ctx, a: Attrs, body: seq<Node>)
    requires Consistent(c) && c.state == Toplevel && Lacks(body, "package")
    requires Safe(c, Events([Element("package", a, body)]))
    ensures Safe(OnStart(c, "package", a), Events(body))
    ensures var built := Run(OnStart(c, "package", a), Events(body));
      var r := Run(c, Events([Element("package", a, body)]));
      r.state == Toplevel && r.current.None? && built.current.Some? &&
      r.emitted == c.emitted + [built.current.value]
  {
    var ns := [Element("package", a, body)];
    RunNode(c, ns);
    assert ns[1..] == [];
    LacksHasNoTag(body, "package");
    OpenWithoutPackageEnd(OnStart(c, "package", a), Events(body));
  }

  /** A document of N package elements (possibly wrapped, never nested) produces
      exactly N callbacks, appended after the earlier ones, and ends at top level. */
  lemma {:induction false} EveryPackageEmittedOnce(c: Ctx, ns: seq<Node>)
    requires Consistent(c) && c.state == Toplevel && PackageForest(ns) && Safe(c, Events(ns))
    ensures Run(c, Events(ns)).state == Toplevel
    ensures |Run(c, Events(ns)).emitted| == |c.emitted| + PackageCount(ns)
    ensures c.emitted <= Run(c, Events(ns)).emitted
    decreases ns
  {
    if ns != [] {
      RunNode(c, ns);
      match ns[0]
      case CharData(s) =>
        EveryPackageEmittedOnce(OnCharacters(c, s), ns[1..]);
      case Element(t, a, ch) =>
        var c1 := OnStart(c, t, a);
        if t == "package" {
          LacksHasNoTag(ch, "package");
          OpenWithoutPackageEnd(c1, Events(ch));
        } else {
          EveryPackageEmittedOnce(c1, ch);
        }
        var c2 := OnEnd(Run(c1, Events(ch)), t);
        assert c.emitted <= c2.emitted;
        EveryPackageEmittedOnce(c2, ns[1..]);
    }
  }

  /** A document cut off inside its last package element: the records before it
      are emitted and the last one is still open, so the driver reports it lost. */
  lemma {:induction false} TruncatedPackageIsLost(c: Ctx, head: seq<Event>, a: Attrs, body: seq<Node>)
    requires Consistent(c) && Safe(c, head) && Run(c, head).state == Toplevel
    requires Lacks(body, "package")
    requires Safe(c, head + [Start("package", a)] + Events(body))
    ensures var r := Run(c, head + [Start("package", a)] + Events(body));
      r.current.Some? && r.emitted == Run(c, head).emitted
  {
    var m := Run(c, head);
    RunAppend(c, head + [Start("package", a)], Events(body));
    RunSnoc(c, head, Start("package", a));
    LacksHasNoTag(body, "package");
    OpenWithoutPackageEnd(OnStart(m, "package", a), Events(body));
  }
}
