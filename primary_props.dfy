/** What the primary decoder guarantees: the transition table, the text-buffer
    discipline, one callback per closed package and none for a truncated one,
    the internal-capability filter, the file defaults, and the documented
    example documents. */
module PrimaryProps {
  import opened Xml
  import opened PackageModel
  import opened Primary

  // ---------------------------------------------------------------------------
  // Running streams piece by piece.

  /** One more event at the end of a stream. */
  lemma RunSnoc(c: Ctx, evs: seq<Event>, e: Event)
    requires Consistent(c) && Safe(c, evs)
    ensures Safe(c, evs + [e]) <==> StepOk(Run(c, evs), e)
    ensures Safe(c, evs + [e]) ==> Run(c, evs + [e]) == Step(Run(c, evs), e)
  {
    RunAppend(c, evs, [e]);
  }

  /** The events of the first node of a forest, run on their own. */
  lemma {:induction false} RunNode(c: Ctx, ns: seq<Node>)
    requires Consistent(c) && ns != [] && Safe(c, Events(ns))
    ensures ns[0].CharData? ==>
      Safe(OnCharacters(c, ns[0].s), Events(ns[1..])) &&
      Run(c, Events(ns)) == Run(OnCharacters(c, ns[0].s), Events(ns[1..]))
    ensures ns[0].Element? ==>
      StartOk(c, ns[0].tag, ns[0].attrs) &&
      Safe(OnStart(c, ns[0].tag, ns[0].attrs), Events(ns[0].children)) &&
      Safe(OnEnd(Run(OnStart(c, ns[0].tag, ns[0].attrs), Events(ns[0].children)), ns[0].tag), Events(ns[1..])) &&
      Run(c, Events(ns)) ==
        Run(OnEnd(Run(OnStart(c, ns[0].tag, ns[0].attrs), Events(ns[0].children)), ns[0].tag), Events(ns[1..]))
  {
    var rest := Events(ns[1..]);
    match ns[0]
    case CharData(s) =>
      assert Events(ns) == [Text(s)] + rest;
      RunAppend(c, [Text(s)], rest);
      assert Run(c, [Text(s)]) == OnCharacters(c, s) by {
        assert [Text(s)][1..] == [];
      }
    case Element(t, a, ch) =>
      var inner := Events(ch);
      assert Events(ns) == [Start(t, a)] + (inner + ([End(t)] + rest));
      RunAppend(c, [Start(t, a)], inner + ([End(t)] + rest));
      assert Safe(c, [Start(t, a)]);
      assert [Start(t, a)][1..] == [];
      var c1 := OnStart(c, t, a);
      assert Run(c, [Start(t, a)]) == c1;
      RunAppend(c1, inner, [End(t)] + rest);
      var c2 := Run(c1, inner);
      RunAppend(c2, [End(t)], rest);
      assert [End(t)][1..] == [];
      assert Run(c2, [End(t)]) == OnEnd(c2, t);
  }

  // ---------------------------------------------------------------------------
  // Single events.

  /** The text buffer holds exactly the characters received since the most
      recent start or end tag. */
  lemma {:induction false} BufferHoldsCharsSinceLastTag(c: Ctx, evs: seq<Event>)
    requires Consistent(c) && Safe(c, evs)
    ensures Run(c, evs).text == CharsSinceLastTag(c.text, evs)
    decreases |evs|
  {
    if evs != [] {
      var init := evs[..|evs| - 1];
      var e := evs[|evs| - 1];
      assert init + [e] == evs;
      RunAppend(c, init, [e]);
      BufferHoldsCharsSinceLastTag(c, init);
      RunSnoc(c, init, e);
    }
  }

  /** The callback fires on `</package>` in the package state, with the open
      record, and on no other event; it leaves the decoder at top level with no
      record open. */
  lemma PackageEndEmitsRecord(c: Ctx, e: Event)
    requires Consistent(c) && StepOk(c, e)
    ensures Step(c, e).emitted ==
      if c.state == InPackage && e == End("package") then c.emitted + [c.current.value] else c.emitted
    ensures c.state == InPackage && e == End("package") ==>
      Step(c, e).state == Toplevel && Step(c, e).current.None?
  {
  }

  /** The transitions of a start tag. */
  lemma StartTransitions(c: Ctx, name: string, attrs: Attrs)
    requires Consistent(c) && StartOk(c, name, attrs)
    ensures c.state == Toplevel ==>
      OnStart(c, name, attrs) ==
        if name == "package" then c.(state := InPackage, current := Some(NewPackage), text := "")
        else c.(text := "")
    ensures c.state == InPackage ==>
      OnStart(c, name, attrs).state == if name == "format" then InFormat else InPackage
    ensures c.state == InFormat ==>
      OnStart(c, name, attrs).state ==
        if name in {"rpm:provides", "rpm:requires", "rpm:obsoletes", "rpm:conflicts"} then InDep else InFormat
    ensures c.state == InDep ==> OnStart(c, name, attrs).state == InDep
    ensures c.state != Toplevel ==> OnStart(c, name, attrs).emitted == c.emitted
  {
  }

  /** The transitions of an end tag: only `</package>`, `</format>` and the close
      of a dependency list move the state, and top level ignores every close. */
  lemma EndTransitions(c: Ctx, name: string)
    requires Consistent(c)
    ensures c.state == Toplevel ==> OnEnd(c, name) == c.(text := "")
    ensures c.state == InPackage ==>
      OnEnd(c, name).state == if name == "package" then Toplevel else InPackage
    ensures c.state == InFormat ==>
      OnEnd(c, name).state == if name == "format" then InPackage else InFormat
    ensures c.state == InDep ==>
      OnEnd(c, name).state == if name == "rpm:entry" then InDep else InFormat
    ensures c.state == InDep ==> OnEnd(c, name).current == c.current
  {
  }

  /** A tag the state does not recognise changes nothing but the buffer. */
  lemma UnknownTagsIgnored(c: Ctx, name: string, attrs: Attrs)
    requires Consistent(c) && c.state == InPackage
    requires name !in {"format", "version", "checksum", "time", "size", "location", "package",
                       "name", "arch", "summary", "description", "packager", "url"}
    ensures OnStart(c, name, attrs) == c.(text := "")
    ensures OnEnd(c, name) == c.(text := "")
  {
  }

  /** `</checksum>` stores the buffered text as both the checksum value and the
      package id; with an empty buffer a package-scope leaf close changes nothing. */
  lemma PackageLeafClose(c: Ctx, name: string)
    requires Consistent(c) && c.state == InPackage && name != "package"
    ensures c.text == "" ==> OnEnd(c, name) == c
    ensures c.text != "" && name == "checksum" ==>
      OnEnd(c, name).current.value ==
        c.current.value.(checksumValue := Some(c.text), pkgId := Some(c.text))
  {
  }

  /** Each of the five format-scope leaves stores the buffered text in its
      field, even when the buffer is empty; the rest of the record, the file
      cursor and the format state are unchanged, and the buffer is cleared. */
  lemma FormatLeafStoresText(c: Ctx)
    requires Consistent(c) && c.state == InFormat
    ensures var p := c.current.value;
      OnEnd(c, "rpm:license") == c.(current := Some(p.(rpmLicense := Some(c.text))), text := "")
    ensures var p := c.current.value;
      OnEnd(c, "rpm:vendor") == c.(current := Some(p.(rpmVendor := Some(c.text))), text := "")
    ensures var p := c.current.value;
      OnEnd(c, "rpm:group") == c.(current := Some(p.(rpmGroup := Some(c.text))), text := "")
    ensures var p := c.current.value;
      OnEnd(c, "rpm:buildhost") == c.(current := Some(p.(rpmBuildhost := Some(c.text))), text := "")
    ensures var p := c.current.value;
      OnEnd(c, "rpm:sourcerpm") == c.(current := Some(p.(rpmSourcerpm := Some(c.text))), text := "")
  {
  }

  // ---------------------------------------------------------------------------
  // Dependency entries.

  /** An `rpm:entry` either is filtered and changes no list, or prepends one
      dependency, carrying the last value of each key, to the selected list
      and leaves the other three alone. */
  lemma EntryAddsOneDependency(c: Ctx, attrs: Attrs)
    requires Consistent(c) && c.state == InDep && EntryOk(attrs)
    ensures var r := OnStart(c, "rpm:entry", attrs);
      var k := c.depList.value;
      r.state == InDep &&
      (Filtered(attrs) ==> r.current == c.current) &&
      (!Filtered(attrs) ==>
        DepsOf(r.current.value, k) ==
          [Dependency(Lookup(attrs, "name").value, Lookup(attrs, "flags"), Lookup(attrs, "epoch"),
                      Lookup(attrs, "ver"), Lookup(attrs, "rel"))] + DepsOf(c.current.value, k) &&
        forall k' :: k' != k ==> DepsOf(r.current.value, k') == DepsOf(c.current.value, k'))
  {
  }

  /** No dependency list of the record holds an internal capability. */
  predicate DepsClean(p: Package)
  {
    forall k: DepKind, i :: 0 <= i < |DepsOf(p, k)| ==> !IsRpmlib(DepsOf(p, k)[i].name)
  }

  /** Neither the open record nor any emitted record holds an internal capability. */
  predicate Clean(c: Ctx)
  {
    (c.current.Some? ==> DepsClean(c.current.value)) &&
    forall i :: 0 <= i < |c.emitted| ==> DepsClean(c.emitted[i])
  }

  lemma {:induction false} StepKeepsClean(c: Ctx, e: Event)
    requires Consistent(c) && StepOk(c, e) && Clean(c)
    ensures Clean(Step(c, e))
  {
    if e.Start? && c.state == InDep && e.name == "rpm:entry" && !Filtered(e.attrs) {
      var v := Lookup(e.attrs, "name").value;
      var j :| 0 <= j < |e.attrs| && e.attrs[j] == ("name", v);
      assert !IsRpmlib(v);
      var p := c.current.value;
      var q := AddDep(p, c.depList.value, Dependency(v, Lookup(e.attrs, "flags"), Lookup(e.attrs, "epoch"),
                                                    Lookup(e.attrs, "ver"), Lookup(e.attrs, "rel")));
      assert Step(c, e).current == Some(q);
      forall k: DepKind, i | 0 <= i < |DepsOf(q, k)|
        ensures !IsRpmlib(DepsOf(q, k)[i].name)
      {
        if k == c.depList.value && i > 0 {
          assert DepsOf(q, k)[i] == DepsOf(p, k)[i - 1];
        }
      }
    } else if c.state == InPackage && e == End("package") {
      var r := Step(c, e);
      assert r.emitted == c.emitted + [c.current.value];
      forall i | 0 <= i < |r.emitted|
        ensures DepsClean(r.emitted[i])
      {
        if i < |c.emitted| {
          assert r.emitted[i] == c.emitted[i];
        }
      }
    } else {
      StepKeepsLists(c, e);
    }
  }

  /** Every event other than a kept `rpm:entry` leaves the four dependency lists
      of an open record as they were, and only `</package>` emits. */
  lemma StepKeepsLists(c: Ctx, e: Event)
    requires Consistent(c) && StepOk(c, e)
    requires !(e.Start? && c.state == InDep && e.name == "rpm:entry" && !Filtered(e.attrs))
    requires !(c.state == InPackage && e == End("package"))
    ensures Step(c, e).emitted == c.emitted
    ensures Step(c, e).current.Some? && c.current.None? ==> Step(c, e).current == Some(NewPackage)
    ensures Step(c, e).current.Some? && c.current.Some? ==>
      forall k :: DepsOf(Step(c, e).current.value, k) == DepsOf(c.current.value, k)
  {
    match e
    case Start(n, a) =>
      match c.state {
        case Toplevel =>
        case InPackage =>
        case InFormat =>
        case InDep =>
      }
    case End(n) =>
      match c.state {
        case Toplevel =>
        case InPackage =>
        case InFormat =>
        case InDep =>
      }
    case Text(_) =>
  }

  /** A dependency whose name starts with "rpmlib(" never reaches any of the
      four lists, wherever it appears in the document. */
  lemma {:induction false} NoInternalCapabilities(c: Ctx, evs: seq<Event>)
    requires Consistent(c) && Safe(c, evs) && Clean(c)
    ensures Clean(Run(c, evs))
    decreases |evs|
  {
    if evs != [] {
      StepKeepsClean(c, evs[0]);
      NoInternalCapabilities(Step(c, evs[0]), evs[1..]);
    }
  }

  // ---------------------------------------------------------------------------
  // Files.

  /** `</file>` prepends one file named by the buffered text, typed by the open
      tag's `type` attribute or else "file", and clears the file cursor. */
  lemma FileCloseAddsOneFile(c: Ctx)
    requires Consistent(c) && c.state == InFormat
    ensures var r := OnEnd(c, "file");
      r.state == InFormat && r.file.None? &&
      r.current.value.files == [PackageFile(Some(c.text),
        if c.file.Some? && c.file.value.fileType.Some? then c.file.value.fileType else Some(DefaultFileType))]
        + c.current.value.files
  {
  }

  /** A `<file>` whose open tag has no `type` attribute ends up typed "file" when
      nothing was left in the cursor, and allocates nothing. */
  lemma UntypedFileDefaultsToFile(c: Ctx, attrs: Attrs)
    requires Consistent(c) && c.state == InFormat && c.file.None?
    requires forall i :: 0 <= i < |attrs| ==> attrs[i].0 != "type"
    ensures OnStart(c, "file", attrs).file.None?
    ensures OnEnd(OnStart(c, "file", attrs), "file").current.value.files ==
      [PackageFile(Some(""), Some(DefaultFileType))] + c.current.value.files
  {
  }

  // ---------------------------------------------------------------------------
  // Whole documents.

  /** Without `</package>` an open record stays open and nothing is emitted. */
  lemma {:induction false} OpenWithoutPackageEnd(c: Ctx, evs: seq<Event>)
    requires Consistent(c) && c.state != Toplevel && Safe(c, evs)
    requires forall i :: 0 <= i < |evs| ==> !Mentions(evs[i], "package")
    ensures Run(c, evs).state != Toplevel && Run(c, evs).emitted == c.emitted
    decreases |evs|
  {
    if evs != [] {
      assert !Mentions(evs[0], "package");
      assert Step(c, evs[0]).state != Toplevel;
      OpenWithoutPackageEnd(Step(c, evs[0]), evs[1..]);
    }
  }

  /** The body of a package element leaves the decoder in the package state. */
  lemma {:induction false} PackageBodyKeepsPackageState(c: Ctx, ns: seq<Node>)
    requires Consistent(c) && c.state == InPackage && Lacks(ns, "package") && Safe(c, Events(ns))
    ensures Run(c, Events(ns)).state == InPackage && Run(c, Events(ns)).emitted == c.emitted
    decreases ns
  {
    if ns != [] {
      RunNode(c, ns);
      match ns[0]
      case CharData(s) =>
        PackageBodyKeepsPackageState(OnCharacters(c, s), ns[1..]);
      case Element(t, a, ch) =>
        var c1 := OnStart(c, t, a);
        StartTransitions(c, t, a);
        if t == "format" {
          FormatBodyKeepsFormatOrPackage(c1, ch);
        } else {
          PackageBodyKeepsPackageState(c1, ch);
        }
        EndTransitions(Run(c1, Events(ch)), t);
        PackageBodyKeepsPackageState(OnEnd(Run(c1, Events(ch)), t), ns[1..]);
    }
  }

  /** Elements inside `<format>` leave the decoder in the format or package state. */
  lemma {:induction false} FormatBodyKeepsFormatOrPackage(c: Ctx, ns: seq<Node>)
    requires Consistent(c) && c.state == InFormat && Lacks(ns, "package") && Safe(c, Events(ns))
    ensures Run(c, Events(ns)).state in {InFormat, InPackage}
    ensures Run(c, Events(ns)).emitted == c.emitted
    decreases ns
  {
    if ns != [] {
      RunNode(c, ns);
      match ns[0]
      case CharData(s) =>
        FormatBodyKeepsFormatOrPackage(OnCharacters(c, s), ns[1..]);
      case Element(t, a, ch) =>
        var c1 := OnStart(c, t, a);
        StartTransitions(c, t, a);
        if c1.state == InDep {
          LacksHasNoTag(ch, "package");
          OpenWithoutPackageEnd(c1, Events(ch));
        } else {
          FormatBodyKeepsFormatOrPackage(c1, ch);
        }
        var c2 := OnEnd(Run(c1, Events(ch)), t);
        EndTransitions(Run(c1, Events(ch)), t);
        if c2.state == InPackage {
          PackageBodyKeepsPackageState(c2, ns[1..]);
        } else {
          FormatBodyKeepsFormatOrPackage(c2, ns[1..]);
        }
    }
  }

  /** A package element, opened at top level, produces exactly one callback,
      with the record its body built, and returns to top level. */
  lemma {:induction false} PackageElementEmitsOnce(c: Ctx, a: Attrs, body: seq<Node>)
    requires Consistent(c) && c.state == Toplevel && Lacks(body, "package")
    requires Safe(c, Events([Element("package", a, body)]))
    ensures Safe(OnStart(c, "package", a), Events(body))
    ensures var built := Run(OnStart(c, "package", a), Events(body));
      var r := Run(c, Events([Element("package", a, body)]));
      r.state == Toplevel && r.current.None? && built.current.Some? &&
      r.emitted == c.emitted + [built.current.value]
  {
    var ns := [Element("package", a, body)];
    RunNode(c, ns);
    assert ns[1..] == [];
    PackageBodyKeepsPackageState(OnStart(c, "package", a), body);
  }

  /** A document of N package elements (possibly wrapped, never nested) produces
      exactly N callbacks, appended after the earlier ones, and ends at top level. */
  lemma {:induction false} EveryPackageEmittedOnce(c: Ctx, ns: seq<Node>)
    requires Consistent(c) && c.state == Toplevel && PackageForest(ns) && Safe(c, Events(ns))
    ensures Run(c, Events(ns)).state == Toplevel
    ensures |Run(c, Events(ns)).emitted| == |c.emitted| + PackageCount(ns)
    ensures c.emitted <= Run(c, Events(ns)).emitted
    decreases ns
  {
    if ns != [] {
      RunNode(c, ns);
      match ns[0]
      case CharData(s) =>
        EveryPackageEmittedOnce(OnCharacters(c, s), ns[1..]);
      case Element(t, a, ch) =>
        var c1 := OnStart(c, t, a);
        if t == "package" {
          PackageBodyKeepsPackageState(c1, ch);
        } else {
          EveryPackageEmittedOnce(c1, ch);
        }
        var c2 := OnEnd(Run(c1, Events(ch)), t);
        assert c.emitted <= c2.emitted;
        EveryPackageEmittedOnce(c2, ns[1..]);
    }
  }

  /** A document cut off inside its last package element: the records before it
      are emitted and the last one is still open, so the driver reports it lost. */
  lemma {:induction false} TruncatedPackageIsLost(c: Ctx, head: seq<Event>, a: Attrs, body: seq<Node>)
    requires Consistent(c) && Safe(c, head) && Run(c, head).state == Toplevel
    requires Lacks(body, "package")
    requires Safe(c, head + [Start("package", a)] + Events(body))
    ensures var r := Run(c, head + [Start("package", a)] + Events(body));
      r.current.Some? && r.emitted == Run(c, head).emitted
  {
    var m := Run(c, head);
    RunAppend(c, head + [Start("package", a)], Events(body));
    RunSnoc(c, head, Start("package", a));
    LacksHasNoTag(body, "package");
    OpenWithoutPackageEnd(OnStart(m, "package", a), Events(body));
  }

  // ---------------------------------------------------------------------------
  // Example documents.

  /** Running one event. */
  lemma RunOne(c: Ctx, e: Event)
    requires Consistent(c) && StepOk(c, e)
    ensures Safe(c, [e]) && Run(c, [e]) == Step(c, e)
  {
    assert [e][1..] == [];
  }

  /** Running two streams one after the other. */
  lemma RunThen(c: Ctx, a: seq<Event>, b: seq<Event>)
    requires Consistent(c) && Safe(c, a) && Safe(Run(c, a), b)
    ensures Safe(c, a + b) && Run(c, a + b) == Run(Run(c, a), b)
  {
    RunAppend(c, a, b);
  }

  const VersionTag: seq<Event> :=
    [Start("version", [("epoch", "0"), ("ver", "1.2"), ("rel", "3")]), End("version")]
  const RequiresList: seq<Event> :=
    [Start("rpm:requires", []), Start("rpm:entry", [("name", "libc.so.6")]), End("rpm:entry"), End("rpm:requires")]
  const FileTag: seq<Event> := [Start("file", []), Text("usr/bin/foo"), End("file")]

  const FormatTag: seq<Event> := [Start("format", [])] + RequiresList + FileTag + [End("format")]

  /** A package with a version, one required library and one untyped file. */
  const Example: seq<Event> := [Start("package", [])] + VersionTag + FormatTag + [End("package")]

  lemma ExampleVersion(c: Ctx)
    requires Consistent(c) && c.state == InPackage
    ensures Safe(c, VersionTag)
    ensures Run(c, VersionTag) ==
      c.(current := Some(c.current.value.(epoch := Some("0"), version := Some("1.2"), release := Some("3"))),
         text := "")
  {
    var v := [("epoch", "0"), ("ver", "1.2"), ("rel", "3")];
    assert v[0].0 == "epoch" && v[1].0 == "ver" && v[2].0 == "rel";
    assert Lookup(v, "epoch") == Some("0");
    assert Lookup(v, "ver") == Some("1.2");
    assert Lookup(v, "rel") == Some("3");
    var c1 := Step(c, Start("version", v));
    RunOne(c, Start("version", v));
    RunOne(c1, End("version"));
    RunThen(c, [Start("version", v)], [End("version")]);
    assert [Start("version", v)] + [End("version")] == VersionTag;
  }

  lemma ExampleRequires(c: Ctx)
    requires Consistent(c) && c.state == InFormat
    ensures Safe(c, RequiresList)
    ensures Run(c, RequiresList) ==
      c.(current := Some(c.current.value.(requiresList :=
           [Dependency("libc.so.6", None, None, None, None)] + c.current.value.requiresList)),
         depList := Some(Requires), text := "")
  {
    var a := [("name", "libc.so.6")];
    assert a[0].0 == "name";
    assert Lookup(a, "name") == Some("libc.so.6");
    assert !Filtered(a) by {
      assert "libc.so.6"[0] != RpmlibPrefix[0];
    }
    var c1 := Step(c, RequiresList[0]);
    var c2 := Step(c1, RequiresList[1]);
    var c3 := Step(c2, RequiresList[2]);
    RunOne(c, RequiresList[0]);
    RunOne(c1, RequiresList[1]);
    RunOne(c2, RequiresList[2]);
    RunOne(c3, RequiresList[3]);
    RunThen(c, [RequiresList[0]], [RequiresList[1]]);
    RunThen(c, [RequiresList[0], RequiresList[1]], [RequiresList[2]]);
    RunThen(c, [RequiresList[0], RequiresList[1], RequiresList[2]], [RequiresList[3]]);
    assert [RequiresList[0], RequiresList[1], RequiresList[2]] + [RequiresList[3]] == RequiresList;
  }

  lemma ExampleFile(c: Ctx)
    requires Consistent(c) && c.state == InFormat && c.file.None?
    ensures Safe(c, FileTag)
    ensures Run(c, FileTag) ==
      c.(current := Some(c.current.value.(files :=
           [PackageFile(Some("usr/bin/foo"), Some("file"))] + c.current.value.files)),
         text := "")
  {
    assert Lookup([], "type") == None;
    var c1 := Step(c, FileTag[0]);
    assert c1 == c.(text := "");
    var c2 := Step(c1, FileTag[1]);
    assert c2 == c.(text := "usr/bin/foo");
    RunOne(c, FileTag[0]);
    RunOne(c1, FileTag[1]);
    RunOne(c2, FileTag[2]);
    RunThen(c, [FileTag[0]], [FileTag[1]]);
    RunThen(c, [FileTag[0], FileTag[1]], [FileTag[2]]);
    assert [FileTag[0], FileTag[1]] + [FileTag[2]] == FileTag;
  }

  lemma ExampleFormat(c: Ctx)
    requires Consistent(c) && c.state == InPackage && c.file.None?
    ensures Safe(c, FormatTag)
    ensures Run(c, FormatTag) ==
      c.(current := Some(c.current.value.(
           requiresList := [Dependency("libc.so.6", None, None, None, None)] + c.current.value.requiresList,
           files := [PackageFile(Some("usr/bin/foo"), Some("file"))] + c.current.value.files)),
         depList := Some(Requires), text := "")
  {
    var s0 := [Start("format", [])];
    var s1 := s0 + RequiresList;
    var s2 := s1 + FileTag;
    assert FormatTag == s2 + [End("format")];
    RunOne(c, Start("format", []));
    var c0 := c.(state := InFormat, text := "");
    ExampleRequires(c0);
    RunThen(c, s0, RequiresList);
    var c1 := Run(c, s1);
    ExampleFile(c1);
    RunThen(c, s1, FileTag);
    var c2 := Run(c, s2);
    RunOne(c2, End("format"));
    RunThen(c, s2, [End("format")]);
  }

  /** The documented example: one callback, whose record has version "0"/"1.2"/"3",
      one required library and one file typed "file". */
  lemma ExampleDocument()
    ensures Safe(Init, Example)
    ensures var r := Run(Init, Example);
      |r.emitted| == 1 && r.current.None? &&
      r.emitted[0].epoch == Some("0") && r.emitted[0].version == Some("1.2") &&
      r.emitted[0].release == Some("3") &&
      r.emitted[0].requiresList == [Dependency("libc.so.6", None, None, None, None)] &&
      r.emitted[0].files == [PackageFile(Some("usr/bin/foo"), Some("file"))]
  {
    var p0 := [Start("package", [])];
    var p1 := p0 + VersionTag;
    var p2 := p1 + FormatTag;
    assert Example == p2 + [End("package")];
    RunOne(Init, Start("package", []));
    var c0 := Init.(state := InPackage, current := Some(NewPackage));
    ExampleVersion(c0);
    RunThen(Init, p0, VersionTag);
    var c1 := Run(Init, p1);
    ExampleFormat(c1);
    RunThen(Init, p1, FormatTag);
    var c2 := Run(Init, p2);
    assert [Dependency("libc.so.6", None, None, None, None)] + c1.current.value.requiresList
        == [Dependency("libc.so.6", None, None, None, None)];
    assert [PackageFile(Some("usr/bin/foo"), Some("file"))] + c1.current.value.files
        == [PackageFile(Some("usr/bin/foo"), Some("file"))];
    RunOne(c2, End("package"));
    RunThen(Init, p2, [End("package")]);
  }
  lemma PrependTwice<T>(x: T, y: T, s: seq<T>)
    ensures [y] + ([x] + s) == [y, x] + s
  {
  }

  const TwoProvides: seq<Event> := [
    Start("rpm:provides", []),
    Start("rpm:entry", [("name", "x")]), End("rpm:entry"),
    Start("rpm:entry", [("name", "y")]), End("rpm:entry"),
    End("rpm:provides")]

  /** One `rpm:entry` inside a dependency list. */
  lemma EntryTag(c: Ctx, n: string)
    requires Consistent(c) && c.state == InDep && n != "" && n[0] != 'r'
    ensures Safe(c, [Start("rpm:entry", [("name", n)]), End("rpm:entry")])
    ensures Run(c, [Start("rpm:entry", [("name", n)]), End("rpm:entry")]) ==
      c.(current := Some(AddDep(c.current.value, c.depList.value, Dependency(n, None, None, None, None))),
         text := "")
  {
    var a := [("name", n)];
    assert a[0].0 == "name";
    assert Lookup(a, "name") == Some(n);
    assert !Filtered(a) by {
      assert n[0] != RpmlibPrefix[0];
    }
    var e0 := Start("rpm:entry", a);
    RunOne(c, e0);
    RunOne(Step(c, e0), End("rpm:entry"));
    RunThen(c, [e0], [End("rpm:entry")]);
    assert [e0] + [End("rpm:entry")] == [Start("rpm:entry", [("name", n)]), End("rpm:entry")];
  }

  /** Entries x then y inside `<rpm:provides>` come out as [y, x]: the lists are
      built by prepending and never reversed. */
  lemma ProvidesInReverseDocumentOrder(c: Ctx)
    requires Consistent(c) && c.state == InFormat
    ensures Safe(c, TwoProvides)
    ensures Run(c, TwoProvides).current.value.providesList ==
      [Dependency("y", None, None, None, None), Dependency("x", None, None, None, None)] +
      c.current.value.providesList
  {
    var x := [Start("rpm:entry", [("name", "x")]), End("rpm:entry")];
    var y := [Start("rpm:entry", [("name", "y")]), End("rpm:entry")];
    var s0 := [Start("rpm:provides", [])];
    var s1 := s0 + x;
    var s2 := s1 + y;
    assert TwoProvides == s2 + [End("rpm:provides")];
    var p := c.current.value;
    var dx := Dependency("x", None, None, None, None);
    var dy := Dependency("y", None, None, None, None);
    RunOne(c, Start("rpm:provides", []));
    var c0 := c.(state := InDep, depList := Some(Provides), text := "");
    assert Run(c, s0) == c0;
    EntryTag(c0, "x");
    RunThen(c, s0, x);
    var c1 := c0.(current := Some(AddDep(p, Provides, dx)));
    assert Run(c, s1) == c1;
    EntryTag(c1, "y");
    RunThen(c, s1, y);
    var c2 := c1.(current := Some(AddDep(AddDep(p, Provides, dx), Provides, dy)));
    assert Run(c, s2) == c2;
    RunOne(c2, End("rpm:provides"));
    RunThen(c, s2, [End("rpm:provides")]);
    assert Run(c, s2 + [End("rpm:provides")]) == c2.(state := InFormat);
    PrependTwice(dx, dy, p.providesList);
  }
}
