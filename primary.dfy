/** The primary-metadata decoder of xml-parser.c: a four-state machine
    (Toplevel, InPackage, InFormat, InDep) that fills one package record from
    attributes and leaf text, builds its four dependency lists and its file
    list, and hands the record to the callback when `</package>` closes.

    The decoder's context is specified as a value (`Ctx`, with `OnStart`, `OnEnd`
    and `OnCharacters` giving the effect of each tokenizer event) and implemented
    by the class `PrimaryParser`, whose handlers update the context fields in
    place and are proved to have exactly that effect. `emitted` lists the
    records handed to the callback, in call order. */
module Primary {
  import opened Xml
  import opened PackageModel

  datatype State = Toplevel | InPackage | InFormat | InDep

  /** The list a `rpm:provides`, `rpm:requires`, `rpm:obsoletes` or `rpm:conflicts`
      tag selects (`current_dep_list` points at it). */
  datatype DepKind = Provides | Requires | Obsoletes | Conflicts

  function DepsOf(p: Package, k: DepKind): seq<Dependency>
  {
    match k
    case Provides => p.providesList
    case Requires => p.requiresList
    case Obsoletes => p.obsoletesList
    case Conflicts => p.conflictsList
  }

  /** Prepend a dependency to the list of kind k. */
  function AddDep(p: Package, k: DepKind, d: Dependency): (q: Package)
    ensures DepsOf(q, k) == [d] + DepsOf(p, k)
    ensures forall k' :: k' != k ==> DepsOf(q, k') == DepsOf(p, k')
    ensures q.(requiresList := p.requiresList, providesList := p.providesList,
               obsoletesList := p.obsoletesList, conflictsList := p.conflictsList) == p
  {
    match k
    case Provides => p.(providesList := [d] + p.providesList)
    case Requires => p.(requiresList := [d] + p.requiresList)
    case Obsoletes => p.(obsoletesList := [d] + p.obsoletesList)
    case Conflicts => p.(conflictsList := [d] + p.conflictsList)
  }

  /** The decoder context: state, the open record, the dependency-list and file
      cursors, the text buffer, and the records passed to the callback so far. */
  datatype Ctx = Ctx(
    state: State,
    current: Option<Package>,
    depList: Option<DepKind>,
    file: Option<PackageFile>,
    text: string,
    emitted: seq<Package>)

  /** The context as the driver sets it up before parsing. */
  const Init: Ctx := Ctx(Toplevel, None, None, None, "", [])

  /** A record is open exactly outside Toplevel (the conditions the handlers
      assert), and the dependency cursor is set whenever a list is being read. */
  predicate Consistent(c: Ctx)
  {
    (c.state == Toplevel <==> c.current.None?) &&
    (c.state == InDep ==> c.depList.Some?)
  }

  // ---------------------------------------------------------------------------
  // Attribute scans of the primary decoder.

  function WithChecksumType(p: Package, attrs: Attrs): Package
  {
    p.(checksumType := Override(p.checksumType, attrs, "type"))
  }

  function WithTime(p: Package, attrs: Attrs): Package
  {
    p.(timeFile := Override(p.timeFile, attrs, "file"),
       timeBuild := Override(p.timeBuild, attrs, "build"))
  }

  function WithSize(p: Package, attrs: Attrs): Package
  {
    p.(sizePackage := Override(p.sizePackage, attrs, "package"),
       sizeInstalled := Override(p.sizeInstalled, attrs, "installed"),
       sizeArchive := Override(p.sizeArchive, attrs, "archive"))
  }

  function WithLocation(p: Package, attrs: Attrs): Package
  {
    p.(locationHref := Override(p.locationHref, attrs, "href"))
  }

  function WithHeaderRange(p: Package, attrs: Attrs): Package
  {
    p.(rpmHeaderStart := Override(p.rpmHeaderStart, attrs, "start"),
       rpmHeaderEnd := Override(p.rpmHeaderEnd, attrs, "end"))
  }

  /** The file cursor after a `<file>` open tag: every `type` pair allocates a
      fresh file carrying that type, so the last one is left; with no `type`
      pair the cursor is left as it was. */
  function FileCursor(cur: Option<PackageFile>, attrs: Attrs): Option<PackageFile>
  {
    match Lookup(attrs, "type")
    case Some(t) => Some(PackageFile(None, Some(t)))
    case None => cur
  }

  /** The reserved prefix of the package manager's internal capabilities. */
  const RpmlibPrefix: string := "rpmlib("

  predicate IsRpmlib(v: string)
  {
    |v| >= |RpmlibPrefix| && v[..|RpmlibPrefix|] == RpmlibPrefix
  }

  /** Some `name` pair of the entry names an internal capability. */
  predicate Filtered(attrs: Attrs)
  {
    exists i :: 0 <= i < |attrs| && attrs[i].0 == "name" && IsRpmlib(attrs[i].1)
  }

  /** An entry that is kept must carry a name: the name string is copied
      unconditionally, and NULL is not a valid string. */
  predicate EntryOk(attrs: Attrs)
  {
    Lookup(attrs, "name").Some?
  }

  /** The dependency an `rpm:entry` tag contributes, or None when it is filtered. */
  function EntryOf(attrs: Attrs): (r: Option<Dependency>)
    requires EntryOk(attrs)
  {
    if Filtered(attrs) then None
    else Some(Dependency(Lookup(attrs, "name").value, Lookup(attrs, "flags"),
                         Lookup(attrs, "epoch"), Lookup(attrs, "ver"), Lookup(attrs, "rel")))
  }

  method ReadChecksumType(p: Package, attrs: Attrs) returns (q: Package)
    ensures q == WithChecksumType(p, attrs)
  {
    q := p;
    var i := 0;
    while i < |attrs|
      invariant 0 <= i <= |attrs|
      invariant q == WithChecksumType(p, attrs[..i])
    {
      var (attr, value) := attrs[i];
      LookupSnoc(attrs, i, "type");
      if attr == "type" {
        q := q.(checksumType := Some(value));
      }
      i := i + 1;
    }
    assert attrs[..i] == attrs;
  }

  method ReadTime(p: Package, attrs: Attrs) returns (q: Package)
    ensures q == WithTime(p, attrs)
  {
    q := p;
    var i := 0;
    while i < |attrs|
      invariant 0 <= i <= |attrs|
      invariant q == WithTime(p, attrs[..i])
    {
      var (attr, value) := attrs[i];
      LookupSnoc(attrs, i, "file");
      LookupSnoc(attrs, i, "build");
      if attr == "file" {
        q := q.(timeFile := Some(value));
      } else if attr == "build" {
        q := q.(timeBuild := Some(value));
      }
      i := i + 1;
    }
    assert attrs[..i] == attrs;
  }

  method ReadSize(p: Package, attrs: Attrs) returns (q: Package)
    ensures q == WithSize(p, attrs)
  {
    q := p;
    var i := 0;
    while i < |attrs|
      invariant 0 <= i <= |attrs|
      invariant q == WithSize(p, attrs[..i])
    {
      var (attr, value) := attrs[i];
      LookupSnoc(attrs, i, "package");
      LookupSnoc(attrs, i, "installed");
      LookupSnoc(attrs, i, "archive");
      if attr == "package" {
        q := q.(sizePackage := Some(value));
      } else if attr == "installed" {
        q := q.(sizeInstalled := Some(value));
      } else if attr == "archive" {
        q := q.(sizeArchive := Some(value));
      }
      i := i + 1;
    }
    assert attrs[..i] == attrs;
  }

  method ReadLocation(p: Package, attrs: Attrs) returns (q: Package)
    ensures q == WithLocation(p, attrs)
  {
    q := p;
    var i := 0;
    while i < |attrs|
      invariant 0 <= i <= |attrs|
      invariant q == WithLocation(p, attrs[..i])
    {
      var (attr, value) := attrs[i];
      LookupSnoc(attrs, i, "href");
      if attr == "href" {
        q := q.(locationHref := Some(value));
      }
      i := i + 1;
    }
    assert attrs[..i] == attrs;
  }

  method ReadHeaderRange(p: Package, attrs: Attrs) returns (q: Package)
    ensures q == WithHeaderRange(p, attrs)
  {
    q := p;
    var i := 0;
    while i < |attrs|
      invariant 0 <= i <= |attrs|
      invariant q == WithHeaderRange(p, attrs[..i])
    {
      var (attr, value) := attrs[i];
      LookupSnoc(attrs, i, "start");
      LookupSnoc(attrs, i, "end");
      if attr == "start" {
        q := q.(rpmHeaderStart := Some(value));
      } else if attr == "end" {
        q := q.(rpmHeaderEnd := Some(value));
      }
      i := i + 1;
    }
    assert attrs[..i] == attrs;
  }

  method ReadFileType(cur: Option<PackageFile>, attrs: Attrs) returns (f: Option<PackageFile>)
    ensures f == FileCursor(cur, attrs)
  {
    f := cur;
    var i := 0;
    while i < |attrs|
      invariant 0 <= i <= |attrs|
      invariant f == FileCursor(cur, attrs[..i])
    {
      var (attr, value) := attrs[i];
      LookupSnoc(attrs, i, "type");
      if attr == "type" {
        f := Some(PackageFile(None, Some(value)));
      }
      i := i + 1;
    }
    assert attrs[..i] == attrs;
  }

  /** The five fields an `rpm:entry` scan collects. */
  datatype EntryDraft = EntryDraft(
    name: Option<string>,
    flags: Option<string>,
    epoch: Option<string>,
    version: Option<string>,
    release: Option<string>)

  /** The fields collected from the pairs, each set by every pair carrying its key. */
  function DraftOf(attrs: Attrs): EntryDraft
    decreases |attrs|
  {
    if attrs == [] then EntryDraft(None, None, None, None, None)
    else
      var d := DraftOf(attrs[..|attrs| - 1]);
      var (attr, value) := attrs[|attrs| - 1];
      if attr == "name" then d.(name := Some(value))
      else if attr == "flags" then d.(flags := Some(value))
      else if attr == "epoch" then d.(epoch := Some(value))
      else if attr == "ver" then d.(version := Some(value))
      else if attr == "rel" then d.(release := Some(value))
      else d
  }

  /** Each collected field is the value of the last pair with its key. */
  lemma {:induction false} DraftIsLookup(attrs: Attrs)
    ensures DraftOf(attrs) == EntryDraft(Lookup(attrs, "name"), Lookup(attrs, "flags"),
      Lookup(attrs, "epoch"), Lookup(attrs, "ver"), Lookup(attrs, "rel"))
    decreases |attrs|
  {
    if attrs != [] {
      DraftIsLookup(attrs[..|attrs| - 1]);
    }
  }

  /** The scan of an `rpm:entry` tag: stops at the first internal-capability
      name, otherwise keeps the last value of each recognised key. */
  method ReadEntry(attrs: Attrs) returns (dep: Option<Dependency>)
    requires EntryOk(attrs)
    ensures dep == EntryOf(attrs)
  {
    var d := EntryDraft(None, None, None, None, None);
    var ignore := false;
    var i := 0;
    while i < |attrs|
      invariant 0 <= i <= |attrs|
      invariant forall j :: 0 <= j < i ==> !(attrs[j].0 == "name" && IsRpmlib(attrs[j].1))
      invariant d == DraftOf(attrs[..i])
    {
      var (attr, value) := attrs[i];
      assert attrs[..i + 1][..i] == attrs[..i];
      if attr == "name" {
        if IsRpmlib(value) {
          ignore := true;
          break;
        }
        d := d.(name := Some(value));
      } else if attr == "flags" {
        d := d.(flags := Some(value));
      } else if attr == "epoch" {
        d := d.(epoch := Some(value));
      } else if attr == "ver" {
        d := d.(version := Some(value));
      } else if attr == "rel" {
        d := d.(release := Some(value));
      }
      i := i + 1;
    }
    if ignore {
      dep := None;
    } else {
      assert attrs[..i] == attrs;
      DraftIsLookup(attrs);
      dep := Some(Dependency(d.name.value, d.flags, d.epoch, d.version, d.release));
    }
  }

  // ---------------------------------------------------------------------------
  // Start-tag handlers.

  function OnToplevelStart(c: Ctx, name: string): (r: Ctx)
    requires Consistent(c) && c.state == Toplevel
    ensures Consistent(r)
  {
    if name == "package" then c.(state := InPackage, current := Some(NewPackage))
    else c
  }

  function OnPackageStart(c: Ctx, name: string, attrs: Attrs): (r: Ctx)
    requires Consistent(c) && c.state == InPackage
    ensures Consistent(r)
  {
    var p := c.current.value;
    if name == "format" then c.(state := InFormat)
    else if name == "version" then c.(current := Some(WithVersion(p, attrs)))
    else if name == "checksum" then c.(current := Some(WithChecksumType(p, attrs)))
    else if name == "time" then c.(current := Some(WithTime(p, attrs)))
    else if name == "size" then c.(current := Some(WithSize(p, attrs)))
    else if name == "location" then c.(current := Some(WithLocation(p, attrs)))
    else c
  }

  function OnFormatStart(c: Ctx, name: string, attrs: Attrs): (r: Ctx)
    requires Consistent(c) && c.state == InFormat
    ensures Consistent(r)
  {
    var p := c.current.value;
    if name == "rpm:header-range" then c.(current := Some(WithHeaderRange(p, attrs)))
    else if name == "rpm:provides" then c.(state := InDep, depList := Some(Provides))
    else if name == "rpm:requires" then c.(state := InDep, depList := Some(Requires))
    else if name == "rpm:obsoletes" then c.(state := InDep, depList := Some(Obsoletes))
    else if name == "rpm:conflicts" then c.(state := InDep, depList := Some(Conflicts))
    else if name == "file" then c.(file := FileCursor(c.file, attrs))
    else c
  }

  function OnDepStart(c: Ctx, name: string, attrs: Attrs): (r: Ctx)
    requires Consistent(c) && c.state == InDep
    requires name == "rpm:entry" ==> EntryOk(attrs)
    ensures Consistent(r)
  {
    if name == "rpm:entry" then
      match EntryOf(attrs)
      case None => c
      case Some(d) => c.(current := Some(AddDep(c.current.value, c.depList.value, d)))
    else c
  }

  /** What the source needs of a start tag: a kept dependency entry has a name. */
  predicate StartOk(c: Ctx, name: string, attrs: Attrs)
  {
    c.state == InDep && name == "rpm:entry" ==> EntryOk(attrs)
  }

  /** A start tag: the text buffer is cleared, then the current state's handler runs. */
  function OnStart(c: Ctx, name: string, attrs: Attrs): (r: Ctx)
    requires Consistent(c) && StartOk(c, name, attrs)
    ensures Consistent(r)
  {
    var c := c.(text := "");
    match c.state
    case Toplevel => OnToplevelStart(c, name)
    case InPackage => OnPackageStart(c, name, attrs)
    case InFormat => OnFormatStart(c, name, attrs)
    case InDep => OnDepStart(c, name, attrs)
  }

  // ---------------------------------------------------------------------------
  // End-tag handlers.

  function OnPackageEnd(c: Ctx, name: string): (r: Ctx)
    requires Consistent(c) && c.state == InPackage
    ensures Consistent(r)
  {
    var p := c.current.value;
    var t := c.text;
    if name == "package" then c.(state := Toplevel, current := None, emitted := c.emitted + [p])
    else if t == "" then c
    else if name == "name" then c.(current := Some(p.(name := Some(t))))
    else if name == "arch" then c.(current := Some(p.(arch := Some(t))))
    else if name == "checksum" then c.(current := Some(p.(checksumValue := Some(t), pkgId := Some(t))))
    else if name == "summary" then c.(current := Some(p.(summary := Some(t))))
    else if name == "description" then c.(current := Some(p.(description := Some(t))))
    else if name == "packager" then c.(current := Some(p.(rpmPackager := Some(t))))
    else if name == "url" then c.(current := Some(p.(url := Some(t))))
    else c
  }

  // The source tests the first four names with separate `if`s and chains the
  // rest with `else if`; the names are distinct, so at most one branch fires.
  function OnFormatEnd(c: Ctx, name: string): (r: Ctx)
    requires Consistent(c) && c.state == InFormat
    ensures Consistent(r)
  {
    var p := c.current.value;
    var t := c.text;
    if name == "rpm:license" then c.(current := Some(p.(rpmLicense := Some(t))))
    else if name == "rpm:vendor" then c.(current := Some(p.(rpmVendor := Some(t))))
    else if name == "rpm:group" then c.(current := Some(p.(rpmGroup := Some(t))))
    else if name == "rpm:buildhost" then c.(current := Some(p.(rpmBuildhost := Some(t))))
    else if name == "rpm:sourcerpm" then c.(current := Some(p.(rpmSourcerpm := Some(t))))
    else if name == "file" then
      var draft := if c.file.Some? then c.file.value else PackageFile(None, None);
      c.(current := Some(p.(files := [ClosedFile(draft, t)] + p.files)), file := None)
    else if name == "format" then c.(state := InPackage)
    else c
  }

  function OnDepEnd(c: Ctx, name: string): (r: Ctx)
    requires Consistent(c) && c.state == InDep
    ensures Consistent(r)
  {
    if name != "rpm:entry" then c.(state := InFormat) else c
  }

  /** An end tag: the current state's handler runs, then the buffer is cleared. */
  function OnEnd(c: Ctx, name: string): (r: Ctx)
    requires Consistent(c)
    ensures Consistent(r)
  {
    var r := match c.state
      case Toplevel => c
      case InPackage => OnPackageEnd(c, name)
      case InFormat => OnFormatEnd(c, name)
      case InDep => OnDepEnd(c, name);
    r.(text := "")
  }

  function OnCharacters(c: Ctx, s: string): (r: Ctx)
    requires Consistent(c)
    ensures Consistent(r)
  {
    c.(text := c.text + s)
  }

  // ---------------------------------------------------------------------------
  // Event streams.

  predicate StepOk(c: Ctx, e: Event)
  {
    e.Start? ==> StartOk(c, e.name, e.attrs)
  }

  function Step(c: Ctx, e: Event): (r: Ctx)
    requires Consistent(c) && StepOk(c, e)
    ensures Consistent(r)
  {
    match e
    case Start(n, a) => OnStart(c, n, a)
    case End(n) => OnEnd(c, n)
    case Text(s) => OnCharacters(c, s)
  }

  /** Every event of the stream meets what its handler needs. */
  predicate Safe(c: Ctx, evs: seq<Event>)
    requires Consistent(c)
    decreases |evs|
  {
    evs == [] || (StepOk(c, evs[0]) && Safe(Step(c, evs[0]), evs[1..]))
  }

  function Run(c: Ctx, evs: seq<Event>): (r: Ctx)
    requires Consistent(c) && Safe(c, evs)
    ensures Consistent(r)
    decreases |evs|
  {
    if evs == [] then c else Run(Step(c, evs[0]), evs[1..])
  }

  /** Running a concatenation is running its parts one after the other. */
  lemma {:induction false} RunAppend(c: Ctx, a: seq<Event>, b: seq<Event>)
    requires Consistent(c)
    ensures Safe(c, a + b) <==> (Safe(c, a) && Safe(Run(c, a), b))
    ensures Safe(c, a + b) ==> Run(c, a + b) == Run(Run(c, a), b)
    decreases |a|
  {
    if a == [] {
      assert a + b == b;
    } else {
      assert (a + b)[0] == a[0] && (a + b)[1..] == a[1..] + b;
      if StepOk(c, a[0]) {
        RunAppend(Step(c, a[0]), a[1..], b);
      }
    }
  }

  // ---------------------------------------------------------------------------
  // The imperative decoder.

  class PrimaryParser {
    var state: State
    var currentPackage: Option<Package>
    var currentDepList: Option<DepKind>
    var currentFile: Option<PackageFile>
    var textBuffer: string
    /** The records passed to the callback, in call order. */
    var emitted: seq<Package>

    function Model(): Ctx
      reads this
    {
      Ctx(state, currentPackage, currentDepList, currentFile, textBuffer, emitted)
    }

    predicate Valid()
      reads this
    {
      Consistent(Model())
    }

    constructor ()
      ensures Valid() && Model() == Init
    {
      state := Toplevel;
      currentPackage := None;
      currentDepList := None;
      currentFile := None;
      textBuffer := "";
      emitted := [];
    }

    method ToplevelStart(name: string)
      requires Valid() && state == Toplevel
      modifies this
      ensures Valid() && Model() == OnToplevelStart(old(Model()), name)
    {
      if name == "package" {
        state := InPackage;
        currentPackage := Some(NewPackage);
      }
    }

    method PackageStart(name: string, attrs: Attrs)
      requires Valid() && state == InPackage
      modifies this
      ensures Valid() && Model() == OnPackageStart(old(Model()), name, attrs)
    {
      var p := currentPackage.value;
      if name == "format" {
        state := InFormat;
      } else if name == "version" {
        p := ReadVersion(p, attrs);
        currentPackage := Some(p);
      } else if name == "checksum" {
        p := ReadChecksumType(p, attrs);
        currentPackage := Some(p);
      } else if name == "time" {
        p := ReadTime(p, attrs);
        currentPackage := Some(p);
      } else if name == "size" {
        p := ReadSize(p, attrs);
        currentPackage := Some(p);
      } else if name == "location" {
        p := ReadLocation(p, attrs);
        currentPackage := Some(p);
      }
    }

    method FormatStart(name: string, attrs: Attrs)
      requires Valid() && state == InFormat
      modifies this
      ensures Valid() && Model() == OnFormatStart(old(Model()), name, attrs)
    {
      if name == "rpm:header-range" {
        var p := ReadHeaderRange(currentPackage.value, attrs);
        currentPackage := Some(p);
      } else if name == "rpm:provides" {
        state := InDep;
        currentDepList := Some(Provides);
      } else if name == "rpm:requires" {
        state := InDep;
        currentDepList := Some(Requires);
      } else if name == "rpm:obsoletes" {
        state := InDep;
        currentDepList := Some(Obsoletes);
      } else if name == "rpm:conflicts" {
        state := InDep;
        currentDepList := Some(Conflicts);
      } else if name == "file" {
        currentFile := ReadFileType(currentFile, attrs);
      }
    }

    method DepStart(name: string, attrs: Attrs)
      requires Valid() && state == InDep
      requires name == "rpm:entry" ==> EntryOk(attrs)
      modifies this
      ensures Valid() && Model() == OnDepStart(old(Model()), name, attrs)
    {
      if name == "rpm:entry" {
        var dep := ReadEntry(attrs);
        if dep.Some? {
          currentPackage := Some(AddDep(currentPackage.value, currentDepList.value, dep.value));
        }
      }
    }

    method StartElement(name: string, attrs: Attrs)
      requires Valid() && StartOk(Model(), name, attrs)
      modifies this
      ensures Valid() && Model() == OnStart(old(Model()), name, attrs)
    {
      if |textBuffer| > 0 {
        textBuffer := "";
      }
      match state {
        case Toplevel => ToplevelStart(name);
        case InPackage => PackageStart(name, attrs);
        case InFormat => FormatStart(name, attrs);
        case InDep => DepStart(name, attrs);
      }
    }

    method PackageEnd(name: string)
      requires Valid() && state == InPackage
      modifies this
      ensures Valid() && Model() == OnPackageEnd(old(Model()), name)
    {
      var p := currentPackage.value;
      if name == "package" {
        emitted := emitted + [p];
        currentPackage := None;
        state := Toplevel;
      } else if |textBuffer| == 0 {
        return;
      } else if name == "name" {
        currentPackage := Some(p.(name := Some(textBuffer)));
      } else if name == "arch" {
        currentPackage := Some(p.(arch := Some(textBuffer)));
      } else if name == "checksum" {
        currentPackage := Some(p.(checksumValue := Some(textBuffer), pkgId := Some(textBuffer)));
      } else if name == "summary" {
        currentPackage := Some(p.(summary := Some(textBuffer)));
      } else if name == "description" {
        currentPackage := Some(p.(description := Some(textBuffer)));
      } else if name == "packager" {
        currentPackage := Some(p.(rpmPackager := Some(textBuffer)));
      } else if name == "url" {
        currentPackage := Some(p.(url := Some(textBuffer)));
      }
    }

    method FormatEnd(name: string)
      requires Valid() && state == InFormat
      modifies this
      ensures Valid() && Model() == OnFormatEnd(old(Model()), name)
    {
      var p := currentPackage.value;
      if name == "rpm:license" {
        currentPackage := Some(p.(rpmLicense := Some(textBuffer)));
      } else if name == "rpm:vendor" {
        currentPackage := Some(p.(rpmVendor := Some(textBuffer)));
      } else if name == "rpm:group" {
        currentPackage := Some(p.(rpmGroup := Some(textBuffer)));
      } else if name == "rpm:buildhost" {
        currentPackage := Some(p.(rpmBuildhost := Some(textBuffer)));
      } else if name == "rpm:sourcerpm" {
        currentPackage := Some(p.(rpmSourcerpm := Some(textBuffer)));
      } else if name == "file" {
        var draft := if currentFile.Some? then currentFile.value else PackageFile(None, None);
        var file := PackageFile(Some(textBuffer), draft.fileType);
        if file.fileType.None? {
          file := file.(fileType := Some(DefaultFileType));
        }
        currentPackage := Some(p.(files := [file] + p.files));
        currentFile := None;
      } else if name == "format" {
        state := InPackage;
      }
    }

    method DepEnd(name: string)
      requires Valid() && state == InDep
      modifies this
      ensures Valid() && Model() == OnDepEnd(old(Model()), name)
    {
      if name != "rpm:entry" {
        state := InFormat;
      }
    }

    method EndElement(name: string)
      requires Valid()
      modifies this
      ensures Valid() && Model() == OnEnd(old(Model()), name)
    {
      match state {
        case Toplevel =>
        case InPackage => PackageEnd(name);
        case InFormat => FormatEnd(name);
        case InDep => DepEnd(name);
      }
      textBuffer := "";
    }

    method Characters(s: string)
      requires Valid()
      modifies this
      ensures Valid() && Model() == OnCharacters(old(Model()), s)
    {
      textBuffer := textBuffer + s;
    }
  }

  /** The driver: a fresh context fed every event of the document, after which a
      record still open is dropped with an "Incomplete package lost" warning
      (`lost`) and never passed to the callback. */
  method ParsePrimary(events: seq<Event>) returns (emitted: seq<Package>, lost: bool)
    requires Safe(Init, events)
    ensures emitted == Run(Init, events).emitted
    ensures lost <==> Run(Init, events).current.Some?
  {
    var ctx := new PrimaryParser();
    var i := 0;
    while i < |events|
      invariant 0 <= i <= |events|
      invariant ctx.Valid()
      invariant Safe(ctx.Model(), events[i..])
      invariant Run(ctx.Model(), events[i..]) == Run(Init, events)
    {
      assert events[i..][0] == events[i] && events[i..][1..] == events[i + 1..];
      match events[i] {
        case Start(n, a) => ctx.StartElement(n, a);
        case End(n) => ctx.EndElement(n);
        case Text(s) => ctx.Characters(s);
      }
      i := i + 1;
    }
    lost := ctx.currentPackage.Some?;
    emitted := ctx.emitted;
  }
}
