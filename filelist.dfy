/** The filelists decoder of xml-parser.c: a two-state machine (Toplevel,
    InPackage) that takes a package's identity from the `<package>` attributes,
    its version from `<version>`, and one file per `<file>` element, and hands
    the record to the callback when `</package>` closes.

    As for the primary decoder, the context is specified as a value (`Ctx`,
    `OnStart`, `OnEnd`, `OnCharacters`) and implemented by the class
    `FilelistParser`, whose handlers are proved to have exactly that effect. */
module Filelist {
  import opened Xml
  import opened PackageModel

  datatype State = Toplevel | InPackage

  /** The decoder context: state, the open record, the file being built, the
      text buffer, and the records passed to the callback so far. */
  datatype Ctx = Ctx(
    state: State,
    current: Option<Package>,
    file: Option<PackageFile>,
    text: string,
    emitted: seq<Package>)

  const Init: Ctx := Ctx(Toplevel, None, None, "", [])

  /** A record is open exactly outside Toplevel (the handlers' assertions). */
  predicate Consistent(c: Ctx)
  {
    c.state == Toplevel <==> c.current.None?
  }

  /** The file a `<file>` open tag allocates: no name yet, the last `type` value. */
  function NewFile(attrs: Attrs): PackageFile
  {
    PackageFile(None, Lookup(attrs, "type"))
  }

  method ReadFile(attrs: Attrs) returns (f: PackageFile)
    ensures f == NewFile(attrs)
  {
    f := PackageFile(None, None);
    var i := 0;
    while i < |attrs|
      invariant 0 <= i <= |attrs|
      invariant f == NewFile(attrs[..i])
    {
      var (attr, value) := attrs[i];
      LookupSnoc(attrs, i, "type");
      if attr == "type" {
        f := f.(fileType := Some(value));
      }
      i := i + 1;
    }
    assert attrs[..i] == attrs;
  }

  function OnToplevelStart(c: Ctx, name: string, attrs: Attrs): (r: Ctx)
    requires Consistent(c) && c.state == Toplevel
    ensures Consistent(r)
  {
    if name == "package" then
      c.(state := InPackage, current := Some(WithIdentity(NewPackage, attrs)))
    else c
  }

  function OnPackageStart(c: Ctx, name: string, attrs: Attrs): (r: Ctx)
    requires Consistent(c) && c.state == InPackage
    ensures Consistent(r)
  {
    if name == "version" then c.(current := Some(WithVersion(c.current.value, attrs)))
    else if name == "file" then c.(file := Some(NewFile(attrs)))
    else c
  }

  function OnStart(c: Ctx, name: string, attrs: Attrs): (r: Ctx)
    requires Consistent(c)
    ensures Consistent(r)
  {
    var c := c.(text := "");
    match c.state
    case Toplevel => OnToplevelStart(c, name, attrs)
    case InPackage => OnPackageStart(c, name, attrs)
  }

  /** What the source needs of an end tag: `</file>` finds a file being built
      (the handler dereferences the cursor unconditionally). */
  predicate EndOk(c: Ctx, name: string)
  {
    c.state == InPackage && name == "file" ==> c.file.Some?
  }

  function OnPackageEnd(c: Ctx, name: string): (r: Ctx)
    requires Consistent(c) && c.state == InPackage && EndOk(c, name)
    ensures Consistent(r)
  {
    var p := c.current.value;
    if name == "package" then
      c.(state := Toplevel, current := None, file := None, emitted := c.emitted + [p])
    else if name == "file" then
      c.(current := Some(p.(files := [ClosedFile(c.file.value, c.text)] + p.files)), file := None)
    else c
  }

  function OnEnd(c: Ctx, name: string): (r: Ctx)
    requires Consistent(c) && EndOk(c, name)
    ensures Consistent(r)
  {
    var r := match c.state
      case Toplevel => c
      case InPackage => OnPackageEnd(c, name);
    r.(text := "")
  }

  function OnCharacters(c: Ctx, s: string): (r: Ctx)
    requires Consistent(c)
    ensures Consistent(r)
  {
    c.(text := c.text + s)
  }

  predicate StepOk(c: Ctx, e: Event)
  {
    e.End? ==> EndOk(c, e.name)
  }

  function Step(c: Ctx, e: Event): (r: Ctx)
    requires Consistent(c) && StepOk(c, e)
    ensures Consistent(r)
  {
    match e
    case Start(n, a) => OnStart(c, n, a)
    case End(n) => OnEnd(c, n)
    case Text(s) => OnCharacters(c, s)
  }

  predicate Safe(c: Ctx, evs: seq<Event>)
    requires Consistent(c)
    decreases |evs|
  {
    evs == [] || (StepOk(c, evs[0]) && Safe(Step(c, evs[0]), evs[1..]))
  }

  function Run(c: Ctx, evs: seq<Event>): (r: Ctx)
    requires Consistent(c) && Safe(c, evs)
    ensures Consistent(r)
    decreases |evs|
  {
    if evs == [] then c else Run(Step(c, evs[0]), evs[1..])
  }

  /** Running a concatenation is running its parts one after the other. */
  lemma {:induction false} RunAppend(c: Ctx, a: seq<Event>, b: seq<Event>)
    requires Consistent(c)
    ensures Safe(c, a + b) <==> (Safe(c, a) && Safe(Run(c, a), b))
    ensures Safe(c, a + b) ==> Run(c, a + b) == Run(Run(c, a), b)
    decreases |a|
  {
    if a == [] {
      assert a + b == b;
    } else {
      assert (a + b)[0] == a[0] && (a + b)[1..] == a[1..] + b;
      if StepOk(c, a[0]) {
        RunAppend(Step(c, a[0]), a[1..], b);
      }
    }
  }

  class FilelistParser {
    var state: State
    var currentPackage: Option<Package>
    var currentFile: Option<PackageFile>
    var textBuffer: string
    /** The records passed to the callback, in call order. */
    var emitted: seq<Package>

    function Model(): Ctx
      reads this
    {
      Ctx(state, currentPackage, currentFile, textBuffer, emitted)
    }

    predicate Valid()
      reads this
    {
      Consistent(Model())
    }

    constructor ()
      ensures Valid() && Model() == Init
    {
      state := Toplevel;
      currentPackage := None;
      currentFile := None;
      textBuffer := "";
      emitted := [];
    }

    method ToplevelStart(name: string, attrs: Attrs)
      requires Valid() && state == Toplevel
      modifies this
      ensures Valid() && Model() == OnToplevelStart(old(Model()), name, attrs)
    {
      if name == "package" {
        state := InPackage;
        var p := ReadIdentity(NewPackage, attrs);
        currentPackage := Some(p);
      }
    }

    method PackageStart(name: string, attrs: Attrs)
      requires Valid() && state == InPackage
      modifies this
      ensures Valid() && Model() == OnPackageStart(old(Model()), name, attrs)
    {
      if name == "version" {
        var p := ReadVersion(currentPackage.value, attrs);
        currentPackage := Some(p);
      } else if name == "file" {
        var f := ReadFile(attrs);
        currentFile := Some(f);
      }
    }

    method StartElement(name: string, attrs: Attrs)
      requires Valid()
      modifies this
      ensures Valid() && Model() == OnStart(old(Model()), name, attrs)
    {
      if |textBuffer| > 0 {
        textBuffer := "";
      }
      match state {
        case Toplevel => ToplevelStart(name, attrs);
        case InPackage => PackageStart(name, attrs);
      }
    }

    method PackageEnd(name: string)
      requires Valid() && state == InPackage && EndOk(Model(), name)
      modifies this
      ensures Valid() && Model() == OnPackageEnd(old(Model()), name)
    {
      var p := currentPackage.value;
      if name == "package" {
        emitted := emitted + [p];
        currentPackage := None;
        currentFile := None;
        state := Toplevel;
      } else if name == "file" {
        var file := currentFile.value.(name := Some(textBuffer));
        if file.fileType.None? {
          file := file.(fileType := Some(DefaultFileType));
        }
        currentPackage := Some(p.(files := [file] + p.files));
        currentFile := None;
      }
    }

    method EndElement(name: string)
      requires Valid() && EndOk(Model(), name)
      modifies this
      ensures Valid() && Model() == OnEnd(old(Model()), name)
    {
      match state {
        case Toplevel =>
        case InPackage => PackageEnd(name);
      }
      textBuffer := "";
    }

    method Characters(s: string)
      requires Valid()
      modifies this
      ensures Valid() && Model() == OnCharacters(old(Model()), s)
    {
      textBuffer := textBuffer + s;
    }
  }

  /** The driver: a fresh context fed every event; a record still open at the
      end is dropped with an "Incomplete package lost" warning (`lost`). */
  method ParseFilelists(events: seq<Event>) returns (emitted: seq<Package>, lost: bool)
    requires Safe(Init, events)
    ensures emitted == Run(Init, events).emitted
    ensures lost <==> Run(Init, events).current.Some?
  {
    var ctx := new FilelistParser();
    var i := 0;
    while i < |events|
      invariant 0 <= i <= |events|
      invariant ctx.Valid()
      invariant Safe(ctx.Model(), events[i..])
      invariant Run(ctx.Model(), events[i..]) == Run(Init, events)
    {
      assert events[i..][0] == events[i] && events[i..][1..] == events[i + 1..];
      match events[i] {
        case Start(n, a) => ctx.StartElement(n, a);
        case End(n) => ctx.EndElement(n);
        case Text(s) => ctx.Characters(s);
      }
      i := i + 1;
    }
    lost := ctx.currentPackage.Some?;
    emitted := ctx.emitted;
  }
}
