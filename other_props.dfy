/** What the other decoder guarantees: the text-buffer discipline, one callback
    per closed package and none for a truncated one, identity taken from the
    `<package>` attributes alone, and changelogs handed over in document order. */
module OtherProps {
  import opened Xml
  import opened PackageModel
  import opened Other

  // ---------------------------------------------------------------------------
  // Running streams piece by piece.

  lemma RunSnoc(c: Ctx, evs: seq<Event>, e: Event)
    requires Consistent(c) && Safe(c, evs)
    ensures Safe(c, evs + [e]) <==> StepOk(Run(c, evs), e)
    ensures Safe(c, evs + [e]) ==> Run(c, evs + [e]) == Step(Run(c, evs), e)
  {
    RunAppend(c, evs, [e]);
  }

  lemma RunOne(c: Ctx, e: Event)
    requires Consistent(c) && StepOk(c, e)
    ensures Safe(c, [e]) && Run(c, [e]) == Step(c, e)
  {
    assert [e][1..] == [];
  }

  lemma RunThen(c: Ctx, a: seq<Event>, b: seq<Event>)
    requires Consistent(c) && Safe(c, a) && Safe(Run(c, a), b)
    ensures Safe(c, a + b) && Run(c, a + b) == Run(Run(c, a), b)
  {
    RunAppend(c, a, b);
  }

  /** The events of the first node of a forest, run on their own. */
  lemma {:induction false} RunNode(c: Ctx, ns: seq<Node>)
    requires Consistent(c) && ns != [] && Safe(c, Events(ns))
    ensures ns[0].CharData? ==>
      Safe(OnCharacters(c, ns[0].s), Events(ns[1..])) &&
      Run(c, Events(ns)) == Run(OnCharacters(c, ns[0].s), Events(ns[1..]))
    ensures ns[0].Element? ==>
      Safe(OnStart(c, ns[0].tag, ns[0].attrs), Events(ns[0].children)) &&
      EndOk(Run(OnStart(c, ns[0].tag, ns[0].attrs), Events(ns[0].children)), ns[0].tag) &&
      Safe(OnEnd(Run(OnStart(c, ns[0].tag, ns[0].attrs), Events(ns[0].children)), ns[0].tag), Events(ns[1..])) &&
      Run(c, Events(ns)) ==
        Run(OnEnd(Run(OnStart(c, ns[0].tag, ns[0].attrs), Events(ns[0].children)), ns[0].tag), Events(ns[1..]))
  {
    var rest := Events(ns[1..]);
    match ns[0]
    case CharData(s) =>
      assert Events(ns) == [Text(s)] + rest;
      RunAppend(c, [Text(s)], rest);
      assert [Text(s)][1..] == [];
    case Element(t, a, ch) =>
      var inner := Events(ch);
      assert Events(ns) == [Start(t, a)] + (inner + ([End(t)] + rest));
      RunAppend(c, [Start(t, a)], inner + ([End(t)] + rest));
      assert [Start(t, a)][1..] == [];
      var c1 := OnStart(c, t, a);
      assert Run(c, [Start(t, a)]) == c1;
      RunAppend(c1, inner, [End(t)] + rest);
      var c2 := Run(c1, inner);
      RunAppend(c2, [End(t)], rest);
      assert [End(t)][1..] == [];
  }

  // ---------------------------------------------------------------------------
  // Single events.

  /** The text buffer holds exactly the characters received since the most
      recent start or end tag. */
  lemma {:induction false} BufferHoldsCharsSinceLastTag(c: Ctx, evs: seq<Event>)
    requires Consistent(c) && Safe(c, evs)
    ensures Run(c, evs).text == CharsSinceLastTag(c.text, evs)
    decreases |evs|
  {
    if evs != [] {
      var init := evs[..|evs| - 1];
      var e := evs[|evs| - 1];
      assert init + [e] == evs;
      RunAppend(c, init, [e]);
      BufferHoldsCharsSinceLastTag(c, init);
      RunSnoc(c, init, e);
    }
  }

  /** The callback fires on `</package>` inside a package, with the open record
      whose changelogs are reversed, and on no other event; it leaves no record
      and no entry open. */
  lemma PackageEndEmitsRecord(c: Ctx, e: Event)
    requires Consistent(c) && StepOk(c, e)
    ensures Step(c, e).emitted ==
      if c.state == InPackage && e == End("package")
      then c.emitted + [c.current.value.(changelogs := Reverse(c.current.value.changelogs))]
      else c.emitted
    ensures c.state == InPackage && e == End("package") ==>
      Step(c, e).state == Toplevel && Step(c, e).current.None? && Step(c, e).entry.None?
  {
  }

  /** `<package>` opens a record whose identity is the last pkgid, name and arch
      attribute; every other tag at top level is ignored. */
  lemma PackageOpenTakesIdentity(c: Ctx, name: string, attrs: Attrs)
    requires Consistent(c) && c.state == Toplevel
    ensures OnStart(c, name, attrs) ==
      if name == "package" then
        c.(state := InPackage, text := "",
           current := Some(NewPackage.(pkgId := Lookup(attrs, "pkgid"), name := Lookup(attrs, "name"),
                                       arch := Lookup(attrs, "arch"))))
      else c.(text := "")
  {
  }

  /** Inside a package no event changes the record's identity, the state, or
      what was emitted, until `</package>`. */
  lemma {:induction false} IdentityFixedInsidePackage(c: Ctx, evs: seq<Event>)
    requires Consistent(c) && c.state == InPackage && Safe(c, evs)
    requires forall i :: 0 <= i < |evs| ==> !Mentions(evs[i], "package")
    ensures var r := Run(c, evs);
      r.state == InPackage && r.emitted == c.emitted &&
      r.current.value.pkgId == c.current.value.pkgId &&
      r.current.value.name == c.current.value.name &&
      r.current.value.arch == c.current.value.arch
    decreases |evs|
  {
    if evs != [] {
      assert !Mentions(evs[0], "package");
      IdentityFixedInsidePackage(Step(c, evs[0]), evs[1..]);
    }
  }

  /** `</changelog>` prepends the entry being built, with the buffered text as
      its body, and clears the cursor. */
  lemma ChangelogCloseAddsOneEntry(c: Ctx)
    requires Consistent(c) && c.state == InPackage && c.entry.Some?
    ensures var r := OnEnd(c, "changelog");
      r.state == InPackage && r.entry.None? &&
      r.current.value.changelogs ==
        [ChangelogEntry(c.entry.value.author, c.entry.value.date, Some(c.text))] + c.current.value.changelogs
  {
  }

  // ---------------------------------------------------------------------------
  // Changelogs in document order.

  /** A `<changelog>` element with the given attributes and text. */
  function ChangelogElement(a: Attrs, t: string): seq<Event>
  {
    [Start("changelog", a), Text(t), End("changelog")]
  }

  /** Consecutive `<changelog>` elements. */
  function ChangelogElements(cs: seq<(Attrs, string)>): seq<Event>
    decreases |cs|
  {
    if cs == [] then []
    else ChangelogElements(cs[..|cs| - 1]) + ChangelogElement(cs[|cs| - 1].0, cs[|cs| - 1].1)
  }

  /** The entries those elements describe, in document order. */
  function EntriesBuilt(cs: seq<(Attrs, string)>): (r: seq<ChangelogEntry>)
    ensures |r| == |cs|
  {
    seq(|cs|, i requires 0 <= i < |cs| => NewEntry(cs[i].0).(changelog := Some(cs[i].1)))
  }

  /** One `<changelog>` element inside a package prepends its entry. */
  lemma OneChangelog(c: Ctx, a: Attrs, t: string)
    requires Consistent(c) && c.state == InPackage
    ensures Safe(c, ChangelogElement(a, t))
    ensures Run(c, ChangelogElement(a, t)) ==
      c.(current := Some(c.current.value.(changelogs :=
           [NewEntry(a).(changelog := Some(t))] + c.current.value.changelogs)),
         entry := None, text := "")
  {
    var e := ChangelogElement(a, t);
    var c1 := Step(c, e[0]);
    var c2 := Step(c1, e[1]);
    assert c2.text == t && c2.entry == Some(NewEntry(a));
    RunOne(c, e[0]);
    RunOne(c1, e[1]);
    RunOne(c2, e[2]);
    RunThen(c, [e[0]], [e[1]]);
    RunThen(c, [e[0], e[1]], [e[2]]);
    assert [e[0], e[1]] + [e[2]] == e;
  }

  /** Appending one element's entry to the built list. */
  lemma EntriesBuiltSnoc(cs: seq<(Attrs, string)>)
    requires cs != []
    ensures EntriesBuilt(cs) ==
      EntriesBuilt(cs[..|cs| - 1]) + [NewEntry(cs[|cs| - 1].0).(changelog := Some(cs[|cs| - 1].1))]
  {
  }

  lemma PrependAssoc<T>(x: T, a: seq<T>, b: seq<T>)
    ensures [x] + (a + b) == ([x] + a) + b
  {
  }

  /** While the package is open its entries accumulate newest first. */
  lemma {:induction false} ChangelogsAccumulateReversed(c: Ctx, cs: seq<(Attrs, string)>)
    requires Consistent(c) && c.state == InPackage
    ensures Safe(c, ChangelogElements(cs))
    ensures var r := Run(c, ChangelogElements(cs));
      r.state == InPackage && r.emitted == c.emitted &&
      r.current.value ==
        c.current.value.(changelogs := Reverse(EntriesBuilt(cs)) + c.current.value.changelogs)
    decreases |cs|
  {
    var p := c.current.value;
    if cs == [] {
      assert Reverse(EntriesBuilt(cs)) + p.changelogs == p.changelogs;
    } else {
      var init := cs[..|cs| - 1];
      var last := cs[|cs| - 1];
      ChangelogsAccumulateReversed(c, init);
      var m := Run(c, ChangelogElements(init));
      OneChangelog(m, last.0, last.1);
      RunThen(c, ChangelogElements(init), ChangelogElement(last.0, last.1));
      var x := NewEntry(last.0).(changelog := Some(last.1));
      EntriesBuiltSnoc(cs);
      ReverseAppend(EntriesBuilt(init), [x]);
      assert Reverse([x]) == [x];
      PrependAssoc(x, Reverse(EntriesBuilt(init)), p.changelogs);
    }
  }

  /** The record handed to the callback lists the package's changelogs in
      document order (after any it already held, reversed). */
  lemma {:induction false} ChangelogsEmittedInDocumentOrder(c: Ctx, cs: seq<(Attrs, string)>)
    requires Consistent(c) && c.state == InPackage
    ensures Safe(c, ChangelogElements(cs) + [End("package")])
    ensures var r := Run(c, ChangelogElements(cs) + [End("package")]);
      r.state == Toplevel && |r.emitted| == |c.emitted| + 1 &&
      r.emitted[|c.emitted|].changelogs == Reverse(c.current.value.changelogs) + EntriesBuilt(cs)
  {
    ChangelogsAccumulateReversed(c, cs);
    var m := Run(c, ChangelogElements(cs));
    RunOne(m, End("package"));
    RunThen(c, ChangelogElements(cs), [End("package")]);
    ReverseAppend(Reverse(EntriesBuilt(cs)), c.current.value.changelogs);
    ReverseReverse(EntriesBuilt(cs));
  }

  /** Two entries "first" then "second" come out as [first, second]. */
  lemma TwoChangelogsInOrder(c: Ctx)
    requires Consistent(c) && c.state == InPackage && c.current.value.changelogs == []
    ensures var cs := [([("author", "a"), ("date", "1")], "first"), ([("author", "b"), ("date", "2")], "second")];
      Safe(c, ChangelogElements(cs) + [End("package")]) &&
      |Run(c, ChangelogElements(cs) + [End("package")]).emitted| == |c.emitted| + 1 &&
      Run(c, ChangelogElements(cs) + [End("package")]).emitted[|c.emitted|].changelogs ==
        [ChangelogEntry(Some("a"), Some("1"), Some("first")), ChangelogEntry(Some("b"), Some("2"), Some("second"))]
  {
    var cs := [([("author", "a"), ("date", "1")], "first"), ([("author", "b"), ("date", "2")], "second")];
    ChangelogsEmittedInDocumentOrder(c, cs);
    assert Reverse(c.current.value.changelogs) == [];
    var a0 := cs[0].0;
    var a1 := cs[1].0;
    assert a0[0].0 == "author" && a0[1].0 == "date";
    assert a1[0].0 == "author" && a1[1].0 == "date";
    assert Lookup(a0, "author") == Some("a") && Lookup(a0, "date") == Some("1");
    assert Lookup(a1, "author") == Some("b") && Lookup(a1, "date") == Some("2");
    assert EntriesBuilt(cs) ==
      [ChangelogEntry(Some("a"), Some("1"), Some("first")), ChangelogEntry(Some("b"), Some("2"), Some("second"))];
  }

  // ---------------------------------------------------------------------------
  // Whole documents.

  /** Without `</package>` an open record stays open and nothing is emitted. */
  lemma {:induction false} OpenWithoutPackageEnd(c: Ctx, evs: seq<Event>)
    requires Consistent(c) && c.state == InPackage && Safe(c, evs)
    requires forall i :: 0 <= i < |evs| ==> !Mentions(evs[i], "package")
    ensures Run(c, evs).state == InPackage && Run(c, evs).emitted == c.emitted
  {
    IdentityFixedInsidePackage(c, evs);
  }

  /** A package element, opened at top level, produces exactly one callback,
      with the record its body built (changelogs reversed), and returns to top
      level. */
  lemma {:induction false} PackageElementEmitsOnce(c: Ctx, a: Attrs, body: seq<Node>)
    requires Consistent(c) && c.state == Toplevel && Lacks(body, "package")
    requires Safe(c, Events([Element("package", a, body)]))
    ensures Safe(OnStart(c, "package", a), Events(body))
    ensures var built := Run(OnStart(c, "package", a), Events(body));
      var r := Run(c, Events([Element("package", a, body)]));
      r.state == Toplevel && r.current.None? && built.current.Some? &&
      r.emitted == c.emitted + [built.current.value.(changelogs := Reverse(built.current.value.changelogs))]
  {
    var ns := [Element("package", a, body)];
    RunNode(c, ns);
    assert ns[1..] == [];
    LacksHasNoTag(body, "package");
    OpenWithoutPackageEnd(OnStart(c, "package", a), Events(body));
  }

  /** A document of N package elements (possibly wrapped, never nested) produces
      exactly N callbacks, appended after the earlier ones, and ends at top level. */
  lemma {:induction false} EveryPackageEmittedOnce(c: Ctx, ns: seq<Node>)
    requires Consistent(c) && c.state == Toplevel && PackageForest(ns) && Safe(c, Events(ns))
    ensures Run(c, Events(ns)).state == Toplevel
    ensures |Run(c, Events(ns)).emitted| == |c.emitted| + PackageCount(ns)
    ensures c.emitted <= Run(c, Events(ns)).emitted
    decreases ns
  {
    if ns != [] {
      RunNode(c, ns);
      match ns[0]
      case CharData(s) =>
        EveryPackageEmittedOnce(OnCharacters(c, s), ns[1..]);
      case Element(t, a, ch) =>
        var c1 := OnStart(c, t, a);
        if t == "package" {
          LacksHasNoTag(ch, "package");
          OpenWithoutPackageEnd(c1, Events(ch));
        } else {
          EveryPackageEmittedOnce(c1, ch);
        }
        var c2 := OnEnd(Run(c1, Events(ch)), t);
        assert c.emitted <= c2.emitted;
        EveryPackageEmittedOnce(c2, ns[1..]);
    }
  }

  /** A document cut off inside its last package element: the records before it
      are emitted and the last one is still open, so the driver reports it lost. */
  lemma {:induction false} TruncatedPackageIsLost(c: Ctx, head: seq<Event>, a: Attrs, body: seq<Node>)
    requires Consistent(c) && Safe(c, head) && Run(c, head).state == Toplevel
    requires Lacks(body, "package")
    requires Safe(c, head + [Start("package", a)] + Events(body))
    ensures var r := Run(c, head + [Start("package", a)] + Events(body));
      r.current.Some? && r.emitted == Run(c, head).emitted
  {
    var m := Run(c, head);
    RunAppend(c, head + [Start("package", a)], Events(body));
    RunSnoc(c, head, Start("package", a));
    LacksHasNoTag(body, "package");
    OpenWithoutPackageEnd(OnStart(m, "package", a), Events(body));
  }
}
