/** The events that the streaming XML tokenizer pushes into a decoder, and the
    element trees whose flattening is the event stream of a well-formed document.
    The tokenizer itself is outside the model: a document is given as its events. */
module Xml {

  /** Attribute pairs of one start tag, in the order the tokenizer reports them. */
  type Attrs = seq<(string, string)>

  datatype Event =
    | Start(name: string, attrs: Attrs)
    | End(name: string)
    | Text(s: string)

  /** Does the event open or close an element named t? */
  predicate Mentions(e: Event, t: string)
  {
    (e.Start? && e.name == t) || (e.End? && e.name == t)
  }

  /** The character data received after the most recent start or end tag in evs;
      when evs holds no tag at all, the text that was already buffered (prior)
      followed by every run of characters in evs. */
  function CharsSinceLastTag(prior: string, evs: seq<Event>): string
    decreases |evs|
  {
    if evs == [] then prior
    else
      match evs[|evs| - 1]
      case Text(s) => CharsSinceLastTag(prior, evs[..|evs| - 1]) + s
      case _ => ""
  }

  /** An element tree; a document is a sequence of such nodes. */
  datatype Node =
    | Element(tag: string, attrs: Attrs, children: seq<Node>)
    | CharData(s: string)

  /** The events a well-formed document delivers, in document order. */
  function Events(ns: seq<Node>): seq<Event>
    decreases ns
  {
    if ns == [] then []
    else
      match ns[0]
      case CharData(s) => [Text(s)] + Events(ns[1..])
      case Element(t, a, ch) => [Start(t, a)] + Events(ch) + [End(t)] + Events(ns[1..])
  }

  /** No element of the forest, at any depth, is named t. */
  predicate Lacks(ns: seq<Node>, t: string)
    decreases ns
  {
    ns == [] ||
    ((match ns[0]
      case CharData(_) => true
      case Element(tag, _, ch) => tag != t && Lacks(ch, t))
     && Lacks(ns[1..], t))
  }

  /** Package elements, possibly wrapped in other elements (the `metadata` root),
      but never nested inside one another. */
  predicate PackageForest(ns: seq<Node>)
    decreases ns
  {
    ns == [] ||
    ((match ns[0]
      case CharData(_) => true
      case Element(tag, _, ch) => if tag == "package" then Lacks(ch, "package") else PackageForest(ch))
     && PackageForest(ns[1..]))
  }

  /** The number of package elements of a package forest. */
  function PackageCount(ns: seq<Node>): nat
    decreases ns
  {
    if ns == [] then 0
    else
      (match ns[0]
       case CharData(_) => 0
       case Element(tag, _, ch) => if tag == "package" then 1 else PackageCount(ch))
      + PackageCount(ns[1..])
  }

  /** A forest without elements named t flattens to events that never open or close t. */
  lemma {:induction false} LacksHasNoTag(ns: seq<Node>, t: string)
    requires Lacks(ns, t)
    ensures forall i :: 0 <= i < |Events(ns)| ==> !Mentions(Events(ns)[i], t)
    decreases ns
  {
    if ns != [] {
      LacksHasNoTag(ns[1..], t);
      match ns[0]
      case CharData(_) =>
      case Element(tag, a, ch) =>
        LacksHasNoTag(ch, t);
    }
  }
}
