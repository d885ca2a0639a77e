/** The debug-handler registry of debug.c: a list of (callback, user data, id)
    entries, newest first, to which messages are dispatched.

    The process-wide list is the field `handlers` of a `Registry` object; the
    callbacks themselves are not modelled, so each one is named by a `FnRef` and
    every invocation is appended to the field `log`. Messages arrive already
    formatted (the printf-style formatting of `debug` is not part of the model). */
module Debug {

  datatype Option<T> = None | Some(value: T)

  /** The four levels of debug.h, in their numeric order -1, 0, 1, 2. */
  datatype Level = LevelError | LevelWarning | LevelInfo | LevelDebug

  /** An opaque name for a callback function, or for the user data passed to it. */
  type FnRef = nat
  type UserData = nat

  datatype Handler = Handler(fn: FnRef, userData: UserData, id: nat)

  /** One invocation of a handler's callback. */
  datatype Call = Call(fn: FnRef, message: string, level: Level, userData: UserData)

  /** Ids are `guint`: 32 bits, wrapping to 0 after 0xFFFFFFFF. */
  const IdModulus: nat := 0x1_0000_0000

  predicate IdsInRange(hs: seq<Handler>)
  {
    forall i :: 0 <= i < |hs| ==> hs[i].id < IdModulus
  }

  /** The id the next added handler receives: one more than the head's, or 1. */
  function NextId(hs: seq<Handler>): (r: nat)
    requires IdsInRange(hs)
    ensures r < IdModulus
    ensures hs == [] ==> r == 1
    ensures hs != [] && hs[0].id + 1 < IdModulus ==> r == hs[0].id + 1
    ensures hs != [] && hs[0].id + 1 == IdModulus ==> r == 0
  {
    if hs == [] then 1 else (hs[0].id + 1) % IdModulus
  }

  /** The list without its first handler whose id is `id`. */
  function Without(hs: seq<Handler>, id: nat): (r: seq<Handler>)
    ensures (forall i :: 0 <= i < |hs| ==> hs[i].id != id) ==> r == hs
    ensures (exists i :: 0 <= i < |hs| && hs[i].id == id) ==> |r| == |hs| - 1
    ensures forall x :: x in r ==> x in hs
  {
    if hs == [] then []
    else if hs[0].id == id then hs[1..]
    else
      assert hs == [hs[0]] + hs[1..];
      [hs[0]] + Without(hs[1..], id)
  }

  /** The calls `debug` makes: every handler once, in list order. */
  function Calls(hs: seq<Handler>, level: Level, message: string): (r: seq<Call>)
    ensures |r| == |hs|
    ensures forall i :: 0 <= i < |hs| ==> r[i] == Call(hs[i].fn, message, level, hs[i].userData)
  {
    seq(|hs|, i requires 0 <= i < |hs| => Call(hs[i].fn, message, level, hs[i].userData))
  }

  /** The dispatch loop of `debug`, collecting the calls it makes. */
  method Dispatch(hs: seq<Handler>, level: Level, message: string) returns (calls: seq<Call>)
    ensures calls == Calls(hs, level, message)
  {
    calls := [];
    var i := 0;
    while i < |hs|
      invariant 0 <= i <= |hs|
      invariant calls == Calls(hs[..i], level, message)
    {
      var h := hs[i];
      calls := calls + [Call(h.fn, message, level, h.userData)];
      i := i + 1;
    }
    assert hs[..i] == hs;
  }

  // ---------------------------------------------------------------------------
  // Rendering the id in the warning of `debug_remove_handler`: `%d` prints the
  // unsigned id as a signed 32-bit integer.

  /** The decimal digits of n, most significant first. */
  function Decimal(n: nat): (s: string)
    ensures |s| >= 1
    ensures forall i :: 0 <= i < |s| ==> '0' <= s[i] <= '9'
    decreases n
  {
    if n < 10 then [Digit(n)] else Decimal(n / 10) + [Digit(n % 10)]
  }

  function Digit(d: nat): (c: char)
    requires d < 10
    ensures '0' <= c <= '9'
  {
    ['0', '1', '2', '3', '4', '5', '6', '7', '8', '9'][d]
  }

  /** The value of a string of decimal digits. */
  function DigitsValue(s: string): nat
    requires forall i :: 0 <= i < |s| ==> '0' <= s[i] <= '9'
    decreases |s|
  {
    if s == [] then 0 else 10 * DigitsValue(s[..|s| - 1]) + (s[|s| - 1] as int - '0' as int)
  }

  /** Reading the digits back gives the number. */
  lemma {:induction false} DecimalRoundTrip(n: nat)
    ensures DigitsValue(Decimal(n)) == n
    decreases n
  {
    if n >= 10 {
      DecimalRoundTrip(n / 10);
      var s := Decimal(n);
      assert s[..|s| - 1] == Decimal(n / 10);
    }
  }

  /** `%d` applied to a 32-bit unsigned id. */
  function SignedText(id: nat): (s: string)
    requires id < IdModulus
    ensures id < IdModulus / 2 ==> s == Decimal(id)
    ensures id >= IdModulus / 2 ==> s == "-" + Decimal(IdModulus - id)
  {
    if id < IdModulus / 2 then Decimal(id) else "-" + Decimal(IdModulus - id)
  }

  function RemoveWarning(id: nat): string
    requires id < IdModulus
  {
    "Could not remove debug handler " + SignedText(id)
  }

  // ---------------------------------------------------------------------------

  class Registry {
    /** The registered handlers, newest first. */
    var handlers: seq<Handler>
    /** Every callback invocation so far, in order. */
    var log: seq<Call>

    predicate Valid()
      reads this
    {
      IdsInRange(handlers)
    }

    constructor ()
      ensures Valid() && handlers == [] && log == []
    {
      handlers := [];
      log := [];
    }

    /** `debug_add_handler`: a missing callback is refused with id 0. */
    method AddHandler(fn: Option<FnRef>, userData: UserData) returns (id: nat)
      requires Valid()
      modifies this
      ensures Valid() && log == old(log)
      ensures fn.None? ==> id == 0 && handlers == old(handlers)
      ensures fn.Some? ==>
        id == NextId(old(handlers)) && handlers == [Handler(fn.value, userData, id)] + old(handlers)
    {
      if fn.None? {
        return 0;
      }
      var newId := 1;
      if handlers != [] {
        newId := (handlers[0].id + 1) % IdModulus;
      }
      handlers := [Handler(fn.value, userData, newId)] + handlers;
      id := newId;
    }

    /** `debug_remove_handler`: unlinks the first handler with the id, or warns
        through `debug` when there is none. */
    method RemoveHandler(id: nat)
      requires Valid() && id < IdModulus
      modifies this
      ensures Valid() && handlers == Without(old(handlers), id)
      ensures (exists i :: 0 <= i < |old(handlers)| && old(handlers)[i].id == id) ==> log == old(log)
      ensures (forall i :: 0 <= i < |old(handlers)| ==> old(handlers)[i].id != id) ==>
        log == old(log) + Calls(old(handlers), LevelWarning, RemoveWarning(id))
    {
      var i := 0;
      while i < |handlers|
        invariant 0 <= i <= |handlers|
        invariant forall j :: 0 <= j < i ==> handlers[j].id != id
      {
        if handlers[i].id == id {
          WithoutFirstMatch(handlers, id, i);
          handlers := handlers[..i] + handlers[i + 1..];
          return;
        }
        i := i + 1;
      }
      Debug(LevelWarning, RemoveWarning(id));
    }

    /** `debug`: every registered handler is called once, newest first. */
    method Debug(level: Level, message: string)
      requires Valid()
      modifies this
      ensures Valid() && handlers == old(handlers)
      ensures log == old(log) + Calls(handlers, level, message)
    {
      var calls := Dispatch(handlers, level, message);
      log := log + calls;
    }
  }

  // ---------------------------------------------------------------------------

  /** Removal takes out exactly the first handler carrying the id; the others
      keep their order. */
  lemma {:induction false} WithoutFirstMatch(hs: seq<Handler>, id: nat, k: nat)
    requires k < |hs| && hs[k].id == id
    requires forall j :: 0 <= j < k ==> hs[j].id != id
    ensures Without(hs, id) == hs[..k] + hs[k + 1..]
    decreases k
  {
    if k > 0 {
      WithoutFirstMatch(hs[1..], id, k - 1);
      assert hs[..k] == [hs[0]] + hs[1..][..k - 1];
      assert hs[k + 1..] == hs[1..][k..];
    }
  }

  /** Ids are not unique over time: removing the newest handler and adding
      another gives the new one the removed handler's id. */
  lemma IdReusedAfterHeadRemoval(hs: seq<Handler>, fn: FnRef, fn': FnRef, d: UserData, d': UserData)
    requires IdsInRange(hs)
    ensures var added := [Handler(fn, d, NextId(hs))] + hs;
      Without(added, NextId(hs)) == hs &&
      NextId(Without(added, NextId(hs))) == NextId(hs)
  {
  }
}
