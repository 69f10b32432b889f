// The events registered with a creature, and the bit field that says which
// types of event are among them: registering, unregistering, and the lookup
// that trusts the bits and skips the list when the bit of a type is not set
// (src/creatures/creature.cpp:1573-1641).
module EventBits {
  import opened Options

  /** The number of an event type; the bit field has 32 bits. */
  type Kind = k: bv32 | k < 32

  datatype Event = Event(name: nat, kind: Kind)

  /** hasEventRegistered */
  predicate Has(bits: bv32, kind: Kind) {
    bits & (1 << kind) != 0
  }

  function WithBit(bits: bv32, kind: Kind): bv32 {
    bits | (1 << kind)
  }

  function WithoutBit(bits: bv32, kind: Kind): bv32 {
    bits & !(1 << kind)
  }

  lemma BitOr(bits: bv32, kind: Kind, other: Kind)
    ensures Has(bits | (1 << kind), other) <==> other == kind || Has(bits, other)
  {
  }

  lemma BitAnd(bits: bv32, kind: Kind, other: Kind)
    ensures Has(bits & !(1 << kind), other) <==> other != kind && Has(bits, other)
  {
  }

  lemma BitSet(bits: bv32, kind: Kind, other: Kind)
    ensures Has(WithBit(bits, kind), other) <==> other == kind || Has(bits, other)
  {
    hide Has;
    BitOr(bits, kind, other);
  }

  lemma BitCleared(bits: bv32, kind: Kind, other: Kind)
    ensures Has(WithoutBit(bits, kind), other) <==> other != kind && Has(bits, other)
  {
    hide Has;
    BitAnd(bits, kind, other);
  }

  datatype State = State(events: seq<Event>, bits: bv32)

  /** Bit t is set exactly when an event of type t is listed. */
  ghost predicate Indexed(s: State) {
    forall kind: Kind {:trigger Has(s.bits, kind)} :: Has(s.bits, kind) <==> Lists(s.events, kind)
  }

  predicate Lists(events: seq<Event>, kind: Kind) {
    events != [] && (events[0].kind == kind || Lists(events[1..], kind))
  }

  lemma {:induction false} ListsConcat(a: seq<Event>, b: seq<Event>, kind: Kind)
    ensures Lists(a + b, kind) <==> Lists(a, kind) || Lists(b, kind)
  {
    if a == [] {
      assert a + b == b;
    } else {
      ListsConcat(a[1..], b, kind);
      assert (a + b)[1..] == a[1..] + b;
    }
  }

  lemma ListsOne(e: Event, kind: Kind)
    ensures Lists([e], kind) <==> e.kind == kind
  {
    assert [e][1..] == [];
  }

  lemma {:induction false} ListsMember(events: seq<Event>, e: Event)
    requires e in events
    ensures Lists(events, e.kind)
  {
    if events[0] != e {
      ListsMember(events[1..], e);
    }
  }

  predicate Once(events: seq<Event>) {
    events == [] || (events[0] !in events[1..] && Once(events[1..]))
  }

  lemma {:induction false} OncePushed(events: seq<Event>, e: Event)
    requires Once(events) && e !in events
    ensures Once(events + [e])
  {
    if events != [] {
      OncePushed(events[1..], e);
      assert (events + [e])[1..] == events[1..] + [e];
    } else {
      assert ([] + [e])[1..] == [];
    }
  }

  // --------------------------------------------------------------------
  // The steps
  // --------------------------------------------------------------------

  datatype Step = Register(event: Option<Event>) | Unregister(event: Option<Event>)

  function Without(events: seq<Event>, e: Event): (r: seq<Event>)
    ensures e !in r && forall x :: x in r ==> x in events
    ensures e !in events ==> r == events
  {
    if events == [] then []
    else if events[0] == e then Without(events[1..], e)
    else [events[0]] + Without(events[1..], e)
  }

  /** registerCreatureEvent, with the event of that name. */
  function Registered(s: State, event: Option<Event>): (State, bool) {
    if event.None? then (s, false) else
    var e := event.value;
    if Has(s.bits, e.kind) then if e in s.events then (s, false) else (s.(events := s.events + [e]), true)
    else (State(s.events + [e], WithBit(s.bits, e.kind)), true)
  }

  /** unregisterCreatureEvent */
  function Unregistered(s: State, event: Option<Event>): (State, bool) {
    if event.None? || !Has(s.bits, event.value.kind) then (s, false) else
    var e := event.value;
    var left := Without(s.events, e);
    (State(left, if Lists(left, e.kind) then s.bits else WithoutBit(s.bits, e.kind)), true)
  }

  function After(s: State, step: Step): State {
    match step
    case Register(event) => Registered(s, event).0
    case Unregister(event) => Unregistered(s, event).0
  }

  function AfterRun(s: State, run: seq<Step>): State
    decreases |run|
  {
    if run == [] then s else AfterRun(After(s, run[0]), run[1..])
  }

  ghost predicate Valid(s: State) {
    Indexed(s) && Once(s.events)
  }

  lemma RegisterKeeps(s: State, event: Option<Event>)
    requires Valid(s)
    ensures Valid(Registered(s, event).0)
    ensures Registered(s, event).1 <==> event.Some? && event.value !in s.events
    ensures Registered(s, event).0.events ==
      s.events + if event.Some? && event.value !in s.events then [event.value] else []
  {
    hide Has, WithBit, Lists, Once;
    if event.Some? {
      var e := event.value;
      if e in s.events {
        ListsMember(s.events, e);
      } else {
        OncePushed(s.events, e);
      }
      var t := Registered(s, event).0;
      forall kind: Kind ensures Has(t.bits, kind) <==> Lists(t.events, kind) {
        ListsConcat(s.events, [e], kind);
        BitSet(s.bits, e.kind, kind);
        ListsOne(e, kind);
      }
    }
  }

  lemma {:induction false} WithoutOthers(events: seq<Event>, e: Event, kind: Kind)
    requires kind != e.kind
    ensures Lists(Without(events, e), kind) <==> Lists(events, kind)
  {
    if events != [] {
      WithoutOthers(events[1..], e, kind);
      if events[0] != e {
        assert ([events[0]] + Without(events[1..], e))[1..] == Without(events[1..], e);
      }
    }
  }

  lemma {:induction false} WithoutOnce(events: seq<Event>, e: Event)
    requires Once(events)
    ensures Once(Without(events, e))
  {
    if events != [] {
      WithoutOnce(events[1..], e);
      assert events[0] != e ==> ([events[0]] + Without(events[1..], e))[1..] == Without(events[1..], e);
    }
  }

  lemma UnregisterKeeps(s: State, event: Option<Event>)
    requires Valid(s)
    ensures Valid(Unregistered(s, event).0)
    ensures event.Some? ==> Unregistered(s, event).0.events == Without(s.events, event.value)
    ensures Unregistered(s, event).1 <==> event.Some? && Lists(s.events, event.value.kind)
    ensures event == None ==> Unregistered(s, event).0 == s
  {
    hide Has, WithoutBit, Lists, Once, Without;
    if event.Some? {
      var e, t := event.value, Unregistered(s, event).0;
      if Has(s.bits, e.kind) {
        WithoutOnce(s.events, e);
        forall kind: Kind ensures Has(t.bits, kind) <==> Lists(t.events, kind) {
          BitCleared(s.bits, e.kind, kind);
          if kind != e.kind {
            WithoutOthers(s.events, e, kind);
          }
        }
      } else if e in s.events {
        ListsMember(s.events, e);
      }
    }
  }

  /** Over any run the bit field is an exact index of the list, and no event is listed twice. */
  lemma {:induction false} RunKeeps(s: State, run: seq<Step>)
    requires Valid(s)
    ensures Valid(AfterRun(s, run))
    decreases |run|
  {
    if run != [] {
      match run[0] {
        case Register(event) => RegisterKeeps(s, event);
        case Unregister(event) => UnregisterKeeps(s, event);
      }
      RunKeeps(After(s, run[0]), run[1..]);
    }
  }

  /** Whether the event is listed after the steps, if it was before: the last step that names it decides. */
  predicate LastWord(run: seq<Step>, e: Event, before: bool) {
    if run == [] then before
    else
      var last := run[|run| - 1];
      if last == Register(Some(e)) then true
      else if last == Unregister(Some(e)) then false
      else LastWord(run[..|run| - 1], e, before)
  }

  lemma {:induction false} LastWordNext(run: seq<Step>, e: Event, before: bool)
    requires run != []
    ensures LastWord(run, e, before) <==>
      LastWord(run[1..], e, run[0] == Register(Some(e)) || (before && run[0] != Unregister(Some(e))))
    decreases |run|
  {
    if |run| > 1 {
      assert run[1..][|run[1..]| - 1] == run[|run| - 1];
      assert run[..|run| - 1][1..] == run[1..][..|run[1..]| - 1];
      LastWordNext(run[..|run| - 1], e, before);
    } else {
      assert run[..0] == [] && run[1..] == [];
    }
  }

  lemma {:induction false} WithoutKeeps(events: seq<Event>, e: Event, x: Event)
    requires x != e
    ensures multiset(Without(events, e))[x] == multiset(events)[x]
  {
    if events != [] {
      WithoutKeeps(events[1..], e, x);
      assert events == [events[0]] + events[1..];
    }
  }

  lemma {:induction false} OnceCounts(events: seq<Event>, e: Event)
    requires Once(events)
    ensures multiset(events)[e] <= 1
  {
    if events != [] {
      OnceCounts(events[1..], e);
      assert events == [events[0]] + events[1..];
    }
  }

  /** After any run an event is listed once if the last step that names it registered it, or none names it and it was
      listed before; else not at all. */
  lemma {:induction false} RunLists(s: State, run: seq<Step>, e: Event)
    requires Valid(s)
    ensures multiset(AfterRun(s, run).events)[e] == if LastWord(run, e, e in s.events) then 1 else 0
    decreases |run|
  {
    if run == [] {
      OnceCounts(s.events, e);
    } else {
      hide Valid, LastWord, Registered, Unregistered, Without;
      LastWordNext(run, e, e in s.events);
      match run[0] {
        case Register(event) => RegisterKeeps(s, event);
        case Unregister(event) =>
          UnregisterKeeps(s, event);
          if event.Some? && event.value != e {
            WithoutKeeps(s.events, event.value, e);
          }
      }
      assert e in After(s, run[0]).events <==>
        run[0] == Register(Some(e)) || (e in s.events && run[0] != Unregister(Some(e)));
      RunLists(After(s, run[0]), run[1..], e);
    }
  }

  // --------------------------------------------------------------------
  // Looking events up
  // --------------------------------------------------------------------

  /** The listed events of one type. */
  function OfKind(events: seq<Event>, kind: Kind): seq<Event> {
    if events == [] then [] else (if events[0].kind == kind then [events[0]] else []) + OfKind(events[1..], kind)
  }

  lemma {:induction false} NoneOfKind(events: seq<Event>, kind: Kind)
    ensures OfKind(events, kind) == [] <==> !Lists(events, kind)
  {
    if events != [] {
      NoneOfKind(events[1..], kind);
    }
  }

  lemma {:induction false} OfKindPushed(events: seq<Event>, e: Event, kind: Kind)
    ensures OfKind(events + [e], kind) == OfKind(events, kind) + if e.kind == kind then [e] else []
  {
    if events == [] {
      assert OfKind([] + [e], kind) == (if e.kind == kind then [e] else []) + OfKind([], kind);
    } else {
      OfKindPushed(events[1..], e, kind);
      assert (events + [e])[1..] == events[1..] + [e] && (events + [e])[0] == events[0];
      var first, rest := if events[0].kind == kind then [events[0]] else [], OfKind(events[1..], kind);
      var last := if e.kind == kind then [e] else [];
      assert first + (rest + last) == first + rest + last;
    }
  }

  class Creature {
    var eventsList: seq<Event>
    var scriptEventsBitField: bv32

    ghost function Now(): State
      reads this
    {
      State(eventsList, scriptEventsBitField)
    }

    constructor ()
      ensures Now() == State([], 0) && Valid(Now())
    {
      eventsList, scriptEventsBitField := [], 0;
    }

    method RegisterCreatureEvent(event: Option<Event>) returns (ok: bool)
      requires Valid(Now())
      modifies this
      ensures (Now(), ok) == Registered(old(Now()), event) && Valid(Now())
    {
      RegisterKeeps(Now(), event);
      hide Has, Valid, WithBit;
      if event.None? {
        return false;
      }
      var e := event.value;
      if Has(scriptEventsBitField, e.kind) {
        for n := 0 to |eventsList|
          invariant e !in eventsList[..n]
        {
          assert eventsList[..n + 1] == eventsList[..n] + [eventsList[n]];
          if eventsList[n] == e {
            return false;
          }
        }
        assert eventsList[..|eventsList|] == eventsList;
      } else {
        scriptEventsBitField := WithBit(scriptEventsBitField, e.kind);
      }
      eventsList := eventsList + [e];
      ok := true;
    }

    method UnregisterCreatureEvent(event: Option<Event>) returns (ok: bool)
      requires Valid(Now())
      modifies this
      ensures (Now(), ok) == Unregistered(old(Now()), event) && Valid(Now())
    {
      UnregisterKeeps(Now(), event);
      hide Has, Valid, WithoutBit, Without, Lists;
      if event.None? || !Has(scriptEventsBitField, event.value.kind) {
        return false;
      }
      var e := event.value;
      var resetTypeBit, it := true, 0;
      while it < |eventsList|
        invariant 0 <= it <= |eventsList| && scriptEventsBitField == old(scriptEventsBitField)
        invariant eventsList[..it] + Without(eventsList[it..], e) == Without(old(eventsList), e)
        invariant resetTypeBit <==> !Lists(eventsList[..it], e.kind)
        decreases |eventsList| - it
      {
        var curEvent := eventsList[it];
        WithoutNext(eventsList, it, e);
        if curEvent == e {
          eventsList := eventsList[..it] + eventsList[it + 1..];
        } else {
          ListsNext(eventsList, it, e.kind);
          if curEvent.kind == e.kind {
            resetTypeBit := false;
          }
          it := it + 1;
        }
      }
      WithoutEnd(eventsList, e);
      if resetTypeBit {
        scriptEventsBitField := WithoutBit(scriptEventsBitField, e.kind);
      }
      ok := true;
    }

    /** getCreatureEvents: leaving early by the bit is the same as filtering the list. */
    method GetCreatureEvents(kind: Kind) returns (r: seq<Event>)
      requires Valid(Now())
      ensures r == OfKind(eventsList, kind)
    {
      NoneOfKind(eventsList, kind);
      r := [];
      if !Has(scriptEventsBitField, kind) {
        return;
      }
      for n := 0 to |eventsList|
        invariant r == OfKind(eventsList[..n], kind)
      {
        OfKindPushed(eventsList[..n], eventsList[n], kind);
        assert eventsList[..n + 1] == eventsList[..n] + [eventsList[n]];
        if eventsList[n].kind == kind {
          r := r + [eventsList[n]];
        }
      }
      assert eventsList[..|eventsList|] == eventsList;
    }
  }

  lemma WithoutEnd(events: seq<Event>, e: Event)
    ensures events[..|events|] == events && events[..|events|] + Without(events[|events|..], e) == events
  {
    assert Without([], e) == [];
  }

  lemma ListsNext(events: seq<Event>, it: nat, kind: Kind)
    requires it < |events|
    ensures Lists(events[..it + 1], kind) <==> Lists(events[..it], kind) || events[it].kind == kind
  {
    ListsConcat(events[..it], [events[it]], kind);
    ListsOne(events[it], kind);
    assert events[..it + 1] == events[..it] + [events[it]];
  }

  lemma WithoutNext(events: seq<Event>, it: nat, e: Event)
    requires it < |events|
    ensures events[..it] + Without(events[it..], e) ==
      (if events[it] == e then events[..it] else events[..it + 1]) + Without(events[it + 1..], e)
  {
    assert events[it..][1..] == events[it + 1..] && events[it..][0] == events[it];
    var rest := Without(events[it + 1..], e);
    assert Without(events[it..], e) == if events[it] == e then rest else [events[it]] + rest;
    hide Without;
    assert events[..it + 1] == events[..it] + [events[it]];
    assert events[..it] + ([events[it]] + rest) == events[..it] + [events[it]] + rest;
  }
}
