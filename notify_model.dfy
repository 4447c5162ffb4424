/**
 * The change-notification base class `CoreNotifyModel`: a `PropertyChanged`
 * event with a subscriber list, the broadcast helpers `OnAllPropertyChanged`
 * and the three `OnPropertyChanged` overloads, and the guarded setter
 * `SetProperty` with its writer `PropertyNewValue`.
 *
 * The observable state is a `Model` value: the subscriber list, one property
 * cell and the log of raised events. The pure functions below give the new
 * state of each operation; the class `ObservableModel` keeps the same state in
 * fields and its methods are proved to move it exactly as those functions say.
 */
module NotifyModel {
  import opened Wrappers
  import opened Handlers

  /** A property name as C# passes it: `None` is `null`, the "all properties" wildcard. */
  type PropertyName = Option<string>

  /**
   * One raised `PropertyChanged` event: the name carried by its
   * `PropertyChangedEventArgs`, the subscribers it reached (in invocation
   * order) and the value of the property cell those subscribers could read
   * from the sender while it ran.
   */
  datatype Event<T> = Event(name: PropertyName, receivers: seq<Handler>, cell: Option<T>)

  /** Observable state of one model object. */
  datatype Model<T> = Model(subscribers: seq<Handler>, cell: Option<T>, log: seq<Event<T>>)

  // ---------------------------------------------------------------------------
  // String.IsNullOrWhiteSpace
  // ---------------------------------------------------------------------------

  /**
   * Char.IsWhiteSpace: the Unicode space, line and paragraph separators,
   * U+0009 to U+000D and U+0085.
   */
  predicate IsWhiteSpace(c: char)
  {
    var n := c as int;
    (0x09 <= n <= 0x0D) || n == 0x20 || n == 0x85 || n == 0xA0 || n == 0x1680
    || (0x2000 <= n <= 0x200A) || n == 0x2028 || n == 0x2029 || n == 0x202F
    || n == 0x205F || n == 0x3000
  }

  /** String.IsNullOrWhiteSpace: null, empty, or white space only. */
  predicate IsNullOrWhiteSpace(name: PropertyName)
    ensures IsNullOrWhiteSpace(name) <==> name.None? || forall c :: c in name.value ==> IsWhiteSpace(c)
    ensures name == Some("") ==> IsNullOrWhiteSpace(name)
  {
    match name
    case None => true
    case Some(s) => forall i :: 0 <= i < |s| ==> IsWhiteSpace(s[i])
  }

  /** The names the sequence overloads broadcast: those passing the `Where` filter, in order. */
  function Kept(names: seq<PropertyName>): (r: seq<PropertyName>)
    ensures |r| <= |names|
    ensures forall n :: n in r <==> n in names && !IsNullOrWhiteSpace(n)
  {
    if names == [] then []
    else (if IsNullOrWhiteSpace(names[0]) then [] else [names[0]]) + Kept(names[1..])
  }

  /** Filtering distributes over concatenation, so kept names stay in input order. */
  lemma {:induction false} KeptAppend(a: seq<PropertyName>, b: seq<PropertyName>)
    ensures Kept(a + b) == Kept(a) + Kept(b)
  {
    if a != [] {
      assert (a + b)[0] == a[0];
      assert (a + b)[1..] == a[1..] + b;
      KeptAppend(a[1..], b);
    } else {
      assert a + b == b;
    }
  }

  /** No deduplication: a kept name occurs in the output as often as in the input. */
  lemma {:induction false} KeptCount(names: seq<PropertyName>, n: PropertyName)
    ensures multiset(Kept(names))[n] == if IsNullOrWhiteSpace(n) then 0 else multiset(names)[n]
  {
    if names != [] {
      assert names == [names[0]] + names[1..];
      KeptCount(names[1..], n);
    }
  }

  /** The filtering example `["", "  ", "X", null]`: only "X" is kept. */
  lemma KeptExample()
    ensures Kept([Some(""), Some("  "), Some("X"), None]) == [Some("X")]
  {
    assert !IsNullOrWhiteSpace(Some("X")) by { assert !IsWhiteSpace("X"[0]); }
  }

  // ---------------------------------------------------------------------------
  // Raising PropertyChanged
  // ---------------------------------------------------------------------------

  /**
   * The events `PropertyChanged?.Invoke` raises for each name in turn: one
   * per name, delivered to the whole subscriber list, none when the list is
   * empty (the `?.` guard).
   */
  function EventsFor<T>(names: seq<PropertyName>, subscribers: seq<Handler>, cell: Option<T>): (r: seq<Event<T>>)
    ensures |r| == if subscribers == [] then 0 else |names|
  {
    if subscribers == [] || names == [] then []
    else [Event(names[0], subscribers, cell)] + EventsFor(names[1..], subscribers, cell)
  }

  /** The i-th event carries the i-th name and reaches the whole subscriber list. */
  lemma {:induction false} EventsForAt<T>(names: seq<PropertyName>, subscribers: seq<Handler>, cell: Option<T>, i: nat)
    requires subscribers != [] && i < |names|
    ensures EventsFor(names, subscribers, cell)[i] == Event(names[i], subscribers, cell)
  {
    if i > 0 {
      EventsForAt(names[1..], subscribers, cell, i - 1);
    }
  }

  lemma {:induction false} EventsForAppend<T>(a: seq<PropertyName>, b: seq<PropertyName>, subscribers: seq<Handler>, cell: Option<T>)
    ensures EventsFor(a + b, subscribers, cell) == EventsFor(a, subscribers, cell) + EventsFor(b, subscribers, cell)
  {
    if a == [] {
      assert a + b == b;
    } else if subscribers != [] {
      var e := Event(a[0], subscribers, cell);
      assert (a + b)[0] == a[0];
      assert (a + b)[1..] == a[1..] + b;
      EventsForAppend(a[1..], b, subscribers, cell);
      calc {
        EventsFor(a + b, subscribers, cell);
        [e] + EventsFor(a[1..] + b, subscribers, cell);
        [e] + (EventsFor(a[1..], subscribers, cell) + EventsFor(b, subscribers, cell));
        ([e] + EventsFor(a[1..], subscribers, cell)) + EventsFor(b, subscribers, cell);
      }
    }
  }

  // ---------------------------------------------------------------------------
  // The operations as state transitions
  // ---------------------------------------------------------------------------

  /** `PropertyChanged += h` */
  function Subscribe<T>(m: Model<T>, h: Handler): (r: Model<T>)
    ensures r.cell == m.cell && r.log == m.log
    ensures |r.subscribers| == |m.subscribers| + 1 && r.subscribers[|m.subscribers|] == h
    ensures r.subscribers[..|m.subscribers|] == m.subscribers
  {
    m.(subscribers := m.subscribers + [h])
  }

  /** `PropertyChanged -= h` */
  function Unsubscribe<T>(m: Model<T>, h: Handler): (r: Model<T>)
    ensures r.cell == m.cell && r.log == m.log
    ensures multiset(r.subscribers) == multiset(m.subscribers) - multiset{h}
  {
    RemoveLastMultiset(m.subscribers, h);
    m.(subscribers := RemoveLast(m.subscribers, h))
  }

  /** `OnPropertyChanged(name)`: raise one event carrying `name` as given. */
  function Notify<T>(m: Model<T>, name: PropertyName): (r: Model<T>)
    ensures r.cell == m.cell && r.subscribers == m.subscribers
    ensures |r.log| == |m.log| + (if m.subscribers == [] then 0 else 1)
    ensures r.log[..|m.log|] == m.log
    ensures m.subscribers != [] ==> r.log[|m.log|] == Event(name, m.subscribers, m.cell)
  {
    m.(log := m.log + EventsFor([name], m.subscribers, m.cell))
  }

  /** `OnAllPropertyChanged()`: raise one event carrying the null wildcard. */
  function NotifyAll<T>(m: Model<T>): (r: Model<T>)
    ensures r.cell == m.cell && r.subscribers == m.subscribers
    ensures m.subscribers == [] ==> r == m
    ensures m.subscribers != [] ==> r.log == m.log + [Event(None, m.subscribers, m.cell)]
  {
    Notify(m, None)
  }

  /** The sequence and `params` overloads of `OnPropertyChanged`. */
  function NotifyMany<T>(m: Model<T>, names: seq<PropertyName>): (r: Model<T>)
    ensures r.cell == m.cell && r.subscribers == m.subscribers
    ensures |r.log| == |m.log| + (if m.subscribers == [] then 0 else |Kept(names)|)
    ensures r.log[..|m.log|] == m.log
  {
    m.(log := m.log + EventsFor(Kept(names), m.subscribers, m.cell))
  }

  /** `PropertyNewValue`: overwrite the field, then notify. */
  function NewValue<T>(m: Model<T>, v: Option<T>, name: PropertyName): (r: Model<T>)
    ensures r.cell == v && r.subscribers == m.subscribers
    ensures m.subscribers == [] ==> r.log == m.log
    ensures m.subscribers != [] ==> r.log == m.log + [Event(name, m.subscribers, v)]
  {
    Notify(m.(cell := v), name)
  }

  /**
   * The change test of `SetProperty`: the stored value is non-null and not
   * `Equals` to the new one, or it is null and the new one is not.
   */
  predicate Differs<T(==)>(current: Option<T>, v: Option<T>)
    ensures Differs(current, v) <==> current != v
  {
    (current.Some? && !(v.Some? && current.value == v.value)) || (current.None? && v.Some?)
  }

  /** `SetProperty`: write and notify only when the value differs. */
  function Set<T(==)>(m: Model<T>, v: Option<T>, name: PropertyName): (r: Model<T>)
    ensures m.cell == v ==> r == m
    ensures m.cell != v ==> r.cell == v && r.subscribers == m.subscribers
    ensures m.cell != v && m.subscribers != [] ==> r.log == m.log + [Event(name, m.subscribers, v)]
    ensures m.cell != v && m.subscribers == [] ==> r.log == m.log
  {
    if Differs(m.cell, v) then NewValue(m, v, name) else m
  }

  // ---------------------------------------------------------------------------
  // Properties
  // ---------------------------------------------------------------------------

  /** `OnAllPropertyChanged` raises exactly one event, with the wildcard name, to every subscriber. */
  lemma NotifyAllRaisesWildcard<T>(m: Model<T>)
    requires m.subscribers != []
    ensures NotifyAll(m).log == m.log + [Event(None, m.subscribers, m.cell)]
    ensures NotifyAll(m).subscribers == m.subscribers && NotifyAll(m).cell == m.cell
  {
  }

  /** `OnPropertyChanged(name)` raises exactly one event whose name is `name` unchanged, "" included. */
  lemma NotifyPassesName<T>(m: Model<T>, name: PropertyName)
    requires m.subscribers != []
    ensures Notify(m, name).log == m.log + [Event(name, m.subscribers, m.cell)]
    ensures Notify(m, name).subscribers == m.subscribers && Notify(m, name).cell == m.cell
  {
  }

  /** With no subscriber, no notify operation has any observable effect. */
  lemma SilentWithoutSubscribers<T>(m: Model<T>, name: PropertyName, names: seq<PropertyName>)
    requires m.subscribers == []
    ensures NotifyAll(m) == m && Notify(m, name) == m && NotifyMany(m, names) == m
  {
  }

  /**
   * The sequence overloads raise one event per kept name, in input order,
   * and never touch the property cell or the subscriber list.
   */
  lemma NotifyManyEvents<T>(m: Model<T>, names: seq<PropertyName>)
    requires m.subscribers != []
    ensures var r := NotifyMany(m, names);
      && r.cell == m.cell && r.subscribers == m.subscribers
      && |r.log| == |m.log| + |Kept(names)|
      && r.log[..|m.log|] == m.log
      && forall i :: 0 <= i < |Kept(names)| ==> r.log[|m.log| + i] == Event(Kept(names)[i], m.subscribers, m.cell)
  {
    forall i | 0 <= i < |Kept(names)|
      ensures NotifyMany(m, names).log[|m.log| + i] == Event(Kept(names)[i], m.subscribers, m.cell)
    {
      EventsForAt(Kept(names), m.subscribers, m.cell, i);
    }
  }

  /** Broadcasting `a + b` is broadcasting `a`, then `b`. */
  lemma NotifyManySplits<T>(m: Model<T>, a: seq<PropertyName>, b: seq<PropertyName>)
    ensures NotifyMany(m, a + b) == NotifyMany(NotifyMany(m, a), b)
  {
    var ea := EventsFor(Kept(a), m.subscribers, m.cell);
    var eb := EventsFor(Kept(b), m.subscribers, m.cell);
    KeptAppend(a, b);
    EventsForAppend(Kept(a), Kept(b), m.subscribers, m.cell);
    assert EventsFor(Kept(a + b), m.subscribers, m.cell) == ea + eb;
    assert m.log + (ea + eb) == (m.log + ea) + eb;
  }

  /** A changed value is stored and announced exactly once, after the write. */
  lemma SetChanges<T>(m: Model<T>, v: Option<T>, name: PropertyName)
    requires m.cell != v
    ensures Set(m, v, name).cell == v
    ensures Set(m, v, name).subscribers == m.subscribers
    ensures Set(m, v, name).log
      == m.log + (if m.subscribers == [] then [] else [Event(name, m.subscribers, v)])
  {
  }

  /** An equal value (both null included) is neither stored nor announced. */
  lemma SetUnchanged<T>(m: Model<T>, v: Option<T>, name: PropertyName)
    requires m.cell == v
    ensures Set(m, v, name) == m
  {
  }

  /** Repeated identical writes are free of observable effect. */
  lemma SetIdempotent<T>(m: Model<T>, v: Option<T>, name: PropertyName)
    ensures Set(Set(m, v, name), v, name) == Set(m, v, name)
  {
  }

  // ---------------------------------------------------------------------------
  // The class
  // ---------------------------------------------------------------------------

  /** `CoreNotifyModel` holding one property of type `T`. */
  class ObservableModel<T(==)> {
    /** The invocation list of `PropertyChanged`. */
    var subscribers: seq<Handler>
    /** The backing field the setters write through `ref`. */
    var cell: Option<T>
    /** Every event raised so far. */
    var log: seq<Event<T>>

    function State(): Model<T>
      reads this
    {
      Model(subscribers, cell, log)
    }

    /** A new model has no subscribers and has raised nothing. */
    constructor (initial: Option<T>)
      ensures State() == Model([], initial, [])
    {
      subscribers := [];
      cell := initial;
      log := [];
    }

    method AddPropertyChanged(h: Handler)
      modifies this
      ensures State() == Subscribe(old(State()), h)
    {
      subscribers := subscribers + [h];
    }

    method RemovePropertyChanged(h: Handler)
      modifies this
      ensures State() == Unsubscribe(old(State()), h)
    {
      subscribers := RemoveLast(subscribers, h);
    }

    /** `PropertyChanged?.Invoke(this, new PropertyChangedEventArgs(name))` */
    method Raise(name: PropertyName)
      modifies this
      ensures State() == Notify(old(State()), name)
    {
      if subscribers != [] {
        log := log + [Event(name, subscribers, cell)];
      }
    }

    method OnAllPropertyChanged()
      modifies this
      ensures State() == NotifyAll(old(State()))
    {
      Raise(None);
    }

    method OnPropertyChanged(name: PropertyName)
      modifies this
      ensures State() == Notify(old(State()), name)
    {
      Raise(name);
    }

    /** The `IEnumerable<string>` overload. */
    method OnPropertyChangedList(names: seq<PropertyName>)
      modifies this
      ensures State() == NotifyMany(old(State()), names)
    {
      var i := 0;
      while i < |names|
        invariant 0 <= i <= |names|
        invariant State() == NotifyMany(old(State()), names[..i])
      {
        if !IsNullOrWhiteSpace(names[i]) {
          Raise(names[i]);
        }
        assert names[..i + 1] == names[..i] + [names[i]];
        NotifyManySplits(old(State()), names[..i], [names[i]]);
        i := i + 1;
      }
      assert names[..i] == names;
    }

    /** The `params string[]` overload; its body is the same loop as the list overload's. */
    method OnPropertyChangedParams(names: array<PropertyName>)
      modifies this
      ensures State() == NotifyMany(old(State()), names[..])
    {
      OnPropertyChangedList(names[..]);
    }

    method PropertyNewValue(v: Option<T>, name: PropertyName)
      modifies this
      ensures State() == NewValue(old(State()), v, name)
    {
      cell := v;
      OnPropertyChanged(name);
    }

    method SetProperty(v: Option<T>, name: PropertyName)
      modifies this
      ensures State() == Set(old(State()), v, name)
    {
      if Differs(cell, v) {
        PropertyNewValue(v, name);
      }
    }
  }

  /**
   * Two listeners; writing "B" over "A" reaches both once with the name
   * "Name"; writing "B" again reaches neither.
   */
  method SetPropertyScenario()
  {
    var m := new ObservableModel<string>(Some("A"));
    m.AddPropertyChanged(1);
    m.AddPropertyChanged(2);
    assert m.subscribers == [1, 2];
    assert "A" != "B" by { assert "A"[0] != "B"[0]; }
    ghost var before := m.State();
    m.SetProperty(Some("B"), Some("Name"));
    SetChanges(before, Some("B"), Some("Name"));
    assert m.log == [Event(Some("Name"), [1, 2], Some("B"))];
    ghost var after := m.State();
    m.SetProperty(Some("B"), Some("Name"));
    SetUnchanged(after, Some("B"), Some("Name"));
    assert m.log == [Event(Some("Name"), [1, 2], Some("B"))];
  }
}
