/**
 * The registry: three keyed catalogues (notification types, channels, frequencies) held by one
 * object. Each catalogue keeps insertion order; registering a key again replaces the entry.
 */
module Registry {
  import opened Wrappers
  import opened Catalog
  import opened Definitions

  datatype RegistryError =
    | NotASubclass(expected: string)   // ValueError from a register call
    | NotFound(key: string)            // KeyError from a get call

  function ErrorMessage(e: RegistryError): (m: string)
  {
    match e
    case NotASubclass(expected) => "Must register a " + expected + " subclass"
    case NotFound(key) => key
  }

  /** Every entry is stored under its own key, and no key occurs twice. */
  predicate KeyedTypes(es: Entries<NotificationType>) {
    Distinct(Keys(es)) && forall e | e in es :: e.0 == e.1.key
  }

  predicate KeyedChannels(es: Entries<Channel>) {
    Distinct(Keys(es)) && forall e | e in es :: e.0 == e.1.key
  }

  predicate KeyedFrequencies(es: Entries<Frequency>) {
    Distinct(Keys(es)) && forall e | e in es :: e.0 == e.1.key
  }

  /** The registered frequencies that deliver immediately, in registration order. */
  function RealtimeOnly(fs: seq<Frequency>): (r: seq<Frequency>)
    ensures forall f :: f in r <==> f in fs && f.isRealtime
    ensures |r| <= |fs|
  {
    if fs == [] then []
    else if fs[0].isRealtime then [fs[0]] + RealtimeOnly(fs[1..])
    else RealtimeOnly(fs[1..])
  }

  class NotificationRegistry {
    var types: Entries<NotificationType>
    var channels: Entries<Channel>
    var frequencies: Entries<Frequency>

    ghost predicate Valid()
      reads this
    {
      KeyedTypes(types) && KeyedChannels(channels) && KeyedFrequencies(frequencies)
    }

    /** A fresh registry holds no types, channels or frequencies. */
    constructor ()
      ensures Valid()
      ensures types == [] && channels == [] && frequencies == []
    {
      types, channels, frequencies := [], [], [];
    }

    method RegisterType(candidate: Registrable) returns (r: Outcome<RegistryError>)
      requires Valid()
      modifies this
      ensures Valid()
      ensures candidate.TypeClass? ==>
        r == Pass && types == Put(old(types), candidate.notificationType.key, candidate.notificationType)
      ensures !candidate.TypeClass? ==>
        r == Fail(NotASubclass("NotificationType")) && types == old(types)
      ensures channels == old(channels) && frequencies == old(frequencies)
    {
      if candidate.TypeClass? {
        var t := candidate.notificationType;
        PutDistinct(types, t.key, t);
        PutEntries(types, t.key, t);
        types := Put(types, t.key, t);
        r := Pass;
      } else {
        r := Fail(NotASubclass("NotificationType"));
      }
    }

    method RegisterChannel(candidate: Registrable) returns (r: Outcome<RegistryError>)
      requires Valid()
      modifies this
      ensures Valid()
      ensures candidate.ChannelClass? ==>
        r == Pass && channels == Put(old(channels), candidate.channel.key, candidate.channel)
      ensures !candidate.ChannelClass? ==>
        r == Fail(NotASubclass("BaseChannel")) && channels == old(channels)
      ensures types == old(types) && frequencies == old(frequencies)
    {
      if candidate.ChannelClass? {
        var c := candidate.channel;
        PutDistinct(channels, c.key, c);
        PutEntries(channels, c.key, c);
        channels := Put(channels, c.key, c);
        r := Pass;
      } else {
        r := Fail(NotASubclass("BaseChannel"));
      }
    }

    method RegisterFrequency(candidate: Registrable) returns (r: Outcome<RegistryError>)
      requires Valid()
      modifies this
      ensures Valid()
      ensures candidate.FrequencyClass? ==>
        r == Pass && frequencies == Put(old(frequencies), candidate.frequency.key, candidate.frequency)
      ensures !candidate.FrequencyClass? ==>
        r == Fail(NotASubclass("BaseFrequency")) && frequencies == old(frequencies)
      ensures types == old(types) && channels == old(channels)
    {
      if candidate.FrequencyClass? {
        var f := candidate.frequency;
        PutDistinct(frequencies, f.key, f);
        PutEntries(frequencies, f.key, f);
        frequencies := Put(frequencies, f.key, f);
        r := Pass;
      } else {
        r := Fail(NotASubclass("BaseFrequency"));
      }
    }

    /** The registered type stored under `key`; a missing key is a KeyError. */
    function GetType(key: string): (r: Result<NotificationType, RegistryError>)
      reads this
      requires Valid()
      ensures r.Ok? <==> key in Keys(types)
      ensures r.Ok? ==> r.value.key == key && r.value in Values(types)
      ensures r.Err? ==> r.error == NotFound(key)
    {
      match Find(types, key)
      case Some(t) => Ok(t)
      case None => Err(NotFound(key))
    }

    function GetChannel(key: string): (r: Result<Channel, RegistryError>)
      reads this
      requires Valid()
      ensures r.Ok? <==> key in Keys(channels)
      ensures r.Ok? ==> r.value.key == key && r.value in Values(channels)
      ensures r.Err? ==> r.error == NotFound(key)
    {
      match Find(channels, key)
      case Some(c) => Ok(c)
      case None => Err(NotFound(key))
    }

    function GetFrequency(key: string): (r: Result<Frequency, RegistryError>)
      reads this
      requires Valid()
      ensures r.Ok? <==> key in Keys(frequencies)
      ensures r.Ok? ==> r.value.key == key && r.value in Values(frequencies)
      ensures r.Err? ==> r.error == NotFound(key)
    {
      match Find(frequencies, key)
      case Some(f) => Ok(f)
      case None => Err(NotFound(key))
    }

    /** One entry per registration, in registration order, each found again under its key. */
    function AllTypes(): (r: seq<NotificationType>)
      reads this
      ensures |r| == |types|
      ensures Valid() ==> forall i | 0 <= i < |r| :: GetType(r[i].key) == Ok(r[i])
    {
      FindEach(types);
      assert forall i | 0 <= i < |types| :: types[i] in types;
      Values(types)
    }

    /** One entry per registration, in registration order, each found again under its key. */
    function AllChannels(): (r: seq<Channel>)
      reads this
      ensures |r| == |channels|
      ensures Valid() ==> forall i | 0 <= i < |r| :: GetChannel(r[i].key) == Ok(r[i])
    {
      FindEach(channels);
      assert forall i | 0 <= i < |channels| :: channels[i] in channels;
      Values(channels)
    }

    /** One entry per registration, in registration order, each found again under its key. */
    function AllFrequencies(): (r: seq<Frequency>)
      reads this
      ensures |r| == |frequencies|
      ensures Valid() ==> forall i | 0 <= i < |r| :: GetFrequency(r[i].key) == Ok(r[i])
    {
      FindEach(frequencies);
      assert forall i | 0 <= i < |frequencies| :: frequencies[i] in frequencies;
      Values(frequencies)
    }

    /** Exactly the registered frequencies flagged realtime; empty when there are none. */
    function RealtimeFrequencies(): (r: seq<Frequency>)
      reads this
      ensures forall f :: f in r <==> f in Values(frequencies) && f.isRealtime
    {
      RealtimeOnly(Values(frequencies))
    }

    /** Removes the entry under the class's key; reports whether there was one. */
    method UnregisterType(t: NotificationType) returns (removed: bool)
      requires Valid()
      modifies this
      ensures Valid()
      ensures removed == (t.key in Keys(old(types)))
      ensures types == Remove(old(types), t.key)
      ensures |types| == if removed then |old(types)| - 1 else |old(types)|
      ensures channels == old(channels) && frequencies == old(frequencies)
    {
      removed := Find(types, t.key).Some?;
      RemoveCount(types, t.key);
      types := Remove(types, t.key);
    }

    method UnregisterChannel(c: Channel) returns (removed: bool)
      requires Valid()
      modifies this
      ensures Valid()
      ensures removed == (c.key in Keys(old(channels)))
      ensures channels == Remove(old(channels), c.key)
      ensures |channels| == if removed then |old(channels)| - 1 else |old(channels)|
      ensures types == old(types) && frequencies == old(frequencies)
    {
      removed := Find(channels, c.key).Some?;
      RemoveCount(channels, c.key);
      channels := Remove(channels, c.key);
    }

    method UnregisterFrequency(f: Frequency) returns (removed: bool)
      requires Valid()
      modifies this
      ensures Valid()
      ensures removed == (f.key in Keys(old(frequencies)))
      ensures frequencies == Remove(old(frequencies), f.key)
      ensures |frequencies| == if removed then |old(frequencies)| - 1 else |old(frequencies)|
      ensures types == old(types) && channels == old(channels)
    {
      removed := Find(frequencies, f.key).Some?;
      RemoveCount(frequencies, f.key);
      frequencies := Remove(frequencies, f.key);
    }

    method ClearTypes()
      requires Valid()
      modifies this
      ensures Valid()
      ensures types == [] && channels == old(channels) && frequencies == old(frequencies)
    {
      types := [];
    }

    method ClearChannels()
      requires Valid()
      modifies this
      ensures Valid()
      ensures channels == [] && types == old(types) && frequencies == old(frequencies)
    {
      channels := [];
    }

    method ClearFrequencies()
      requires Valid()
      modifies this
      ensures Valid()
      ensures frequencies == [] && types == old(types) && channels == old(channels)
    {
      frequencies := [];
    }
  }

  /** Registering the same key twice keeps one entry, holding the later registration. */
  lemma ReRegisterReplaces(es: Entries<NotificationType>, first: NotificationType, second: NotificationType)
    requires first.key == second.key
    ensures Find(Put(Put(es, first.key, first), second.key, second), first.key) == Some(second)
    ensures |Put(Put(es, first.key, first), second.key, second)| == |Put(es, first.key, first)|
  {
    var once := Put(es, first.key, first);
    PutKeys(once, second.key, second);
  }

  /**
   * A client of the registry: what a second instance holds is independent of the first, and a
   * register/get/unregister/clear sequence behaves as the catalogue operations promise.
   */
  method RegistryWalkthrough(t: NotificationType, c: Channel)
  {
    var r1 := new NotificationRegistry();
    var r2 := new NotificationRegistry();
    assert |r1.AllTypes()| == 0 && |r1.AllChannels()| == 0 && |r1.AllFrequencies()| == 0;
    var ok := r1.RegisterType(TypeClass(t));
    assert r1.GetType(t.key) == Ok(t);
    assert r2.GetType(t.key) == Err(NotFound(t.key));
    var bad := r1.RegisterChannel(OtherValue("not_a_channel_object"));
    assert bad == Fail(NotASubclass("BaseChannel"));
    ok := r1.RegisterChannel(ChannelClass(c));
    var removed := r1.UnregisterType(t);
    assert removed && r1.GetType(t.key).Err?;
    removed := r1.UnregisterType(t);
    assert !removed;
    r1.ClearChannels();
    assert r1.GetChannel(c.key).Err? && r1.AllChannels() == [];
  }
}
