/**
 * The registered channels as a value, for members of any type, and how joining, leaving and archiving
 * change them.
 */
module Rooms {

  datatype Channel<T> = Channel(
    members: set<T>, restricted: bool, sharedWith: set<string>, persistent: bool, archived: bool)

  function NewChannel<T>(): Channel<T> { Channel({}, false, {}, false, false) }

  function ChannelOr<T>(channels: map<string, Channel<T>>, ch: string): Channel<T> {
    if ch in channels then channels[ch] else NewChannel()
  }

  function WithMembers<T>(channels: map<string, Channel<T>>, ch: string, ms: set<T>): map<string, Channel<T>> {
    channels[ch := ChannelOr(channels, ch).(members := ChannelOr(channels, ch).members + ms)]
  }

  /** Removing `ms` empties a channel that held some of them, and nothing keeps it registered. */
  predicate Emptied<T>(c: Channel<T>, ms: set<T>, keepPersistent: bool) {
    c.members * ms != {} && c.members <= ms && !(keepPersistent && c.persistent)
  }

  function Without<T>(c: Channel<T>, ms: set<T>): Channel<T> { c.(members := c.members - ms) }

  /** Every channel loses `ms`; those emptied by it are deleted. */
  function Vacate<T>(channels: map<string, Channel<T>>, ms: set<T>, keepPersistent: bool): map<string, Channel<T>> {
    map ch | ch in channels && !Emptied(channels[ch], ms, keepPersistent) :: Without(channels[ch], ms)
  }

  /** One channel loses `m` and is deleted if that leaves it empty. */
  function Leave<T>(channels: map<string, Channel<T>>, ch: string, m: T, keepPersistent: bool): map<string, Channel<T>>
    requires ch in channels
  {
    var c := Without(channels[ch], {m});
    if c.members == {} && !(keepPersistent && c.persistent) then channels - {ch} else channels[ch := c]
  }

  /** The channel empties, is marked archived and moves to a new name. */
  function Archived<T>(channels: map<string, Channel<T>>, ch: string, newName: string): map<string, Channel<T>>
    requires ch in channels
  {
    (channels - {ch})[newName := channels[ch].(members := {}, archived := true)]
  }

  lemma EmptiedByOne<T>(c: Channel<T>, m: T, keepPersistent: bool)
    ensures Emptied(c, {m}, keepPersistent) <==> c.members == {m} && !(keepPersistent && c.persistent)
  {
    if m in c.members { assert m in c.members * {m}; }
  }

  lemma VacateIs<T>(channels: map<string, Channel<T>>, channels': map<string, Channel<T>>, m: T, keepPersistent: bool)
    requires forall ch :: ch in channels' <==> ch in channels && !Emptied(channels[ch], {m}, keepPersistent)
    requires forall ch :: ch in channels' ==> channels'[ch] == Without(channels[ch], {m})
    ensures channels' == Vacate(channels, {m}, keepPersistent)
  {
  }

  /** Leaving is losing the member, then deleting the channel if that left it empty. */
  lemma LeaveIs<T>(channels: map<string, Channel<T>>, ch: string, m: T, keepPersistent: bool)
    requires ch in channels
    ensures var less := channels[ch := Without(channels[ch], {m})];
      Leave(channels, ch, m, keepPersistent) ==
        if less[ch].members == {} && !(keepPersistent && less[ch].persistent) then less - {ch} else less
  {
    assert channels[ch := Without(channels[ch], {m})] - {ch} == channels - {ch};
  }

  /** When nothing keeps an empty channel, leaving one after the other is leaving together. */
  lemma VacateTwice<T>(channels: map<string, Channel<T>>, a: set<T>, b: set<T>)
    ensures Vacate(Vacate(channels, a, false), b, false) == Vacate(channels, a + b, false)
  {
    forall ch | ch in channels
      ensures Emptied(channels[ch], a + b, false) <==>
              Emptied(channels[ch], a, false) || Emptied(Without(channels[ch], a), b, false)
      ensures Without(Without(channels[ch], a), b) == Without(channels[ch], a + b)
    {
      EmptiedTwice(channels[ch].members, a, b);
      assert channels[ch].members - a - b == channels[ch].members - (a + b);
    }
  }

  lemma EmptiedTwice<T>(ms: set<T>, a: set<T>, b: set<T>)
    ensures (ms * (a + b) != {} && ms <= a + b) <==> (ms * a != {} && ms <= a) || ((ms - a) * b != {} && ms - a <= b)
  {
    assert ms * (a + b) == ms * a + (ms - a) * b + ms * a * b;
    if ms <= a + b && !(ms <= a) {
      var x :| x in ms && x !in a;
      assert x in (ms - a) * b;
    }
  }

  lemma VacateNobody<T>(channels: map<string, Channel<T>>, keepPersistent: bool)
    ensures Vacate(channels, {}, keepPersistent) == channels
  {
    forall ch | ch in channels
      ensures Without(channels[ch], {}) == channels[ch] && !Emptied(channels[ch], {}, keepPersistent)
    {
    }
  }

  /** Members stay members. */
  lemma JoinNobody<T>(channels: map<string, Channel<T>>, ch: string, ms: set<T>)
    requires ch in channels && ms <= channels[ch].members
    ensures WithMembers(channels, ch, ms) == channels
  {
    assert channels[ch].members + ms == channels[ch].members;
  }

  lemma ArchivedIs<T>(channels: map<string, Channel<T>>, ch: string, newName: string)
    requires ch in channels
    ensures
      var bare := channels[ch].(members := {});
      (channels[ch := bare] - {ch})[newName := bare.(archived := true)] == Archived(channels, ch, newName)
  {
    assert channels[ch := channels[ch].(members := {})] - {ch} == channels - {ch};
  }

  lemma JoinTwice<T>(channels: map<string, Channel<T>>, ch: string, a: set<T>, b: set<T>)
    ensures WithMembers(WithMembers(channels, ch, a), ch, b) == WithMembers(channels, ch, a + b)
  {
    assert ChannelOr(channels, ch).members + a + b == ChannelOr(channels, ch).members + (a + b);
  }

  /** One member joining one channel after the other. */
  function JoinAll<T>(channels: map<string, Channel<T>>, names: seq<string>, m: T): map<string, Channel<T>> {
    if names == [] then channels
    else WithMembers(JoinAll(channels, names[..|names| - 1], m), names[|names| - 1], {m})
  }

  lemma JoinAllIs<T>(channels: map<string, Channel<T>>, names: seq<string>, i: nat, m: T)
    requires i <= |names|
    ensures JoinAll(channels, names[..0], m) == channels
    ensures i < |names| ==>
      JoinAll(channels, names[..i + 1], m) == WithMembers(JoinAll(channels, names[..i], m), names[i], {m})
  {
    if i < |names| { assert names[..i + 1][..i] == names[..i]; }
  }

  /** In the end it is on exactly the channels it was on or joined. */
  lemma {:induction false} JoinAllMember<T>(channels: map<string, Channel<T>>, names: seq<string>, m: T, x: T,
                                            ch: string)
    ensures x in ChannelOr(JoinAll(channels, names, m), ch).members <==>
              x in ChannelOr(channels, ch).members || (x == m && ch in names)
    ensures ch in JoinAll(channels, names, m) <==> ch in channels || ch in names
  {
    if names != [] {
      var front, last := names[..|names| - 1], names[|names| - 1];
      assert names == front + [last];
      JoinAllMember(channels, front, m, x, ch);
    }
  }

  // ---------------------------------------------------------------- other names for the same members

  /** The members under the names given to them. */
  function Image<T, U>(ms: set<T>, names: map<T, U>): set<U> {
    set m | m in ms && m in names :: names[m]
  }

  function Renamed<T, U>(c: Channel<T>, names: map<T, U>): Channel<U> {
    Channel(Image(c.members, names), c.restricted, c.sharedWith, c.persistent, c.archived)
  }

  function AllRenamed<T, U>(channels: map<string, Channel<T>>, names: map<T, U>): map<string, Channel<U>> {
    map ch | ch in channels :: Renamed(channels[ch], names)
  }

  /** Everyone in `ms` has a name, and no name of theirs is also that of somebody else. */
  ghost predicate TellsApart<T, U>(names: map<T, U>, ms: set<T>) {
    ms <= names.Keys && forall m, x :: m in ms && x in names && names[m] == names[x] ==> m == x
  }

  ghost predicate AllTold<T, U>(channels: map<string, Channel<T>>, names: map<T, U>) {
    forall ch :: ch in channels ==> TellsApart(names, channels[ch].members)
  }

  lemma ImagePlus<T, U>(a: set<T>, b: set<T>, names: map<T, U>)
    ensures Image(a + b, names) == Image(a, names) + Image(b, names)
  {
  }

  lemma ImageMinus<T, U>(a: set<T>, b: set<T>, names: map<T, U>)
    requires TellsApart(names, a) && b <= names.Keys
    ensures Image(a - b, names) == Image(a, names) - Image(b, names)
    ensures Image(a, names) * Image(b, names) == Image(a * b, names)
    ensures Image(a, names) <= Image(b, names) <==> a <= b
  {
    assert forall m :: m in a ==> (names[m] in Image(b, names) <==> m in b);
    assert forall m :: m in a ==> names[m] in Image(a, names);
  }

  lemma ImageEmpty<T, U>(a: set<T>, names: map<T, U>)
    requires a <= names.Keys
    ensures Image(a, names) == {} <==> a == {}
  {
    if a != {} {
      var m :| m in a;
      assert names[m] in Image(a, names);
    }
  }

  /** Joining is the same under other names. */
  lemma RenamedJoin<T, U>(channels: map<string, Channel<T>>, names: map<T, U>, ch: string, ms: set<T>)
    ensures AllRenamed(WithMembers(channels, ch, ms), names) ==
      WithMembers(AllRenamed(channels, names), ch, Image(ms, names))
  {
    ImagePlus(ChannelOr(channels, ch).members, ms, names);
    assert Image<T, U>({}, names) == {};
  }

  /** Leaving one channel is the same under names that tell its members apart. */
  lemma RenamedLeave<T, U>(channels: map<string, Channel<T>>, names: map<T, U>, ch: string, m: T, keepPersistent: bool)
    requires ch in channels && TellsApart(names, channels[ch].members) && m in names
    ensures AllRenamed(Leave(channels, ch, m, keepPersistent), names)
         == Leave(AllRenamed(channels, names), ch, names[m], keepPersistent)
  {
    ImageMinus(channels[ch].members, {m}, names);
    assert Image({m}, names) == {names[m]};
    ImageEmpty(channels[ch].members - {m}, names);
  }

  /** So is leaving all of them. */
  lemma RenamedVacate<T, U>(channels: map<string, Channel<T>>, names: map<T, U>, ms: set<T>, keepPersistent: bool)
    requires AllTold(channels, names) && ms <= names.Keys
    ensures AllRenamed(Vacate(channels, ms, keepPersistent), names)
         == Vacate(AllRenamed(channels, names), Image(ms, names), keepPersistent)
  {
    forall ch | ch in channels
      ensures Emptied(Renamed(channels[ch], names), Image(ms, names), keepPersistent) ==
        Emptied(channels[ch], ms, keepPersistent)
      ensures Renamed(Without(channels[ch], ms), names) == Without(Renamed(channels[ch], names), Image(ms, names))
    {
      ImageMinus(channels[ch].members, ms, names);
      ImageEmpty(channels[ch].members * ms, names);
    }
  }

  lemma RenamedArchive<T, U>(channels: map<string, Channel<T>>, names: map<T, U>, ch: string, newName: string)
    requires ch in channels
    ensures AllRenamed(Archived(channels, ch, newName), names) == Archived(AllRenamed(channels, names), ch, newName)
  {
    assert Image<T, U>({}, names) == {};
  }
}
