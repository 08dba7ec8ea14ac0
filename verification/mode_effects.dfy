/**
 * What MODE does, said of the items a mode string and its parameters spell out: for each flag of the channel
 * the last item that is about it decides.
 */
module ModeEffects {
  import opened Text
  import opened ChannelModes

  /** A letter under its sign, with its parameter if it is one of those that take one. */
  datatype Item = Item(plus: bool, letter: char, param: string)

  /** The items of a mode string: o, v and S use up a parameter each, and are nothing when none is left. */
  function Items(plus: bool, modestring: string, params: seq<string>): seq<Item>
    decreases |modestring|
  {
    if modestring == "" then []
    else
      var letter, rest := modestring[0], modestring[1..];
      if letter in "+-" then Items(letter == '+', rest, params)
      else if letter !in "ovS" then [Item(plus, letter, "")] + Items(plus, rest, params)
      else if params == [] then Items(plus, rest, params)
      else [Item(plus, letter, params[0])] + Items(plus, rest, params[1..])
  }

  /** The last item that is about something is a plus, or none is and it was so before. */
  ghost predicate Decided(items: seq<Item>, about: Item -> bool, before: bool) {
    (exists i: nat :: LastAbout(items, about, i) && items[i].plus) || (before && NoneAbout(items, about))
  }

  predicate LastAbout(items: seq<Item>, about: Item -> bool, i: nat) {
    i < |items| && about(items[i]) && NoneAbout(items[i + 1..], about)
  }

  predicate NoneAbout(items: seq<Item>, about: Item -> bool) {
    forall i :: 0 <= i < |items| ==> !about(items[i])
  }

  lemma LastShifted(item: Item, items: seq<Item>, about: Item -> bool, i: nat)
    ensures LastAbout([item] + items, about, i + 1) <==> LastAbout(items, about, i)
  {
    if i < |items| { assert ([item] + items)[i + 2..] == items[i + 1..]; }
  }

  lemma NoneShifted(item: Item, items: seq<Item>, about: Item -> bool)
    ensures NoneAbout([item] + items, about) <==> !about(item) && NoneAbout(items, about)
    ensures LastAbout([item] + items, about, 0) <==> about(item) && NoneAbout(items, about)
  {
    var all := [item] + items;
    assert all[0] == item && all[1..] == items;
    if NoneAbout(all, about) {
      forall i | 0 <= i < |items| ensures !about(items[i]) { assert all[i + 1] == items[i]; }
    }
  }

  lemma DecidedNone(about: Item -> bool, before: bool)
    ensures Decided([], about, before) == before
  {
  }

  lemma DecidedCons(item: Item, items: seq<Item>, about: Item -> bool, before: bool)
    ensures Decided([item] + items, about, before) <==>
      Decided(items, about, if about(item) then item.plus else before)
  {
    var all := [item] + items;
    NoneShifted(item, items, about);
    forall i: nat ensures LastAbout(all, about, i + 1) <==> LastAbout(items, about, i) {
      LastShifted(item, items, about, i);
    }
    hide NoneAbout, LastAbout;
    assert all[0] == item && forall i: nat :: i < |items| ==> all[i + 1] == items[i];
    if i: nat :| LastAbout(all, about, i) && i < |all| && all[i].plus {
      assert i > 0 ==> LastAbout(items, about, i - 1) && items[i - 1].plus;
    }
    if i: nat :| LastAbout(items, about, i) && i < |items| && items[i].plus {
      assert LastAbout(all, about, i + 1) && all[i + 1].plus;
    }
  }

  /** Items of the letter that name the member `x` by one of the nicks present. */
  ghost function AboutMember<T>(present: map<string, T>, letter: char, x: T): Item -> bool {
    (item: Item) => item.letter == letter && item.param in present && present[item.param] == x
  }

  function AboutRestricted(): Item -> bool { (item: Item) => item.letter == 'R' }

  function AboutPeer(peer: string): Item -> bool { (item: Item) => item.letter == 'S' && item.param == peer }

  /** The flags `m'` are what the items make of `m`, as far as `x` and `peer` are concerned. */
  ghost predicate Decide<T>(present: map<string, T>, items: seq<Item>, m: Modes<T>, m': Modes<T>, x: T, peer: string) {
    && (x in m'.operators <==> Decided(items, AboutMember(present, 'o', x), x in m.operators))
    && (x in m'.voiced <==> Decided(items, AboutMember(present, 'v', x), x in m.voiced))
    && (m'.restricted <==> Decided(items, AboutRestricted(), m.restricted))
    && (peer in m'.sharedWith <==> Decided(items, AboutPeer(peer), peer in m.sharedWith))
  }

  ghost predicate Changed<T>(present: map<string, T>, item: Item, m: Modes<T>, m': Modes<T>, x: T, peer: string) {
    && (x in m'.operators <==> if AboutMember(present, 'o', x)(item) then item.plus else x in m.operators)
    && (x in m'.voiced <==> if AboutMember(present, 'v', x)(item) then item.plus else x in m.voiced)
    && (m'.restricted <==> if AboutRestricted()(item) then item.plus else m.restricted)
    && (peer in m'.sharedWith <==> if AboutPeer(peer)(item) then item.plus else peer in m.sharedWith)
  }

  lemma NothingDecided<T>(present: map<string, T>, m: Modes<T>, x: T, peer: string)
    ensures Decide(present, [], m, m, x, peer)
  {
    DecidedNone(AboutMember(present, 'o', x), x in m.operators);
    DecidedNone(AboutMember(present, 'v', x), x in m.voiced);
    DecidedNone(AboutRestricted(), m.restricted);
    DecidedNone(AboutPeer(peer), peer in m.sharedWith);
  }

  lemma OneMoreDecided<T>(present: map<string, T>, item: Item, items: seq<Item>, m: Modes<T>, m1: Modes<T>,
                          m': Modes<T>, x: T, peer: string)
    requires Changed(present, item, m, m1, x, peer) && Decide(present, items, m1, m', x, peer)
    ensures Decide(present, [item] + items, m, m', x, peer)
  {
    hide Decided, AboutMember, AboutRestricted, AboutPeer;
    DecidedCons(item, items, AboutMember(present, 'o', x), x in m.operators);
    DecidedCons(item, items, AboutMember(present, 'v', x), x in m.voiced);
    DecidedCons(item, items, AboutRestricted(), m.restricted);
    DecidedCons(item, items, AboutPeer(peer), peer in m.sharedWith);
  }

  /** A letter changes the flag it stands for and no other. */
  lemma ItemEffect<T>(present: map<string, T>, r: ModeRun<T>, letter: char, x: T, peer: string)
    requires letter !in "+-" && (letter in "ovS" ==> r.queue != [])
    ensures Changed(present, Item(r.adding, letter, if letter in "ovS" then r.queue[0] else ""),
                    r.modes, ApplyChar(present, r, letter).modes, x, peer)
  {
  }

  lemma CharQueue<T>(present: map<string, T>, r: ModeRun<T>, letter: char)
    requires letter !in "+-"
    ensures var r' := ApplyChar(present, r, letter);
      && r'.adding == r.adding
      && r'.queue == (if letter in "ovS" && r.queue != [] then r.queue[1..] else r.queue)
      && (letter in "ovS" && r.queue == [] ==> r' == r)
  {
  }

  lemma {:induction false} RunDecides<T>(present: map<string, T>, r: ModeRun<T>, s: string, x: T, peer: string)
    ensures Decide(present, Items(r.adding, s, r.queue), r.modes, ApplyModes(present, r, s).modes, x, peer)
    decreases |s|
  {
    hide Decide, Changed;
    if s == "" {
      NothingDecided(present, r.modes, x, peer);
    } else {
      var r' := ApplyChar(present, r, s[0]);
      RunDecides(present, r', s[1..], x, peer);
      if s[0] !in "+-" {
        CharQueue(present, r, s[0]);
        if s[0] !in "ovS" || r.queue != [] {
          ItemEffect(present, r, s[0], x, peer);
          hide ApplyChar;
          var item := Item(r.adding, s[0], if s[0] in "ovS" then r.queue[0] else "");
          var rest := Items(r'.adding, s[1..], r'.queue);
          OneMoreDecided(present, item, rest, r.modes, r'.modes, ApplyModes(present, r, s).modes, x, peer);
        }
      }
    }
  }

  /**
   * After any MODE string: a member is operator if the last `o` item that names it is a plus, or if none names it
   * and it was operator before; the same for `v` and voice, for `R` and the restriction, and for `S` and each peer.
   * No letter touches any other flag.
   */
  lemma LastItemDecides<T>(present: map<string, T>, before: Modes<T>, modestring: string, params: seq<string>, x: T,
                           peer: string)
    ensures var items := Items(true, modestring, params);
      var after := ApplyModes(present, Start(before, params), modestring).modes;
      && (x in after.operators <==> Decided(items, AboutMember(present, 'o', x), x in before.operators))
      && (x in after.voiced <==> Decided(items, AboutMember(present, 'v', x), x in before.voiced))
      && (after.restricted <==> Decided(items, AboutRestricted(), before.restricted))
      && (peer in after.sharedWith <==> Decided(items, AboutPeer(peer), peer in before.sharedWith))
  {
    RunDecides(present, Start(before, params), modestring, x, peer);
  }

  // ---------------------------------------------------------------- what is broadcast

  /** Items that change something: R, S, and o or v for a nick on the channel. */
  predicate Effective<T>(present: map<string, T>, item: Item) {
    item.letter in "RS" || (item.letter in "ov" && item.param in present)
  }

  /** The effective items, each with its own sign. */
  function Spelled<T>(present: map<string, T>, items: seq<Item>): string {
    if items == [] then ""
    else (if Effective(present, items[0]) then [if items[0].plus then '+' else '-', items[0].letter] else "")
         + Spelled(present, items[1..])
  }

  function SpelledParams<T>(present: map<string, T>, items: seq<Item>): seq<string> {
    if items == [] then []
    else (if Effective(present, items[0]) && items[0].letter != 'R' then [items[0].param] else [])
         + SpelledParams(present, items[1..])
  }

  lemma ItemSpelled<T>(present: map<string, T>, r: ModeRun<T>, letter: char)
    requires letter !in "+-" && (letter in "ovS" ==> r.queue != [])
    ensures var item := Item(r.adding, letter, if letter in "ovS" then r.queue[0] else "");
      var r' := ApplyChar(present, r, letter);
      && r'.applied == r.applied + (if Effective(present, item) then [if item.plus then '+' else '-', letter] else "")
      && r'.params == r.params + (if Effective(present, item) && letter != 'R' then [item.param] else [])
  {
  }

  lemma {:induction false} RunSpells<T>(present: map<string, T>, r: ModeRun<T>, s: string)
    ensures var items, r' := Items(r.adding, s, r.queue), ApplyModes(present, r, s);
      && r'.applied == r.applied + Spelled(present, items) && r'.params == r.params + SpelledParams(present, items)
    decreases |s|
  {
    if s == "" {
      assert r.applied + "" == r.applied && r.params + [] == r.params;
    } else {
      var r' := ApplyChar(present, r, s[0]);
      RunSpells(present, r', s[1..]);
      if s[0] !in "+-" {
        CharQueue(present, r, s[0]);
        if s[0] !in "ovS" || r.queue != [] {
          ItemSpelled(present, r, s[0]);
          hide ApplyChar, Effective;
          var item := Item(r.adding, s[0], if s[0] in "ovS" then r.queue[0] else "");
          var rest := Items(r'.adding, s[1..], r'.queue);
          assert ([item] + rest)[1..] == rest;
          var text := if Effective(present, item) then [if item.plus then '+' else '-', item.letter] else "";
          var params := if Effective(present, item) && item.letter != 'R' then [item.param] else [];
          Assoc(r.applied, text, Spelled(present, rest));
          Assoc(r.params, params, SpelledParams(present, rest));
        }
      }
    }
  }

  /** The broadcast lists exactly the items that changed something, in order, each with its sign and parameter. */
  lemma BroadcastIs<T>(present: map<string, T>, before: Modes<T>, modestring: string, params: seq<string>)
    ensures var items, r := Items(true, modestring, params), ApplyModes(present, Start(before, params), modestring);
      r.applied == Spelled(present, items) && r.params == SpelledParams(present, items)
  {
    RunSpells(present, Start(before, params), modestring);
  }
}
