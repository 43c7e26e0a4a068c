/** The public list: its order on the server, and its way over the wire into the client
    (src/bin/server.rs, `send_public_rooms`; src/network/client.rs, `handle_server_line`). */
module PublicList {
  import opened Prelude
  import opened Protocol
  import opened Rooms
  import opened ServerRuns
  import opened ServerInvariant
  import ServerRanks
  import Utf8

  // --- The order of the list -----------------------------------------------------------

  ghost predicate InOrder(entries: seq<Entry>) {
    forall i, j | 0 <= i < j < |entries| :: entries[i].Before(entries[j])
  }

  /** Of two entries only one can come first. */
  ghost predicate Distinct(entries: seq<Entry>) {
    forall a, b | a in entries && b in entries && a.rank == b.rank :: a == b
  }

  lemma BeforeIsTotal(a: Entry, b: Entry)
    ensures a.Before(b) || b.Before(a)
  {
  }

  lemma BeforeIsTransitive(a: Entry, b: Entry, c: Entry)
    requires a.Before(b) && b.Before(c)
    ensures a.Before(c)
  {
  }

  lemma {:induction false} InsertKeepsOrder(e: Entry, sorted: seq<Entry>)
    requires InOrder(sorted)
    ensures InOrder(Insert(e, sorted)) && multiset(Insert(e, sorted)) == multiset([e]) + multiset(sorted)
  {
    hide Entry.Before;
    if sorted != [] {
      var first, rest := sorted[0], sorted[1..];
      BeforeIsTotal(first, e);
      assert sorted == [first] + rest;
      if e.Before(first) && !first.Before(e) {
        forall x | x in rest ensures e.Before(x) {
          BeforeIsTransitive(e, first, x);
        }
      } else {
        InsertKeepsOrder(e, rest);
        forall x | x in Insert(e, rest) ensures first.Before(x) {
          assert x in multiset(Insert(e, rest));
        }
      }
    }
  }

  /** The sort orders the entries and neither loses nor repeats one. */
  lemma {:induction false} SortedIsOrdered(entries: seq<Entry>)
    ensures InOrder(Sorted(entries)) && multiset(Sorted(entries)) == multiset(entries)
  {
    if entries != [] {
      var front, last := entries[..|entries| - 1], entries[|entries| - 1];
      SortedIsOrdered(front);
      InsertKeepsOrder(last, Sorted(front));
      assert entries == front + [last];
    }
  }

  /** With distinct ranks there is only one ordered arrangement. */
  lemma {:induction false} OrderIsUnique(a: seq<Entry>, b: seq<Entry>)
    requires InOrder(a) && InOrder(b) && multiset(a) == multiset(b) && Distinct(a)
    ensures a == b
  {
    hide Entry.Before;
    if a == [] {
      assert |multiset(b)| == 0;
    } else {
      assert |multiset(a)| == |a| && |multiset(b)| == |b|;
      assert a[0] in multiset(b) && b[0] in multiset(a);
      HeadsAgree(a, b);
      WithoutHead(a);
      WithoutHead(b);
      OrderIsUnique(a[1..], b[1..]);
      assert a == [a[0]] + a[1..] && b == [b[0]] + b[1..];
    }
  }

  lemma HeadsAgree(a: seq<Entry>, b: seq<Entry>)
    requires InOrder(a) && InOrder(b) && Distinct(a) && a != [] && b != [] && a[0] in b && b[0] in a
    ensures a[0] == b[0]
  {
    var i :| 0 <= i < |b| && b[i] == a[0];
    var j :| 0 <= j < |a| && a[j] == b[0];
  }

  lemma WithoutHead(a: seq<Entry>)
    requires a != []
    ensures multiset(a[1..]) == multiset(a) - multiset{a[0]}
  {
    assert a == [a[0]] + a[1..];
  }

  lemma {:induction false} EntriesOf(s: Server, order: seq<RoomId>, e: Entry)
    ensures e in Entries(s, order) <==>
            exists id :: id in order && id in s.rooms && s.rooms[id].kind.Public? && e == EntryOf(id, s.rooms[id])
  {
    if order != [] {
      var front, last := order[..|order| - 1], order[|order| - 1];
      EntriesOf(s, front, e);
      assert order == front + [last];
    }
  }

  lemma {:induction false} EntriesOnce(s: Server, order: seq<RoomId>)
    requires forall i, j | 0 <= i < j < |order| :: order[i] != order[j]
    ensures forall e :: multiset(Entries(s, order))[e] <= 1
  {
    if order != [] {
      var front, last := order[..|order| - 1], order[|order| - 1];
      EntriesOnce(s, front);
      if last in s.rooms && s.rooms[last].kind.Public? {
        var e := EntryOf(last, s.rooms[last]);
        EntriesOf(s, front, e);
        assert multiset(Entries(s, order)) == multiset(Entries(s, front)) + multiset{e};
      }
    }
  }

  /** `e` is the entry of a public room. */
  predicate IsListed(s: Server, e: Entry) {
    e.id in s.rooms && s.rooms[e.id].kind.Public? && e == EntryOf(e.id, s.rooms[e.id])
  }

  /** Every public room is listed exactly once. */
  lemma EveryPublicRoomOnce(s: Server, order: seq<RoomId>, e: Entry)
    requires Enumerates(order, s.rooms.Keys)
    ensures multiset(Sorted(Entries(s, order)))[e] == if IsListed(s, e) then 1 else 0
  {
    SortedIsOrdered(Entries(s, order));
    EntriesOnce(s, order);
    EntriesOf(s, order, e);
  }

  lemma EntriesAreDistinct(s: Server, order: seq<RoomId>)
    requires Ranked(s)
    ensures Distinct(Sorted(Entries(s, order)))
  {
    var entries := Entries(s, order);
    SortedIsOrdered(entries);
    forall a, b | a in Sorted(entries) && b in Sorted(entries) && a.rank == b.rank ensures a == b {
      assert a in multiset(Sorted(entries)) && b in multiset(Sorted(entries));
      EntriesOf(s, order, a);
      EntriesOf(s, order, b);
    }
  }

  /** The list does not depend on the order in which the table yields the rooms. */
  lemma ListIgnoresOrder(w: World, first: seq<RoomId>, second: seq<RoomId>)
    requires Reachable(w) && w.bumps <= MAX_U64
    requires Enumerates(first, w.server.rooms.Keys) && Enumerates(second, w.server.rooms.Keys)
    ensures PublicList(w.server, first) == PublicList(w.server, second)
  {
    hide Reachable, Enumerates, Sorted, Entries, IsListed, PublicInv, RoomsAreWellFormed, MembersAgree, Orderly;
    ServerRanks.ReachableInv(w);
    RanksHold(w);
    var a, b := Sorted(Entries(w.server, first)), Sorted(Entries(w.server, second));
    SortedIsOrdered(Entries(w.server, first));
    SortedIsOrdered(Entries(w.server, second));
    EntriesAreDistinct(w.server, first);
    forall e ensures multiset(a)[e] == multiset(b)[e] {
      EveryPublicRoomOnce(w.server, first, e);
      EveryPublicRoomOnce(w.server, second, e);
    }
    OrderIsUnique(a, b);
  }

  lemma RanksHold(w: World)
    requires PublicInv(w) && w.bumps <= MAX_U64
    ensures Ranked(w.server)
  {
  }

  // --- The newest room -----------------------------------------------------------------

  /** An open room with the newest rank heads the list. */
  lemma NewestIsFirst(s: Server, id: RoomId, order: seq<RoomId>)
    requires Ranked(s) && Enumerates(order, s.rooms.Keys)
    requires id in s.rooms && s.rooms[id].kind.Public? && s.rooms[id].kind.rank == s.nextRank && |s.rooms[id].peers| == 1
    ensures
      var list := Sorted(Entries(s, order));
      list != [] && list[0] == EntryOf(id, s.rooms[id])
  {
    hide Sorted, Entries;
    var e, list := EntryOf(id, s.rooms[id]), Sorted(Entries(s, order));
    SortedIsOrdered(Entries(s, order));
    EntriesOf(s, order, e);
    assert e in multiset(list);
    assert list[0] in multiset(list);
    EntriesOf(s, order, list[0]);
    assert list[0] == e || list[0].Before(e);
  }

  /** A room that has just been created is first in the list. */
  lemma CreatedRoomIsFirst(w: World, id: RoomId, title: string, client: ClientId, nonce: Nonce, now: Instant, order: seq<RoomId>)
    requires Reachable(w) && w.bumps < MAX_U64
    requires CreatePublicRoom(w.server, id, title, client, nonce, now).Done?
    requires
      var t := CreatePublicRoom(w.server, id, title, client, nonce, now).change.server;
      Enumerates(order, t.rooms.Keys)
    ensures
      var list := Sorted(Entries(CreatePublicRoom(w.server, id, title, client, nonce, now).change.server, order));
      list != [] && list[0].id == id && list[0].title == title
  {
    hide Reachable, CreatePublicRoom, Sorted, Entries, Enumerates, RoomsAreWellFormed, MembersAgree, Orderly;
    var t := CreatePublicRoom(w.server, id, title, client, nonce, now).change.server;
    ServerRanks.ReachableInv(w);
    ServerRanks.CreateRanks(w.server, id, title, client, nonce, now);
    PromotedIsRanked(w, t, id);
    CreatedTitle(w.server, id, title, client, nonce, now);
    NewestIsFirst(t, id, order);
  }

  lemma CreatedTitle(s: Server, id: RoomId, title: string, client: ClientId, nonce: Nonce, now: Instant)
    requires CreatePublicRoom(s, id, title, client, nonce, now).Done?
    ensures
      var t := CreatePublicRoom(s, id, title, client, nonce, now).change.server;
      id in t.rooms && t.rooms[id].kind.Public? && t.rooms[id].kind.title == title
  {
  }

  lemma PromotedIsRanked(w: World, t: Server, id: RoomId)
    requires PublicInv(w) && w.bumps < MAX_U64 && ServerRanks.Promotes(w.server, t, id)
    ensures Ranked(t)
  {
  }

  /** A full room that one of its members leaves is open again and first in the list. */
  lemma ReopenedRoomIsFirst(w: World, id: RoomId, client: ClientId, heirs: seq<ClientId>, now: Instant, order: seq<RoomId>)
    requires Reachable(w) && w.bumps < MAX_U64 && Reopens(w.server, id, client)
    requires Enumerates(order, LeaveRoom(w.server, id, client, heirs, now).server.rooms.Keys)
    ensures
      var list := Sorted(Entries(LeaveRoom(w.server, id, client, heirs, now).server, order));
      list != [] && list[0].id == id && !list[0].Full()
  {
    hide Reachable, LeaveRoom, Sorted, Entries, Enumerates, RoomsAreWellFormed, MembersAgree, Orderly;
    var t := LeaveRoom(w.server, id, client, heirs, now).server;
    ServerRanks.ReachableInv(w);
    ServerRanks.LeaveRanks(w.server, id, client, heirs, now);
    PromotedIsRanked(w, t, id);
    NewestIsFirst(t, id, order);
  }

  // --- Words ---------------------------------------------------------------------------

  /** `str::split_whitespace`. */
  function Words(s: string): seq<string> {
    if s == [] then
      []
    else
      var front, last := s[..|s| - 1], s[|s| - 1];
      var words := Words(front);
      if IsWhitespace(last) then words
      else if front != [] && !IsWhitespace(front[|front| - 1]) && words != [] then
        words[..|words| - 1] + [words[|words| - 1] + [last]]
      else words + [[last]]
  }

  predicate IsWord(s: string) {
    s != [] && forall i | 0 <= i < |s| :: !IsWhitespace(s[i])
  }

  lemma OneMoreCharacter(s: string, last: char)
    requires !IsWhitespace(last)
    ensures s == [] || IsWhitespace(s[|s| - 1]) ==> Words(s + [last]) == Words(s) + [[last]]
    ensures s != [] && !IsWhitespace(s[|s| - 1]) && Words(s) != [] ==>
              var words := Words(s);
              Words(s + [last]) == words[..|words| - 1] + [words[|words| - 1] + [last]]
  {
    assert (s + [last])[..|s|] == s;
    hide IsWhitespace;
  }

  /** A word after a space, or at the start, is one more word. */
  lemma {:induction false} OneMoreWord(s: string, word: string)
    requires IsWord(word) && (s == [] || IsWhitespace(s[|s| - 1]))
    ensures Words(s + word) == Words(s) + [word]
  {
    hide IsWhitespace, Words;
    var front, last := word[..|word| - 1], word[|word| - 1];
    OneMoreCharacter(s + front, last);
    assert s + word == s + front + [last] && word == front + [last];
    if front != [] {
      OneMoreWord(s, front);
      assert (s + front)[|s + front| - 1] == front[|front| - 1];
      assert (Words(s) + [front])[..|Words(s)|] == Words(s);
    } else {
      assert s + front == s;
    }
  }

  lemma SpaceEndsWords(s: string)
    ensures Words(s + " ") == Words(s)
  {
    assert (s + " ")[..|s|] == s;
  }

  // --- The wire format -----------------------------------------------------------------

  function Decimal(n: nat): string {
    if n < 10 then ['0' + n as char] else Decimal(n / 10) + ['0' + (n % 10) as char]
  }

  function DigitsValue(s: string): Option<nat> {
    if s == [] then
      Some(0)
    else
      var last := s[|s| - 1];
      match DigitsValue(s[..|s| - 1])
      case Some(n) => if '0' <= last <= '9' then Some(10 * n + (last as int - '0' as int)) else None
      case None => None
  }

  /** `str::parse::<u8>`: decimal digits, perhaps after a plus sign. */
  function ParseU8(s: string): Option<nat> {
    var digits := if s != [] && s[0] == '+' then s[1..] else s;
    if digits == [] then
      None
    else
      match DigitsValue(digits)
      case Some(n) => if n < 256 then Some(n) else None
      case None => None
  }

  /** The line without its final line feed. */
  function ListedText(id: RoomId, occupants: nat, title: string): string {
    "PUBLIC_ROOM" + " " + id + " " + Decimal(occupants) + " " + title
  }

  function EntryText(e: Entry): string {
    ListedText(e.id, e.occupants, TitleToken(e.title))
  }

  function EntryTexts(entries: seq<Entry>): seq<string> {
    seq(|entries|, i requires 0 <= i < |entries| => EntryText(entries[i]))
  }

  function ListTexts(entries: seq<Entry>): seq<string> {
    ["PUBLIC_LIST_BEGIN"] + EntryTexts(entries) + ["PUBLIC_LIST_END"]
  }

  // --- The client ----------------------------------------------------------------------

  datatype Summary = Summary(id: string, title: string, occupants: nat)

  datatype ListEvent = PublicRooms(rooms: seq<Summary>) | ProtocolMismatch

  datatype ListState = ListState(pending: Option<seq<Summary>>, events: seq<ListEvent>)

  predicate IsListLine(line: string) {
    var parts := Words(line);
    parts != [] && parts[0] in {"PUBLIC_LIST_BEGIN", "PUBLIC_ROOM", "PUBLIC_LIST_END"}
  }

  function ReadEntry(pending: Option<seq<Summary>>, parts: seq<string>): Option<seq<Summary>> {
    if |parts| != 4 then
      None
    else
      match (DecodeTitle(parts[3]), ParseU8(parts[2]), pending)
      case (Some(title), Some(occupants), Some(rooms)) =>
        if occupants > 2 || DecodedHex(parts[1], 16).None? || |rooms| >= 100 then None
        else Some(rooms + [Summary(parts[1], title, occupants)])
      case _ => None
  }

  /** One line from the server; lines of other kinds leave the list alone. */
  function ReadLine(state: ListState, line: string): ListState {
    var parts := Words(line);
    if parts == ["PUBLIC_LIST_BEGIN"] then
      state.(pending := Some([]))
    else if parts != [] && parts[0] == "PUBLIC_ROOM" then
      var next := ReadEntry(state.pending, parts);
      ListState(next, if next.Some? then state.events else state.events + [ProtocolMismatch])
    else if parts == ["PUBLIC_LIST_END"] then
      ListState(None, state.events + [if state.pending.Some? then PublicRooms(state.pending.value) else ProtocolMismatch])
    else if IsListLine(line) then
      state.(events := state.events + [ProtocolMismatch])
    else
      state
  }

  function ReadLines(state: ListState, lines: seq<string>): ListState {
    if lines == [] then state else ReadLine(ReadLines(state, lines[..|lines| - 1]), lines[|lines| - 1])
  }

  /** The client keeps the list in progress in a variable of its connection. */
  class ListReader {
    var pending: Option<seq<Summary>>
    var events: seq<ListEvent>

    function View(): ListState
      reads this
    {
      ListState(pending, events)
    }

    constructor ()
      ensures View() == ListState(None, [])
    {
      pending, events := None, [];
    }

    method Handle(line: string)
      modifies this
      ensures View() == ReadLine(old(View()), line)
    {
      var parts := Words(line);
      if parts == ["PUBLIC_LIST_BEGIN"] {
        pending := Some([]);
      } else if parts != [] && parts[0] == "PUBLIC_ROOM" {
        if |parts| != 4 {
          pending, events := None, events + [ProtocolMismatch];
          return;
        }
        var title, occupants := DecodeTitle(parts[3]), ParseU8(parts[2]);
        if title.None? || occupants.None? || occupants.value > 2 || pending.None? {
          pending, events := None, events + [ProtocolMismatch];
          return;
        }
        var id := DecodeHex(parts[1], 16);
        if id.None? || |pending.value| >= 100 {
          pending, events := None, events + [ProtocolMismatch];
          return;
        }
        pending := Some(pending.value + [Summary(parts[1], title.value, occupants.value)]);
      } else if parts == ["PUBLIC_LIST_END"] {
        if pending.Some? {
          events := events + [PublicRooms(pending.value)];
          pending := None;
        } else {
          events := events + [ProtocolMismatch];
        }
      } else if IsListLine(line) {
        events := events + [ProtocolMismatch];
      }
    }
  }

  // --- Round trip ----------------------------------------------------------------------

  /** An entry the server can have: what `Inv` says of its rooms. */
  predicate Listable(e: Entry) {
    IsId(e.id) && IsTitle(e.title) && e.occupants <= 2
  }

  function SummaryOf(e: Entry): Summary {
    Summary(e.id, e.title, e.occupants)
  }

  function Summaries(entries: seq<Entry>): seq<Summary> {
    seq(|entries|, i requires 0 <= i < |entries| => SummaryOf(entries[i]))
  }

  lemma {:induction false} HexIsWord(s: string)
    requires Unhex(s).Some?
    ensures forall i | 0 <= i < |s| :: !IsWhitespace(s[i]) && s[i] as int < 0x80
  {
    if s != [] {
      HexIsWord(s[..|s| - 2]);
      assert HexNibble(s[|s| - 2]).Some? && HexNibble(s[|s| - 1]).Some?;
    }
  }

  lemma TokenIsWord(title: string)
    requires IsTitle(title)
    ensures
      var token := TitleToken(title);
      && IsWord(token) && |token| <= 160 && DecodeTitle(token) == Some(title)
      && forall i | 0 <= i < |token| :: token[i] as int < 0x80
  {
    EncodedTitleIsReadable(title);
  }

  lemma SmallDecimal(n: nat)
    requires n <= 2
    ensures |Decimal(n)| == 1 && IsWord(Decimal(n)) && ParseU8(Decimal(n)) == Some(n) && Decimal(n)[0] as int < 0x80
  {
    var digit := Decimal(n);
    assert digit[..0] == [] && DigitsValue([]) == Some(0);
    assert DigitsValue(digit) == Some(n);
  }

  lemma ListedWords(id: string, count: string, token: string)
    requires IsWord(id) && IsWord(count) && IsWord(token)
    ensures Words("PUBLIC_ROOM" + " " + id + " " + count + " " + token) == ["PUBLIC_ROOM", id, count, token]
  {
    hide Words;
    var a := "PUBLIC_ROOM";
    var b := a + " " + id;
    var c := b + " " + count;
    NoWords();
    OneMoreWord([], a);
    assert [] + a == a;
    SpaceEndsWords(a);
    OneMoreWord(a + " ", id);
    SpaceEndsWords(b);
    OneMoreWord(b + " ", count);
    SpaceEndsWords(c);
    OneMoreWord(c + " ", token);
  }

  lemma NoWords()
    ensures Words([]) == []
  {
  }

  lemma EntryIsRead(e: Entry, rooms: seq<Summary>)
    requires Listable(e) && |rooms| < 100
    ensures
      var parts := Words(EntryText(e));
      |parts| == 4 && parts[0] == "PUBLIC_ROOM" && ReadEntry(Some(rooms), parts) == Some(rooms + [SummaryOf(e)])
  {
    hide Words, DecodeTitle, EncodeTitle, Unhex, IsWord, ParseU8;
    IdIsWord(e.id);
    SmallDecimal(e.occupants);
    TokenIsWord(e.title);
    ListedWords(e.id, Decimal(e.occupants), TitleToken(e.title));
  }

  lemma IdIsWord(id: RoomId)
    requires IsId(id)
    ensures IsWord(id) && |id| == 32 && forall i | 0 <= i < |id| :: id[i] as int < 0x80
  {
    HexIsWord(id);
  }

  lemma {:induction false} DigitsOfDecimal(n: nat)
    ensures DigitsValue(Decimal(n)) == Some(n) && Decimal(n) != [] && Decimal(n)[0] != '+'
  {
    var digits := Decimal(n);
    if n < 10 {
      assert digits[..0] == [] && DigitsValue([]) == Some(0);
    } else {
      DigitsOfDecimal(n / 10);
      assert digits[..|digits| - 1] == Decimal(n / 10);
    }
  }

  /** Counts are read in decimal, with or without a plus sign, up to 255. */
  lemma CountsAreRead(n: nat)
    ensures ParseU8(Decimal(n)) == ParseU8("+" + Decimal(n)) == if n < 256 then Some(n) else None
  {
    DigitsOfDecimal(n);
    assert ("+" + Decimal(n))[1..] == Decimal(n);
  }

  lemma {:induction false} OnlyDigitsCount(s: string)
    ensures DigitsValue(s).Some? <==> forall i | 0 <= i < |s| :: '0' <= s[i] <= '9'
  {
    if s != [] {
      var front, last := s[..|s| - 1], s[|s| - 1];
      OnlyDigitsCount(front);
      assert s == front + [last];
    }
  }

  /** The line announces this room. */
  predicate Announces(line: string, x: Summary) {
    var parts := Words(line);
    && |parts| == 4 && parts[0] == "PUBLIC_ROOM"
    && parts[1] == x.id && IsId(x.id)
    && ParseU8(parts[2]) == Some(x.occupants) && x.occupants <= 2
    && DecodeTitle(parts[3]) == Some(x.title)
  }

  ghost predicate Backed(rooms: seq<Summary>, lines: seq<string>) {
    |rooms| <= 100 && forall x | x in rooms :: exists line :: line in lines && Announces(line, x)
  }

  lemma BackedStill(rooms: seq<Summary>, lines: seq<string>, more: seq<string>)
    requires Backed(rooms, lines) && lines <= more
    ensures Backed(rooms, more)
  {
    hide Announces;
    forall x | x in rooms ensures exists line :: line in more && Announces(line, x) {
      var line :| line in lines && Announces(line, x);
      assert line in more;
    }
  }

  lemma EntryIsBacked(rooms: seq<Summary>, lines: seq<string>, line: string)
    requires Backed(rooms, lines) && line in lines && Words(line) != [] && Words(line)[0] == "PUBLIC_ROOM"
    ensures
      var next := ReadEntry(Some(rooms), Words(line));
      next.Some? ==> Backed(next.value, lines)
  {
    hide Words, DecodeTitle, ParseU8, DecodedHex;
    var next := ReadEntry(Some(rooms), Words(line));
    if next.Some? {
      var x := next.value[|rooms|];
      assert Announces(line, x);
      hide Announces;
      forall y | y in next.value && y !in rooms ensures y == x {
      }
    }
  }

  /** Whatever the lines, the client never reports more than 100 rooms in one list, nor a room
      that no line announced with a well-formed id, count and title. */
  lemma {:induction false} NothingIsInvented(lines: seq<string>)
    ensures
      var state := ReadLines(ListState(None, []), lines);
      && (state.pending.Some? ==> Backed(state.pending.value, lines))
      && forall e | e in state.events && e.PublicRooms? :: Backed(e.rooms, lines)
  {
    hide Words, IsListLine, Announces, ParseU8, DecodeTitle;
    if lines != [] {
      var front, line := lines[..|lines| - 1], lines[|lines| - 1];
      NothingIsInvented(front);
      hide ReadEntry, Backed;
      var state := ReadLines(ListState(None, []), front);
      NoRooms(lines);
      if state.pending.Some? {
        BackedStill(state.pending.value, front, lines);
        assert line in lines;
        var parts := Words(line);
        if parts != [] && parts[0] == "PUBLIC_ROOM" {
          EntryIsBacked(state.pending.value, lines, line);
        }
      } else {
        NoEntryWithoutBegin(Words(line));
      }
      forall e | e in state.events && e.PublicRooms? ensures Backed(e.rooms, lines) {
        BackedStill(e.rooms, front, lines);
      }
    }
  }

  /** A room line within a list of fewer than 100 adds the room it announces; any other room line
      ends the list with a complaint. */
  lemma RoomLinesAreJudged(state: ListState, line: string)
    requires Words(line) != [] && Words(line)[0] == "PUBLIC_ROOM"
    ensures
      if state.pending.Some? && |state.pending.value| < 100 && exists x :: Announces(line, x) then
        exists x :: Announces(line, x) && ReadLine(state, line) == ListState(Some(state.pending.value + [x]), state.events)
      else
        ReadLine(state, line) == ListState(None, state.events + [ProtocolMismatch])
  {
    hide Words, DecodeTitle, ParseU8, DecodedHex, IsListLine;
    var parts := Words(line);
    var next := ReadEntry(state.pending, parts);
    if next.Some? {
      var x := next.value[|next.value| - 1];
      assert Announces(line, x);
    }
  }

  /** So do a list that ends without having begun, and a line that begins or ends a list with
      further words, which leaves the list in progress alone. */
  lemma BadListLines(state: ListState, line: string)
    ensures Words(line) == ["PUBLIC_LIST_END"] ==>
              ReadLine(state, line) ==
              ListState(None, state.events + [if state.pending.Some? then PublicRooms(state.pending.value) else ProtocolMismatch])
    ensures |Words(line)| > 1 && Words(line)[0] in {"PUBLIC_LIST_BEGIN", "PUBLIC_LIST_END"} ==>
              ReadLine(state, line) == ListState(state.pending, state.events + [ProtocolMismatch])
  {
    hide Words, ReadEntry;
  }

  lemma NoRooms(lines: seq<string>)
    ensures Backed([], lines)
  {
  }

  lemma NoEntryWithoutBegin(parts: seq<string>)
    ensures ReadEntry(None, parts).None?
  {
  }

  /** Every line of the list fits in the 512 bytes a reader accepts. */
  lemma EntryFits(e: Entry)
    requires Listable(e)
    ensures |Utf8.Encode(EntryText(e))| <= 512
  {
    hide IsTitle, IsId, TitleToken, Utf8.Encode, Decimal;
    IdIsWord(e.id);
    SmallDecimal(e.occupants);
    TokenIsWord(e.title);
    var line := EntryText(e);
    forall i | 0 <= i < |line| ensures line[i] as int < 0x80 {
    }
    Utf8.EncodeAscii(line);
  }

  function ListPart(lines: seq<string>): seq<string> {
    if lines == [] then []
    else ListPart(lines[..|lines| - 1]) + (if IsListLine(lines[|lines| - 1]) then [lines[|lines| - 1]] else [])
  }

  /** Lines of other kinds may come in between: the client reads the list part. */
  lemma {:induction false} OnlyTheListPartIsRead(state: ListState, lines: seq<string>)
    ensures ReadLines(state, lines) == ReadLines(state, ListPart(lines))
  {
    if lines != [] {
      var front, last := lines[..|lines| - 1], lines[|lines| - 1];
      OnlyTheListPartIsRead(state, front);
      if IsListLine(last) {
        assert (ListPart(front) + [last])[..|ListPart(front)|] == ListPart(front);
      } else {
        assert ListPart(front) + [] == ListPart(front);
      }
    }
  }

  lemma {:induction false} EntriesAreRead(state: ListState, entries: seq<Entry>)
    requires |entries| <= 100 && forall e | e in entries :: Listable(e)
    ensures
      ReadLines(state, ["PUBLIC_LIST_BEGIN"] + EntryTexts(entries)) == ListState(Some(Summaries(entries)), state.events)
  {
    hide Words, EntryText, Listable, ReadEntry;
    var begin := ["PUBLIC_LIST_BEGIN"];
    if entries == [] {
      BeginIsRead();
      assert begin + EntryTexts(entries) == begin && begin[..0] == [];
    } else {
      var front, last := entries[..|entries| - 1], entries[|entries| - 1];
      assert last in entries && forall e | e in front :: e in entries;
      EntriesAreRead(state, front);
      var lines := begin + EntryTexts(entries);
      assert lines[..|lines| - 1] == begin + EntryTexts(front);
      assert lines[|lines| - 1] == EntryText(last);
      EntryIsRead(last, Summaries(front));
      assert Summaries(front) + [SummaryOf(last)] == Summaries(entries);
    }
  }

  lemma BeginIsRead()
    ensures Words("PUBLIC_LIST_BEGIN") == ["PUBLIC_LIST_BEGIN"]
    ensures Words("PUBLIC_LIST_END") == ["PUBLIC_LIST_END"]
  {
    hide Words;
    WordAlone("PUBLIC_LIST_BEGIN");
    WordAlone("PUBLIC_LIST_END");
  }

  lemma WordAlone(word: string)
    requires IsWord(word)
    ensures Words(word) == [word]
  {
    OneMoreWord([], word);
    assert [] + word == word;
  }

  /** The list a client reads is the list that was sent, whatever other lines come in
      between, and no line of it is refused. */
  lemma ListRoundTrip(entries: seq<Entry>, lines: seq<string>, state: ListState)
    requires |entries| <= 100 && forall e | e in entries :: Listable(e)
    requires ListPart(lines) == ListTexts(entries)
    ensures ReadLines(state, lines) == ListState(None, state.events + [PublicRooms(Summaries(entries))])
  {
    hide Words, EntryText, Listable;
    OnlyTheListPartIsRead(state, lines);
    EntriesAreRead(state, entries);
    BeginIsRead();
    var all := ListTexts(entries);
    assert all[..|all| - 1] == ["PUBLIC_LIST_BEGIN"] + EntryTexts(entries);
  }

  /** A line as it is written, without its line feed; the printed form of endpoints is not
      modelled. */
  function WireText(line: Line): string
    requires !line.Peer?
  {
    match line
    case Created(id, nonce) => "CREATED " + id + " " + Hex(nonce)
    case PublicCreated(id, nonce, title) => "PUBLIC_CREATED " + id + " " + Hex(nonce) + " " + title
    case Joined(id, nonce) => "JOINED " + id + " " + Hex(nonce)
    case PublicJoined(id, nonce, title) => "PUBLIC_JOINED " + id + " " + Hex(nonce) + " " + title
    case Listed(id, occupants, title) => ListedText(id, occupants, title)
    case Text(text) => text
  }

  /** `texts` are the lines written out; a PEER line is written in some form or other. */
  ghost predicate Written(lines: seq<Line>, texts: seq<string>) {
    && |texts| == |lines|
    && forall i | 0 <= i < |lines| && !lines[i].Peer? :: texts[i] == WireText(lines[i])
  }

  /** The lines sent are the list. */
  lemma ListIsWritten(entries: seq<Entry>, texts: seq<string>)
    requires Written(ListLines(entries), texts)
    ensures texts == ListTexts(entries)
  {
    hide TitleToken, ListedText;
    var lines, expected := ListLines(entries), ListTexts(entries);
    assert |lines| == |expected| == |entries| + 2;
    forall i | 0 <= i < |lines| ensures texts[i] == expected[i] {
      if 1 <= i <= |entries| {
        assert lines[i] == Listed(entries[i - 1].id, entries[i - 1].occupants, TitleToken(entries[i - 1].title));
        assert expected[i] == EntryText(entries[i - 1]);
      }
    }
  }

  /** The summary of a public room: its id, its title and the number of its peers. */
  predicate Tells(s: Server, x: Summary) {
    && x.id in s.rooms && s.rooms[x.id].kind.Public?
    && x.title == s.rooms[x.id].kind.title
    && x.occupants == |s.rooms[x.id].peers|
  }

  /** Open rooms before full ones, and newer ones first. */
  predicate Precedes(s: Server, x: Summary, y: Summary)
    requires Tells(s, x) && Tells(s, y)
  {
    if (x.occupants < 2) == (y.occupants < 2) then s.rooms[x.id].kind.rank >= s.rooms[y.id].kind.rank else x.occupants < 2
  }

  /** `rooms` are the public rooms of the server, each of them once. */
  ghost predicate TellsAllRooms(s: Server, rooms: seq<Summary>) {
    && (forall i | 0 <= i < |rooms| :: Tells(s, rooms[i]))
    && (forall i, j | 0 <= i < j < |rooms| :: rooms[i].id != rooms[j].id)
    && (forall id | id in s.rooms && s.rooms[id].kind.Public? :: exists i :: 0 <= i < |rooms| && rooms[i].id == id)
    && (forall i, j | 0 <= i < j < |rooms| :: Precedes(s, rooms[i], rooms[j]))
  }

  lemma OneOfAKind<T>(s: seq<T>, i: nat, j: nat)
    requires i < j < |s| && multiset(s)[s[i]] <= 1
    ensures s[i] != s[j]
  {
    assert s == s[..j] + [s[j]] + s[j + 1..];
    assert s[..j][i] == s[i];
    assert s[i] in multiset(s[..j]);
    assert multiset(s) == multiset(s[..j]) + multiset{s[j]} + multiset(s[j + 1..]);
  }

  lemma EntryTells(s: Server, e: Entry)
    requires IsListed(s, e) && WellFormed(s.rooms[e.id])
    ensures Tells(s, SummaryOf(e)) && s.rooms[e.id].kind.rank == e.rank && (e.Full() <==> e.occupants == 2)
  {
    hide IsTitle;
  }

  lemma ListedOnce(w: World, order: seq<RoomId>)
    requires Inv(w) && Enumerates(order, w.server.rooms.Keys)
    ensures
      var entries := Sorted(Entries(w.server, order));
      && InOrder(entries)
      && (forall i | 0 <= i < |entries| :: IsListed(w.server, entries[i]) && WellFormed(w.server.rooms[entries[i].id]))
      && (forall i, j | 0 <= i < j < |entries| :: entries[i].id != entries[j].id)
      && (forall e | IsListed(w.server, e) :: e in entries)
  {
    hide Enumerates, Entries, Sorted, MembersAgree, Orderly, PublicInv, WellFormed;
    var s := w.server;
    var entries := Sorted(Entries(s, order));
    SortedIsOrdered(Entries(s, order));
    hide InOrder;
    forall e ensures multiset(entries)[e] == if IsListed(s, e) then 1 else 0 {
      EveryPublicRoomOnce(s, order, e);
    }
    forall i | 0 <= i < |entries| ensures IsListed(s, entries[i]) {
      assert entries[i] in multiset(entries);
    }
    forall i, j | 0 <= i < j < |entries| ensures entries[i].id != entries[j].id {
      OneOfAKind(entries, i, j);
    }
    forall e | IsListed(s, e) ensures e in entries {
      assert e in multiset(entries);
    }
  }

  lemma ListTellsAllRooms(w: World, order: seq<RoomId>)
    requires Inv(w) && Enumerates(order, w.server.rooms.Keys)
    ensures TellsAllRooms(w.server, Summaries(Sorted(Entries(w.server, order))))
  {
    hide Inv, Enumerates, Entries, Sorted, WellFormed, IsListed, Tells, EntryOf;
    var s := w.server;
    var entries := Sorted(Entries(s, order));
    var rooms := Summaries(entries);
    ListedOnce(w, order);
    forall i | 0 <= i < |entries|
      ensures Tells(s, rooms[i]) && entries[i].id in s.rooms && s.rooms[entries[i].id].kind.Public?
      ensures s.rooms[rooms[i].id].kind.rank == entries[i].rank && (entries[i].Full() <==> rooms[i].occupants == 2)
    {
      ListedIsPublic(s, entries[i]);
      EntryTells(s, entries[i]);
    }
    forall i, j | 0 <= i < j < |rooms| ensures Precedes(s, rooms[i], rooms[j]) {
      assert entries[i].Before(entries[j]);
    }
    hide InOrder;
    forall id | id in s.rooms && s.rooms[id].kind.Public? ensures exists i :: 0 <= i < |rooms| && rooms[i].id == id {
      var e := EntryOf(id, s.rooms[id]);
      PublicIsListed(s, id);
      var i :| 0 <= i < |entries| && entries[i] == e;
      assert rooms[i].id == id;
    }
  }

  lemma ListedIsPublic(s: Server, e: Entry)
    requires IsListed(s, e)
    ensures e.id in s.rooms && s.rooms[e.id].kind.Public?
  {
  }

  lemma PublicIsListed(s: Server, id: RoomId)
    requires id in s.rooms && s.rooms[id].kind.Public?
    ensures IsListed(s, EntryOf(id, s.rooms[id])) && EntryOf(id, s.rooms[id]).id == id
  {
  }

  /** The reply to `LIST_PUBLIC` in any reachable state, written out, reaches the client as
      exactly the public rooms of the server, whatever other lines come in between; every line
      of it fits in 512 bytes and nothing else changes. */
  lemma PublicListArrives(w: World, client: ClientId, env: Env, texts: seq<string>, lines: seq<string>, state: ListState)
    returns (rooms: seq<Summary>)
    requires Reachable(w) && Enabled(w, Say(client, ["LIST_PUBLIC"], env)) && env.allowed
    requires Written(LinesTo(ChangeOf(w, Say(client, ["LIST_PUBLIC"], env)).out, client), texts)
    requires ListPart(lines) == texts
    ensures ReadLines(state, lines) == ListState(None, state.events + [PublicRooms(rooms)])
    ensures TellsAllRooms(w.server, rooms)
    ensures forall text | text in texts :: |Utf8.Encode(text)| <= 512
    ensures
      var v := Apply(w, Say(client, ["LIST_PUBLIC"], env));
      v.server == w.server && v.sessions == w.sessions
  {
    hide Reachable, Enumerates, Sorted, Entries, ListPart, ReadLines, Utf8.Encode, Listable, RoomsAreWellFormed, MembersAgree, Orderly;
    hide HandleLine, ListLines, ListTexts, Written, TellsAllRooms, Merge;
    var entries := Sorted(Entries(w.server, env.listing));
    rooms := Summaries(entries);
    ServerRanks.ReachableInv(w);
    ListIsSent(w.server, client, w.sessions[client].current, env);
    ListIsWritten(entries, texts);
    EntriesAreListable(w, env.listing);
    ListTellsAllRooms(w, env.listing);
    ListRoundTrip(entries, lines, state);
    ListFits(entries);
    assert w.sessions[client] == Session(w.sessions[client].current, true);
  }

  lemma ListIsSent(s: Server, client: ClientId, current: Option<RoomId>, env: Env)
    requires env.allowed
    ensures HandleLine(s, client, current, ["LIST_PUBLIC"], env) ==
            Handled(Change(s, map[client := ListLines(Sorted(Entries(s, env.listing)))], {}), current)
  {
    hide ListLines, Sorted, Entries;
    assert ["LIST_PUBLIC"][1..] == [];
  }

  lemma ListFits(entries: seq<Entry>)
    requires forall e | e in entries :: Listable(e)
    ensures forall text | text in ListTexts(entries) :: |Utf8.Encode(text)| <= 512
  {
    hide Utf8.Encode, EntryText, Listable;
    forall text | text in ListTexts(entries) ensures |Utf8.Encode(text)| <= 512 {
      if text == "PUBLIC_LIST_BEGIN" || text == "PUBLIC_LIST_END" {
        Utf8.EncodeAscii(text);
      } else {
        var i :| 0 <= i < |entries| && text == EntryText(entries[i]);
        EntryFits(entries[i]);
      }
    }
  }

  lemma EntriesAreListable(w: World, order: seq<RoomId>)
    requires Inv(w) && Enumerates(order, w.server.rooms.Keys)
    ensures
      var entries := Sorted(Entries(w.server, order));
      |entries| <= 100 && forall e | e in entries :: Listable(e)
  {
    var entries := Sorted(Entries(w.server, order));
    SortedIsOrdered(Entries(w.server, order));
    forall e | e in entries ensures Listable(e) {
      assert e in multiset(entries);
      EntriesOf(w.server, order, e);
      assert WellFormed(w.server.rooms[e.id]);
    }
    AtMostThePublicRooms(w.server, order);
    assert |multiset(entries)| == |entries|;
    assert |multiset(Entries(w.server, order))| == |Entries(w.server, order)|;
  }

  lemma {:induction false} AtMostThePublicRooms(s: Server, order: seq<RoomId>)
    requires Enumerates(order, s.rooms.Keys)
    ensures |Entries(s, order)| <= |PublicIds(s)|
  {
    EntriesCount(s, order, PublicIds(s));
  }

  lemma {:induction false} EntriesCount(s: Server, order: seq<RoomId>, ids: set<RoomId>)
    requires forall i, j | 0 <= i < j < |order| :: order[i] != order[j]
    requires forall id | id in order && id in s.rooms && s.rooms[id].kind.Public? :: id in ids
    ensures |Entries(s, order)| <= |ids|
  {
    if order != [] {
      var front, last := order[..|order| - 1], order[|order| - 1];
      assert forall id | id in front :: id in order && id != last;
      if last in s.rooms && s.rooms[last].kind.Public? {
        EntriesCount(s, front, ids - {last});
      } else {
        EntriesCount(s, front, ids);
      }
    }
  }
}
