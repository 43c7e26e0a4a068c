/** Every line a client can send, and every other step, keeps the invariant; hence every
    run does. */
module ServerLines {
  import opened Prelude
  import opened Protocol
  import opened Rooms
  import opened ServerRuns
  import opened ServerSteps

  /** `v` is `w` after the handler of `client` did `h`. */
  ghost predicate Follows(w: World, v: World, client: ClientId, h: Handled) {
    && client in w.sessions
    && v.server.rooms == h.change.server.rooms
    && v.heard == Merge(w.heard, h.change.out)
    && v.sessions == w.sessions[client := Session(h.current, true)]
  }

  lemma SameSession(w: World, v: World, client: ClientId, h: Handled)
    requires Follows(w, v, client, h) && Live(w, client) && h.current == w.sessions[client].current
    ensures v.sessions == w.sessions
  {
    assert w.sessions[client] == Session(h.current, true);
  }

  lemma ReplyKeeps(w: World, v: World, client: ClientId, text: string)
    requires Sound(w) && Live(w, client) && Neutral(Text(text))
    requires Follows(w, v, client, Reply(w.server, client, w.sessions[client].current, text))
    ensures Sound(v)
  {
    hide Sound, Merge;
    var h := Reply(w.server, client, w.sessions[client].current, text);
    SameSession(w, v, client, h);
    QuietStep(w, v, h.change.out);
  }

  lemma EnterKeeps(w: World, v: World, client: ClientId, args: seq<string>, env: Env)
    requires Sound(w) && Live(w, client) && w.sessions[client].current.None?
    requires Follows(w, v, client, HandleCreate(w.server, client, args, env))
    ensures Sound(v)
  {
    hide Sound, Merge, IsId;
    if args == [] || !IsId(args[0]) {
      ReplyKeeps(w, v, client, "ERROR INVALID_ROOM_ID");
    } else if |args| > 1 {
      ReplyKeeps(w, v, client, "ERROR INVALID_COMMAND");
    } else if args[0] in w.server.rooms {
      ReplyKeeps(w, v, client, "ROOM_EXISTS");
    } else {
      NewRoomKeeps(w, v, args[0], client, Private, env.now, Created(args[0], env.nonce));
    }
  }

  lemma EnterPublicKeeps(w: World, v: World, client: ClientId, args: seq<string>, env: Env)
    requires Sound(w) && Live(w, client) && w.sessions[client].current.None?
    requires Follows(w, v, client, HandleCreatePublic(w.server, client, args, env))
    ensures Sound(v)
  {
    hide Sound, Merge, IsId, DecodeTitle, TitleToken, PublicIds;
    if |args| < 2 {
      ReplyKeeps(w, v, client, "ERROR INVALID_COMMAND");
    } else if DecodeTitle(args[1]).None? || !IsId(args[0]) || |args| > 2 {
      ReplyKeeps(w, v, client, "ERROR INVALID_PUBLIC_ROOM");
    } else {
      var title := DecodeTitle(args[1]).value;
      if args[0] in w.server.rooms {
        ReplyKeeps(w, v, client, "ROOM_EXISTS");
      } else if |PublicIds(w.server)| >= MAX_PUBLIC_ROOMS {
        ReplyKeeps(w, v, client, "PUBLIC_ROOM_LIMIT");
      } else {
        DecodedTitleIsTitle(args[1]);
        NewRoomKeeps(w, v, args[0], client, Public(title, NextId(w.server.nextRank)), env.now,
                     PublicCreated(args[0], env.nonce, TitleToken(title)));
      }
    }
  }

  lemma DecodedTitleIsTitle(token: string)
    requires DecodeTitle(token).Some?
    ensures IsTitle(DecodeTitle(token).value)
  {
    TitleRoundTrip(token, DecodeTitle(token).value);
  }

  lemma JoiningKeeps(w: World, v: World, client: ClientId, args: seq<string>, public: bool, env: Env)
    requires Sound(w) && Live(w, client) && w.sessions[client].current.None?
    requires Follows(w, v, client, HandleJoin(w.server, client, args, public, env))
    ensures Sound(v)
  {
    hide Sound, Merge, IsId, TitleToken;
    if args == [] || !IsId(args[0]) || (public && |args| > 1) {
      ReplyKeeps(w, v, client, "ERROR INVALID_ROOM_ID");
    } else {
      var id := args[0];
      if id !in w.server.rooms || w.server.rooms[id].kind.Public? != public {
        ReplyKeeps(w, v, client, "ROOM_NOT_FOUND");
      } else if |w.server.rooms[id].peers| >= 2 {
        ReplyKeeps(w, v, client, "ROOM_FULL");
      } else {
        var line := JoinReply(id, w.server.rooms[id]);
        JoinKeeps(w, v, id, client, line);
      }
    }
  }

  lemma LeavingKeeps(w: World, v: World, client: ClientId, env: Env)
    requires Sound(w) && Live(w, client) && Plausible(w, client, env)
    requires Follows(w, v, client, HandleLeave(w.server, client, w.sessions[client].current, env))
    ensures Sound(v)
  {
    hide Sound, Merge, LeaveRoom, Enumerates;
    var said: Out := map[client := [Text("LEFT")]];
    match w.sessions[client].current
    case Some(id) =>
      var left := LeaveRoom(w.server, id, client, env.heirs, env.now).out;
      forall other
        ensures LinesTo(Merge(left, said), other) ==
                LinesTo(left, other) + (if other == client then [Text("LEFT")] else [])
      {
        MergedLines(left, said, other);
      }
      LeaveKeeps(w, v, Merge(left, said), id, client, env, [Text("LEFT")]);
    case None =>
      MergeWithNothing(said);
      ReplyKeeps(w, v, client, "LEFT");
  }

  /** None of the lines of a listing has weight. */
  lemma ListingIsQuiet(s: Server, client: ClientId, order: seq<RoomId>)
    ensures IsQuiet(map[client := PublicList(s, order)])
  {
    hide Sorted, Entries, TitleToken;
  }

  lemma MemberLineKeeps(w: World, v: World, client: ClientId, command: string, args: seq<string>, env: Env)
    requires Sound(w) && Live(w, client) && Plausible(w, client, env)
    requires Follows(w, v, client, HandleMember(w.server, client, w.sessions[client].current, command, args, env))
    ensures Sound(v)
  {
    hide Sound, Merge, RetryFamily, RetryConnection, NotifyDisconnected, HandleLeave, PublicList, Plausible, Follows;
    var current := w.sessions[client].current;
    var h := HandleMember(w.server, client, current, command, args, env);
    if (if command == "P2P_RETRY" then args != ["4"] else args != []) {
      ReplyKeeps(w, v, client, "ERROR INVALID_COMMAND");
    } else if command == "LEAVE" {
      LeavingKeeps(w, v, client, env);
    } else {
      SameSession(w, v, client, h);
      FollowsChange(w, v, client, h);
      if command == "LIST_PUBLIC" {
        ListingIsQuiet(w.server, client, env.listing);
        QuietStep(w, v, h.change.out);
      } else if current.None? {
        QuietStep(w, v, map[]);
      } else if command == "P2P_RETRY" {
        RetryFamilyKeeps(w, v, current.value, client);
      } else if command == "RETRY_P2P" {
        RetryConnectionKeeps(w, v, current.value, client, env.now);
      } else {
        NotifyKeeps(w, v, current.value, client);
      }
    }
  }

  lemma FollowsChange(w: World, v: World, client: ClientId, h: Handled)
    requires Follows(w, v, client, h)
    ensures v.server.rooms == h.change.server.rooms && v.heard == Merge(w.heard, h.change.out)
  {
  }

  lemma LineKeeps(w: World, v: World, client: ClientId, parts: seq<string>, env: Env)
    requires Sound(w) && Live(w, client) && Plausible(w, client, env)
    requires Follows(w, v, client, HandleLine(w.server, client, w.sessions[client].current, parts, env))
    ensures Sound(v)
  {
    hide Sound, Merge, HandleMember, HandleCreate, HandleCreatePublic, HandleJoin, Plausible, Follows;
    var current := w.sessions[client].current;
    var h := HandleLine(w.server, client, current, parts, env);
    if !env.allowed {
      ReplyKeeps(w, v, client, "RATE_LIMITED");
    } else if parts == [] {
      ReplyKeeps(w, v, client, "ERROR UNKNOWN_COMMAND");
    } else if parts[0] == "PONG" {
      SameSession(w, v, client, h);
      FollowsChange(w, v, client, h);
      QuietStep(w, v, map[]);
    } else if IsEntrance(parts[0]) {
      if current.Some? {
        ReplyKeeps(w, v, client, "ALREADY_IN_ROOM");
      } else if !env.roomAllowed {
        ReplyKeeps(w, v, client, "RATE_LIMITED");
      } else if parts[0] == "CREATE" {
        EnterKeeps(w, v, client, parts[1..], env);
      } else if parts[0] == "CREATE_PUBLIC" {
        EnterPublicKeeps(w, v, client, parts[1..], env);
      } else {
        JoiningKeeps(w, v, client, parts[1..], parts[0] == "JOIN_PUBLIC", env);
      }
    } else if IsMemberCommand(parts[0]) {
      MemberLineKeeps(w, v, client, parts[0], parts[1..], env);
    } else {
      ReplyKeeps(w, v, client, "ERROR UNKNOWN_COMMAND");
    }
  }

  // --- The other steps -----------------------------------------------------------------

  lemma {:induction false} ExpiryIsQuiet(rooms: map<RoomId, Room>, ids: seq<RoomId>)
    ensures IsQuiet(ExpiryNotices(rooms, ids))
  {
    if ids != [] {
      var front, last := ids[..|ids| - 1], ids[|ids| - 1];
      ExpiryIsQuiet(rooms, front);
      if last in rooms {
        var before, notice := ExpiryNotices(rooms, front), Broadcast(rooms[last].peers.Keys, Text("ROOM_EXPIRED"));
        forall client, line | line in LinesTo(Merge(before, notice), client) ensures Neutral(line) {
          MergedLines(before, notice, client);
        }
      }
    }
  }

  lemma GoodbyeKeeps(w: World, v: World, client: ClientId, env: Env)
    requires Sound(w) && Live(w, client) && Plausible(w, client, env)
    requires
      var change := Goodbye(w.server, client, w.sessions[client].current, env);
      v.server.rooms == change.server.rooms && v.heard == Merge(w.heard, change.out)
    requires v.sessions == w.sessions[client := Session(None, false)]
    ensures Sound(v)
  {
    hide Sound, Merge, LeaveRoom, Enumerates;
    match w.sessions[client].current
    case Some(id) =>
      var left := LeaveRoom(w.server, id, client, env.heirs, env.now);
      LeaveKeeps(w, v, left.out, id, client, env, []);
    case None =>
      QuietStep(w, v, map[]);
  }

  lemma StepKeepsSound(w: World, step: Step)
    requires Sound(w) && Enabled(w, step)
    ensures Sound(Apply(w, step))
  {
    hide Sound, Merge, HandleLine, Register, Goodbye, Plausible, ExpiryNotices, Enumerates, Expired, MatchTimeout;
    var v := Apply(w, step);
    var out := ChangeOf(w, step).out;
    match step
    case Say(client, parts, env) =>
      LineKeeps(w, v, client, parts, env);
    case Locate(client, address, order, _) =>
      RegisterKeeps(w, v, client, address, order);
    case Sweep(ids, _) =>
      ExpiryIsQuiet(w.server.rooms, ids);
      QuietStep(w, v, out);
    case Fire(timer, _) =>
      TimeoutIsQuiet(w.server, timer);
      QuietStep(w, v, out);
    case Hangup(client, env) =>
      GoodbyeKeeps(w, v, client, env);
    case _ =>
      QuietStep(w, v, out);
  }

  lemma TimeoutIsQuiet(s: Server, timer: Timer)
    ensures IsQuiet(MatchTimeout(s, timer))
  {
  }
}
