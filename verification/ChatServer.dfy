/** The contents thread of ChatServer.cpp: players, the session map, the account map and the sector
    lists, changed in place. */
module ChatServers {
  import opened Bytes
  import opened Words
  import opened Codec
  import opened Packets
  import opened Callbacks
  import opened ChatWorld

  class Player {
    var sessionId: nat
    var accountNo: seq<byte>
    var id: seq<byte>
    var nickname: seq<byte>
    var sessionKey: seq<byte>
    var sectorX: nat
    var sectorY: nat
    var sectorIndex: nat
    var isLogin: bool
    var isDisconnecting: bool

    ghost function State(): Profile reads this {
      Profile(accountNo, id, nickname, sessionKey, sectorX, sectorY, sectorIndex, isLogin, isDisconnecting)
    }

    /** `_playerPool.Alloc` and `Init`; the names are read only after a login has set them. */
    constructor (sessionId: nat)
      ensures this.sessionId == sessionId && State() == NEWCOMER
    {
      this.sessionId := sessionId;
      accountNo := [0, 0, 0, 0, 0, 0, 0, 0];
      id, nickname, sessionKey := [], [], [];
      sectorX, sectorY := INVALID_SECTOR, INVALID_SECTOR;
      sectorIndex := 0;
      isLogin, isDisconnecting := false, false;
    }

    method SetNames(accountNo: seq<byte>, id: seq<byte>, nickname: seq<byte>, sessionKey: seq<byte>)
      modifies this
      ensures sessionId == old(sessionId)
      ensures State() == old(State()).(account := accountNo, id := id, nickname := nickname, sessionKey := sessionKey,
                                       isLogin := true)
    {
      this.id := id;
      this.nickname := nickname;
      this.sessionKey := sessionKey;
      this.accountNo := accountNo;
      isLogin := true;
    }
  }

  class ChatServer {
    var sessionMap: map<nat, Player>
    var accountMap: map<seq<byte>, Player>
    const sectors: array2<seq<Player>>     // _sectors[y][x]
    var out: seq<Effect>                   // the calls made into the network library
    var broken: bool                       // a break into the debugger
    ghost var w: World

    // ---------------------------------------------------------------- representation

    ghost predicate PlayersAre(m: map<nat, Player>, players: map<nat, Profile>) reads m.Values {
      && m.Keys == players.Keys
      && forall s :: s in m ==> m[s].sessionId == s && m[s].State() == players[s]
    }

    ghost predicate AccountsAre(m: map<nat, Player>, byAccount: map<seq<byte>, Player>, accounts: map<seq<byte>, nat>) {
      && byAccount.Keys == accounts.Keys
      && forall a :: a in byAccount ==> accounts[a] in m && byAccount[a] == m[accounts[a]]
    }

    ghost predicate SectorsAre(m: map<nat, Player>, lists: map<Cell, seq<nat>>) reads sectors {
      && sectors.Length0 == SECTOR_MAX && sectors.Length1 == SECTOR_MAX
      && forall y, x :: 0 <= y < SECTOR_MAX && 0 <= x < SECTOR_MAX ==>
           Cell(y, x) in lists && Lists(m, sectors[y, x], lists[Cell(y, x)])
    }

    ghost predicate Lists(m: map<nat, Player>, list: seq<Player>, names: seq<nat>) {
      && |list| == |names|
      && forall i :: 0 <= i < |list| ==> names[i] in m && list[i] == m[names[i]]
    }

    /** The server is what the value `w` says. */
    ghost predicate Shows() reads this, sessionMap.Values, sectors {
      && PlayersAre(sessionMap, w.players) && AccountsAre(sessionMap, accountMap, w.accounts)
      && SectorsAre(sessionMap, w.sectors) && out == w.out && broken == w.broken
    }

    ghost predicate Valid() reads this, sessionMap.Values, sectors {
      Shows() && Sound(w)
    }

    constructor ()
      ensures Valid() && w == EmptyWorld()
      ensures fresh(sectors) && sessionMap == map[]
    {
      sessionMap := map[];
      accountMap := map[];
      sectors := new seq<Player>[SECTOR_MAX, SECTOR_MAX]((y, x) => []);
      out := [];
      broken := false;
      w := EmptyWorld();
    }

    lemma Known(player: Player)
      requires Shows() && player in sessionMap.Values
      ensures player.sessionId in sessionMap && sessionMap[player.sessionId] == player
      ensures player.sessionId in w.players && w.players[player.sessionId] == player.State()
    {
    }

    lemma At(s: nat)
      requires Shows() && s in sessionMap
      ensures sessionMap[s].sessionId == s && s in w.players && w.players[s] == sessionMap[s].State()
    {
    }

    lemma Listed(y: nat, x: nat)
      requires Shows() && y < SECTOR_MAX && x < SECTOR_MAX
      ensures sectors.Length0 == SECTOR_MAX && sectors.Length1 == SECTOR_MAX
      ensures Cell(y, x) in w.sectors && Lists(sessionMap, sectors[y, x], w.sectors[Cell(y, x)])
    {
    }

    /** One player's fields were written. */
    twostate lemma OnePlayerWritten(player: Player)
      requires old(Shows()) && player in old(sessionMap.Values)
      requires sessionMap == old(sessionMap) && accountMap == old(accountMap) && broken == old(broken)
      requires forall p :: p in sessionMap.Values && p != player ==>
               p.sessionId == old(p.sessionId) && p.State() == old(p.State())
      requires player.sessionId == old(player.sessionId) && w.accounts == old(w).accounts && w.sectors == old(w).sectors
      requires w.players == old(w).players[player.sessionId := player.State()]
      requires forall y, x :: 0 <= y < sectors.Length0 && 0 <= x < sectors.Length1 ==>
               sectors[y, x] == old(sectors[y, x])
      requires out == w.out && broken == w.broken
      ensures Shows()
    {
      hide AccountsAre;
      assert PlayersAre(sessionMap, w.players);
      assert SectorsAre(sessionMap, w.sectors);
    }

    // ---------------------------------------------------------------- jobs

    /** The new player takes the place of one with the same session, if there is one. */
    method ProcessAccept(s: nat)
      requires Valid()
      modifies this`sessionMap, this`w
      ensures w == Accept(old(w), s) && (Valid() <==> !Dangles(old(w), s))
      ensures s in sessionMap && fresh(sessionMap[s]) && sessionMap == old(sessionMap)[s := sessionMap[s]]
      ensures sessionMap[s].sessionId == s && sessionMap[s].State() == NEWCOMER
      ensures fresh(sessionMap.Values - old(sessionMap.Values))
    {
      hide Sound, Shows, Dangles;
      AcceptSound(w, s);
      var player := new Player(s);
      Insert(s, player);
    }

    lemma SameKeys()
      requires Shows()
      ensures sessionMap.Keys == w.players.Keys && accountMap.Keys == w.accounts.Keys
      ensures out == w.out && broken == w.broken
    {
    }

    method Insert(s: nat, player: Player)
      requires Shows() && player.sessionId == s && player.State() == NEWCOMER
      modifies this`sessionMap, this`w
      ensures w == Accept(old(w), s) && sessionMap == old(sessionMap)[s := player]
      ensures !Dangles(old(w), s) ==> Shows()
    {
      hide PlayersAre, AccountsAre, SectorsAre, Dangles;
      MoreSessions(s, player);
      sessionMap := sessionMap[s := player];
      w := Accept(w, s);
    }

    /** References to players stay right when a player comes whom nobody refers to. */
    lemma MoreSessions(s: nat, player: Player)
      requires Shows() && player.sessionId == s && player.State() == NEWCOMER
      ensures PlayersAre(sessionMap[s := player], w.players[s := NEWCOMER])
      ensures !Dangles(w, s) ==> AccountsAre(sessionMap[s := player], accountMap, w.accounts)
      ensures !Dangles(w, s) ==> SectorsAre(sessionMap[s := player], w.sectors)
    {
    }

    method DisconnectPlayer(player: Player)
      requires Shows() && player in sessionMap.Values
      modifies this`out, this`w, player`isDisconnecting
      ensures Shows() && player.sessionId in old(w.players) && w == Leave(old(w), player.sessionId)
    {
      hide Shows;
      Known(player);
      SameKeys();
      if player.isDisconnecting { return; }
      player.isDisconnecting := true;
      out := out + [Disconnect(player.sessionId)];
      w := Leave(w, player.sessionId);
      OnePlayerWritten(player);
    }

    method SetIndex(player: Player, i: nat)
      requires Shows() && player in sessionMap.Values
      modifies this`w, player`sectorIndex
      ensures Shows() && player.sessionId in old(w.players)
      ensures w == old(w).(players := old(w.players)[player.sessionId := old(w.players)[player.sessionId].(index := i)])
    {
      hide Shows;
      Known(player);
      SameKeys();
      player.sectorIndex := i;
      w := w.(players := w.players[player.sessionId := w.players[player.sessionId].(index := i)]);
      OnePlayerWritten(player);
    }

    method SetSector(y: nat, x: nat, list: seq<Player>, ghost names: seq<nat>)
      requires Shows() && y < SECTOR_MAX && x < SECTOR_MAX && Lists(sessionMap, list, names)
      modifies this`w, sectors
      ensures Shows() && w == old(w).(sectors := old(w.sectors)[Cell(y, x) := names])
    {
      hide PlayersAre, AccountsAre, Lists;
      sectors[y, x] := list;
      w := w.(sectors := w.sectors[Cell(y, x) := names]);
    }

    /** Swap-remove, as `ProcessRelease` and `PacketProcSectorMove` do it. */
    method RemoveFromSector(player: Player)
      requires Shows() && Sound(w) && player in sessionMap.Values && player.sectorX != INVALID_SECTOR
      modifies this`w, sectors, sessionMap.Values
      ensures Shows() && player.sessionId in old(w.players) && w == Vacate(old(w), player.sessionId)
      ensures player.sessionId == old(player.sessionId)
    {
      hide Shows, Sound;
      Known(player);
      SeatOf(w, player.sessionId);
      var y, x, i := player.sectorY, player.sectorX, player.sectorIndex;
      Listed(y, x);
      var list := sectors[y, x];
      ghost var names := w.sectors[Cell(y, x)];
      var last := list[|list| - 1];
      At(names[|names| - 1]);
      SetSector(y, x, list[i := last][..|list| - 1], names[i := names[|names| - 1]][..|names| - 1]);
      Known(last);
      SetIndex(last, i);
    }

    method ProcessRelease(s: nat)
      requires Valid()
      modifies this`sessionMap, this`accountMap, this`w, sectors, sessionMap.Values
      ensures Valid() && w == Release(old(w), s)
      ensures sessionMap == old(sessionMap) - {s}
    {
      hide Shows, Sound;
      SameKeys();
      ReleaseSound(w, s);
      if s !in sessionMap { return; }
      var player := sessionMap[s];
      At(s);
      if player.sectorX != INVALID_SECTOR {
        VacateSound(w, s);
        RemoveFromSector(player);
        At(s);
      }
      if player.isLogin {
        EraseAccount(player.accountNo);
      }
      ReleaseClears(old(w), s, w);
      Erase(s);
    }

    method EraseAccount(a: seq<byte>)
      requires Shows()
      modifies this`accountMap, this`w
      ensures Shows() && w == old(w).(accounts := old(w.accounts) - {a})
    {
      hide PlayersAre, SectorsAre;
      if a in accountMap {
        accountMap := accountMap - {a};
      }
      w := w.(accounts := w.accounts - {a});
    }

    /** The player is in no sector and has no account. */
    method Erase(s: nat)
      requires Shows() && Absent(w, s) && Unregistered(w, s)
      modifies this`sessionMap, this`w
      ensures Shows() && w == old(w).(players := old(w.players) - {s}) && sessionMap == old(sessionMap) - {s}
    {
      hide PlayersAre, AccountsAre, SectorsAre, Absent, Unregistered;
      ErasedPlayers(s);
      ErasedAccounts(s);
      ErasedSectors(s);
      sessionMap := sessionMap - {s};
      w := w.(players := w.players - {s});
    }

    lemma ErasedPlayers(s: nat)
      requires PlayersAre(sessionMap, w.players)
      ensures PlayersAre(sessionMap - {s}, w.players - {s})
    {
    }

    lemma ErasedAccounts(s: nat)
      requires AccountsAre(sessionMap, accountMap, w.accounts) && Unregistered(w, s)
      ensures AccountsAre(sessionMap - {s}, accountMap, w.accounts)
    {
    }

    lemma ErasedSectors(s: nat)
      requires SectorsAre(sessionMap, w.sectors) && Absent(w, s)
      ensures SectorsAre(sessionMap - {s}, w.sectors)
    {
    }

    // ---------------------------------------------------------------- packets

    method PacketProcLogin(player: Player, packet: Packet)
      requires Shows() && Sound(w) && player in sessionMap.Values && packet.Valid()
      modifies this`out, this`w, this`accountMap, sessionMap.Values, packet`readPos, packet`writePos
      ensures Shows() && player.sessionId == old(player.sessionId) && player.sessionId in old(w.players)
      ensures w == Login(old(w), player.sessionId, old(packet.Data()))
    {
      hide Shows, Sound;
      Known(player);
      var s := player.sessionId;
      if player.isLogin || packet.writePos - packet.readPos != 8 + NAME + NAME + SESSION_KEY {
        DisconnectPlayer(player);
        return;
      }
      ghost var data := packet.Data();
      var accountNo, id, nickname, sessionKey := ReadLogin(packet);
      var response := ResLogin(1, accountNo);
      SetLogin(player, accountNo, id, nickname, sessionKey, response, data);
      SignInSound(old(w), s, data);
      SetAccount(player, accountNo);
    }

    method SetLogin(player: Player, accountNo: seq<byte>, id: seq<byte>, nickname: seq<byte>,
                    sessionKey: seq<byte>, response: seq<byte>,
                    ghost data: seq<byte>)
      requires Shows() && player in sessionMap.Values && IsLogin(data, accountNo, id, nickname, sessionKey)
      requires response == LoginResponse(1, accountNo)
      modifies this`out, this`w, player
      ensures Shows() && player.sessionId == old(player.sessionId) && player.sessionId in old(w.players)
      ensures w == SignIn(old(w), player.sessionId, data)
    {
      hide Shows, SignIn;
      Known(player);
      SameKeys();
      SignedIn(w, player.sessionId, data);
      out := out + [Send(player.sessionId, response)];
      player.SetNames(accountNo, id, nickname, sessionKey);
      w := w.(players := w.players[player.sessionId := player.State()], out := out);
      OnePlayerWritten(player);
    }

    /** The end of the login: whoever had the account is disconnected. */
    method SetAccount(player: Player, accountNo: seq<byte>)
      requires Shows() && Sound(w) && player in sessionMap.Values
      modifies this`out, this`w, this`accountMap, sessionMap.Values
      ensures Shows() && w == Register(old(w), player.sessionId, accountNo) && player.sessionId == old(player.sessionId)
    {
      hide Shows, Sound;
      Known(player);
      Holder(accountNo);
      if accountNo in accountMap {
        DisconnectPlayer(accountMap[accountNo]);
        Known(player);
      }
      Enlist(player, accountNo);
    }

    lemma Holder(a: seq<byte>)
      requires Shows()
      ensures a in accountMap <==> a in w.accounts
      ensures a in accountMap ==> w.accounts[a] in sessionMap && accountMap[a] == sessionMap[w.accounts[a]]
      ensures a in accountMap ==> accountMap[a].sessionId == w.accounts[a] && w.accounts[a] in w.players
    {
    }

    method Enlist(player: Player, a: seq<byte>)
      requires Shows() && player in sessionMap.Values
      modifies this`accountMap, this`w
      ensures Shows() && w == old(w).(accounts := old(w.accounts)[a := player.sessionId])
    {
      hide PlayersAre, SectorsAre;
      assert player.sessionId in sessionMap && sessionMap[player.sessionId] == player by { Known(player); }
      accountMap := accountMap[a := player];
      w := w.(accounts := w.accounts[a := player.sessionId]);
    }

    method PacketProcSectorMove(player: Player, packet: Packet)
      requires Shows() && Sound(w) && player in sessionMap.Values && packet.Valid()
      modifies this`out, this`w, this`broken, sectors, sessionMap.Values, packet`readPos, packet`writePos
      ensures Shows() && player.sessionId == old(player.sessionId) && player.sessionId in old(w.players)
      ensures w == SectorMove(old(w), player.sessionId, old(packet.Data()))
    {
      hide Shows, Sound, LenOf, Vacate, Enter, Leave;
      Known(player);
      var s := player.sessionId;
      if !player.isLogin || packet.writePos - packet.readPos != 8 + 2 + 2 {
        DisconnectPlayer(player);
        return;
      }
      var accountNo, x, y := ReadMove(packet);
      if accountNo != player.accountNo {
        Break();
        return;
      }
      if x >= SECTOR_MAX || y >= SECTOR_MAX {
        DisconnectPlayer(player);
        return;
      }
      MoveTo(player, y, x);
      ShapeOf(old(w), s);
      var response := ResSectorMove(player.accountNo, x, y);
      SendTo(s, response);
    }

    method Break()
      requires Shows()
      modifies this`broken, this`w
      ensures Shows() && w == old(w).(broken := true)
    {
      broken := true;
      w := w.(broken := true);
    }

    /** `SendPacket`. */
    method SendTo(s: nat, payload: seq<byte>)
      requires Shows()
      modifies this`out, this`w
      ensures Shows() && w == old(w).(out := old(w.out) + [Send(s, payload)])
    {
      out := out + [Send(s, payload)];
      w := w.(out := w.out + [Send(s, payload)]);
    }

    /** The player leaves his sector, if he has one, and goes to the end of the other. */
    method MoveTo(player: Player, y: nat, x: nat)
      requires Shows() && Sound(w) && player in sessionMap.Values && y < SECTOR_MAX && x < SECTOR_MAX
      modifies this`w, sectors, sessionMap.Values
      ensures Shows() && player.sessionId == old(player.sessionId) && player.sessionId in old(w.players)
      ensures var s := player.sessionId;
              var v := if old(w).players[s].x != INVALID_SECTOR then Vacate(old(w), s) else old(w);
              s in v.players && Cell(y, x) in v.sectors && w == Enter(v, s, Cell(y, x))
              && player.accountNo == old(w).players[s].account
    {
      hide Shows, Sound, Vacate, Enter;
      Known(player);
      var s := player.sessionId;
      if player.sectorX != INVALID_SECTOR {
        VacateSound(w, s);
        RemoveFromSector(player);
        Known(player);
      }
      EnterSector(player, y, x);
    }

    method EnterSector(player: Player, y: nat, x: nat)
      requires Shows() && player in sessionMap.Values && y < SECTOR_MAX && x < SECTOR_MAX
      modifies this`w, sectors, player`sectorX, player`sectorY, player`sectorIndex
      ensures Shows() && player.sessionId in old(w.players) && Cell(y, x) in old(w.sectors)
      ensures w == Enter(old(w), player.sessionId, Cell(y, x))
      ensures player.accountNo == old(w).players[player.sessionId].account
    {
      hide Shows;
      Known(player);
      Listed(y, x);
      SameKeys();
      ghost var names := w.sectors[Cell(y, x)];
      player.sectorIndex := |sectors[y, x]|;
      player.sectorX := x;
      player.sectorY := y;
      w := w.(players := w.players[player.sessionId := player.State()]);
      OnePlayerWritten(player);
      Known(player);
      SetSector(y, x, sectors[y, x] + [player], names + [player.sessionId]);
    }

    method PacketProcMessage(player: Player, packet: Packet)
      requires Shows() && Sound(w) && player in sessionMap.Values && packet.Valid()
      modifies this`out, this`w, this`broken, player`isDisconnecting, packet`readPos, packet`writePos
      ensures Shows() && player.sessionId in old(w.players)
      ensures w == Message(old(w), player.sessionId, old(packet.Data()))
    {
      hide Shows, Sound, LenOf, Leave, Around, Sends, MessageResponse;
      Known(player);
      ghost var data := packet.Data();
      if !player.isLogin || player.sectorX == INVALID_SECTOR || packet.writePos - packet.readPos < 8 + 2 {
        DisconnectPlayer(player);
        return;
      }
      var accountNo, msgLen := ReadMessageHead(packet);
      if accountNo != player.accountNo {
        Break();
        return;
      }
      if msgLen > MAX_MESSAGE || msgLen != packet.writePos - packet.readPos {
        DisconnectPlayer(player);
        return;
      }
      var message := GetBytes(packet, msgLen);
      ShapeOf(w, player.sessionId);
      SeatOf(w, player.sessionId);
      var payload := ResMessage(player.accountNo, player.id, player.nickname, message, player.State());
      assert message == data[10..];
      Broadcast(player.sectorY, player.sectorX, payload, player.State());
    }

    /** The loops over the sectors around a player. */
    method Broadcast(sectorY: nat, sectorX: nat, payload: seq<byte>, ghost p: Profile)
      requires Shows() && sectorY < SECTOR_MAX && sectorX < SECTOR_MAX && p.y == sectorY && p.x == sectorX
      modifies this`out, this`w
      ensures Shows() && w == old(w).(out := old(w.out) + Sends(Around(old(w), p), payload))
    {
      hide Shows, Sends, Rows;
      var beginX := if sectorX == 0 then 0 else sectorX - 1;
      var endX := if sectorX == SECTOR_MAX - 1 then sectorX else sectorX + 1;
      var beginY := if sectorY == 0 then 0 else sectorY - 1;
      var endY := if sectorY == SECTOR_MAX - 1 then sectorY else sectorY + 1;
      SendToRows(beginY, endY, beginX, endX, payload);
    }

    method SendToRows(beginY: nat, endY: nat, beginX: nat, endX: nat, payload: seq<byte>)
      requires Shows() && beginY <= endY < SECTOR_MAX && beginX <= endX < SECTOR_MAX
      modifies this`out, this`w
      ensures Shows() && w == old(w).(out := old(w.out) + Sends(Rows(old(w), beginY, endY, beginX, endX), payload))
    {
      hide Shows, Sends, Row;
      ghost var w0, done: seq<nat> := w, [];
      NothingSent(payload);
      var y := beginY;
      while y <= endY
        invariant y <= endY + 1 && Shows() && w == w0.(out := w0.out + Sends(done, payload))
        invariant done + Rows(w0, y, endY, beginX, endX) == Rows(w0, beginY, endY, beginX, endX)
      {
        SameSectors(w0, w, y, beginX, endX);
        SendToRow(y, beginX, endX, payload);
        SendsConcat(done, Row(w0, y, beginX, endX), payload);
        done := done + Row(w0, y, beginX, endX);
        y := y + 1;
      }
      assert done == Rows(w0, beginY, endY, beginX, endX);
    }

    method SendToRow(y: nat, beginX: nat, endX: nat, payload: seq<byte>)
      requires Shows() && y < SECTOR_MAX && endX < SECTOR_MAX && beginX <= endX
      modifies this`out, this`w
      ensures Shows() && w == old(w).(out := old(w.out) + Sends(Row(old(w), y, beginX, endX), payload))
    {
      hide Shows, Sends;
      ghost var w0, done: seq<nat> := w, [];
      NothingSent(payload);
      var x := beginX;
      while x <= endX
        invariant x <= endX + 1 && Shows() && w == w0.(out := w0.out + Sends(done, payload))
        invariant done + Row(w0, y, x, endX) == Row(w0, y, beginX, endX)
      {
        SendToSector(y, x, payload);
        ghost var cell := w0.sectors[Cell(y, x)];
        SendsConcat(done, cell, payload);
        assert done + cell + Row(w0, y, x + 1, endX) == done + (cell + Row(w0, y, x + 1, endX));
        done := done + cell;
        x := x + 1;
      }
      assert done == Row(w0, y, beginX, endX);
    }

    method SendToSector(y: nat, x: nat, payload: seq<byte>)
      requires Shows() && y < SECTOR_MAX && x < SECTOR_MAX
      modifies this`out, this`w
      ensures Shows() && Cell(y, x) in old(w.sectors)
      ensures w == old(w).(out := old(w.out) + Sends(old(w.sectors)[Cell(y, x)], payload))
    {
      hide Shows;
      ghost var w0 := w;
      Listed(y, x);
      ghost var names := w.sectors[Cell(y, x)];
      var i := 0;
      while i < |sectors[y, x]|
        invariant i <= |sectors[y, x]| && Shows() && w == w0.(out := w0.out + Sends(names[..i], payload))
      {
        Listed(y, x);
        At(names[i]);
        SendTo(sectors[y, x][i].sessionId, payload);
        assert Sends(names[..i + 1], payload) == Sends(names[..i], payload) + [Send(names[i], payload)];
        i := i + 1;
      }
      Listed(y, x);
      assert names[..i] == names;
    }

    /** `junk` stands for the variable `type`, which a packet shorter than two bytes does not set. */
    method PacketProc(s: nat, packet: Packet, junk: nat)
      requires Valid() && packet.Valid()
      modifies this`out, this`w, this`broken, this`accountMap, sectors, sessionMap.Values, packet`readPos,
        packet`writePos
      ensures Valid() && w == Receive(old(w), s, old(packet.Data()), junk)
    {
      hide Shows, Sound, LenOf, Login, SectorMove, Message, Leave;
      SameKeys();
      ReceiveSound(w, s, packet.Data(), junk);
      if s !in sessionMap { return; }
      var player := sessionMap[s];
      At(s);
      if player.isDisconnecting { return; }
      var ok, word := PopBytes(packet, 2);
      var kind := if ok then LenOf(word[0], word[1]) else junk;
      match kind
      case 1 => PacketProcLogin(player, packet);
      case 3 => PacketProcSectorMove(player, packet);
      case 5 => PacketProcMessage(player, packet);
      case 7 =>
      case _ => DisconnectPlayer(player);
    }

    /** `late` is what the clock makes of the iteration over the session map. */
    method CheckTimeout(late: seq<nat>)
      requires Valid()
      modifies this`out, this`w, sessionMap.Values
      ensures Valid() && w == TimeOut(old(w), late)
    {
      hide Shows, Sound, Leave;
      TimeOutSound(w, late);
      ghost var w0 := w;
      var i := 0;
      assert late[0..] == late;
      while i < |late|
        invariant 0 <= i <= |late| && Shows() && TimeOut(w, late[i..]) == TimeOut(w0, late)
      {
        assert late[i..][1..] == late[i + 1..];
        SameKeys();
        if late[i] in sessionMap {
          At(late[i]);
          DisconnectPlayer(sessionMap[late[i]]);
        }
        i := i + 1;
      }
    }

    /** A job comes with its packet if it is a receive.  `JobsFindPlayers` proves that no session is
        accepted twice, so that the server stays in order. */
    method HandleJob(job: Callback, packet: Packet, junk: nat)
      requires Valid() && packet.Valid()
      modifies this`out, this`w, this`broken, this`accountMap, this`sessionMap, sectors, sessionMap.Values,
               packet`readPos, packet`writePos
      ensures w == Handle(old(w), job, old(packet.Data()), junk)
      ensures Valid() <==> !(job.Accepted? && Dangles(old(w), job.id))
      ensures fresh(sessionMap.Values - old(sessionMap.Values))
    {
      hide Shows, Sound, Receive, Release, Dangles;
      match job
      case Accepted(id) => ProcessAccept(id);
      case Released(id) => ProcessRelease(id);
      case Received(id, _) => PacketProc(id, packet, junk);
    }
  }

  // ---------------------------------------------------------------- reading and writing packets

  method ReadMessageHead(packet: Packet) returns (accountNo: seq<byte>, msgLen: nat)
    requires packet.Valid() && |packet.Data()| >= 8 + 2
    modifies packet`readPos, packet`writePos
    ensures var data := old(packet.Data());
            packet.Valid() && accountNo == data[..8] && msgLen == LenOf(data[8], data[9]) && packet.Data() == data[10..]
  {
    hide LenOf;
    var ok, word;
    ok, accountNo := PopBytes(packet, 8);
    ok, word := PopBytes(packet, 2);
    msgLen := LenOf(word[0], word[1]);
  }

  method ReadMove(packet: Packet) returns (accountNo: seq<byte>, x: nat, y: nat)
    requires packet.Valid() && |packet.Data()| == 8 + 2 + 2
    modifies packet`readPos, packet`writePos
    ensures var data := old(packet.Data());
            accountNo == data[..8] && x == LenOf(data[8], data[9]) && y == LenOf(data[10], data[11])
  {
    var ok, wx, wy;
    ok, accountNo := PopBytes(packet, 8);
    ok, wx := PopBytes(packet, 2);
    ok, wy := PopBytes(packet, 2);
    x, y := LenOf(wx[0], wx[1]), LenOf(wy[0], wy[1]);
  }

  /** `mpResSectorMove`. */
  method ResSectorMove(account: seq<byte>, x: nat, y: nat) returns (payload: seq<byte>)
    requires |account| == 8 && x < SECTOR_MAX && y < SECTOR_MAX
    ensures payload == MoveResponse(account, x, y)
  {
    hide LenBytes;
    var packet := new Packet();
    PushBytes(packet, LenBytes(RES_SECTOR_MOVE));
    PushBytes(packet, account);
    PushBytes(packet, LenBytes(x));
    PushBytes(packet, LenBytes(y));
    payload := packet.buffer[packet.readPos..packet.writePos];
  }

  /** `mpResMessage`: 92 bytes and the message, which always fit. */
  method ResMessage(account: seq<byte>, id: seq<byte>, nickname: seq<byte>, message: seq<byte>, ghost p: Profile)
    returns (payload: seq<byte>)
    requires |account| == 8 && |id| == NAME && |nickname| == NAME && |message| <= MAX_MESSAGE
    requires p.account == account && p.id == id && p.nickname == nickname
    ensures payload == MessageResponse(p, message) && |payload| == 92 + |message| <= 1116
  {
    hide LenBytes;
    var packet := new Packet();
    PutSender(packet, account, id, nickname);
    PushBytes(packet, LenBytes(|message|));
    PutBytes(packet, message);
    payload := packet.buffer[packet.readPos..packet.writePos];
  }

  method PutSender(packet: Packet, account: seq<byte>, id: seq<byte>, nickname: seq<byte>)
    requires packet.Valid() && packet.Data() == [] && packet.FreeSize() == DEFAULT_BUFFER
    requires |account| == 8 && |id| == NAME && |nickname| == NAME
    modifies packet`writePos, packet.buffer
    ensures packet.Valid() && packet.Data() == LenBytes(RES_MESSAGE) + account + id + nickname
    ensures packet.FreeSize() == DEFAULT_BUFFER - 90
  {
    hide LenBytes;
    PushBytes(packet, LenBytes(RES_MESSAGE));
    PushBytes(packet, account);
    PutBytes(packet, id);
    PutBytes(packet, nickname);
  }

  /** Rows read nothing but the sectors. */
  lemma {:induction false} SameSectors(w: World, v: World, y: nat, x: nat, endX: nat)
    requires v.sectors == w.sectors
    ensures Row(v, y, x, endX) == Row(w, y, x, endX)
    decreases endX + 1 - x
  {
    if x <= endX {
      SameSectors(w, v, y, x + 1, endX);
    }
  }

  lemma NothingSent(payload: seq<byte>)
    ensures Sends([], payload) == []
  {
  }

  lemma SendsConcat(a: seq<nat>, b: seq<nat>, payload: seq<byte>)
    ensures Sends(a + b, payload) == Sends(a, payload) + Sends(b, payload)
  {
  }

  lemma ShapeOf(w: World, s: nat)
    requires Sound(w) && s in w.players
    ensures |w.players[s].account| == 8
    ensures w.players[s].isLogin ==> |w.players[s].id| == NAME && |w.players[s].nickname| == NAME
  {
  }

  lemma SignedIn(w: World, s: nat, data: seq<byte>)
    requires s in w.players && |data| == 8 + NAME + NAME + SESSION_KEY
    ensures SignIn(w, s, data) == w.(
              players := w.players[s := w.players[s].(
                account := data[..8], id := data[8..8 + NAME], nickname := data[8 + NAME..8 + NAME + NAME],
                sessionKey := data[8 + NAME + NAME..], isLogin := true)],
              out := w.out + [Send(s, LoginResponse(1, data[..8]))])
  {
  }

  predicate IsLogin(data: seq<byte>, accountNo: seq<byte>, id: seq<byte>, nickname: seq<byte>, sessionKey: seq<byte>) {
    && |data| == 8 + NAME + NAME + SESSION_KEY
    && accountNo == data[..8] && id == data[8..8 + NAME] && nickname == data[8 + NAME..8 + NAME + NAME]
    && sessionKey == data[8 + NAME + NAME..]
  }

  method ReadLogin(packet: Packet)
    returns (accountNo: seq<byte>, id: seq<byte>, nickname: seq<byte>, sessionKey: seq<byte>)
    requires packet.Valid() && |packet.Data()| == 8 + NAME + NAME + SESSION_KEY
    modifies packet`readPos, packet`writePos
    ensures packet.Valid() && packet.Data() == []
    ensures IsLogin(old(packet.Data()), accountNo, id, nickname, sessionKey)
  {
    var ok;
    ghost var data := packet.Data();
    LoginParts(data);
    ok, accountNo := PopBytes(packet, 8);
    id := GetBytes(packet, NAME);
    nickname := GetBytes(packet, NAME);
    sessionKey := GetBytes(packet, SESSION_KEY);
  }

  lemma LoginParts(data: seq<byte>)
    requires |data| == 8 + NAME + NAME + SESSION_KEY
    ensures data[8..][..NAME] == data[8..8 + NAME]
    ensures data[8..][NAME..] == data[8 + NAME..]
    ensures data[8 + NAME..][..NAME] == data[8 + NAME..8 + NAME + NAME]
    ensures data[8 + NAME..][NAME..] == data[8 + NAME + NAME..]
    ensures data[8 + NAME + NAME..][..SESSION_KEY] == data[8 + NAME + NAME..]
    ensures data[8 + NAME + NAME..][SESSION_KEY..] == []
  {
  }

  /** `>>` of `n` bytes. */
  method PopBytes(packet: Packet, n: nat) returns (ok: bool, bytes: seq<byte>)
    requires packet.Valid()
    modifies packet`readPos, packet`writePos
    ensures packet.Valid() && (ok <==> n <= |old(packet.Data())|)
    ensures ok ==> bytes == old(packet.Data())[..n]
    ensures packet.Data() == if ok then old(packet.Data())[n..] else old(packet.Data())
  {
    var a := new byte[n];
    ok := packet.Pop(a);
    bytes := a[..];
  }

  /** `GetData` of a packet that has as many bytes. */
  method GetBytes(packet: Packet, n: nat) returns (bytes: seq<byte>)
    requires packet.Valid() && n <= |packet.Data()|
    modifies packet`readPos, packet`writePos
    ensures packet.Valid() && bytes == old(packet.Data())[..n] && packet.Data() == old(packet.Data())[n..]
  {
    var a := new byte[n];
    var k := packet.GetData(a, n);
    bytes := a[..];
    assert bytes == Put(old(packet.Data())[..n], 0, old(packet.Data())[..n]);
  }

  method NewBytes(s: seq<byte>) returns (a: array<byte>)
    ensures fresh(a) && a[..] == s
  {
    a := new byte[|s|](i requires 0 <= i < |s| => s[i]);
  }

  /** `<<` of bytes for which there is room. */
  method PushBytes(packet: Packet, s: seq<byte>)
    requires packet.Valid() && |s| <= packet.FreeSize()
    modifies packet`writePos, packet.buffer
    ensures packet.Valid() && packet.Data() == old(packet.Data()) + s
    ensures packet.FreeSize() == old(packet.FreeSize()) - |s|
  {
    var a := NewBytes(s);
    var ok := packet.Push(a);
  }

  /** `PutData` of bytes for which there is room: nothing is cut off. */
  method PutBytes(packet: Packet, s: seq<byte>)
    requires packet.Valid() && |s| <= packet.FreeSize()
    modifies packet`writePos, packet.buffer
    ensures packet.Valid() && packet.Data() == old(packet.Data()) + s
    ensures packet.FreeSize() == old(packet.FreeSize()) - |s|
  {
    var a := NewBytes(s);
    var n := packet.PutData(a, |s|);
    assert a[..n] == s;
  }

  /** `mpResLogin`. */
  method ResLogin(status: byte, account: seq<byte>) returns (payload: seq<byte>)
    requires |account| == 8
    ensures payload == LoginResponse(status, account)
  {
    var packet := new Packet();
    PushBytes(packet, LenBytes(RES_LOGIN));
    PushBytes(packet, [status]);
    PushBytes(packet, account);
    payload := packet.buffer[packet.readPos..packet.writePos];
  }

  /** Before the player is taken from the session map, nothing refers to him any more. */
  lemma ReleaseClears(w: World, s: nat, u: World)
    requires Sound(w) && s in w.players
    requires var v := if w.players[s].x != INVALID_SECTOR then Vacate(w, s) else w;
             u == v.(accounts := if w.players[s].isLogin then v.accounts - {w.players[s].account} else v.accounts)
    ensures Absent(u, s) && Unregistered(u, s)
  {
    if w.players[s].x != INVALID_SECTOR {
      VacateSound(w, s);
    } else {
      NowhereIsAbsent(w, s);
    }
  }

  lemma SeatOf(w: World, s: nat)
    requires Sound(w) && s in w.players && w.players[s].x != INVALID_SECTOR
    ensures w.players[s].x < SECTOR_MAX && w.players[s].y < SECTOR_MAX && CellOf(w.players[s]) in w.sectors
    ensures var list := w.sectors[CellOf(w.players[s])];
            w.players[s].index < |list| && list[|list| - 1] in w.players
  {
  }
}
