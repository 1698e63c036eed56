/** The contents of the chat server as a value: players by session, the account map and the sectors,
    and what ChatServer.cpp makes of each job. */
module ChatWorld {
  import opened Bytes
  import opened Words
  import opened Codec
  import opened Callbacks

  const SECTOR_MAX: nat := 50              // SECTOR_MAX_X and SECTOR_MAX_Y
  const INVALID_SECTOR: nat := 0xffff

  const REQ_LOGIN: nat := 1
  const RES_LOGIN: nat := 2
  const REQ_SECTOR_MOVE: nat := 3
  const RES_SECTOR_MOVE: nat := 4
  const REQ_MESSAGE: nat := 5
  const RES_MESSAGE: nat := 6
  const REQ_HEARTBEAT: nat := 7

  const NAME: nat := 40                    // 20 WCHARs
  const SESSION_KEY: nat := 64
  const MAX_MESSAGE: nat := 1024           // 512 WCHARs

  /** The fields of a `Player`; account numbers are the eight bytes of an INT64. */
  datatype Profile = Profile(
    account: seq<byte>,
    id: seq<byte>,
    nickname: seq<byte>,
    sessionKey: seq<byte>,
    x: nat,
    y: nat,
    index: nat,
    isLogin: bool,
    leaving: bool)                         // isDisconnecting

  datatype Cell = Cell(y: nat, x: nat)

  /** The calls into the network library. */
  datatype Effect = Send(to: nat, payload: seq<byte>) | Disconnect(session: nat)

  /** A `Player*` is named by the session of the player. */
  datatype World = World(
    players: map<nat, Profile>,
    accounts: map<seq<byte>, nat>,
    sectors: map<Cell, seq<nat>>,
    out: seq<Effect>,
    broken: bool)

  const NEWCOMER := Profile([0, 0, 0, 0, 0, 0, 0, 0], [], [], [], INVALID_SECTOR, INVALID_SECTOR, 0, false, false)

  predicate OnMap(c: Cell) {
    c.y < SECTOR_MAX && c.x < SECTOR_MAX
  }

  function CellOf(p: Profile): Cell {
    Cell(p.y, p.x)
  }

  function AllCells(): set<Cell> {
    set y: nat, x: nat | 0 <= y < SECTOR_MAX && 0 <= x < SECTOR_MAX :: Cell(y, x)
  }

  function EmptyWorld(): World {
    World(map[], map[], map c | c in AllCells() :: [], [], false)
  }

  // ---------------------------------------------------------------- invariant

  /** Every entry of a sector is a player who knows that place. */
  ghost predicate Listed(w: World) {
    forall c, i :: c in w.sectors && 0 <= i < |w.sectors[c]| ==>
      && w.sectors[c][i] in w.players
      && CellOf(w.players[w.sectors[c][i]]) == c && w.players[w.sectors[c][i]].index == i
  }

  /** Every player with a sector is in it, at his index, and is logged in. */
  ghost predicate Seated(w: World) {
    forall s :: s in w.players && w.players[s].x != INVALID_SECTOR ==>
      && CellOf(w.players[s]) in w.sectors
      && w.players[s].index < |w.sectors[CellOf(w.players[s])]|
      && w.sectors[CellOf(w.players[s])][w.players[s].index] == s
      && w.players[s].isLogin
  }

  /** Every account entry is a logged-in player with that account. */
  ghost predicate Registered(w: World) {
    forall a :: a in w.accounts ==>
      && w.accounts[a] in w.players && w.players[w.accounts[a]].isLogin && w.players[w.accounts[a]].account == a
  }

  ghost predicate Grid(w: World) {
    forall c :: c in w.sectors <==> OnMap(c)
  }

  /** The sizes of the fields; the names are set by the login. */
  ghost predicate Shaped(w: World) {
    forall s :: s in w.players ==>
      |w.players[s].account| == 8
        && (w.players[s].isLogin ==> |w.players[s].id| == NAME && |w.players[s].nickname| == NAME)
  }

  ghost predicate Sound(w: World) {
    Listed(w) && Seated(w) && Registered(w) && Grid(w) && Shaped(w)
  }

  // ---------------------------------------------------------------- operations

  function Accept(w: World, s: nat): World {
    w.(players := w.players[s := NEWCOMER])
  }

  function Leave(w: World, s: nat): World
    requires s in w.players
  {
    if w.players[s].leaving then w
    else w.(players := w.players[s := w.players[s].(leaving := true)], out := w.out + [Disconnect(s)])
  }

  /** Swap-remove: the last of the sector takes the place of `s`. */
  function Vacate(w: World, s: nat): World
    requires s in w.players
  {
    var p := w.players[s];
    var c := CellOf(p);
    if c !in w.sectors || p.index >= |w.sectors[c]| then w
    else
      var list := w.sectors[c];
      var last := list[|list| - 1];
      if last !in w.players then w
      else w.(sectors := w.sectors[c := list[p.index := last][..|list| - 1]],
              players := w.players[last := w.players[last].(index := p.index)])
  }

  function Release(w: World, s: nat): World {
    if s !in w.players then w
    else
      var p := w.players[s];
      var v := if p.x != INVALID_SECTOR then Vacate(w, s) else w;
      v.(accounts := if p.isLogin then v.accounts - {p.account} else v.accounts, players := v.players - {s})
  }

  function LoginResponse(status: byte, account: seq<byte>): seq<byte> {
    LenBytes(RES_LOGIN) + [status] + account
  }

  /** The fields of the packet become the player's, after the response. */
  function SignIn(w: World, s: nat, data: seq<byte>): World
    requires s in w.players && |data| == 8 + NAME + NAME + SESSION_KEY
  {
    var a := data[..8];
    var p := w.players[s].(account := a, id := data[8..8 + NAME], nickname := data[8 + NAME..8 + NAME + NAME],
                           sessionKey := data[8 + NAME + NAME..], isLogin := true);
    w.(players := w.players[s := p], out := w.out + [Send(s, LoginResponse(1, a))])
  }

  /** The account goes to `s`; whoever had it is disconnected. */
  function Register(w: World, s: nat, a: seq<byte>): World {
    var u := if a in w.accounts && w.accounts[a] in w.players then Leave(w, w.accounts[a]) else w;
    u.(accounts := u.accounts[a := s])
  }

  /** `data` is what the packet holds behind its type. */
  function Login(w: World, s: nat, data: seq<byte>): World
    requires s in w.players
  {
    if w.players[s].isLogin || |data| != 8 + NAME + NAME + SESSION_KEY then Leave(w, s)
    else Register(SignIn(w, s, data), s, data[..8])
  }

  function MoveResponse(account: seq<byte>, x: nat, y: nat): seq<byte>
    requires x < 0x1_0000 && y < 0x1_0000
  {
    LenBytes(RES_SECTOR_MOVE) + account + LenBytes(x) + LenBytes(y)
  }

  function Enter(w: World, s: nat, c: Cell): World
    requires s in w.players && c in w.sectors
  {
    w.(players := w.players[s := w.players[s].(x := c.x, y := c.y, index := |w.sectors[c]|)],
       sectors := w.sectors[c := w.sectors[c] + [s]])
  }

  function SectorMove(w: World, s: nat, data: seq<byte>): World
    requires s in w.players
  {
    if !w.players[s].isLogin || |data| != 8 + 2 + 2 then Leave(w, s)
    else if data[..8] != w.players[s].account then w.(broken := true)
    else
      var x, y := LenOf(data[8], data[9]), LenOf(data[10], data[11]);
      if x >= SECTOR_MAX || y >= SECTOR_MAX then Leave(w, s)
      else
        var v := if w.players[s].x != INVALID_SECTOR then Vacate(w, s) else w;
        if s !in v.players || Cell(y, x) !in v.sectors then v
        else
          var u := Enter(v, s, Cell(y, x));
          u.(out := u.out + [Send(s, MoveResponse(w.players[s].account, x, y))])
  }

  function MessageResponse(p: Profile, text: seq<byte>): seq<byte>
    requires |text| < 0x1_0000
  {
    LenBytes(RES_MESSAGE) + p.account + p.id + p.nickname + LenBytes(|text|) + text
  }

  /** The players of a row of sectors, and of a block of rows, in the order of the loops. */
  function Row(w: World, y: nat, x: nat, endX: nat): seq<nat>
    decreases endX + 1 - x
  {
    if x > endX then [] else (if Cell(y, x) in w.sectors then w.sectors[Cell(y, x)] else []) + Row(w, y, x + 1, endX)
  }

  function Rows(w: World, y: nat, endY: nat, x: nat, endX: nat): seq<nat>
    decreases endY + 1 - y
  {
    if y > endY then [] else Row(w, y, x, endX) + Rows(w, y + 1, endY, x, endX)
  }

  function Begin(k: nat): nat {
    if k == 0 then 0 else k - 1
  }

  function End(k: nat): nat {
    if k == SECTOR_MAX - 1 then k else k + 1
  }

  /** The targets of a message. */
  function Around(w: World, p: Profile): seq<nat> {
    Rows(w, Begin(p.y), End(p.y), Begin(p.x), End(p.x))
  }

  function Sends(targets: seq<nat>, payload: seq<byte>): (r: seq<Effect>)
    ensures |r| == |targets|
  {
    seq(|targets|, i requires 0 <= i < |targets| => Send(targets[i], payload))
  }

  function Message(w: World, s: nat, data: seq<byte>): World
    requires s in w.players
  {
    var p := w.players[s];
    if !p.isLogin || p.x == INVALID_SECTOR || |data| < 8 + 2 then Leave(w, s)
    else if data[..8] != p.account then w.(broken := true)
    else
      var len := LenOf(data[8], data[9]);
      if len > MAX_MESSAGE || len != |data| - 10 then Leave(w, s)
      else w.(out := w.out + Sends(Around(w, p), MessageResponse(p, data[10..])))
  }

  /** `PacketProc`; `junk` is the value of the variable `type` when the packet is too short to set it. */
  function Receive(w: World, s: nat, packet: seq<byte>, junk: nat): World {
    if s !in w.players || w.players[s].leaving then w
    else
      var kind := if |packet| >= 2 then LenOf(packet[0], packet[1]) else junk;
      var data := if |packet| >= 2 then packet[2..] else packet;
      if kind == REQ_LOGIN then Login(w, s, data)
      else if kind == REQ_SECTOR_MOVE then SectorMove(w, s, data)
      else if kind == REQ_MESSAGE then Message(w, s, data)
      else if kind == REQ_HEARTBEAT then w
      else Leave(w, s)
  }

  /** `HandleJob`. */
  function Handle(w: World, job: Callback, packet: seq<byte>, junk: nat): World {
    match job
    case Accepted(id) => Accept(w, id)
    case Released(id) => Release(w, id)
    case Received(id, _) => Receive(w, id, packet, junk)
  }

  /** `CheckTimeout`: the players of these sessions have been quiet for too long, in the order of the
      iteration over the session map. */
  function TimeOut(w: World, late: seq<nat>): World
    decreases |late|
  {
    if late == [] then w
    else TimeOut(if late[0] in w.players then Leave(w, late[0]) else w, late[1..])
  }

  // ---------------------------------------------------------------- what they keep

  ghost predicate Absent(w: World, s: nat) {
    forall c, i :: c in w.sectors && 0 <= i < |w.sectors[c]| ==> w.sectors[c][i] != s
  }

  ghost predicate Unregistered(w: World, s: nat) {
    forall a :: a in w.accounts ==> w.accounts[a] != s
  }

  /** A player of this session is in a sector or in the account map, so that replacing him would leave
      references to him behind. */
  ghost predicate Dangles(w: World, s: nat) {
    s in w.players && !(Absent(w, s) && Unregistered(w, s))
  }

  /** An accept makes a player who is nowhere, not logged in and not leaving, and changes nothing else; it
      keeps the index right exactly if no player with its session is referred to. */
  lemma AcceptSound(w: World, s: nat)
    requires Sound(w)
    ensures Sound(Accept(w, s)) <==> !Dangles(w, s)
    ensures s !in w.players ==> !Dangles(w, s)
    ensures var z := Accept(w, s);
            && z == w.(players := z.players) && z.players == w.players[s := z.players[s]]
            && z.players[s].x == 0xffff && !z.players[s].isLogin && !z.players[s].leaving
  {
    var z := Accept(w, s);
    if s in w.players && !Absent(w, s) {
      var c, i :| c in w.sectors && 0 <= i < |w.sectors[c]| && w.sectors[c][i] == s;
      assert OnMap(c) && CellOf(z.players[z.sectors[c][i]]) != c;
    } else if s in w.players && !Unregistered(w, s) {
      var a :| a in w.accounts && w.accounts[a] == s;
      assert !z.players[z.accounts[a]].isLogin;
    }
  }

  lemma LeaveSound(w: World, s: nat)
    requires Sound(w) && s in w.players
    ensures Sound(Leave(w, s)) && Leave(w, s).players.Keys == w.players.Keys
  {
  }

  predicate IsLate(w: World, late: seq<nat>, e: Effect) {
    e.Disconnect? && e.session in w.players && !w.players[e.session].leaving && e.session in late
  }

  /** Who is late is leaving. */
  ghost predicate LateLeave(w: World, late: seq<nat>, z: World) {
    && z.players.Keys == w.players.Keys
    && forall t :: t in w.players ==> z.players[t] == w.players[t].(leaving := w.players[t].leaving || t in late)
  }

  /** Who is late and was not leaving is disconnected, once. */
  ghost predicate LateAreTold(w: World, late: seq<nat>, z: World) {
    forall e :: multiset(z.out)[e] == multiset(w.out)[e] + if IsLate(w, late, e) then 1 else 0
  }

  /** Timeouts disconnect exactly the players who are late, and do nothing else. */
  lemma {:induction false} TimeOutWorks(w: World, late: seq<nat>)
    ensures LateLeave(w, late, TimeOut(w, late)) && LateAreTold(w, late, TimeOut(w, late))
    ensures TimeOut(w, late) == w.(players := TimeOut(w, late).players, out := TimeOut(w, late).out)
    decreases |late|
  {
    hide Leave, LateLeave, LateAreTold;
    if late == [] {
      NobodyLate(w);
    } else {
      var v := if late[0] in w.players then Leave(w, late[0]) else w;
      OneLate(w, late[0]);
      assert late[..1] == [late[0]];
      TimeOutWorks(v, late[1..]);
      LateTwice(w, v, TimeOut(w, late), late);
    }
  }

  lemma NobodyLate(w: World)
    ensures LateLeave(w, [], w) && LateAreTold(w, [], w)
  {
  }

  lemma OneLate(w: World, s: nat)
    ensures var v := if s in w.players then Leave(w, s) else w;
            && LateLeave(w, [s], v) && LateAreTold(w, [s], v) && v == w.(players := v.players, out := v.out)
  {
  }

  lemma LateTwice(w: World, v: World, z: World, late: seq<nat>)
    requires late != [] && LateLeave(w, late[..1], v) && LateLeave(v, late[1..], z)
    requires LateAreTold(w, late[..1], v) && LateAreTold(v, late[1..], z)
    ensures LateLeave(w, late, z) && LateAreTold(w, late, z)
  {
    assert forall t :: t in late <==> t in late[..1] || t in late[1..];
    forall e ensures multiset(z.out)[e] == multiset(w.out)[e] + if IsLate(w, late, e) then 1 else 0 {
      assert multiset(v.out)[e] == multiset(w.out)[e] + if IsLate(w, late[..1], e) then 1 else 0;
    }
  }

  lemma {:induction false} TimeOutSound(w: World, late: seq<nat>)
    requires Sound(w)
    ensures Sound(TimeOut(w, late)) && TimeOut(w, late).players.Keys == w.players.Keys
    ensures TimeOut(w, late).broken == w.broken
    decreases |late|
  {
    hide Sound;
    if late != [] {
      if late[0] in w.players { LeaveSound(w, late[0]); }
      TimeOutSound(if late[0] in w.players then Leave(w, late[0]) else w, late[1..]);
    }
  }

  /** After swap-remove everybody but `s` is where he says, and `s` is nowhere. */
  ghost predicate SeatedBut(w: World, s: nat) {
    forall t :: t in w.players && t != s && w.players[t].x != INVALID_SECTOR ==>
      && CellOf(w.players[t]) in w.sectors
      && w.players[t].index < |w.sectors[CellOf(w.players[t])]|
      && w.sectors[CellOf(w.players[t])][w.players[t].index] == t
      && w.players[t].isLogin
  }

  lemma VacateSeats(w: World, s: nat)
    requires Sound(w) && s in w.players && w.players[s].x != INVALID_SECTOR
    ensures Listed(Vacate(w, s)) && SeatedBut(Vacate(w, s), s) && Absent(Vacate(w, s), s)
  {
    hide Registered, Shaped;
  }

  /** Swap-remove moves at most one player, and tells him. */
  lemma VacateRest(w: World, s: nat)
    requires s in w.players
    ensures var v := Vacate(w, s);
            && v.players.Keys == w.players.Keys && v.accounts == w.accounts && v.out == w.out && v.broken == w.broken
            && v.sectors.Keys == w.sectors.Keys
            && forall t :: t in w.players ==> v.players[t] == w.players[t].(index := v.players[t].index)
  {
  }

  lemma VacateSound(w: World, s: nat)
    requires Sound(w) && s in w.players && w.players[s].x != INVALID_SECTOR
    ensures var v := Vacate(w, s);
            && Listed(v) && SeatedBut(v, s) && Absent(v, s) && Registered(v) && Grid(v) && Shaped(v)
            && v.players.Keys == w.players.Keys && v.accounts == w.accounts && v.out == w.out && v.broken == w.broken
            && v.players[s].account == w.players[s].account && v.players[s].isLogin == w.players[s].isLogin
  {
    hide Vacate, Listed, Seated, SeatedBut, Absent;
    VacateSeats(w, s);
    VacateRest(w, s);
  }

  lemma UnseatedIsAbsent(w: World, s: nat)
    requires Listed(w) && Grid(w) && s in w.players && w.players[s].x == INVALID_SECTOR
    ensures Absent(w, s)
  {
  }

  function Gone(v: World, s: nat): World
    requires s in v.players
  {
    var p := v.players[s];
    v.(accounts := if p.isLogin then v.accounts - {p.account} else v.accounts, players := v.players - {s})
  }

  lemma GoneSound(v: World, s: nat)
    requires s in v.players && Listed(v) && SeatedBut(v, s) && Absent(v, s) && Registered(v) && Grid(v) && Shaped(v)
    ensures Sound(Gone(v, s)) && Gone(v, s).players.Keys == v.players.Keys - {s}
  {
    GoneSeats(v, s);
    hide Listed, Seated, SeatedBut, Absent;
  }

  lemma GoneSeats(v: World, s: nat)
    requires s in v.players && Listed(v) && SeatedBut(v, s) && Absent(v, s)
    ensures Listed(Gone(v, s)) && Seated(Gone(v, s))
  {
  }

  lemma ReleaseSound(w: World, s: nat)
    requires Sound(w)
    ensures Sound(Release(w, s)) && Release(w, s).players.Keys == w.players.Keys - {s}
  {
    hide Listed, Seated, SeatedBut, Absent, Registered, Grid, Shaped, Vacate;
    if s in w.players {
      if w.players[s].x != INVALID_SECTOR {
        VacateSound(w, s);
        GoneSound(Vacate(w, s), s);
      } else {
        UnseatedIsAbsent(w, s);
        SeatedAll(w, s);
        GoneSound(w, s);
      }
    }
  }

  lemma SeatedAll(w: World, s: nat)
    requires Seated(w)
    ensures SeatedBut(w, s)
  {
  }

  /** A release takes the player and the entry of his account, and changes nothing of anybody else but his
      index. */
  lemma ReleaseWorks(w: World, s: nat)
    ensures var z := Release(w, s);
            && z.out == w.out && z.broken == w.broken && z.players.Keys == w.players.Keys - {s}
            && (forall t :: t in z.players ==> z.players[t] == w.players[t].(index := z.players[t].index))
            && z.accounts == if s in w.players && w.players[s].isLogin then w.accounts - {w.players[s].account}
                             else w.accounts
  {
    hide Vacate;
    if s in w.players {
      VacateRest(w, s);
    }
  }

  lemma EnterSound(w: World, s: nat, c: Cell)
    requires Listed(w) && SeatedBut(w, s) && Absent(w, s) && Registered(w) && Grid(w) && Shaped(w)
    requires s in w.players && w.players[s].isLogin && OnMap(c)
    ensures Sound(Enter(w, s, c)) && Enter(w, s, c).players.Keys == w.players.Keys
  {
  }

  lemma SignInSound(w: World, s: nat, data: seq<byte>)
    requires Sound(w) && s in w.players && !w.players[s].isLogin && |data| == 8 + NAME + NAME + SESSION_KEY
    ensures var v := SignIn(w, s, data);
            Sound(v) && v.players.Keys == w.players.Keys && v.players[s].isLogin && v.players[s].account == data[..8]
  {
  }

  lemma RegisterSound(w: World, s: nat, a: seq<byte>)
    requires Sound(w) && s in w.players && w.players[s].isLogin && w.players[s].account == a
    ensures Sound(Register(w, s, a)) && Register(w, s, a).players.Keys == w.players.Keys
  {
    hide Listed, Seated;
    if a in w.accounts {
      LeaveSound(w, w.accounts[a]);
      SeatsOnly(Leave(w, w.accounts[a]), Register(w, s, a));
    } else {
      SeatsOnly(w, Register(w, s, a));
    }
  }

  lemma SeatsOnly(w: World, v: World)
    requires Listed(w) && Seated(w) && v.players == w.players && v.sectors == w.sectors
    ensures Listed(v) && Seated(v)
  {
  }

  lemma LoginSound(w: World, s: nat, data: seq<byte>)
    requires Sound(w) && s in w.players
    ensures Sound(Login(w, s, data)) && Login(w, s, data).players.Keys == w.players.Keys
  {
    hide Sound, SignIn, Register, Leave;
    if !w.players[s].isLogin && |data| == 8 + NAME + NAME + SESSION_KEY {
      SignInSound(w, s, data);
      RegisterSound(SignIn(w, s, data), s, data[..8]);
    } else {
      LeaveSound(w, s);
    }
  }

  lemma SectorMoveSound(w: World, s: nat, data: seq<byte>)
    requires Sound(w) && s in w.players
    ensures Sound(SectorMove(w, s, data)) && SectorMove(w, s, data).players.Keys == w.players.Keys
  {
    hide Enter, Vacate, Listed, Seated, SeatedBut, Absent, LenOf, MoveResponse;
    LeaveSound(w, s);
    if w.players[s].isLogin && |data| == 8 + 2 + 2 && data[..8] == w.players[s].account {
      var x, y := LenOf(data[8], data[9]), LenOf(data[10], data[11]);
      if x < SECTOR_MAX && y < SECTOR_MAX {
        if w.players[s].x != INVALID_SECTOR {
          VacateSound(w, s);
          EnterSound(Vacate(w, s), s, Cell(y, x));
          OutDoesNotMatter(Enter(Vacate(w, s), s, Cell(y, x)), SectorMove(w, s, data));
        } else {
          NowhereIsAbsent(w, s);
          EnterSound(w, s, Cell(y, x));
          OutDoesNotMatter(Enter(w, s, Cell(y, x)), SectorMove(w, s, data));
        }
      } else {
      }
    }
    OutDoesNotMatter(w, SectorMove(w, s, data));
  }

  lemma NowhereIsAbsent(w: World, s: nat)
    requires Sound(w) && s in w.players && w.players[s].x == INVALID_SECTOR
    ensures Absent(w, s) && SeatedBut(w, s)
  {
  }

  lemma OutDoesNotMatter(w: World, v: World)
    ensures v.players == w.players && v.sectors == w.sectors && v.accounts == w.accounts && Sound(w) ==> Sound(v)
  {
  }

  lemma MessageSound(w: World, s: nat, data: seq<byte>)
    requires Sound(w) && s in w.players
    ensures Sound(Message(w, s, data)) && Message(w, s, data).players.Keys == w.players.Keys
  {
    hide Sound, LenOf, Sends, Around, MessageResponse;
    LeaveSound(w, s);
    OutDoesNotMatter(w, Message(w, s, data));
  }

  lemma ReceiveSound(w: World, s: nat, packet: seq<byte>, junk: nat)
    requires Sound(w)
    ensures Sound(Receive(w, s, packet, junk)) && Receive(w, s, packet, junk).players.Keys == w.players.Keys
  {
    hide Sound, LenOf, Login, SectorMove, Message, Leave;
    if s in w.players {
      var data := if |packet| >= 2 then packet[2..] else packet;
      LoginSound(w, s, data);
      SectorMoveSound(w, s, data);
      MessageSound(w, s, data);
      LeaveSound(w, s);
    }
  }

  /** The index of players stays right under every job but an accept that leaves references behind. */
  lemma HandleSound(w: World, job: Callback, packet: seq<byte>, junk: nat)
    requires Sound(w) && (job.Accepted? ==> !Dangles(w, job.id))
    ensures Sound(Handle(w, job, packet, junk))
    ensures Handle(w, job, packet, junk).players.Keys ==
            match job
            case Accepted(id) => w.players.Keys + {id}
            case Released(id) => w.players.Keys - {id}
            case Received(_, _) => w.players.Keys
  {
    hide Sound, Receive, Release, Dangles;
    match job
    case Accepted(id) => AcceptSound(w, id);
    case Released(id) => ReleaseSound(w, id);
    case Received(id, _) => ReceiveSound(w, id, packet, junk);
  }

  // ---------------------------------------------------------------- broadcast

  function Count(s: seq<nat>, t: nat): nat {
    multiset(s)[t]
  }

  lemma CountConcat(a: seq<nat>, b: seq<nat>, t: nat)
    ensures Count(a + b, t) == Count(a, t) + Count(b, t)
  {
  }

  /** A player is in the list of his own sector once, and in no other list. */
  lemma CountInSector(w: World, c: Cell, t: nat)
    requires Sound(w) && OnMap(c)
    ensures c in w.sectors
    ensures Count(w.sectors[c], t) == if t in w.players && CellOf(w.players[t]) == c then 1 else 0
  {
    var list := w.sectors[c];
    if t in w.players && CellOf(w.players[t]) == c {
      var i := w.players[t].index;
      assert list == list[..i] + [t] + list[i + 1..];
      assert t !in list[..i] && t !in list[i + 1..];
    } else {
      assert t !in list;
    }
  }

  /** A player whose sector is in row `y`, between `x` and `endX`. */
  predicate InRow(w: World, t: nat, y: nat, x: nat, endX: nat) {
    t in w.players && w.players[t].y == y && x <= w.players[t].x <= endX
  }

  lemma {:induction false} CountInRow(w: World, y: nat, x: nat, endX: nat, t: nat)
    requires Sound(w) && y < SECTOR_MAX && endX < SECTOR_MAX
    ensures Count(Row(w, y, x, endX), t) == if InRow(w, t, y, x, endX) then 1 else 0
    decreases endX + 1 - x
  {
    hide Sound, Count;
    if x > endX {
      NobodyCounts(t);
    } else {
      CountInSector(w, Cell(y, x), t);
      CountInRow(w, y, x + 1, endX, t);
      CountConcat(w.sectors[Cell(y, x)], Row(w, y, x + 1, endX), t);
    }
  }

  lemma NobodyCounts(t: nat)
    ensures Count([], t) == 0
  {
  }

  lemma {:induction false} CountInRows(w: World, y: nat, endY: nat, x: nat, endX: nat, t: nat)
    requires Sound(w) && endY < SECTOR_MAX && endX < SECTOR_MAX
    ensures Count(Rows(w, y, endY, x, endX), t) ==
            if t in w.players && y <= w.players[t].y <= endY && x <= w.players[t].x <= endX then 1 else 0
    decreases endY + 1 - y
  {
    hide Sound, Count;
    if y > endY {
      NobodyCounts(t);
    } else {
      CountInRow(w, y, x, endX, t);
      CountInRows(w, y + 1, endY, x, endX, t);
      CountConcat(Row(w, y, x, endX), Rows(w, y + 1, endY, x, endX), t);
    }
  }

  function Distance(a: nat, b: nat): nat {
    if a < b then b - a else a - b
  }

  predicate Near(p: Profile, q: Profile) {
    q.x != INVALID_SECTOR && Distance(p.x, q.x) <= 1 && Distance(p.y, q.y) <= 1
  }

  /** A message goes to every player whose sector is at most one away in each direction exactly once,
      the sender included, and to nobody else. */
  lemma BroadcastReachesNeighbours(w: World, s: nat, t: nat)
    requires Sound(w) && s in w.players && w.players[s].x != INVALID_SECTOR
    ensures multiset(Around(w, w.players[s]))[t] == if t in w.players && Near(w.players[s], w.players[t]) then 1 else 0
    ensures multiset(Around(w, w.players[s]))[s] == 1
  {
    hide Sound, Rows;
    var p := w.players[s];
    InvalidIsFar(w, s);
    CountInRows(w, Begin(p.y), End(p.y), Begin(p.x), End(p.x), t);
    CountInRows(w, Begin(p.y), End(p.y), Begin(p.x), End(p.x), s);
    if t in w.players {
      InvalidIsFar(w, t);
    }
  }

  /** A player has both coordinates or neither. */
  lemma InvalidIsFar(w: World, t: nat)
    requires Sound(w) && t in w.players
    ensures w.players[t].x != INVALID_SECTOR ==> w.players[t].x < SECTOR_MAX && w.players[t].y < SECTOR_MAX
  {
  }
}
