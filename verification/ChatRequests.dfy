/** What a client's requests do: packets as a client writes them, and the change they make. */
module ChatRequests {
  import opened Bytes
  import opened Words
  import opened Callbacks
  import opened ChatWorld

  type Account = a: seq<byte> | |a| == 8 witness [0, 0, 0, 0, 0, 0, 0, 0]

  // ---------------------------------------------------------------- packets of a client

  function LoginRequest(a: Account, id: seq<byte>, nickname: seq<byte>, sessionKey: seq<byte>): seq<byte> {
    LenBytes(REQ_LOGIN) + a + id + nickname + sessionKey
  }

  function MoveRequest(a: Account, x: nat, y: nat): seq<byte>
    requires x < 0x1_0000 && y < 0x1_0000
  {
    LenBytes(REQ_SECTOR_MOVE) + a + LenBytes(x) + LenBytes(y)
  }

  function TalkRequest(a: Account, text: seq<byte>): seq<byte>
    requires |text| < 0x1_0000
  {
    LenBytes(REQ_MESSAGE) + a + LenBytes(|text|) + text
  }

  lemma TypeIsRead(kind: nat, data: seq<byte>)
    requires kind < 0x1_0000
    ensures var packet := LenBytes(kind) + data;
            |packet| >= 2 && LenOf(packet[0], packet[1]) == kind && packet[2..] == data
  {
    LenRoundTrip(kind);
  }

  lemma LoginFields(kind: seq<byte>, a: seq<byte>, id: seq<byte>, nickname: seq<byte>, sessionKey: seq<byte>)
    requires |a| == 8 && |id| == |nickname| == NAME
    ensures var data := a + id + nickname + sessionKey;
            && kind + a + id + nickname + sessionKey == kind + data
            && data[..8] == a && data[8..8 + NAME] == id && data[8 + NAME..8 + NAME + NAME] == nickname
            && data[8 + NAME + NAME..] == sessionKey
  {
  }

  lemma MoveFields(kind: seq<byte>, a: seq<byte>, x: seq<byte>, y: seq<byte>)
    requires |a| == 8 && |x| == |y| == 2
    ensures var data := a + x + y;
            && kind + a + x + y == kind + data && data[..8] == a
            && data[8] == x[0] && data[9] == x[1] && data[10] == y[0] && data[11] == y[1]
  {
  }

  lemma TalkFields(kind: seq<byte>, a: seq<byte>, len: seq<byte>, text: seq<byte>)
    requires |a| == 8 && |len| == 2
    ensures var data := a + len + text;
            && kind + a + len + text == kind + data && data[..8] == a
            && data[8] == len[0] && data[9] == len[1] && data[10..] == text
  {
  }

  // ---------------------------------------------------------------- what they do

  /** A player who takes part: known, and not being disconnected. */
  predicate Present(w: World, s: nat) {
    s in w.players && !w.players[s].leaving
  }

  /** A login sets the account and the names as sent, answers first, takes the account over, and
      disconnects the player who had it. */
  lemma LoginWorks(w: World, s: nat, a: Account, id: seq<byte>, nickname: seq<byte>, sessionKey: seq<byte>, p: nat,
                   junk: nat)
    requires Sound(w) && Present(w, s) && !w.players[s].isLogin
    requires |id| == |nickname| == NAME && |sessionKey| == SESSION_KEY
    ensures var z := Handle(w, Received(s, p), LoginRequest(a, id, nickname, sessionKey), junk);
            && z.players[s] == w.players[s].(account := a, id := id, nickname := nickname,
                                                    sessionKey := sessionKey, isLogin := true)
            && z.accounts == w.accounts[a := s]
            && z.out == w.out + [Send(s, LoginResponse(1, a))]
                        + (if a in w.accounts && !w.players[w.accounts[a]].leaving
                           then [Disconnect(w.accounts[a])] else [])
            && (a in w.accounts ==> z.players[w.accounts[a]].leaving)
            && (forall t :: t in w.players && t != s ==>
                  z.players[t] == if a in w.accounts && w.accounts[a] == t then w.players[t].(leaving := true)
                    else w.players[t])
            && z.players.Keys == w.players.Keys && z.sectors == w.sectors && z.broken == w.broken
  {
    hide LenOf, LenBytes;
    var data := a + id + nickname + sessionKey;
    LoginFields(LenBytes(REQ_LOGIN), a, id, nickname, sessionKey);
    TypeIsRead(REQ_LOGIN, data);
  }

  lemma MoveIsRead(w: World, s: nat, a: Account, x: nat, y: nat, junk: nat)
    requires Sound(w) && Present(w, s) && w.players[s].isLogin && w.players[s].account == a && x < SECTOR_MAX
    requires y < SECTOR_MAX
    ensures var v := if w.players[s].x != INVALID_SECTOR then Vacate(w, s) else w;
            var z := Receive(w, s, MoveRequest(a, x, y), junk);
            && s in v.players && Cell(y, x) in v.sectors
            && z == Enter(v, s, Cell(y, x)).(out := Enter(v, s, Cell(y, x)).out + [Send(s, MoveResponse(a, x, y))])
  {
    hide LenOf, LenBytes, Vacate, Enter, MoveResponse, Listed, Seated, SeatedBut, Absent, Registered, Shaped;
    var data := a + LenBytes(x) + LenBytes(y);
    MoveFields(LenBytes(REQ_SECTOR_MOVE), a, LenBytes(x), LenBytes(y));
    TypeIsRead(REQ_SECTOR_MOVE, data);
    LenRoundTrip(x);
    LenRoundTrip(y);
    if w.players[s].x != INVALID_SECTOR {
      VacateSound(w, s);
    }
  }

  /** A move puts the player at the end of the sector that was asked for, answers with the new coordinates,
      and changes nothing of anybody else but his index. */
  lemma MoveWorks(w: World, s: nat, a: Account, x: nat, y: nat, p: nat, junk: nat)
    requires Sound(w) && Present(w, s) && w.players[s].isLogin && w.players[s].account == a && x < SECTOR_MAX
    requires y < SECTOR_MAX
    ensures var z := Handle(w, Received(s, p), MoveRequest(a, x, y), junk);
            && z.players.Keys == w.players.Keys
            && CellOf(z.players[s]) == Cell(y, x)
            && Cell(y, x) in z.sectors && z.sectors[Cell(y, x)] != []
            && z.sectors[Cell(y, x)][|z.sectors[Cell(y, x)]| - 1] == s
            && (forall t :: t in w.players && t != s ==> z.players[t] == w.players[t].(index := z.players[t].index))
            && z.players[s] == w.players[s].(x := x, y := y, index := z.players[s].index)
            && z.accounts == w.accounts && z.broken == w.broken && z.out == w.out + [Send(s, MoveResponse(a, x, y))]
  {
    hide Sound, Receive, Vacate, MoveResponse, MoveRequest;
    MoveIsRead(w, s, a, x, y, junk);
    VacateRest(w, s);
  }

  lemma TalkIsRead(w: World, s: nat, a: Account, text: seq<byte>, junk: nat)
    requires Present(w, s) && w.players[s].isLogin && w.players[s].account == a
    requires w.players[s].x != INVALID_SECTOR && |text| <= MAX_MESSAGE
    ensures Receive(w, s, TalkRequest(a, text), junk)
            == w.(out := w.out + Sends(Around(w, w.players[s]), MessageResponse(w.players[s], text)))
  {
    hide LenOf, LenBytes, Around, Sends, MessageResponse;
    var data := a + LenBytes(|text|) + text;
    TalkFields(LenBytes(REQ_MESSAGE), a, LenBytes(|text|), text);
    TypeIsRead(REQ_MESSAGE, data);
    LenRoundTrip(|text|);
  }

  /** Whom `Sends` sends what. */
  lemma {:induction false} SendsReach(targets: seq<nat>, payload: seq<byte>, e: Effect)
    ensures multiset(Sends(targets, payload))[e]
            == if e.Send? && e.payload == payload then multiset(targets)[e.to] else 0
  {
    if targets == [] {
      assert Sends(targets, payload) == [];
    } else {
      var rest, last := targets[..|targets| - 1], targets[|targets| - 1];
      SendsReach(rest, payload, e);
      assert targets == rest + [last];
      assert Sends(targets, payload) == Sends(rest, payload) + [Send(last, payload)];
    }
  }

  /** A message of a seated player goes out once to each player near him, himself included, with his name
      and the text as sent; nothing else goes out, and nothing else changes. */
  lemma TalkWorks(w: World, s: nat, a: Account, text: seq<byte>, n: nat, junk: nat)
    requires Sound(w) && Present(w, s) && w.players[s].isLogin && w.players[s].account == a
    requires w.players[s].x != INVALID_SECTOR && |text| <= MAX_MESSAGE
    ensures var z, p := Handle(w, Received(s, n), TalkRequest(a, text), junk), w.players[s];
            && z == w.(out := z.out) && |w.out| <= |z.out| && z.out[..|w.out|] == w.out
            && forall e :: multiset(z.out)[e] == multiset(w.out)[e]
                 + if e.Send? && e.payload == MessageResponse(p, text) && e.to in w.players && Near(p, w.players[e.to])
                   then 1 else 0
  {
    hide LenOf, LenBytes, Sound, Around, Sends, MessageResponse, Receive, TalkRequest, Near;
    var p := w.players[s];
    var response := MessageResponse(p, text);
    TalkIsRead(w, s, a, text, junk);
    var z := Handle(w, Received(s, n), TalkRequest(a, text), junk);
    forall e ensures multiset(z.out)[e] == multiset(w.out)[e]
                 + if e.Send? && e.payload == response && e.to in w.players && Near(p, w.players[e.to]) then 1 else 0 {
      SendsReach(Around(w, p), response, e);
      if e.Send? { BroadcastReachesNeighbours(w, s, e.to); }
    }
  }

  // ---------------------------------------------------------------- what a client reads

  /** Status and account in the answer to a login. */
  lemma LoginAnswerIsRead(a: Account, status: byte)
    ensures var r := LoginResponse(status, a);
            |r| == 11 && LenOf(r[0], r[1]) == 2 && r[2] == status && r[3..11] == a
  {
    hide LenOf, LenBytes;
    LenRoundTrip(RES_LOGIN);
    ThreeParts(LenBytes(RES_LOGIN), status, a);
    var r := LoginResponse(status, a);
    assert LenOf(r[0], r[1]) == LenOf(LenBytes(RES_LOGIN)[0], LenBytes(RES_LOGIN)[1]);
  }

  lemma ThreeParts(a: seq<byte>, b: byte, c: seq<byte>)
    requires |a| == 2 && |c| == 8
    ensures var r := a + [b] + c; |r| == 11 && r[0] == a[0] && r[1] == a[1] && r[2] == b && r[3..11] == c
  {
  }

  /** The coordinates in the answer to a move. */
  lemma MoveAnswerIsRead(a: Account, x: nat, y: nat)
    requires x < 0x1_0000 && y < 0x1_0000
    ensures var r := MoveResponse(a, x, y);
            && |r| == 14 && LenOf(r[0], r[1]) == 4 && r[2..10] == a
            && LenOf(r[10], r[11]) == x && LenOf(r[12], r[13]) == y
  {
    hide LenOf, LenBytes;
    LenRoundTrip(RES_SECTOR_MOVE);
    LenRoundTrip(x);
    LenRoundTrip(y);
    FourParts(LenBytes(RES_SECTOR_MOVE), a, LenBytes(x), LenBytes(y));
    var r := MoveResponse(a, x, y);
    assert LenOf(r[0], r[1]) == LenOf(LenBytes(RES_SECTOR_MOVE)[0], LenBytes(RES_SECTOR_MOVE)[1]);
    assert LenOf(r[10], r[11]) == LenOf(LenBytes(x)[0], LenBytes(x)[1]);
    assert LenOf(r[12], r[13]) == LenOf(LenBytes(y)[0], LenBytes(y)[1]);
  }

  lemma FourParts(a: seq<byte>, b: seq<byte>, c: seq<byte>, d: seq<byte>)
    requires |a| == |c| == |d| == 2 && |b| == 8
    ensures var r := a + b + c + d; |r| == 14 && r[0] == a[0] && r[1] == a[1] && r[2..10] == b
                                    && r[10] == c[0] && r[11] == c[1] && r[12] == d[0] && r[13] == d[1]
  {
  }

  /** The sender and the text in a message. */
  lemma MessageIsRead(p: Profile, text: seq<byte>)
    requires |p.account| == 8 && |p.id| == |p.nickname| == NAME && |text| <= MAX_MESSAGE
    ensures var r := MessageResponse(p, text);
            && |r| == 92 + |text| <= 1116 && LenOf(r[0], r[1]) == 6
            && r[2..10] == p.account && r[10..50] == p.id && r[50..90] == p.nickname
            && LenOf(r[90], r[91]) == |text| && r[92..] == text
  {
    hide LenOf, LenBytes;
    LenRoundTrip(RES_MESSAGE);
    LenRoundTrip(|text|);
    FiveParts(LenBytes(RES_MESSAGE), p.account, p.id + p.nickname, LenBytes(|text|), text);
    var r := MessageResponse(p, text);
    assert r == LenBytes(RES_MESSAGE) + p.account + (p.id + p.nickname) + LenBytes(|text|) + text;
    assert r[10..50] == r[10..90][..NAME] && r[50..90] == r[10..90][NAME..];
    assert LenOf(r[0], r[1]) == LenOf(LenBytes(RES_MESSAGE)[0], LenBytes(RES_MESSAGE)[1]);
    assert LenOf(r[90], r[91]) == LenOf(LenBytes(|text|)[0], LenBytes(|text|)[1]);
  }

  lemma FiveParts(a: seq<byte>, b: seq<byte>, c: seq<byte>, d: seq<byte>, e: seq<byte>)
    requires |a| == |d| == 2 && |b| == 8 && |c| == 80
    ensures var r := a + b + c + d + e; |r| == 92 + |e| && r[0] == a[0] && r[1] == a[1] && r[2..10] == b
                                        && r[10..90] == c && r[90] == d[0] && r[91] == d[1] && r[92..] == e
  {
  }

  // ---------------------------------------------------------------- what breaks the server

  /** A request for another account than the player's. */
  predicate Forged(w: World, s: nat, packet: seq<byte>) {
    && Present(w, s) && w.players[s].isLogin && |packet| >= 10 && packet[2..10] != w.players[s].account
    && (|| (LenOf(packet[0], packet[1]) == REQ_SECTOR_MOVE && |packet| == 14)
        || (LenOf(packet[0], packet[1]) == REQ_MESSAGE && |packet| >= 12 && w.players[s].x != INVALID_SECTOR))
  }

  lemma LoginDoesNotBreak(w: World, s: nat, data: seq<byte>)
    requires s in w.players
    ensures Login(w, s, data).broken == w.broken && Leave(w, s).broken == w.broken
  {
  }

  lemma MoveBreaksIff(w: World, s: nat, data: seq<byte>)
    requires Sound(w) && s in w.players
    ensures SectorMove(w, s, data).broken <==>
              w.broken || (w.players[s].isLogin && |data| == 12 && data[..8] != w.players[s].account)
  {
    hide LenOf, Sound, MoveResponse;
    if w.players[s].x != INVALID_SECTOR {
      VacateRest(w, s);
    }
  }

  lemma TalkBreaksIff(w: World, s: nat, data: seq<byte>)
    requires s in w.players
    ensures Message(w, s, data).broken <==>
              w.broken || (w.players[s].isLogin && w.players[s].x != INVALID_SECTOR && |data| >= 10
                && data[..8] != w.players[s].account)
  {
    hide LenOf, MessageResponse, Around, Sends;
  }

  /** A packet breaks into the debugger exactly if it is a well-sized move or message of a logged-in
      player with a foreign account number; any other packet, of any bytes and length, does not. */
  lemma BreaksIff(w: World, s: nat, packet: seq<byte>, junk: nat)
    requires Sound(w)
    ensures |packet| >= 2 ==> (Receive(w, s, packet, junk).broken <==> w.broken || Forged(w, s, packet))
    ensures |packet| < 2 ==> Receive(w, s, packet, junk).broken == w.broken
  {
    hide Sound, LenOf, Login, SectorMove, Message, Leave;
    if s in w.players {
      var data := if |packet| >= 2 then packet[2..] else packet;
      LoginDoesNotBreak(w, s, data);
      MoveBreaksIff(w, s, data);
      TalkBreaksIff(w, s, data);
      assert |packet| >= 10 ==> packet[2..10] == data[..8];
    }
  }

  // ---------------------------------------------------------------- what is refused

  /** The request in a packet; a packet too short for a type has whatever the variable held. */
  function TypeOf(packet: seq<byte>, junk: nat): nat {
    if |packet| >= 2 then LenOf(packet[0], packet[1]) else junk
  }

  /** What the server does not put up with from this player. */
  predicate Refused(w: World, s: nat, packet: seq<byte>, junk: nat)
    requires s in w.players
  {
    var p, n := w.players[s], |packet|;
    match TypeOf(packet, junk)
    case 1 => p.isLogin || n != 154
    case 3 =>
      || !p.isLogin || n != 14
      || (packet[2..10] == p.account && (LenOf(packet[10], packet[11]) >= 50 || LenOf(packet[12], packet[13]) >= 50))
    case 5 =>
      || !p.isLogin || p.x == INVALID_SECTOR || n < 12
      || (packet[2..10] == p.account
          && (LenOf(packet[10], packet[11]) > 1024 || LenOf(packet[10], packet[11]) != n - 12))
    case 7 => false
    case _ => true
  }

  lemma RefusedLogin(w: World, s: nat, packet: seq<byte>, junk: nat)
    requires Sound(w) && Present(w, s) && TypeOf(packet, junk) == 1
    ensures var z := Receive(w, s, packet, junk);
            if Refused(w, s, packet, junk) then z == Leave(w, s) else s in z.players && !z.players[s].leaving
  {
    hide LenOf, LoginResponse;
  }

  lemma RefusedMove(w: World, s: nat, packet: seq<byte>, junk: nat)
    requires Sound(w) && Present(w, s) && TypeOf(packet, junk) == 3
    ensures var z := Receive(w, s, packet, junk);
            if Refused(w, s, packet, junk) then z == Leave(w, s) else s in z.players && !z.players[s].leaving
  {
    hide LenOf, MoveResponse, Vacate, Sound;
    if |packet| >= 12 { MoveParts(packet); }
    VacateRest(w, s);
  }

  lemma MoveParts(packet: seq<byte>)
    requires |packet| >= 12
    ensures var data := packet[2..];
            data[..8] == packet[2..10] && data[8] == packet[10] && data[9] == packet[11]
            && (|packet| >= 14 ==> data[10] == packet[12] && data[11] == packet[13])
  {
  }

  lemma RefusedTalk(w: World, s: nat, packet: seq<byte>, junk: nat)
    requires Present(w, s) && TypeOf(packet, junk) == 5
    ensures var z := Receive(w, s, packet, junk);
            if Refused(w, s, packet, junk) then z == Leave(w, s) else s in z.players && !z.players[s].leaving
  {
    hide LenOf, MessageResponse, Around, Sends;
    if |packet| >= 12 { MoveParts(packet); }
  }

  /** Exactly which packets get their sender disconnected, and that nothing else comes of them. */
  lemma RefusedIff(w: World, s: nat, packet: seq<byte>, junk: nat)
    requires Sound(w) && Present(w, s)
    ensures var z := Receive(w, s, packet, junk);
            && s in z.players && (z.players[s].leaving <==> Refused(w, s, packet, junk))
            && (Refused(w, s, packet, junk) ==>
                  z == w.(players := w.players[s := w.players[s].(leaving := true)], out := w.out + [Disconnect(s)]))
  {
    hide LenOf, Sound, Receive, Refused;
    if TypeOf(packet, junk) == 1 {
      RefusedLogin(w, s, packet, junk);
    } else if TypeOf(packet, junk) == 3 {
      RefusedMove(w, s, packet, junk);
    } else if TypeOf(packet, junk) == 5 {
      RefusedTalk(w, s, packet, junk);
    } else {
      RefusedElse(w, s, packet, junk);
    }
  }

  lemma RefusedElse(w: World, s: nat, packet: seq<byte>, junk: nat)
    requires Present(w, s) && TypeOf(packet, junk) != 1 && TypeOf(packet, junk) != 3 && TypeOf(packet, junk) != 5
    ensures Refused(w, s, packet, junk) <==> TypeOf(packet, junk) != 7
    ensures Receive(w, s, packet, junk) == if TypeOf(packet, junk) == 7 then w else Leave(w, s)
  {
    hide LenOf;
  }

  /** A heartbeat changes nothing, and neither does any packet of a session that is not there or is being
      disconnected. */
  lemma NothingHappens(w: World, s: nat, packet: seq<byte>, junk: nat)
    requires Present(w, s) ==> TypeOf(packet, junk) == 7
    ensures Receive(w, s, packet, junk) == w
  {
    hide LenOf;
  }
}
