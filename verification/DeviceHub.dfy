/** The WebSocket hub: one connection per device, any number of connections per owner, a send queue per
    client that is closed when the client leaves. Queue operations are taken as atomic. */
module DeviceHub {
  import opened Options

  const SEND_CAPACITY := 256

  // device is empty for a user's client; closed and queue are the state of its send channel.
  datatype Info = Info(device: string, owner: nat, closed: bool, queue: seq<string>)

  datatype Notice = Notice(online: bool, device: string, owner: nat)

  datatype Hub<C> = Hub(
    info: map<C, Info>,
    clients: set<C>,
    deviceClients: map<string, C>,
    ownerClients: map<nat, set<C>>,
    notices: seq<Notice>)

  datatype Step<C> =
    | Register(client: C, device: string, owner: nat)
    | RegisterUser(client: C, device: string, owner: nat)
    | Unregister(client: C)
    | SendToDevice(device: string, message: string)
    | SendToOwner(owner: nat, message: string)
    | Drain(client: C)

  // The IDs of a client never change.
  predicate Enabled<C(==)>(h: Hub<C>, s: Step<C>) {
    match s
    case Register(c, device, owner) => c in h.info ==> h.info[c].device == device && h.info[c].owner == owner
    case RegisterUser(c, device, owner) => c in h.info ==> h.info[c].device == device && h.info[c].owner == owner
    case Unregister(c) => c in h.info
    case Drain(c) => c in h.info && h.info[c].queue != []
    case _ => true
  }

  function Close<C>(h: Hub<C>, c: C): Hub<C>
    requires c in h.info
  {
    h.(clients := h.clients - {c}, info := h.info[c := h.info[c].(closed := true)])
  }

  function Notify<C>(h: Hub<C>, online: bool, device: string, owner: nat): Hub<C> {
    if owner > 0 then h.(notices := h.notices + [Notice(online, device, owner)]) else h
  }

  function Owned<C>(h: Hub<C>, owner: nat): set<C> {
    if owner in h.ownerClients then h.ownerClients[owner] else {}
  }

  // A message a full queue cannot take is dropped (its client is then unregistered in the background).
  function Offered(i: Info, message: string): Info {
    if |i.queue| < SEND_CAPACITY then i.(queue := i.queue + [message]) else i
  }

  // A second connection of a device displaces the first.
  function Kicked<C(==)>(h: Hub<C>, device: string): Hub<C> {
    if device in h.deviceClients && h.deviceClients[device] in h.info then Close(h, h.deviceClients[device]) else h
  }

  // A client seen for the first time comes with an open, empty channel.
  function Entered<C(==)>(h: Hub<C>, c: C, device: string, owner: nat): Hub<C> {
    h.(info := if c in h.info then h.info else h.info[c := Info(device, owner, false, [])],
       clients := h.clients + {c})
  }

  function Joined<C(==)>(h: Hub<C>, c: C, device: string, owner: nat): Hub<C> {
    Notify(Entered(h, c, device, owner).(deviceClients := h.deviceClients[device := c]), true, device, owner)
  }

  function JoinedUser<C(==)>(h: Hub<C>, c: C, device: string, owner: nat): Hub<C> {
    Entered(h, c, device, owner).(ownerClients := h.ownerClients[owner := Owned(h, owner) + {c}])
  }

  // A closed client leaves the tables of its device or of its owner.
  function Departed<C(==)>(h: Hub<C>, c: C, device: string, owner: nat): Hub<C> {
    if device != "" then
      if device in h.deviceClients && h.deviceClients[device] == c then
        Notify(h.(deviceClients := h.deviceClients - {device}), false, device, owner)
      else h
    else if owner > 0 && owner in h.ownerClients then
      var left := h.ownerClients[owner] - {c};
      h.(ownerClients := if left == {} then h.ownerClients - {owner} else h.ownerClients[owner := left])
    else h
  }

  function Next<C(==)>(h: Hub<C>, s: Step<C>): Hub<C>
    requires Enabled(h, s)
  {
    match s
    case Register(c, device, owner) => Joined(Kicked(h, device), c, device, owner)
    case RegisterUser(c, device, owner) => JoinedUser(h, c, device, owner)
    case Unregister(c) =>
      if c in h.clients then Departed(Close(h, c), c, h.info[c].device, h.info[c].owner) else h
    case SendToDevice(device, message) =>
      if device in h.deviceClients && h.deviceClients[device] in h.info then
        var c := h.deviceClients[device];
        h.(info := h.info[c := Offered(h.info[c], message)])
      else h
    case SendToOwner(owner, message) =>
      h.(info := map c | c in h.info :: if c in Owned(h, owner) then Offered(h.info[c], message) else h.info[c])
    case Drain(c) => h.(info := h.info[c := h.info[c].(queue := h.info[c].queue[1..])])
  }

  // ---------- what every run keeps ----------

  // Where a live client must be found: under its device, or among its owner's connections.
  ghost predicate Placed<C>(h: Hub<C>, c: C)
    requires c in h.info
  {
    if h.info[c].device != "" then h.info[c].device in h.deviceClients && h.deviceClients[h.info[c].device] == c
    else h.info[c].owner in h.ownerClients && c in h.ownerClients[h.info[c].owner]
  }

  ghost predicate ClientOk<C>(h: Hub<C>, c: C)
    requires c in h.info
  {
    && (h.info[c].closed <==> c !in h.clients)
    && (c in h.clients <==> Placed(h, c))
    && (h.info[c].device == "" ==> 0 < h.info[c].owner)
    && |h.info[c].queue| <= SEND_CAPACITY
  }

  ghost predicate TablesOk<C>(h: Hub<C>) {
    && h.clients <= h.info.Keys
    && (forall d :: d in h.deviceClients ==>
          h.deviceClients[d] in h.info && h.info[h.deviceClients[d]].device == d != "")
    && (forall o :: o in h.ownerClients ==> h.ownerClients[o] != {} && h.ownerClients[o] <= h.info.Keys)
    && (forall o, c :: o in h.ownerClients && c in h.ownerClients[o] ==> h.info[c].device == "" && h.info[c].owner == o)
  }

  ghost predicate Inv<C>(h: Hub<C>) {
    TablesOk(h) && forall c :: c in h.info ==> ClientOk(h, c)
  }

  // A registration the hub is made for: a device's client is new and has a device; a user's client is new or live,
  // has no device and a positive owner.
  predicate Proper<C(==)>(h: Hub<C>, s: Step<C>) {
    match s
    case Register(c, device, _) => c !in h.info && device != ""
    case RegisterUser(c, device, owner) => (c !in h.info || c in h.clients) && device == "" && 0 < owner
    case _ => true
  }

  lemma RegisterTables<C>(h: Hub<C>, s: Step<C>)
    requires TablesOk(h) && Enabled(h, s) && s.Register? && Proper(h, s)
    ensures TablesOk(Next(h, s))
  {
  }

  lemma RegisterNew<C>(h: Hub<C>, s: Step<C>)
    requires TablesOk(h) && Enabled(h, s) && s.Register? && Proper(h, s)
    ensures s.client in Next(h, s).info && ClientOk(Next(h, s), s.client)
  {
  }

  lemma RegisterOther<C>(h: Hub<C>, s: Step<C>, c: C)
    requires TablesOk(h) && Enabled(h, s) && s.Register? && Proper(h, s)
    requires c in h.info && ClientOk(h, c)
    ensures c in Next(h, s).info && ClientOk(Next(h, s), c)
  {
  }

  lemma RegisterKeeps<C>(h: Hub<C>, s: Step<C>)
    requires Inv(h) && Enabled(h, s) && s.Register? && Proper(h, s)
    ensures Inv(Next(h, s))
  {
    hide Next, TablesOk, ClientOk;
    RegisterTables(h, s);
    InfoKeys(h, s);
    forall c | c in Next(h, s).info ensures ClientOk(Next(h, s), c) {
      if c in h.info {
        RegisterOther(h, s, c);
      } else {
        RegisterNew(h, s);
      }
    }
  }

  lemma InfoKeys<C>(h: Hub<C>, s: Step<C>)
    requires Enabled(h, s)
    ensures Next(h, s).info.Keys ==
            h.info.Keys + if s.Register? || s.RegisterUser? then {s.client} else {}
  {
  }

  lemma RegisterUserTables<C>(h: Hub<C>, s: Step<C>)
    requires Inv(h) && Enabled(h, s) && s.RegisterUser? && Proper(h, s)
    ensures TablesOk(Next(h, s))
  {
    hide ClientOk;
  }

  lemma RegisterUserNew<C>(h: Hub<C>, s: Step<C>)
    requires TablesOk(h) && Enabled(h, s) && s.RegisterUser? && Proper(h, s)
    requires s.client in h.info ==> ClientOk(h, s.client)
    ensures s.client in Next(h, s).info && ClientOk(Next(h, s), s.client)
  {
  }

  lemma RegisterUserOther<C>(h: Hub<C>, s: Step<C>, c: C)
    requires TablesOk(h) && Enabled(h, s) && s.RegisterUser? && Proper(h, s)
    requires c in h.info && c != s.client && ClientOk(h, c)
    ensures c in Next(h, s).info && ClientOk(Next(h, s), c)
  {
  }

  lemma RegisterUserKeeps<C>(h: Hub<C>, s: Step<C>)
    requires Inv(h) && Enabled(h, s) && s.RegisterUser? && Proper(h, s)
    ensures Inv(Next(h, s))
  {
    RegisterUserTables(h, s);
    hide Next, TablesOk, ClientOk, Enabled, Proper;
    InfoKeys(h, s);
    forall c | c in Next(h, s).info ensures ClientOk(Next(h, s), c) {
      if c == s.client {
        RegisterUserNew(h, s);
      } else {
        RegisterUserOther(h, s, c);
      }
    }
  }

  lemma UnregisterTables<C>(h: Hub<C>, s: Step<C>)
    requires TablesOk(h) && Enabled(h, s) && s.Unregister?
    requires s.client in h.info && ClientOk(h, s.client)
    ensures TablesOk(Next(h, s))
  {
  }

  lemma UnregisterOther<C>(h: Hub<C>, s: Step<C>, c: C)
    requires TablesOk(h) && Enabled(h, s) && s.Unregister?
    requires c in h.info && ClientOk(h, c) && ClientOk(h, s.client)
    ensures c in Next(h, s).info && ClientOk(Next(h, s), c)
  {
  }

  lemma UnregisterKeeps<C>(h: Hub<C>, s: Step<C>)
    requires Inv(h) && Enabled(h, s) && s.Unregister?
    ensures Inv(Next(h, s))
  {
    hide Next, TablesOk, ClientOk;
    UnregisterTables(h, s);
    InfoKeys(h, s);
    forall c | c in Next(h, s).info ensures ClientOk(Next(h, s), c) {
      UnregisterOther(h, s, c);
    }
  }

  lemma SendKeeps<C>(h: Hub<C>, s: Step<C>)
    requires Inv(h) && Enabled(h, s) && (s.SendToDevice? || s.SendToOwner? || s.Drain?)
    ensures Inv(Next(h, s))
  {
    var h' := Next(h, s);
    forall c | c in h'.info ensures ClientOk(h', c) {
      assert ClientOk(h, c);
    }
  }

  lemma {:induction false} StepKeeps<C>(h: Hub<C>, s: Step<C>)
    requires Inv(h) && Enabled(h, s) && Proper(h, s)
    ensures Inv(Next(h, s))
  {
    hide *;
    match s {
      case Register(_, _, _) => RegisterKeeps(h, s);
      case RegisterUser(_, _, _) => RegisterUserKeeps(h, s);
      case Unregister(_) => UnregisterKeeps(h, s);
      case _ => SendKeeps(h, s);
    }
  }

  lemma ImproperRegister<C>(h: Hub<C>, s: Step<C>)
    requires Inv(h) && Enabled(h, s) && s.Register? && !Proper(h, s)
    ensures !Inv(Next(h, s))
  {
    var h' := Next(h, s);
    if s.device == "" {
      assert s.device in h'.deviceClients;
    } else {
      assert ClientOk(h, s.client);
      assert s.client in h'.info && !ClientOk(h', s.client);
    }
  }

  lemma ImproperRegisterUser<C>(h: Hub<C>, s: Step<C>)
    requires Inv(h) && Enabled(h, s) && s.RegisterUser? && !Proper(h, s)
    ensures !Inv(Next(h, s))
  {
    var h' := Next(h, s);
    assert s.owner in h'.ownerClients && s.client in h'.ownerClients[s.owner];
    assert s.client in h'.info && h'.info[s.client].device == s.device;
    if s.device == "" {
      assert s.client in h.info ==> ClientOk(h, s.client);
      assert !ClientOk(h', s.client);
    }
  }

  /** A registration keeps the hub consistent exactly when it is proper: registering a device's client twice closes its
      channel while it stays listed, and a user's client without an owner cannot leave. */
  lemma {:induction false} RegistrationKeepsIff<C>(h: Hub<C>, s: Step<C>)
    requires Inv(h) && Enabled(h, s) && (s.Register? || s.RegisterUser?)
    ensures Inv(Next(h, s)) <==> Proper(h, s)
  {
    hide *;
    if Proper(h, s) {
      StepKeeps(h, s);
    } else if s.Register? {
      ImproperRegister(h, s);
    } else {
      ImproperRegisterUser(h, s);
    }
  }

  /** Clients with owner zero would stay among the owner connections for ever: a user's client leaves its
      owner's set when unregistered exactly when the owner is positive. */
  lemma UserLeavesIff<C>(h: Hub<C>, c: C)
    requires c in h.info && c in h.clients && h.info[c].device == ""
    requires h.info[c].owner in h.ownerClients && c in h.ownerClients[h.info[c].owner]
    ensures c !in Owned(Next(h, Unregister(c)), h.info[c].owner) <==> 0 < h.info[c].owner
  {
  }

  lemma RegisterIs<C>(h: Hub<C>, c: C, device: string, owner: nat)
    requires Enabled(h, Register(c, device, owner))
    ensures Next(h, Register(c, device, owner)) == Joined(Kicked(h, device), c, device, owner)
  {
  }

  lemma RegisterUserIs<C>(h: Hub<C>, c: C, device: string, owner: nat)
    requires Enabled(h, RegisterUser(c, device, owner))
    ensures Next(h, RegisterUser(c, device, owner)) == JoinedUser(h, c, device, owner)
  {
  }

  lemma UnregisterIs<C>(h: Hub<C>, c: C)
    requires Enabled(h, Unregister(c))
    ensures Next(h, Unregister(c)) ==
            if c in h.clients then Departed(Close(h, c), c, h.info[c].device, h.info[c].owner) else h
  {
  }

  lemma DeviceClientIsOpen<C>(h: Hub<C>, device: string)
    requires Inv(h) && device in h.deviceClients
    ensures h.deviceClients[device] in h.info && !h.info[h.deviceClients[device]].closed
  {
    assert ClientOk(h, h.deviceClients[device]);
  }

  lemma LiveClientIsOpen<C>(h: Hub<C>, c: C)
    requires Inv(h) && c in h.info && c in h.clients
    ensures !h.info[c].closed
  {
    assert ClientOk(h, c);
  }

  lemma OwnedAreOpen<C>(h: Hub<C>, owner: nat)
    requires Inv(h)
    ensures Owned(h, owner) <= h.info.Keys
    ensures forall c :: c in Owned(h, owner) ==> !h.info[c].closed
  {
    forall c | c in Owned(h, owner) ensures !h.info[c].closed {
      assert ClientOk(h, c);
    }
  }

  // ---------- consequences ----------

  // All clients of the owners.
  ghost function Users<C>(h: Hub<C>): set<C> {
    set o, c | o in h.ownerClients && c in h.ownerClients[o] :: c
  }

  /** The live clients are exactly the disjoint union of the device connections and the owners' connections. */
  lemma ClientsPartition<C>(h: Hub<C>)
    requires Inv(h)
    ensures h.clients == h.deviceClients.Values + Users(h)
    ensures h.deviceClients.Values !! Users(h)
    ensures forall d, d' :: d in h.deviceClients && d' in h.deviceClients && h.deviceClients[d] == h.deviceClients[d']
              ==> d == d'
    ensures forall o, o' :: o in h.ownerClients && o' in h.ownerClients && o != o'
              ==> h.ownerClients[o] !! h.ownerClients[o']
  {
    forall c ensures c in h.clients <==> c in h.deviceClients.Values + Users(h) {
      if c in h.info {
        assert ClientOk(h, c);
      }
      if c in h.deviceClients.Values {
        var d :| d in h.deviceClients && h.deviceClients[d] == c;
        assert ClientOk(h, c);
      }
      if c in Users(h) {
        assert ClientOk(h, c);
      }
    }
  }

  // The clients whose channel a step closes.
  ghost function ClosedBy<C>(h: Hub<C>, s: Step<C>): set<C>
    requires Enabled(h, s)
  {
    match s
    case Register(_, device, _) => if device in h.deviceClients then {h.deviceClients[device]} else {}
    case Unregister(c) => if c in h.clients then {c} else {}
    case _ => {}
  }

  /** No channel is closed twice, and none by anything but Register and Unregister. */
  lemma NothingClosesTwice<C>(h: Hub<C>, s: Step<C>, c: C)
    requires Inv(h) && Enabled(h, s) && c in h.info && c in Next(h, s).info
    ensures c in ClosedBy(h, s) ==> !h.info[c].closed
    ensures Next(h, s).info[c].closed <==> h.info[c].closed || c in ClosedBy(h, s)
  {
    assert ClientOk(h, c);
    if c in ClosedBy(h, s) && s.Register? {
      DeviceClientIsOpen(h, s.device);
    }
  }

  /** Who is live: a registered client is, one whose channel the step closes is not, all others stay what they were. */
  lemma LiveAfter<C>(h: Hub<C>, s: Step<C>)
    requires Inv(h) && Enabled(h, s)
    ensures Next(h, s).clients == h.clients - ClosedBy(h, s) + if s.Register? || s.RegisterUser? then {s.client} else {}
    ensures s.Register? ==> s.device in Next(h, s).deviceClients && Next(h, s).deviceClients[s.device] == s.client
    ensures s.RegisterUser? ==> s.client in Owned(Next(h, s), s.owner)
  {
  }

  lemma OnlySendsGrow<C>(h: Hub<C>, s: Step<C>, c: C)
    requires Enabled(h, s) && c in h.info && c in Next(h, s).info && !s.SendToDevice? && !s.SendToOwner?
    ensures |Next(h, s).info[c].queue| <= |h.info[c].queue|
  {
  }

  /** Nothing is sent on a closed channel, or to any client but those a message is for. */
  lemma NothingSentWhenClosed<C>(h: Hub<C>, s: Step<C>, c: C)
    requires Inv(h) && Enabled(h, s) && c in h.info && c in Next(h, s).info
    requires |Next(h, s).info[c].queue| > |h.info[c].queue|
    ensures !h.info[c].closed && (s.SendToDevice? || s.SendToOwner?)
    ensures s.SendToDevice? ==> h.info[c].device == s.device
    ensures s.SendToOwner? ==> h.info[c].device == "" && h.info[c].owner == s.owner
  {
    assert ClientOk(h, c);
    match s {
      case SendToDevice(_, _) =>
      case SendToOwner(owner, _) => OwnedAreOpen(h, owner);
      case _ => OnlySendsGrow(h, s, c);
    }
  }

  /** A message to an owner reaches every live connection of that owner that still has room, and no other client. */
  lemma OwnerMessageReaches<C>(h: Hub<C>, owner: nat, message: string, c: C)
    requires Inv(h) && c in h.info
    ensures Next(h, SendToOwner(owner, message)).info[c].queue ==
            if c in h.clients && h.info[c].device == "" && h.info[c].owner == owner && |h.info[c].queue| < 256
            then h.info[c].queue + [message] else h.info[c].queue
  {
    assert ClientOk(h, c);
  }

  /** A message to a device reaches its live connection, if there is one with room, and no other client. */
  lemma DeviceMessageReaches<C>(h: Hub<C>, device: string, message: string, c: C)
    requires Inv(h) && c in h.info
    ensures Next(h, SendToDevice(device, message)).info[c].queue ==
            if c in h.clients && h.info[c].device == device != "" && |h.info[c].queue| < 256
            then h.info[c].queue + [message] else h.info[c].queue
  {
    assert ClientOk(h, c);
  }

  /** Apart from sends, a queue only loses what its reader takes, oldest first. */
  lemma QueuesStay<C>(h: Hub<C>, s: Step<C>, c: C)
    requires Enabled(h, s) && !s.SendToDevice? && !s.SendToOwner? && c in h.info
    ensures c in Next(h, s).info
    ensures if s == Drain(c) then h.info[c].queue == [h.info[c].queue[0]] + Next(h, s).info[c].queue
            else Next(h, s).info[c].queue == h.info[c].queue
  {
  }

  // ---------- notices ----------

  /** Each step tells at most the owner of one device, and tells of its client: online when a device's client of a positive
      owner is registered, offline when the one that holds the device is unregistered. */
  lemma NoticesIff<C>(h: Hub<C>, s: Step<C>)
    requires Inv(h) && Enabled(h, s)
    ensures Next(h, s).notices == h.notices +
            if s.Register? && s.owner > 0 then [Notice(true, s.device, s.owner)]
            else if s.Unregister? && s.client in h.clients && h.info[s.client].device != ""
                    && h.info[s.client].owner > 0 then
              [Notice(false, h.info[s.client].device, h.info[s.client].owner)]
            else []
  {
    if s.Unregister? {
      assert ClientOk(h, s.client);
    }
    EmptySum(h.notices);
  }

  function Last(notices: seq<Notice>, device: string): Option<bool> {
    if notices == [] then None
    else
      var n := notices[|notices| - 1];
      if n.device == device then Some(n.online) else Last(notices[..|notices| - 1], device)
  }

  lemma LastOfSnoc(notices: seq<Notice>, n: Notice, device: string)
    ensures Last(notices + [n], device) == if n.device == device then Some(n.online) else Last(notices, device)
  {
    assert (notices + [n])[..|notices|] == notices;
  }

  predicate DeviceOnline<C>(h: Hub<C>, device: string) {
    device in h.deviceClients
  }

  // Every connection a device has had belongs to an owner who is told.
  ghost predicate AlwaysOwned<C>(h: Hub<C>, device: string) {
    forall c :: c in h.info && h.info[c].device == device ==> 0 < h.info[c].owner
  }

  ghost predicate NoticesAgree<C>(h: Hub<C>, device: string) {
    Last(h.notices, device) == Some(true) <==> DeviceOnline(h, device)
  }

  lemma RegisterNotices<C>(h: Hub<C>, s: Step<C>, device: string)
    requires Enabled(h, s) && s.Register? && (s.device == device ==> 0 < s.owner) && NoticesAgree(h, device)
    ensures NoticesAgree(Next(h, s), device)
  {
    hide Last;
    LastOfSnoc(h.notices, Notice(true, s.device, s.owner), device);
  }

  lemma UnregisterNotices<C>(h: Hub<C>, s: Step<C>, device: string)
    requires Enabled(h, s) && s.Unregister? && device != "" && NoticesAgree(h, device)
    requires h.info[s.client].device == device ==> 0 < h.info[s.client].owner
    ensures NoticesAgree(Next(h, s), device)
  {
    hide Last;
    var i := h.info[s.client];
    LastOfSnoc(h.notices, Notice(false, i.device, i.owner), device);
  }

  lemma NoNotices<C>(h: Hub<C>, s: Step<C>)
    requires Enabled(h, s) && !s.Register? && !s.Unregister?
    ensures Next(h, s).notices == h.notices && Next(h, s).deviceClients == h.deviceClients
  {
  }

  lemma NoticesStep<C>(h: Hub<C>, s: Step<C>, device: string)
    requires Inv(h) && Enabled(h, s) && Proper(h, s) && device != ""
    requires NoticesAgree(h, device) && AlwaysOwned(Next(h, s), device)
    ensures NoticesAgree(Next(h, s), device)
  {
    hide Last, Next, Inv;
    match s {
      case Register(c, d, owner) =>
        RegisteredInfo(h, s);
        RegisterNotices(h, s, device);
      case Unregister(c) =>
        InfoStays(h, s, c);
        UnregisterNotices(h, s, device);
      case _ => NoNotices(h, s);
    }
  }

  lemma RegisteredInfo<C>(h: Hub<C>, s: Step<C>)
    requires Enabled(h, s) && s.Register?
    ensures var i := Next(h, s).info; s.client in i && i[s.client].device == s.device && i[s.client].owner == s.owner
  {
  }

  lemma InfoStays<C>(h: Hub<C>, s: Step<C>, c: C)
    requires Enabled(h, s) && c in h.info
    ensures c in Next(h, s).info
    ensures Next(h, s).info[c].device == h.info[c].device && Next(h, s).info[c].owner == h.info[c].owner
  {
  }

  // ---------- runs ----------

  predicate Runs<C(==)>(h: Hub<C>, steps: seq<Step<C>>)
    decreases |steps|
  {
    steps == [] || (Enabled(h, steps[0]) && Proper(h, steps[0]) && Runs(Next(h, steps[0]), steps[1..]))
  }

  function After<C(==)>(h: Hub<C>, steps: seq<Step<C>>): Hub<C>
    requires Runs(h, steps)
    decreases |steps|
  {
    if steps == [] then h else After(Next(h, steps[0]), steps[1..])
  }

  function Empty<C>(): Hub<C> {
    Hub(map[], {}, map[], map[], [])
  }

  lemma {:induction false} RunKeeps<C>(h: Hub<C>, steps: seq<Step<C>>)
    requires Inv(h) && Runs(h, steps)
    ensures Inv(After(h, steps))
    decreases |steps|
  {
    if steps == [] {
    } else {
      StepKeeps(h, steps[0]);
      RunKeeps(Next(h, steps[0]), steps[1..]);
    }
  }

  lemma {:induction false} OwnedBefore<C>(h: Hub<C>, steps: seq<Step<C>>, device: string)
    requires Runs(h, steps) && AlwaysOwned(After(h, steps), device)
    ensures AlwaysOwned(h, device)
    decreases |steps|
  {
    if steps == [] {
    } else {
      OwnedBefore(Next(h, steps[0]), steps[1..], device);
      forall c | c in h.info && h.info[c].device == device ensures 0 < h.info[c].owner {
        InfoStays(h, steps[0], c);
      }
    }
  }

  lemma {:induction false} RunNotices<C>(h: Hub<C>, steps: seq<Step<C>>, device: string)
    requires Inv(h) && Runs(h, steps) && device != "" && NoticesAgree(h, device)
    requires AlwaysOwned(After(h, steps), device)
    ensures NoticesAgree(After(h, steps), device)
    decreases |steps|
  {
    if steps == [] {
    } else {
      OwnedBefore(Next(h, steps[0]), steps[1..], device);
      NoticesStep(h, steps[0], device);
      StepKeeps(h, steps[0]);
      RunNotices(Next(h, steps[0]), steps[1..], device);
    }
  }

  /** Over every run from an empty hub: a channel is closed exactly when its client is no longer live, no owner's set
      is empty, and the last notice queued for an owned device says online exactly when the device is online. */
  lemma EveryRun<C>(steps: seq<Step<C>>, device: string)
    requires Runs(Empty<C>(), steps) && device != ""
    ensures var h := After(Empty<C>(), steps);
            && Inv(h)
            && (forall c :: c in h.info ==> (h.info[c].closed <==> c !in h.clients))
            && (forall o :: o in h.ownerClients ==> h.ownerClients[o] != {})
            && (AlwaysOwned(h, device) ==> (Last(h.notices, device) == Some(true) <==> DeviceOnline(h, device)))
  {
    RunKeeps(Empty<C>(), steps);
    var h := After(Empty<C>(), steps);
    forall c | c in h.info ensures ClientOk(h, c) {}
    if AlwaysOwned(h, device) {
      RunNotices(Empty<C>(), steps, device);
    }
  }

  // ---------- the objects ----------

  class Client {
    const deviceID: string
    const ownerID: nat
    var sendClosed: bool
    var queue: seq<string>

    constructor (deviceID: string, ownerID: nat)
      ensures this.deviceID == deviceID && this.ownerID == ownerID && !sendClosed && queue == []
    {
      this.deviceID, this.ownerID := deviceID, ownerID;
      sendClosed, queue := false, [];
    }

    function Snapshot(): Info reads this {
      Info(deviceID, ownerID, sendClosed, queue)
    }

    // Closing a closed channel would panic.
    method CloseSend()
      requires !sendClosed
      modifies this`sendClosed
      ensures sendClosed
    {
      sendClosed := true;
    }

    // A send that does not wait. Sending on a closed channel would panic.
    method Offer(message: string) returns (sent: bool)
      requires !sendClosed
      modifies this`queue
      ensures Snapshot() == Offered(old(Snapshot()), message)
      ensures sent <==> |old(queue)| < SEND_CAPACITY
    {
      if |queue| >= SEND_CAPACITY {
        return false;
      }
      queue := queue + [message];
      return true;
    }
  }

  /** The hub. View is its state as a value; every method moves it by the step of the same name. */
  class WsHub {
    var clients: set<Client>
    var deviceClients: map<string, Client>
    var ownerClients: map<nat, set<Client>>
    var notices: seq<Notice>
    ghost var known: set<Client>

    ghost function View(): Hub<Client> reads this, known {
      Hub(map c | c in known :: c.Snapshot(), clients, deviceClients, ownerClients, notices)
    }

    ghost predicate Valid() reads this, known {
      Inv(View())
    }

    constructor ()
      ensures Valid() && View() == Empty()
    {
      clients, deviceClients, ownerClients, notices := {}, map[], map[], [];
      known := {};
    }

    method Register(client: Client)
      requires Valid() && (client !in known ==> !client.sendClosed && client.queue == [])
      modifies this, known
      ensures known == old(known) + {client}
      ensures View() == Next(old(View()), Step.Register(client, client.deviceID, client.ownerID))
      ensures Proper(old(View()), Step.Register(client, client.deviceID, client.ownerID)) ==> Valid()
    {
      hide Inv, Next, Kicked, Joined;
      ghost var before, step := View(), Step.Register(client, client.deviceID, client.ownerID);
      if Proper(before, step) {
        RegisterKeeps(before, step);
      }
      RegisterIs(before, client, client.deviceID, client.ownerID);
      Kick(client.deviceID);
      EnterDevice(client);
    }

    // Part of Register: the client becomes the device's connection.
    method EnterDevice(client: Client)
      requires client !in known ==> !client.sendClosed && client.queue == []
      modifies this`clients, this`known, this`deviceClients, this`notices
      ensures known == old(known) + {client}
      ensures View() == Joined(old(View()), client, client.deviceID, client.ownerID)
    {
      hide Entered;
      Enter(client);
      deviceClients := deviceClients[client.deviceID := client];
      if client.ownerID > 0 {
        notices := notices + [Notice(true, client.deviceID, client.ownerID)];
      }
    }

    method Enter(client: Client)
      requires client !in known ==> !client.sendClosed && client.queue == []
      modifies this`clients, this`known
      ensures known == old(known) + {client}
      ensures View() == Entered(old(View()), client, client.deviceID, client.ownerID)
    {
      ghost var before := View();
      clients := clients + {client};
      known := known + {client};
      assert View().info == if client in before.info then before.info
                            else before.info[client := Info(client.deviceID, client.ownerID, false, [])];
    }

    // Part of Register: the device's earlier connection is closed and forgotten.
    method Kick(deviceID: string)
      requires Valid()
      modifies this`clients, known
      ensures View() == Kicked(old(View()), deviceID)
    {
      hide Inv;
      ghost var before := View();
      if deviceID in deviceClients {
        var kicked := deviceClients[deviceID];
        DeviceClientIsOpen(before, deviceID);
        clients := clients - {kicked};
        kicked.CloseSend();
        assert View().info == before.info[kicked := before.info[kicked].(closed := true)];
      }
    }

    method RegisterUser(client: Client)
      requires Valid() && (client !in known ==> !client.sendClosed && client.queue == [])
      modifies this
      ensures known == old(known) + {client}
      ensures View() == Next(old(View()), Step.RegisterUser(client, client.deviceID, client.ownerID))
      ensures Proper(old(View()), Step.RegisterUser(client, client.deviceID, client.ownerID)) ==> Valid()
    {
      hide Inv, Next;
      ghost var before, step := View(), Step.RegisterUser(client, client.deviceID, client.ownerID);
      if Proper(before, step) {
        RegisterUserKeeps(before, step);
      }
      RegisterUserIs(before, client, client.deviceID, client.ownerID);
      Enter(client);
      JoinOwner(client);
    }

    method JoinOwner(client: Client)
      modifies this`ownerClients
      ensures ownerClients == old(ownerClients)[client.ownerID := Owned(old(View()), client.ownerID) + {client}]
    {
      ghost var before := View();
      if client.ownerID !in ownerClients {
        ownerClients := ownerClients[client.ownerID := {}];
      }
      ownerClients := ownerClients[client.ownerID := ownerClients[client.ownerID] + {client}];
      assert ownerClients == before.ownerClients[client.ownerID := Owned(before, client.ownerID) + {client}];
    }

    method Unregister(client: Client)
      requires Valid() && client in known
      modifies this`clients, this`deviceClients, this`ownerClients, this`notices, client`sendClosed
      ensures View() == Next(old(View()), Step.Unregister(client)) && Valid()
    {
      hide Inv, Next, Departed;
      ghost var before := View();
      UnregisterKeeps(before, Step.Unregister(client));
      UnregisterIs(before, client);
      if client !in clients {
        return;
      }
      LiveClientIsOpen(before, client);
      clients := clients - {client};
      client.CloseSend();
      assert View().info == before.info[client := before.info[client].(closed := true)];
      assert View() == Close(before, client);
      LeaveTables(client);
    }

    // The client leaves the table of its device or of its owner.
    method LeaveTables(client: Client)
      modifies this`deviceClients, this`ownerClients, this`notices
      ensures View() == Departed(old(View()), client, client.deviceID, client.ownerID)
    {
      if client.deviceID != "" && client.deviceID in deviceClients && deviceClients[client.deviceID] == client {
        deviceClients := deviceClients - {client.deviceID};
        if client.ownerID > 0 {
          notices := notices + [Notice(false, client.deviceID, client.ownerID)];
        }
      }
      if client.ownerID > 0 && client.deviceID == "" {
        LeaveOwner(client);
      }
    }

    method LeaveOwner(client: Client)
      modifies this`ownerClients
      ensures ownerClients ==
              if client.ownerID !in old(ownerClients) then old(ownerClients)
              else if old(ownerClients)[client.ownerID] <= {client} then old(ownerClients) - {client.ownerID}
              else old(ownerClients)[client.ownerID := old(ownerClients)[client.ownerID] - {client}]
    {
      if client.ownerID in ownerClients {
        var left := ownerClients[client.ownerID] - {client};
        ownerClients := ownerClients[client.ownerID := left];
        if left == {} {
          ownerClients := ownerClients - {client.ownerID};
        }
      }
    }

    // Returns the client to unregister in the background when its queue was full.
    method SendToDevice(deviceID: string, message: string) returns (stuck: Option<Client>)
      requires Valid()
      modifies known
      ensures View() == Next(old(View()), Step.SendToDevice(deviceID, message)) && Valid()
      ensures stuck == if deviceID in deviceClients && |old(deviceClients[deviceID].queue)| >= 256
                       then Some(deviceClients[deviceID]) else None
    {
      hide Inv;
      ghost var before := View();
      SendKeeps(before, Step.SendToDevice(deviceID, message));
      if deviceID !in deviceClients {
        return None;
      }
      var client := deviceClients[deviceID];
      DeviceClientIsOpen(before, deviceID);
      var sent := client.Offer(message);
      assert View().info == before.info[client := Offered(before.info[client], message)];
      return if sent then None else Some(client);
    }

    method SendToOwner(ownerID: nat, message: string) returns (stuck: set<Client>)
      requires Valid()
      modifies known
      ensures View() == Next(old(View()), Step.SendToOwner(ownerID, message)) && Valid()
      ensures forall c :: c in stuck <==> c in Owned(View(), ownerID) && |old(View()).info[c].queue| >= 256
    {
      hide Inv, Offered, Next;
      ghost var before := View();
      SendKeeps(before, Step.SendToOwner(ownerID, message));
      OwnedAreOpen(before, ownerID);
      stuck := {};
      var rest := if ownerID in ownerClients then ownerClients[ownerID] else {};
      ghost var targets := rest;
      while rest != {}
        invariant rest <= targets && targets == Owned(before, ownerID) <= known == old(known)
        invariant clients == before.clients && deviceClients == before.deviceClients
        invariant ownerClients == before.ownerClients && notices == before.notices
        invariant forall c :: c in rest ==> c.Snapshot() == before.info[c]
        invariant forall c :: c in stuck <==> c in targets - rest && |before.info[c].queue| >= SEND_CAPACITY
        invariant forall c :: c in known ==>
                    c.Snapshot() == if c in targets - rest then Offered(before.info[c], message) else before.info[c]
        decreases rest
      {
        var client :| client in rest;
        rest := rest - {client};
        var sent := client.Offer(message);
        if !sent {
          stuck := stuck + {client};
        }
      }
      SentToAll(before, View(), ownerID, message);
    }

    // Online means that the device has a client whose channel is open.
    method IsDeviceOnline(deviceID: string) returns (online: bool)
      requires Valid()
      ensures online <==> DeviceOnline(View(), deviceID)
      ensures deviceID != "" ==>
                (online <==> exists c :: c in known && c.deviceID == deviceID && !c.sendClosed)
    {
      if deviceID in deviceClients {
        DeviceClientIsOpen(View(), deviceID);
      }
      forall c | c in known && c.deviceID == deviceID != "" && !c.sendClosed ensures deviceID in deviceClients {
        assert ClientOk(View(), c);
      }
      return deviceID in deviceClients;
    }
  }

  lemma SentToAll<C>(h: Hub<C>, h': Hub<C>, owner: nat, message: string)
    requires h'.info.Keys == h.info.Keys
    requires h' == h.(info := h'.info)
    requires forall c :: c in h.info ==>
               h'.info[c] == if c in Owned(h, owner) then Offered(h.info[c], message) else h.info[c]
    ensures h' == Next(h, SendToOwner(owner, message))
  {
    assert h'.info == Next(h, SendToOwner(owner, message)).info;
  }
}
