/** Download links and sessions (app/services/downloads.py:81-288), and the release of a
    connection by the usage collector (app/usage.py:198-252). */
module Downloads {
  import opened Base

  type UserId = nat
  type Digest = nat  // keyed hash of a token, an address or a user agent

  datatype FileRow = FileRow(owner: UserId, expiresAt: int, available: bool, deleted: bool)

  datatype Reference = Reference(expiresAt: int, deleted: bool)

  datatype ReferenceKey = ReferenceKey(user: UserId, file: nat)

  datatype LinkStatus = Live | Exhausted | Revoked | Lapsed

  /** The limits copied into a link when it is made. */
  datatype LinkPolicy = LinkPolicy(concurrentDownloads: int, connectionLimit: int, resumeLimit: int, rangeLimit: int,
                                   sessionTtl: int)

  datatype DownloadSession = DownloadSession(secret: Digest, address: Digest, agent: Digest, active: bool,
                                             expiresAt: int, rangeRequests: nat, resumeCount: nat,
                                             connections: nat)

  datatype Link = Link(owner: UserId, file: nat, token: Digest, status: LinkStatus, expiresAt: int,
                       maxDownloads: Option<int>, oneTime: bool, downloadCount: nat, policy: LinkPolicy,
                       sessions: seq<DownloadSession>)

  datatype SessionId = SessionId(link: nat, index: nat)

  /** The database rows, and the connection counters kept in Redis. */
  datatype World = World(files: seq<FileRow>, references: map<ReferenceKey, Reference>, links: seq<Link>,
                         counters: map<SessionId, nat>)

  datatype DownloadPlan = DownloadPlan(oneTimeEnabled: bool, activeLinkLimit: int, concurrentDownloads: int,
                                       connectionLimit: int, resumeLimit: int, rangeLimit: int)

  datatype DownloadSettings = DownloadSettings(maxConnections: int, maxRangeRequests: int, sessionTtl: int)

  // ---------------------------------------------------------------- creating a link

  predicate LiveFor(link: Link, user: UserId, now: int) {
    link.owner == user && link.status == Live && link.expiresAt > now
  }

  function LiveLinks(links: seq<Link>, user: UserId, now: int): nat {
    if links == [] then 0
    else LiveLinks(links[..|links| - 1], user, now) + (if LiveFor(links[|links| - 1], user, now) then 1 else 0)
  }

  predicate TokenUsed(links: seq<Link>, token: Digest) {
    exists i :: 0 <= i < |links| && links[i].token == token
  }

  predicate FileOffered(w: World, user: UserId, file: nat, now: int) {
    var key := ReferenceKey(user, file);
    && key in w.references && !w.references[key].deleted && w.references[key].expiresAt > now
    && file < |w.files| && w.files[file].owner == user && w.files[file].available && !w.files[file].deleted
    && w.files[file].expiresAt > now
  }

  function NewLink(w: World, user: UserId, file: nat, oneTime: bool, plan: DownloadPlan, settings: DownloadSettings,
                   token: Digest): Link
    requires file < |w.files| && ReferenceKey(user, file) in w.references
  {
    Link(user, file, token, Live, Min(w.files[file].expiresAt, w.references[ReferenceKey(user, file)].expiresAt),
         if oneTime then Some(1) else None, oneTime, 0,
         LinkPolicy(plan.concurrentDownloads, Min(plan.connectionLimit, settings.maxConnections), plan.resumeLimit,
                    Min(plan.rangeLimit, settings.maxRangeRequests), settings.sessionTtl),
         [])
  }

  datatype Refusal = Denied | Unavailable

  datatype Reply = Granted(world: World) | Refused(reason: Refusal)

  /** `create_link`; an absent plan raises in its lookup. */
  function CreateLink(w: World, user: UserId, file: nat, oneTime: bool, plan: Option<DownloadPlan>,
                      settings: DownloadSettings, token: Digest, now: int): Reply
  {
    if !FileOffered(w, user, file, now) then Refused(Denied)
    else if plan.None? then Refused(Unavailable)
    else if oneTime && !plan.value.oneTimeEnabled then Refused(Denied)
    else if LiveLinks(w.links, user, now) >= plan.value.activeLinkLimit then Refused(Denied)
    else if TokenUsed(w.links, token) then Refused(Unavailable)
    else Granted(w.(links := w.links + [NewLink(w, user, file, oneTime, plan.value, settings, token)]))
  }

  // ---------------------------------------------------------------- authorizing a request

  datatype SessionArgument = NoSession | Malformed | Given(secret: Digest)

  datatype RangeArgument = NoRange | BadRange | ByteRange(start: Option<nat>, end: Option<nat>)

  /** A request; a malformed token is `None`. `newSecret` is the one a new session would get. */
  datatype Request = Request(token: Option<Digest>, session: SessionArgument, address: Digest, agent: Digest,
                             range: RangeArgument, newSecret: Digest)

  function LinkByToken(links: seq<Link>, token: Digest): (found: Option<nat>)
    ensures found.Some? ==> found.value < |links| && links[found.value].token == token
    ensures found.None? ==> !TokenUsed(links, token)
  {
    if links == [] then None
    else if links[|links| - 1].token == token then Some(|links| - 1)
    else LinkByToken(links[..|links| - 1], token)
  }

  function SessionBySecret(sessions: seq<DownloadSession>, secret: Digest): (found: Option<nat>)
    ensures found.Some? ==> found.value < |sessions| && sessions[found.value].secret == secret
    ensures found.None? ==> forall i :: 0 <= i < |sessions| ==> sessions[i].secret != secret
  {
    if sessions == [] then None
    else if sessions[|sessions| - 1].secret == secret then Some(|sessions| - 1)
    else SessionBySecret(sessions[..|sessions| - 1], secret)
  }

  function LiveSessions(sessions: seq<DownloadSession>, now: int): nat {
    if sessions == [] then 0
    else LiveSessions(sessions[..|sessions| - 1], now)
         + (if sessions[|sessions| - 1].active && sessions[|sessions| - 1].expiresAt > now then 1 else 0)
  }

  /** Live sessions on any link of the user. */
  function UserSessions(links: seq<Link>, user: UserId, now: int): nat {
    if links == [] then 0
    else UserSessions(links[..|links| - 1], user, now)
         + (if links[|links| - 1].owner == user then LiveSessions(links[|links| - 1].sessions, now) else 0)
  }

  /** The link after one more session. */
  function Joined(link: Link, req: Request, now: int): Link {
    var session := DownloadSession(req.newSecret, req.address, req.agent, true,
                                   Min(link.expiresAt, now + link.policy.sessionTtl * SECOND), 0, 0, 0);
    var count := link.downloadCount + 1;
    link.(sessions := link.sessions + [session], downloadCount := count,
          status := if link.oneTime || (link.maxDownloads.Some? && count >= link.maxDownloads.value) then Exhausted
                    else link.status)
  }

  /** A request without a session starts one. */
  function StartSession(w: World, id: nat, req: Request, now: int): Reply
    requires id < |w.links|
  {
    var link := w.links[id];
    if link.status != Live || link.expiresAt <= now then Refused(Denied)
    else if UserSessions(w.links, link.owner, now) >= link.policy.concurrentDownloads then Refused(Denied)
    else if Min(link.expiresAt, now + link.policy.sessionTtl * SECOND) <= now then Refused(Unavailable)
    else Granted(w.(links := w.links[id := Joined(link, req, now)]))
  }

  /** The session after counting a range request; nothing if the range or a limit refuses it. */
  function Counted(session: DownloadSession, policy: LinkPolicy, range: RangeArgument): Option<DownloadSession> {
    match range
    case NoRange => Some(session)
    case BadRange => None
    case ByteRange(start, end) =>
      if start.None? && end.None? then None
      else
        var counted := session.(rangeRequests := session.rangeRequests + 1,
                                resumeCount := session.resumeCount + (if start.Some? && start.value > 0 then 1 else 0));
        if counted.rangeRequests > policy.rangeLimit || counted.resumeCount > policy.resumeLimit then None
        else Some(counted)
  }

  function CounterOf(w: World, id: SessionId): nat {
    if id in w.counters then w.counters[id] else 0
  }

  function UpdateSession(w: World, id: SessionId, session: DownloadSession): World
    requires id.link < |w.links| && id.index < |w.links[id.link].sessions|
  {
    var link := w.links[id.link];
    w.(links := w.links[id.link := link.(sessions := link.sessions[id.index := session])])
  }

  /** A request within a session takes one connection. */
  function UseSession(w: World, id: nat, secret: Digest, req: Request, now: int): Reply
    requires id < |w.links|
  {
    var link := w.links[id];
    var found := SessionBySecret(link.sessions, secret);
    if found.None? then Refused(Denied)
    else
      var session := link.sessions[found.value];
      if !session.active || session.expiresAt <= now || link.status == Revoked || link.status == Lapsed
      then Refused(Denied)
      else if session.address != req.address || session.agent != req.agent then Refused(Denied)
      else
        var counted := Counted(session, link.policy, req.range);
        var key := SessionId(id, found.value);
        if counted.None? then Refused(Denied)
        else if CounterOf(w, key) >= link.policy.connectionLimit then Refused(Denied)
        else
          Granted(UpdateSession(w, key, counted.value.(connections := session.connections + 1))
                  .(counters := w.counters[key := CounterOf(w, key) + 1]))
  }

  /** `authorize`. */
  function Authorize(w: World, req: Request, now: int): Reply {
    if req.token.None? then Refused(Denied)
    else
      var id := LinkByToken(w.links, req.token.value);
      if id.None? then Refused(Denied)
      else
        var file := w.links[id.value].file;
        if file >= |w.files| || !w.files[file].available || w.files[file].expiresAt <= now then Refused(Denied)
        else match req.session
          case NoSession => StartSession(w, id.value, req, now)
          case Malformed => Refused(Denied)
          case Given(secret) => UseSession(w, id.value, secret, req, now)
  }

  /** The collector gives a connection back once its delivery is logged, and ends the session
      if the whole file was delivered. */
  function Release(w: World, id: SessionId, completes: bool): World {
    var released := w.(counters := if CounterOf(w, id) <= 1 then w.counters - {id}
                                   else w.counters[id := CounterOf(w, id) - 1]);
    if id.link < |w.links| && id.index < |w.links[id.link].sessions| then
      var session := w.links[id.link].sessions[id.index];
      UpdateSession(released, id, session.(connections := Max(0, session.connections - 1),
                                           active := session.active && !completes))
    else released
  }

  // ---------------------------------------------------------------- in place

  class DownloadService {
    var files: seq<FileRow>
    var references: map<ReferenceKey, Reference>
    var links: seq<Link>
    var counters: map<SessionId, nat>

    constructor (w: World)
      ensures Contents() == w
    {
      files, references, links, counters := w.files, w.references, w.links, w.counters;
    }

    function Contents(): World
      reads this
    {
      World(files, references, links, counters)
    }

    method MakeLink(user: UserId, file: nat, oneTime: bool, plan: Option<DownloadPlan>, settings: DownloadSettings,
                    token: Digest, now: int) returns (refused: Option<Refusal>)
      modifies this`links
      ensures CreateLink(old(Contents()), user, file, oneTime, plan, settings, token, now)
              == if refused.Some? then Refused(refused.value) else Granted(Contents())
      ensures refused.Some? ==> Contents() == old(Contents())
    {
      if !FileOffered(Contents(), user, file, now) {
        return Some(Denied);
      }
      if plan.None? {
        return Some(Unavailable);
      }
      if oneTime && !plan.value.oneTimeEnabled {
        return Some(Denied);
      }
      if LiveLinks(links, user, now) >= plan.value.activeLinkLimit {
        return Some(Denied);
      }
      if TokenUsed(links, token) {
        return Some(Unavailable);
      }
      var expiresAt := Min(files[file].expiresAt, references[ReferenceKey(user, file)].expiresAt);
      var policy := LinkPolicy(plan.value.concurrentDownloads, Min(plan.value.connectionLimit, settings.maxConnections),
                               plan.value.resumeLimit, Min(plan.value.rangeLimit, settings.maxRangeRequests),
                               settings.sessionTtl);
      var maxDownloads := if oneTime then Some(1) else None;
      links := links + [Link(user, file, token, Live, expiresAt, maxDownloads, oneTime, 0, policy, [])];
      return None;
    }

    method AuthorizeRequest(req: Request, now: int) returns (refused: Option<Refusal>)
      modifies this`links, this`counters
      ensures Authorize(old(Contents()), req, now)
              == if refused.Some? then Refused(refused.value) else Granted(Contents())
      ensures refused.Some? ==> Contents() == old(Contents())
    {
      if req.token.None? {
        return Some(Denied);
      }
      var id := LinkByToken(links, req.token.value);
      if id.None? {
        return Some(Denied);
      }
      var link := links[id.value];
      if link.file >= |files| || !files[link.file].available || files[link.file].expiresAt <= now {
        return Some(Denied);
      }
      match req.session {
        case NoSession => refused := OpenSession(id.value, req, now);
        case Malformed => refused := Some(Denied);
        case Given(secret) => refused := TakeConnection(id.value, secret, req, now);
      }
    }

    method OpenSession(id: nat, req: Request, now: int) returns (refused: Option<Refusal>)
      requires id < |links|
      modifies this`links
      ensures StartSession(old(Contents()), id, req, now)
              == if refused.Some? then Refused(refused.value) else Granted(Contents())
      ensures refused.Some? ==> Contents() == old(Contents())
    {
      var link := links[id];
      if link.status != Live || link.expiresAt <= now {
        return Some(Denied);
      }
      if UserSessions(links, link.owner, now) >= link.policy.concurrentDownloads {
        return Some(Denied);
      }
      var expiresAt := Min(link.expiresAt, now + link.policy.sessionTtl * SECOND);
      if expiresAt <= now {
        return Some(Unavailable);
      }
      var session := DownloadSession(req.newSecret, req.address, req.agent, true, expiresAt, 0, 0, 0);
      link := link.(sessions := link.sessions + [session]);
      link := link.(downloadCount := link.downloadCount + 1);
      if link.oneTime || (link.maxDownloads.Some? && link.downloadCount >= link.maxDownloads.value) {
        link := link.(status := Exhausted);
      }
      links := links[id := link];
      return None;
    }

    method TakeConnection(id: nat, secret: Digest, req: Request, now: int) returns (refused: Option<Refusal>)
      requires id < |links|
      modifies this`links, this`counters
      ensures UseSession(old(Contents()), id, secret, req, now)
              == if refused.Some? then Refused(refused.value) else Granted(Contents())
      ensures refused.Some? ==> Contents() == old(Contents())
    {
      var link := links[id];
      var found := SessionBySecret(link.sessions, secret);
      if found.None? {
        return Some(Denied);
      }
      var session := link.sessions[found.value];
      if !session.active || session.expiresAt <= now || link.status == Revoked || link.status == Lapsed {
        return Some(Denied);
      }
      if session.address != req.address || session.agent != req.agent {
        return Some(Denied);
      }
      if req.range != NoRange {
        if req.range == BadRange || (req.range.start.None? && req.range.end.None?) {
          return Some(Denied);
        }
        session := session.(rangeRequests := session.rangeRequests + 1);
        if req.range.start.Some? && req.range.start.value > 0 {
          session := session.(resumeCount := session.resumeCount + 1);
        }
        if session.rangeRequests > link.policy.rangeLimit || session.resumeCount > link.policy.resumeLimit {
          return Some(Denied);
        }
      }
      var key := SessionId(id, found.value);
      var current := if key in counters then counters[key] else 0;
      if current >= link.policy.connectionLimit {
        return Some(Denied);
      }
      counters := counters[key := current + 1];
      session := session.(connections := session.connections + 1);
      links := links[id := link.(sessions := link.sessions[found.value := session])];
      return None;
    }
  }

  // ---------------------------------------------------------------- every committed state

  ghost predicate SessionSound(w: World, id: SessionId)
    requires id.link < |w.links| && id.index < |w.links[id.link].sessions|
  {
    var link := w.links[id.link];
    var session := link.sessions[id.index];
    && session.expiresAt <= link.expiresAt
    && session.resumeCount <= session.rangeRequests <= Max(0, link.policy.rangeLimit)
    && session.resumeCount <= Max(0, link.policy.resumeLimit)
    && session.connections == CounterOf(w, id) <= Max(0, link.policy.connectionLimit)
  }

  ghost predicate LinkSound(w: World, id: nat)
    requires id < |w.links|
  {
    var link := w.links[id];
    && link.downloadCount == |link.sessions|
    && (link.oneTime <==> link.maxDownloads == Some(1))
    && (link.maxDownloads.Some? ==>
          && link.downloadCount <= link.maxDownloads.value
          && (link.status == Live ==> link.downloadCount < link.maxDownloads.value))
    && link.file < |w.files| && link.expiresAt <= w.files[link.file].expiresAt
    && ReferenceKey(link.owner, link.file) in w.references
    && link.expiresAt <= w.references[ReferenceKey(link.owner, link.file)].expiresAt
  }

  /** No counter outlives or precedes its session. */
  ghost predicate CountersSound(w: World) {
    forall id :: id in w.counters ==> id.link < |w.links| && id.index < |w.links[id.link].sessions|
  }

  ghost predicate Sound(w: World) {
    && (forall i {:trigger LinkSound(w, i)} :: 0 <= i < |w.links| ==> LinkSound(w, i))
    && (forall i, j {:trigger SessionSound(w, SessionId(i, j))} ::
          0 <= i < |w.links| && 0 <= j < |w.links[i].sessions| ==> SessionSound(w, SessionId(i, j)))
    && CountersSound(w)
  }

  /** One link and its sessions changed, and no counter of any other. */
  lemma OneLinkSound(w: World, next: World, id: nat)
    requires Sound(w) && id < |w.links| == |next.links|
    requires next.files == w.files && next.references == w.references
    requires next.links == w.links[id := next.links[id]]
    requires forall i, j :: i != id ==> CounterOf(next, SessionId(i, j)) == CounterOf(w, SessionId(i, j))
    requires LinkSound(next, id) && CountersSound(next)
    requires forall j {:trigger SessionSound(next, SessionId(id, j))} ::
               0 <= j < |next.links[id].sessions| ==> SessionSound(next, SessionId(id, j))
    ensures Sound(next)
  {
    forall i | 0 <= i < |next.links|
      ensures LinkSound(next, i)
    {
      if i != id {
        assert LinkSound(w, i);
      }
    }
    forall i, j | 0 <= i < |next.links| && 0 <= j < |next.links[i].sessions|
      ensures SessionSound(next, SessionId(i, j))
    {
      if i != id {
        assert SessionSound(w, SessionId(i, j));
      }
    }
  }

  lemma CreateLinkSound(w: World, user: UserId, file: nat, oneTime: bool, plan: Option<DownloadPlan>,
                        settings: DownloadSettings, token: Digest, now: int)
    requires Sound(w) && CreateLink(w, user, file, oneTime, plan, settings, token, now).Granted?
    ensures Sound(CreateLink(w, user, file, oneTime, plan, settings, token, now).world)
  {
    var next := CreateLink(w, user, file, oneTime, plan, settings, token, now).world;
    forall i | 0 <= i < |next.links|
      ensures LinkSound(next, i)
    {
      if i < |w.links| {
        assert LinkSound(w, i);
      }
    }
    forall i, j | 0 <= i < |next.links| && 0 <= j < |next.links[i].sessions|
      ensures SessionSound(next, SessionId(i, j))
    {
      assert SessionSound(w, SessionId(i, j));
    }
  }

  lemma StartSessionSound(w: World, id: nat, req: Request, now: int)
    requires Sound(w) && id < |w.links| && StartSession(w, id, req, now).Granted?
    ensures Sound(StartSession(w, id, req, now).world)
  {
    var next := StartSession(w, id, req, now).world;
    assert LinkSound(w, id);
    forall j | 0 <= j < |next.links[id].sessions|
      ensures SessionSound(next, SessionId(id, j))
    {
      if j < |w.links[id].sessions| {
        assert SessionSound(w, SessionId(id, j));
      }
    }
    OneLinkSound(w, next, id);
  }

  lemma UseSessionSound(w: World, id: nat, secret: Digest, req: Request, now: int)
    requires Sound(w) && id < |w.links| && UseSession(w, id, secret, req, now).Granted?
    ensures Sound(UseSession(w, id, secret, req, now).world)
  {
    var next := UseSession(w, id, secret, req, now).world;
    var index := SessionBySecret(w.links[id].sessions, secret).value;
    assert LinkSound(w, id) && SessionSound(w, SessionId(id, index));
    forall j | 0 <= j < |next.links[id].sessions|
      ensures SessionSound(next, SessionId(id, j))
    {
      assert SessionSound(w, SessionId(id, j));
    }
    OneLinkSound(w, next, id);
  }

  lemma AuthorizeSound(w: World, req: Request, now: int)
    requires Sound(w) && Authorize(w, req, now).Granted?
    ensures Sound(Authorize(w, req, now).world)
  {
    var id := LinkByToken(w.links, req.token.value).value;
    if req.session.NoSession? {
      StartSessionSound(w, id, req, now);
    } else {
      UseSessionSound(w, id, req.session.secret, req, now);
    }
  }

  lemma ReleaseSound(w: World, id: SessionId, completes: bool)
    requires Sound(w)
    ensures Sound(Release(w, id, completes))
  {
    var next := Release(w, id, completes);
    if id.link < |w.links| && id.index < |w.links[id.link].sessions| {
      assert LinkSound(w, id.link);
      forall j | 0 <= j < |next.links[id.link].sessions|
        ensures SessionSound(next, SessionId(id.link, j))
      {
        assert SessionSound(w, SessionId(id.link, j));
      }
      OneLinkSound(w, next, id.link);
    } else {
      assert id !in w.counters;
      assert next.counters == w.counters;
      assert next == w;
    }
  }

  // ---------------------------------------------------------------- runs

  datatype Step =
    | AddFile(owner: UserId, expiresAt: int)
    | RemoveFile(file: nat)
    | RemoveReference(key: ReferenceKey)
    | MakeLink(user: UserId, file: nat, oneTime: bool, plan: Option<DownloadPlan>, settings: DownloadSettings,
               token: Digest)
    | CloseLink(link: nat, status: LinkStatus)
    | Visit(req: Request)
    | GiveBack(session: SessionId, completes: bool)

  datatype Event = Event(now: int, step: Step)

  function After(w: World, reply: Reply): World {
    if reply.Granted? then reply.world else w
  }

  function Apply(w: World, e: Event): World {
    match e.step
    case AddFile(owner, expiresAt) =>
      w.(files := w.files + [FileRow(owner, expiresAt, true, false)],
         references := w.references[ReferenceKey(owner, |w.files|) := Reference(expiresAt, false)])
    case RemoveFile(file) =>
      if file < |w.files| then w.(files := w.files[file := w.files[file].(available := false, deleted := true)]) else w
    case RemoveReference(key) =>
      if key in w.references then w.(references := w.references[key := w.references[key].(deleted := true)]) else w
    case MakeLink(user, file, oneTime, plan, settings, token) =>
      After(w, CreateLink(w, user, file, oneTime, plan, settings, token, e.now))
    case CloseLink(link, status) =>
      if link < |w.links| && status != Live then w.(links := w.links[link := w.links[link].(status := status)]) else w
    case Visit(req) => After(w, Authorize(w, req, e.now))
    case GiveBack(session, completes) => Release(w, session, completes)
  }

  function Run(w: World, run: seq<Event>): World
    decreases |run|
  {
    if run == [] then w else Run(Apply(w, run[0]), run[1..])
  }

  const EMPTY := World([], map[], [], map[])

  /** Each file's own reference came with it, so a new file's key is unused by older links. */
  lemma RowsKeptSound(w: World, next: World)
    requires Sound(w) && next.links == w.links && next.counters == w.counters
    requires |w.files| <= |next.files|
    requires forall i :: 0 <= i < |w.files| ==> next.files[i].expiresAt == w.files[i].expiresAt
    requires forall key :: key in w.references && key.file < |w.files| ==>
               key in next.references && next.references[key].expiresAt == w.references[key].expiresAt
    ensures Sound(next)
  {
    forall i | 0 <= i < |next.links|
      ensures LinkSound(next, i)
    {
      assert LinkSound(w, i);
    }
    forall i, j | 0 <= i < |next.links| && 0 <= j < |next.links[i].sessions|
      ensures SessionSound(next, SessionId(i, j))
    {
      assert SessionSound(w, SessionId(i, j));
    }
  }

  lemma CloseLinkSound(w: World, id: nat, status: LinkStatus)
    requires Sound(w) && id < |w.links| && status != Live
    ensures Sound(w.(links := w.links[id := w.links[id].(status := status)]))
  {
    var next := w.(links := w.links[id := w.links[id].(status := status)]);
    assert LinkSound(w, id);
    forall j | 0 <= j < |next.links[id].sessions|
      ensures SessionSound(next, SessionId(id, j))
    {
      assert SessionSound(w, SessionId(id, j));
    }
    OneLinkSound(w, next, id);
  }

  lemma StepSound(w: World, e: Event)
    requires Sound(w)
    ensures Sound(Apply(w, e))
  {
    match e.step
    case AddFile(owner, expiresAt) => RowsKeptSound(w, Apply(w, e));
    case RemoveFile(file) => RowsKeptSound(w, Apply(w, e));
    case RemoveReference(key) => RowsKeptSound(w, Apply(w, e));
    case MakeLink(user, file, oneTime, plan, settings, token) =>
      if CreateLink(w, user, file, oneTime, plan, settings, token, e.now).Granted? {
        CreateLinkSound(w, user, file, oneTime, plan, settings, token, e.now);
      }
    case CloseLink(link, status) =>
      if link < |w.links| && status != Live {
        CloseLinkSound(w, link, status);
      }
    case Visit(req) =>
      if Authorize(w, req, e.now).Granted? {
        AuthorizeSound(w, req, e.now);
      }
    case GiveBack(session, completes) => ReleaseSound(w, session, completes);
  }

  lemma {:induction false} RunSound(w: World, run: seq<Event>)
    requires Sound(w)
    ensures Sound(Run(w, run))
    decreases |run|
  {
    if run != [] {
      StepSound(w, run[0]);
      RunSound(Apply(w, run[0]), run[1..]);
    }
  }

  /** In every reachable state: as many sessions as counted downloads, capped and one-time
      links within their cap, and a link outlives neither its file nor its reference. */
  lemma LinksWithinCaps(run: seq<Event>, id: nat)
    requires id < |Run(EMPTY, run).links|
    ensures var w := Run(EMPTY, run);
            var link := w.links[id];
            && |link.sessions| == link.downloadCount
            && (link.oneTime ==> |link.sessions| <= 1)
            && (link.maxDownloads.Some? ==> |link.sessions| <= link.maxDownloads.value)
            && link.file < |w.files| && link.expiresAt <= w.files[link.file].expiresAt
            && ReferenceKey(link.owner, link.file) in w.references
            && link.expiresAt <= w.references[ReferenceKey(link.owner, link.file)].expiresAt
  {
    RunSound(EMPTY, run);
    assert LinkSound(Run(EMPTY, run), id);
  }

  /** And every session ends with its link, has no more resumes than ranges, stays within
      its limits, and holds exactly the connections its Redis counter says. */
  lemma SessionsWithinLimits(run: seq<Event>, id: nat, index: nat)
    requires id < |Run(EMPTY, run).links| && index < |Run(EMPTY, run).links[id].sessions|
    ensures var w := Run(EMPTY, run);
            var link, session := w.links[id], w.links[id].sessions[index];
            && session.expiresAt <= link.expiresAt
            && session.resumeCount <= session.rangeRequests <= Max(0, link.policy.rangeLimit)
            && session.resumeCount <= Max(0, link.policy.resumeLimit)
            && session.connections == CounterOf(w, SessionId(id, index)) <= Max(0, link.policy.connectionLimit)
  {
    RunSound(EMPTY, run);
    assert SessionSound(Run(EMPTY, run), SessionId(id, index));
  }

  // ---------------------------------------------------------------- live links of a user

  lemma {:induction false} LiveLinksShrink(links: seq<Link>, links': seq<Link>, user: UserId, now: int, later: int)
    requires now <= later && |links| == |links'|
    requires forall i :: 0 <= i < |links| ==> (LiveFor(links'[i], user, later) ==> LiveFor(links[i], user, now))
    ensures LiveLinks(links', user, later) <= LiveLinks(links, user, now)
  {
    if links != [] {
      var last := |links| - 1;
      LiveLinksShrink(links[..last], links'[..last], user, now, later);
    }
  }

  /** Every link the user makes is made under this limit. */
  predicate LimitedTo(run: seq<Event>, user: UserId, limit: int) {
    forall i :: 0 <= i < |run| && run[i].step.MakeLink? && run[i].step.user == user && run[i].step.plan.Some? ==>
                  run[i].step.plan.value.activeLinkLimit == limit
  }

  predicate ClockForward(run: seq<Event>, start: int)
    decreases |run|
  {
    run == [] || (run[0].now >= start && ClockForward(run[1..], run[0].now))
  }

  /** Whatever else happens, links stay where they are and none comes back to life. */
  lemma OthersReviveNone(w: World, e: Event, user: UserId, before: int)
    requires !e.step.MakeLink? && before <= e.now
    ensures var next := Apply(w, e);
            && |next.links| == |w.links|
            && forall i :: 0 <= i < |w.links| && LiveFor(next.links[i], user, e.now) ==>
                             LiveFor(w.links[i], user, before)
  {
  }

  lemma StepLiveLinks(w: World, e: Event, user: UserId, limit: int, before: int)
    requires before <= e.now && LiveLinks(w.links, user, before) <= Max(0, limit)
    requires LimitedTo([e], user, limit)
    ensures LiveLinks(Apply(w, e).links, user, e.now) <= Max(0, limit)
  {
    if e.step.MakeLink? {
      assert [e][0] == e;
      LiveLinksShrink(w.links, w.links, user, before, e.now);
      var next := Apply(w, e);
      if next != w {
        assert next.links[..|w.links|] == w.links;
      }
    } else {
      OthersReviveNone(w, e, user, before);
      LiveLinksShrink(w.links, Apply(w, e).links, user, before, e.now);
    }
  }

  lemma {:induction false} LiveLinksBounded(w: World, run: seq<Event>, user: UserId, limit: int, start: int, n: nat)
    requires LiveLinks(w.links, user, start) <= Max(0, limit)
    requires LimitedTo(run, user, limit) && ClockForward(run, start) && n <= |run|
    ensures LiveLinks(Run(w, run[..n]).links, user, if n == 0 then start else run[n - 1].now) <= Max(0, limit)
    decreases n
  {
    if n > 0 {
      StepLiveLinks(w, run[0], user, limit, start);
      LiveLinksBounded(Apply(w, run[0]), run[1..], user, limit, run[0].now, n - 1);
      assert run[..n][1..] == run[1..][..n - 1];
    }
  }

  /** Under one plan, and a clock that does not run back, a user never has more live links
      than the plan allows. */
  lemma ActiveLinksLimited(run: seq<Event>, user: UserId, limit: int, start: int, n: nat)
    requires LimitedTo(run, user, limit) && ClockForward(run, start) && 0 < n <= |run|
    ensures LiveLinks(Run(EMPTY, run[..n]).links, user, run[n - 1].now) <= Max(0, limit)
  {
    LiveLinksBounded(EMPTY, run, user, limit, start, n);
  }
}
