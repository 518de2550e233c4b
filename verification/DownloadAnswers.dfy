/** When a link is made and a request granted, and what each leaves (app/services/downloads.py:81-288,
    app/usage.py:198-251). */
module DownloadAnswers {
  import opened Base
  import opened Downloads

  // ---------------------------------------------------------------- making a link

  /** The user's links that can still be used. */
  function UsableLinks(links: seq<Link>, user: UserId, now: int): set<nat> {
    set i: nat | 0 <= i < |links| && links[i].owner == user && links[i].status == Live && now < links[i].expiresAt
  }

  lemma {:induction false} LiveAreUsable(links: seq<Link>, user: UserId, now: int)
    ensures LiveLinks(links, user, now) == |UsableLinks(links, user, now)|
  {
    if links == [] {
      assert UsableLinks(links, user, now) == {};
    } else {
      var last := |links| - 1;
      LiveAreUsable(links[..last], user, now);
      var fewer := UsableLinks(links[..last], user, now);
      if LiveFor(links[last], user, now) {
        assert UsableLinks(links, user, now) == fewer + {last};
      } else {
        assert UsableLinks(links, user, now) == fewer;
      }
    }
  }

  /** The sessions in use on one link, and on any link of the user. */
  function UsedSessions(sessions: seq<DownloadSession>, id: nat, now: int): set<SessionId> {
    set k: nat | 0 <= k < |sessions| && sessions[k].active && now < sessions[k].expiresAt :: SessionId(id, k)
  }

  function UsedByUser(links: seq<Link>, user: UserId, now: int): set<SessionId> {
    if links == [] then {}
    else
      var last := |links| - 1;
      UsedByUser(links[..last], user, now)
      + if links[last].owner == user then UsedSessions(links[last].sessions, last, now) else {}
  }

  lemma UsedByUserAre(links: seq<Link>, user: UserId, now: int, id: SessionId)
    ensures id in UsedByUser(links, user, now) <==>
            && id.link < |links| && id.index < |links[id.link].sessions| && links[id.link].owner == user
            && links[id.link].sessions[id.index].active && now < links[id.link].sessions[id.index].expiresAt
  {
    if links != [] {
      UsedByUserAre(links[..|links| - 1], user, now, id);
    }
  }

  lemma {:induction false} LiveAreUsed(sessions: seq<DownloadSession>, id: nat, now: int)
    ensures LiveSessions(sessions, now) == |UsedSessions(sessions, id, now)|
  {
    if sessions == [] {
      assert UsedSessions(sessions, id, now) == {};
    } else {
      var last := |sessions| - 1;
      LiveAreUsed(sessions[..last], id, now);
      var fewer := UsedSessions(sessions[..last], id, now);
      if sessions[last].active && now < sessions[last].expiresAt {
        assert UsedSessions(sessions, id, now) == fewer + {SessionId(id, last)};
      } else {
        assert UsedSessions(sessions, id, now) == fewer;
      }
    }
  }

  lemma {:induction false} UserSessionsAreUsed(links: seq<Link>, user: UserId, now: int)
    ensures UserSessions(links, user, now) == |UsedByUser(links, user, now)|
  {
    if links != [] {
      var last := |links| - 1;
      UserSessionsAreUsed(links[..last], user, now);
      LiveAreUsed(links[last].sessions, last, now);
      forall id | id in UsedByUser(links[..last], user, now)
        ensures id.link < last
      {
        UsedByUserAre(links[..last], user, now, id);
      }
      assert UsedByUser(links[..last], user, now) !! UsedSessions(links[last].sessions, last, now);
    }
  }

  /** The user owns the file and still has a reference to it, and neither is gone or has ended. */
  predicate Offered(w: World, user: UserId, file: nat, now: int) {
    && file < |w.files| && w.files[file].owner == user && w.files[file].available && !w.files[file].deleted
    && now < w.files[file].expiresAt
    && ReferenceKey(user, file) in w.references
    && !w.references[ReferenceKey(user, file)].deleted && now < w.references[ReferenceKey(user, file)].expiresAt
  }

  /** A new link to the file: live until the file or the reference ends, once if one-time, under
      the plan's limits and no laxer ones than the settings'. */
  predicate FreshLink(w: World, link: Link, user: UserId, file: nat, oneTime: bool, plan: DownloadPlan,
                      settings: DownloadSettings, token: Digest)
    requires file < |w.files| && ReferenceKey(user, file) in w.references
  {
    && link.owner == user && link.file == file && link.token == token && link.status == Live
    && link.oneTime == oneTime && link.maxDownloads == (if oneTime then Some(1) else None)
    && link.downloadCount == 0 && link.sessions == []
    && link.expiresAt <= w.files[file].expiresAt
    && link.expiresAt <= w.references[ReferenceKey(user, file)].expiresAt
    && (link.expiresAt == w.files[file].expiresAt || link.expiresAt == w.references[ReferenceKey(user, file)].expiresAt)
    && link.policy.concurrentDownloads == plan.concurrentDownloads && link.policy.resumeLimit == plan.resumeLimit
    && link.policy.sessionTtl == settings.sessionTtl
    && IsLesser(link.policy.connectionLimit, plan.connectionLimit, settings.maxConnections)
    && IsLesser(link.policy.rangeLimit, plan.rangeLimit, settings.maxRangeRequests)
  }

  predicate IsLesser(n: int, a: int, b: int) {
    n <= a && n <= b && (n == a || n == b)
  }

  /** A link is made exactly for an offered file, within the plan and under a new token; it is
      added to the links, and nothing else changes. */
  lemma LinkDecides(w: World, user: UserId, file: nat, oneTime: bool, plan: Option<DownloadPlan>,
                    settings: DownloadSettings, token: Digest, now: int)
    ensures var r := CreateLink(w, user, file, oneTime, plan, settings, token, now);
            && (r.Granted? <==>
                  && Offered(w, user, file, now) && plan.Some?
                  && (oneTime ==> plan.value.oneTimeEnabled)
                  && |UsableLinks(w.links, user, now)| < plan.value.activeLinkLimit
                  && forall i :: 0 <= i < |w.links| ==> w.links[i].token != token)
            && (r.Granted? ==>
                  && |r.world.links| == |w.links| + 1
                  && r.world == w.(links := w.links + [r.world.links[|w.links|]])
                  && FreshLink(w, r.world.links[|w.links|], user, file, oneTime, plan.value, settings, token))
  {
    LiveAreUsable(w.links, user, now);
  }

  // ---------------------------------------------------------------- the link of a request

  /** The request's token is the link's, and the link's file can be served. */
  predicate Reaches(w: World, req: Request, id: nat, now: int) {
    && id < |w.links| && req.token == Some(w.links[id].token)
    && w.links[id].file < |w.files| && w.files[w.links[id].file].available
    && now < w.files[w.links[id].file].expiresAt
  }

  ghost predicate TokensDiffer(w: World) {
    forall i, j :: 0 <= i < j < |w.links| ==> w.links[i].token != w.links[j].token
  }

  lemma ReachedIsFound(w: World, req: Request, id: nat)
    requires TokensDiffer(w) && id < |w.links| && req.token == Some(w.links[id].token)
    ensures LinkByToken(w.links, w.links[id].token) == Some(id)
  {
    var found := LinkByToken(w.links, w.links[id].token);
    assert TokenUsed(w.links, w.links[id].token);
  }

  /** A request that reaches no link is denied. */
  lemma UnreachedDenied(w: World, req: Request, now: int)
    requires forall id :: !Reaches(w, req, id, now)
    ensures Authorize(w, req, now) == Refused(Denied)
  {
    if req.token.Some? {
      var id := LinkByToken(w.links, req.token.value);
      if id.Some? {
        assert !Reaches(w, req, id.value, now);
      }
    }
  }

  // ---------------------------------------------------------------- a first request

  /** A new session on a link, bound to the client that asked for it. */
  predicate FreshSession(link: Link, session: DownloadSession, req: Request, now: int) {
    && session.secret == req.newSecret && session.address == req.address && session.agent == req.agent
    && session.active && session.rangeRequests == 0 && session.resumeCount == 0 && session.connections == 0
    && IsLesser(session.expiresAt, link.expiresAt, now + link.policy.sessionTtl * 1_000_000)
  }

  /** The link with one session more, counted, and used up if it was for one time or is at its cap. */
  predicate OneMoreSession(link: Link, link': Link, req: Request, now: int) {
    && |link'.sessions| == |link.sessions| + 1
    && link' == link.(sessions := link.sessions + [link'.sessions[|link.sessions|]],
                      downloadCount := link.downloadCount + 1, status := link'.status)
    && FreshSession(link, link'.sessions[|link.sessions|], req, now)
    && (if link.oneTime || (link.maxDownloads.Some? && link.downloadCount + 1 >= link.maxDownloads.value)
        then link'.status == Exhausted else link'.status == link.status)
  }

  /** A first request is granted exactly on a live link, below the owner's number of sessions, if
      the session would not end at once; and then adds that session to that link. */
  lemma FirstRequestDecides(w: World, req: Request, id: nat, now: int)
    requires TokensDiffer(w) && Reaches(w, req, id, now) && req.session == NoSession
    ensures var r, link := Authorize(w, req, now), w.links[id];
            && (r.Granted? <==>
                  && link.status == Live && now < link.expiresAt && 0 < link.policy.sessionTtl
                  && |UsedByUser(w.links, link.owner, now)| < link.policy.concurrentDownloads)
            && (r.Granted? ==>
                  && |r.world.links| == |w.links| && r.world == w.(links := w.links[id := r.world.links[id]])
                  && OneMoreSession(link, r.world.links[id], req, now))
  {
    ReachedIsFound(w, req, id);
    UserSessionsAreUsed(w.links, w.links[id].owner, now);
  }

  // ---------------------------------------------------------------- later requests

  predicate ValidRange(range: RangeArgument) {
    range == NoRange || (range.ByteRange? && (range.start.Some? || range.end.Some?))
  }

  predicate Resumes(range: RangeArgument) {
    range.ByteRange? && range.start.Some? && range.start.value > 0
  }

  /** The session of the request, and the client it was made for. */
  predicate OwnSession(w: World, req: Request, id: SessionId, now: int) {
    && id.link < |w.links| && id.index < |w.links[id.link].sessions|
    && var link, session := w.links[id.link], w.links[id.link].sessions[id.index];
    && req.session == Given(session.secret)
    && session.active && now < session.expiresAt && link.status != Revoked && link.status != Lapsed
    && session.address == req.address && session.agent == req.agent
  }

  /** What the request asks for is within the limits of the link. */
  predicate WithinLimits(w: World, req: Request, id: SessionId)
    requires id.link < |w.links| && id.index < |w.links[id.link].sessions|
  {
    var policy, session := w.links[id.link].policy, w.links[id.link].sessions[id.index];
    && ValidRange(req.range)
    && (req.range != NoRange ==>
          && session.rangeRequests < policy.rangeLimit
          && (if Resumes(req.range) then session.resumeCount + 1 else session.resumeCount) <= policy.resumeLimit)
    && CounterOf(w, id) < policy.connectionLimit
  }

  /** The session after the request: one connection more, its range and its resume counted. */
  predicate Served(session: DownloadSession, session': DownloadSession, range: RangeArgument) {
    session' == session.(connections := session.connections + 1,
                         rangeRequests := session.rangeRequests + (if range == NoRange then 0 else 1),
                         resumeCount := session.resumeCount + (if Resumes(range) then 1 else 0))
  }

  ghost predicate SecretsDiffer(link: Link) {
    forall i, j :: 0 <= i < j < |link.sessions| ==> link.sessions[i].secret != link.sessions[j].secret
  }

  /** A later request is granted exactly in its own live session, from the client the session was
      made for, and within the limits; it then takes one connection of that session. */
  lemma LaterRequestDecides(w: World, req: Request, id: SessionId, now: int)
    requires TokensDiffer(w) && Reaches(w, req, id.link, now) && SecretsDiffer(w.links[id.link])
    requires id.index < |w.links[id.link].sessions|
    requires req.session == Given(w.links[id.link].sessions[id.index].secret)
    ensures var r := Authorize(w, req, now);
            && (r.Granted? <==> OwnSession(w, req, id, now) && WithinLimits(w, req, id))
            && (r.Granted? ==>
                  && |r.world.links| == |w.links|
                  && |r.world.links[id.link].sessions| == |w.links[id.link].sessions|
                  && Served(w.links[id.link].sessions[id.index], r.world.links[id.link].sessions[id.index], req.range)
                  && r.world == UpdateSession(w, id, r.world.links[id.link].sessions[id.index])
                                .(counters := w.counters[id := CounterOf(w, id) + 1]))
  {
    ReachedIsFound(w, req, id.link);
    var secret := w.links[id.link].sessions[id.index].secret;
    assert SessionBySecret(w.links[id.link].sessions, secret) == Some(id.index);
  }

  /** A request from another address or another client, or under a secret no session of the link
      has, is denied. */
  lemma OtherClientDenied(w: World, req: Request, id: nat, secret: Digest, now: int)
    requires TokensDiffer(w) && Reaches(w, req, id, now) && req.session == Given(secret)
    requires forall k :: 0 <= k < |w.links[id].sessions| && w.links[id].sessions[k].secret == secret ==>
               w.links[id].sessions[k].address != req.address || w.links[id].sessions[k].agent != req.agent
    ensures Authorize(w, req, now) == Refused(Denied)
  {
    ReachedIsFound(w, req, id);
  }

  // ---------------------------------------------------------------- giving back

  /** A finished delivery gives one connection back, in Redis and in the session's row, and ends
      the session exactly if it delivered the whole file. */
  lemma ReleaseEffect(w: World, id: SessionId, completes: bool)
    ensures var next := Release(w, id, completes);
            && CounterOf(next, id) == (if CounterOf(w, id) > 0 then CounterOf(w, id) - 1 else 0)
            && (forall other :: other != id ==> CounterOf(next, other) == CounterOf(w, other))
            && next.files == w.files && next.references == w.references && |next.links| == |w.links|
            && (forall i :: 0 <= i < |w.links| && i != id.link ==> next.links[i] == w.links[i])
            && (id.link < |w.links| && id.index < |w.links[id.link].sessions| ==>
                  && next.links[id.link]
                     == w.links[id.link].(sessions := next.links[id.link].sessions)
                  && |next.links[id.link].sessions| == |w.links[id.link].sessions|
                  && (forall k :: 0 <= k < |w.links[id.link].sessions| && k != id.index ==>
                        next.links[id.link].sessions[k] == w.links[id.link].sessions[k])
                  && var session := w.links[id.link].sessions[id.index];
                  var session' := next.links[id.link].sessions[id.index];
                  && session'.connections == (if session.connections > 0 then session.connections - 1 else 0)
                  && (session'.active <==> session.active && !completes)
                  && session' == session.(connections := session'.connections, active := session'.active))
  {
  }
}
