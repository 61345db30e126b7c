/** Refresh-token rotation: the lock-serialised repository of
    src/delivery_service/refresh_sessions.py, and what every run of it keeps. */
module RefreshSessions {
  import opened Basics
  import opened Traces

  datatype Session = Session(
    jti: Uuid,
    family: Uuid,
    subject: string,
    expiresAt: int,
    usedAt: Option<int>,
    revokedAt: Option<int>,
    replacement: Option<Uuid>)

  datatype RotationResult = Rotated | Reused | Invalid

  type Sessions = map<Uuid, Session>

  /** A refresh request: the token's claims and the session that would replace it. */
  datatype Request = Request(presented: Uuid, family: Uuid, subject: string, successor: Session, now: int)

  predicate Live(session: Session) {
    session.usedAt.None? && session.revokedAt.None?
  }

  predicate Matches(s: Sessions, r: Request) {
    r.presented in s && s[r.presented].family == r.family && s[r.presented].subject == r.subject
  }

  predicate ReplacementFits(s: Sessions, r: Request) {
    r.successor.family == r.family && r.successor.subject == r.subject && r.successor.jti !in s
  }

  function RevokeFamily(s: Sessions, family: Uuid, now: int): Sessions {
    map j | j in s ::
      if s[j].family == family && s[j].revokedAt.None? then s[j].(revokedAt := Some(now)) else s[j]
  }

  function Replace(s: Sessions, r: Request): Sessions
    requires r.presented in s
  {
    s[r.presented := s[r.presented].(usedAt := Some(r.now), replacement := Some(r.successor.jti))][r.successor.jti := r.successor]
  }

  function Rotate(s: Sessions, r: Request): (Sessions, RotationResult) {
    if !Matches(s, r) then (s, Invalid)
    else if !Live(s[r.presented]) then (RevokeFamily(s, r.family, r.now), Reused)
    else if s[r.presented].expiresAt <= r.now then
      (s[r.presented := s[r.presented].(revokedAt := Some(r.now))], Invalid)
    else if !ReplacementFits(s, r) then (s, Invalid)
    else (Replace(s, r), Rotated)
  }

  /** None when the identifier is already registered. */
  function Register(s: Sessions, session: Session): Option<Sessions> {
    if session.jti in s then None else Some(s[session.jti := session])
  }

  class Repository {
    var sessions: Sessions

    constructor ()
      ensures sessions == map[]
    {
      sessions := map[];
    }

    method RegisterSession(session: Session) returns (ok: bool)
      modifies this
      ensures ok <==> Register(old(sessions), session).Some?
      ensures ok <==> session.jti !in old(sessions)
      ensures sessions == if ok then old(sessions)[session.jti := session] else old(sessions)
      ensures ok ==> sessions == Register(old(sessions), session).value
    {
      if session.jti in sessions {
        return false;
      }
      sessions := sessions[session.jti := session];
      return true;
    }

    method RotateSession(r: Request) returns (result: RotationResult)
      modifies this
      ensures (sessions, result) == Rotate(old(sessions), r)
      ensures result.Rotated? <==>
                && r.presented in old(sessions)
                && old(sessions)[r.presented].family == r.family && old(sessions)[r.presented].subject == r.subject
                && old(sessions)[r.presented].usedAt.None? && old(sessions)[r.presented].revokedAt.None?
                && r.now < old(sessions)[r.presented].expiresAt
                && r.successor.family == r.family && r.successor.subject == r.subject && r.successor.jti !in old(sessions)
      ensures result.Reused? <==>
                && r.presented in old(sessions)
                && old(sessions)[r.presented].family == r.family && old(sessions)[r.presented].subject == r.subject
                && (old(sessions)[r.presented].usedAt.Some? || old(sessions)[r.presented].revokedAt.Some?)
    {
      if r.presented !in sessions {
        return Invalid;
      }
      var current := sessions[r.presented];
      if current.family != r.family || current.subject != r.subject {
        return Invalid;
      }
      if current.usedAt.Some? || current.revokedAt.Some? {
        RevokeAll(r.family, r.now);
        return Reused;
      }
      if current.expiresAt <= r.now {
        sessions := sessions[r.presented := current.(revokedAt := Some(r.now))];
        return Invalid;
      }
      if r.successor.family != r.family || r.successor.subject != r.subject || r.successor.jti in sessions {
        return Invalid;
      }
      sessions := sessions[r.presented := current.(usedAt := Some(r.now), replacement := Some(r.successor.jti))];
      sessions := sessions[r.successor.jti := r.successor];
      return Rotated;
    }

    /** The reuse response: visit every session, revoking those of the family. */
    method RevokeAll(family: Uuid, now: int)
      modifies this
      ensures sessions == RevokeFamily(old(sessions), family, now)
      ensures sessions.Keys == old(sessions).Keys
      ensures forall j :: j in old(sessions) ==>
                sessions[j] == if old(sessions)[j].family == family && old(sessions)[j].revokedAt.None?
                               then old(sessions)[j].(revokedAt := Some(now)) else old(sessions)[j]
    {
      var todo := sessions.Keys;
      while todo != {}
        invariant todo <= sessions.Keys == old(sessions).Keys
        invariant forall j :: j in todo ==> sessions[j] == old(sessions)[j]
        invariant forall j :: j in sessions && j !in todo ==>
                    sessions[j] == RevokeFamily(old(sessions), family, now)[j]
      {
        var j :| j in todo;
        var item := sessions[j];
        if item.family == family && item.revokedAt.None? {
          sessions := sessions[j := item.(revokedAt := Some(now))];
        }
        todo := todo - {j};
      }
    }
  }

  // ----- runs: logins and refreshes in any order -----

  datatype Command = Login(session: Session) | Refresh(request: Request)

  /** The sessions, and for each family the identifiers it has issued, oldest first. */
  datatype World = World(sessions: Sessions, issued: map<Uuid, Trace<Uuid>>)

  predicate Unspent(session: Session) {
    Live(session) && session.replacement.None?
  }

  /** A login opens a family of its own; every new session arrives unspent. */
  predicate Proper(w: World, command: Command) {
    match command
    case Login(session) => Unspent(session) && session.family !in w.issued
    case Refresh(request) => Unspent(request.successor)
  }

  function IssuedBy(w: World, family: Uuid): Trace<Uuid> {
    if family in w.issued then w.issued[family] else Start
  }

  function Step(w: World, command: Command): World {
    match command
    case Login(session) =>
      (match Register(w.sessions, session)
       case None => w
       case Some(s) => World(s, w.issued[session.family := Then(Start, session.jti)]))
    case Refresh(request) =>
      var (s, result) := Rotate(w.sessions, request);
      if result.Rotated? then
        World(s, w.issued[request.family := Then(IssuedBy(w, request.family), request.successor.jti)])
      else World(s, w.issued)
  }

  function Run(t: Trace<Command>): World {
    match t
    case Start => World(map[], map[])
    case Then(before, command) => Step(Run(before), command)
  }

  predicate ProperRun(t: Trace<Command>) {
    t.Then? ==> ProperRun(t.before) && Proper(Run(t.before), t.step)
  }

  // ----- the shape of a family -----

  ghost function Elements(path: Trace<Uuid>): set<Uuid> {
    match path
    case Start => {}
    case Then(before, j) => Elements(before) + {j}
  }

  function Length(path: Trace<Uuid>): nat {
    match path
    case Start => 0
    case Then(before, _) => Length(before) + 1
  }

  ghost function Members(s: Sessions, family: Uuid): set<Uuid> {
    set j | j in s && s[j].family == family
  }

  /** `path` visits sessions of one family and one subject, never twice; each but the last is
      used and points to the next. */
  ghost predicate Linked(s: Sessions, family: Uuid, subject: string, path: Trace<Uuid>) {
    match path
    case Start => true
    case Then(before, j) =>
      && j in s && s[j].family == family && s[j].subject == subject
      && j !in Elements(before)
      && Linked(s, family, subject, before)
      && (before.Then? ==>
            before.step in s && s[before.step].usedAt.Some? && s[before.step].replacement == Some(j))
  }

  /** One simple path covers the whole family and ends in its only unused session. */
  ghost predicate Chain(s: Sessions, family: Uuid, path: Trace<Uuid>) {
    && path.Then? && path.step in s
    && Linked(s, family, s[path.step].subject, path)
    && s[path.step].usedAt.None? && s[path.step].replacement.None?
    && Elements(path) == Members(s, family)
  }

  ghost predicate Invariant(w: World) {
    && (forall j :: j in w.sessions ==> w.sessions[j].jti == j && w.sessions[j].family in w.issued)
    && (forall f :: f in w.issued ==> Chain(w.sessions, f, w.issued[f]))
  }

  /** Linking survives any change that keeps families and subjects, and keeps the pointers
      of the sessions before the last. */
  lemma {:induction false} LinkedFrame(s: Sessions, s': Sessions, family: Uuid, subject: string, path: Trace<Uuid>)
    requires Linked(s, family, subject, path)
    requires forall j :: j in Elements(path) ==>
               j in s && j in s' && s'[j].family == s[j].family && s'[j].subject == s[j].subject
    requires path.Then? ==> forall j :: j in Elements(path.before) ==>
               s'[j].replacement == s[j].replacement && (s[j].usedAt.Some? ==> s'[j].usedAt.Some?)
    ensures Linked(s', family, subject, path)
  {
    if path.Then? {
      if path.before.Then? {
        assert path.before.step in Elements(path.before);
        forall j | j in Elements(path.before.before) ensures j in Elements(path.before) {}
      }
      LinkedFrame(s, s', family, subject, path.before);
    }
  }

  /** A change that touches only revocation marks keeps every chain. */
  lemma RevokingKeepsChain(s: Sessions, s': Sessions, family: Uuid, path: Trace<Uuid>)
    requires Chain(s, family, path) && s'.Keys == s.Keys
    requires forall j :: j in s ==> s'[j] == s[j].(revokedAt := s'[j].revokedAt)
    ensures Chain(s', family, path)
  {
    assert Members(s', family) == Members(s, family);
    LinkedFrame(s, s', family, s[path.step].subject, path);
  }

  /** A rotation of the tip lengthens the family's chain by the replacement. */
  lemma RotatingExtendsChain(s: Sessions, r: Request, path: Trace<Uuid>)
    requires Chain(s, r.family, path) && Matches(s, r) && Live(s[r.presented])
    requires ReplacementFits(s, r) && Unspent(r.successor)
    ensures r.presented == path.step && Chain(Replace(s, r), r.family, Then(path, r.successor.jti))
  {
    TipIsOnlyUnused(s, r.family, s[path.step].subject, path, r.presented);
    var s' := Replace(s, r);
    LinkedFrame(s, s', r.family, r.subject, path);
    assert Members(s', r.family) == Members(s, r.family) + {r.successor.jti};
  }

  lemma {:induction false} TipIsOnlyUnused(s: Sessions, family: Uuid, subject: string, path: Trace<Uuid>, j: Uuid)
    requires Linked(s, family, subject, path) && j in Elements(path) && j in s && s[j].usedAt.None?
    ensures path.Then? && path.step == j
  {
    if path.step != j {
      TipIsOnlyUnused(s, family, subject, path.before, j);
    }
  }

  /** Other families do not notice a rotation. */
  lemma RotatingKeepsOthers(s: Sessions, r: Request, family: Uuid, path: Trace<Uuid>)
    requires Chain(s, family, path) && family != r.family && Matches(s, r) && ReplacementFits(s, r)
    ensures Chain(Replace(s, r), family, path)
  {
    var s' := Replace(s, r);
    assert Members(s', family) == Members(s, family);
    assert forall j :: j in Elements(path) ==> s'[j] == s[j];
    LinkedFrame(s, s', family, s[path.step].subject, path);
  }

  lemma AddingKeepsChain(s: Sessions, session: Session, family: Uuid, path: Trace<Uuid>)
    requires Chain(s, family, path) && session.jti !in s && session.family != family
    ensures Chain(s[session.jti := session], family, path)
  {
    var s' := s[session.jti := session];
    assert Members(s', family) == Members(s, family);
    LinkedFrame(s, s', family, s[path.step].subject, path);
  }

  lemma LoginKeepsInvariant(w: World, session: Session)
    requires Invariant(w) && Proper(w, Login(session))
    ensures Invariant(Step(w, Login(session)))
  {
    if session.jti !in w.sessions {
      var s' := w.sessions[session.jti := session];
      assert Members(s', session.family) == {session.jti} == Elements(Then(Start, session.jti));
      assert Chain(s', session.family, Then(Start, session.jti));
      forall f | f in w.issued ensures Chain(s', f, w.issued[f]) {
        AddingKeepsChain(w.sessions, session, f, w.issued[f]);
      }
    }
  }

  lemma RefreshKeepsInvariant(w: World, r: Request)
    requires Invariant(w) && Proper(w, Refresh(r))
    ensures Invariant(Step(w, Refresh(r)))
  {
    if Rotate(w.sessions, r).1.Rotated? {
      RotationKeepsInvariant(w, r);
    } else {
      RefusalKeepsInvariant(w, r);
    }
  }

  lemma RotationKeepsInvariant(w: World, r: Request)
    requires Invariant(w) && Unspent(r.successor) && Rotate(w.sessions, r).1.Rotated?
    ensures Invariant(Step(w, Refresh(r)))
  {
    var s' := Replace(w.sessions, r);
    assert w.sessions[r.presented].family in w.issued;
    RotatingExtendsChain(w.sessions, r, w.issued[r.family]);
    forall f | f in w.issued && f != r.family ensures Chain(s', f, w.issued[f]) {
      RotatingKeepsOthers(w.sessions, r, f, w.issued[f]);
    }
  }

  /** A refresh that is not granted changes revocation marks and nothing else. */
  lemma RefusalOnlyRevokes(s: Sessions, r: Request)
    requires !Rotate(s, r).1.Rotated?
    ensures var s' := Rotate(s, r).0;
            s'.Keys == s.Keys && forall j :: j in s ==> s'[j] == s[j].(revokedAt := s'[j].revokedAt)
  {
  }

  lemma RefusalKeepsInvariant(w: World, r: Request)
    requires Invariant(w) && !Rotate(w.sessions, r).1.Rotated?
    ensures Invariant(Step(w, Refresh(r)))
  {
    var s' := Rotate(w.sessions, r).0;
    RefusalOnlyRevokes(w.sessions, r);
    forall f | f in w.issued ensures Chain(s', f, w.issued[f]) {
      RevokingKeepsChain(w.sessions, s', f, w.issued[f]);
    }
  }

  lemma {:induction false} RunKeepsInvariant(t: Trace<Command>)
    requires ProperRun(t)
    ensures Invariant(Run(t))
  {
    if t.Then? {
      RunKeepsInvariant(t.before);
      match t.step
      case Login(session) => LoginKeepsInvariant(Run(t.before), session);
      case Refresh(request) => RefreshKeepsInvariant(Run(t.before), request);
    }
  }

  // ----- main results -----

  /** In every reachable state the sessions of a family form one simple path of replacement
      pointers, all of one subject; every session but the last of the path is used, so at most
      one session of the family is live. */
  lemma FamilyIsOneChain(t: Trace<Command>, j: Uuid)
    requires ProperRun(t) && j in Run(t).sessions
    ensures exists path :: Chain(Run(t).sessions, Run(t).sessions[j].family, path)
    ensures forall i :: i in Run(t).sessions && Run(t).sessions[i].family == Run(t).sessions[j].family ==>
              && Run(t).sessions[i].subject == Run(t).sessions[j].subject
              && (Live(Run(t).sessions[i]) && Live(Run(t).sessions[j]) ==> i == j)
  {
    RunKeepsInvariant(t);
    var s := Run(t).sessions;
    var f := s[j].family;
    var path := Run(t).issued[f];
    assert Chain(s, f, path);
    forall i | i in s && s[i].family == f
      ensures s[i].subject == s[j].subject && (Live(s[i]) && Live(s[j]) ==> i == j)
    {
      assert i in Members(s, f) && j in Members(s, f);
      LinkedSubject(s, f, s[path.step].subject, path, i);
      LinkedSubject(s, f, s[path.step].subject, path, j);
      if Live(s[i]) && Live(s[j]) {
        TipIsOnlyUnused(s, f, s[path.step].subject, path, i);
        TipIsOnlyUnused(s, f, s[path.step].subject, path, j);
      }
    }
  }

  lemma {:induction false} LinkedSubject(s: Sessions, family: Uuid, subject: string, path: Trace<Uuid>, j: Uuid)
    requires Linked(s, family, subject, path) && j in Elements(path)
    ensures j in s && s[j].subject == subject
  {
    if path.step != j {
      LinkedSubject(s, family, subject, path.before, j);
    }
  }

  function ResultOf(t: Trace<Command>, r: Request): RotationResult {
    Rotate(Run(t).sessions, r).1
  }

  /** Successful rotations of a family so far. */
  function Rotations(t: Trace<Command>, family: Uuid): nat {
    match t
    case Start => 0
    case Then(before, command) =>
      Rotations(before, family) +
      (if command.Refresh? && command.request.family == family && ResultOf(before, command.request).Rotated?
       then 1 else 0)
  }

  /** A family holds its login session plus one session per successful rotation. */
  lemma FamilySizeCountsRotations(t: Trace<Command>, family: Uuid)
    requires ProperRun(t) && Members(Run(t).sessions, family) != {}
    ensures |Members(Run(t).sessions, family)| == 1 + Rotations(t, family)
  {
    RunKeepsInvariant(t);
    var w := Run(t);
    var j :| j in Members(w.sessions, family);
    assert w.sessions[j].family in w.issued;
    LengthCountsRotations(t, family);
    LinkedSize(w.sessions, family, w.sessions[w.issued[family].step].subject, w.issued[family]);
  }

  lemma {:induction false} LinkedSize(s: Sessions, family: Uuid, subject: string, path: Trace<Uuid>)
    requires Linked(s, family, subject, path)
    ensures |Elements(path)| == Length(path)
  {
    if path.Then? {
      LinkedSize(s, family, subject, path.before);
    }
  }

  lemma {:induction false} LengthCountsRotations(t: Trace<Command>, family: Uuid)
    requires ProperRun(t)
    ensures family in Run(t).issued ==> Length(Run(t).issued[family]) == 1 + Rotations(t, family)
    ensures family !in Run(t).issued ==> Rotations(t, family) == 0
  {
    if t.Then? {
      LengthCountsRotations(t.before, family);
      RunKeepsInvariant(t.before);
    }
  }

  /** A session that was ever used stays used: no identifier rotates twice. */
  lemma RotatesAtMostOnce(earlier: Trace<Command>, first: Request, later: Trace<Command>, second: Request)
    requires ResultOf(earlier, first).Rotated? && Extends(later, Then(earlier, Refresh(first)))
    requires first.presented == second.presented
    ensures !ResultOf(later, second).Rotated?
  {
    UsedStaysUsed(Then(earlier, Refresh(first)), later, first.presented);
  }

  lemma {:induction false} UsedStaysUsed(earlier: Trace<Command>, later: Trace<Command>, j: Uuid)
    requires Extends(later, earlier)
    requires j in Run(earlier).sessions && Run(earlier).sessions[j].usedAt.Some?
    ensures j in Run(later).sessions && Run(later).sessions[j].usedAt.Some?
  {
    if later != earlier {
      UsedStaysUsed(earlier, later.before, j);
    }
  }

  // ----- death of a family -----

  /** No session of the family can be rotated at `now` or later. */
  ghost predicate Dead(s: Sessions, family: Uuid, now: int) {
    forall j :: j in s && s[j].family == family ==> !Live(s[j]) || s[j].expiresAt <= now
  }

  /** Every refresh between the two moments happened at `now` or later. */
  ghost predicate NotBefore(earlier: Trace<Command>, later: Trace<Command>, now: int) {
    later == earlier ||
    (later.Then? && NotBefore(earlier, later.before, now) &&
     (later.step.Refresh? ==> now <= later.step.request.now))
  }

  /** Once a family has no usable session it never rotates again, whatever is presented. */
  lemma DeadFamilyNeverRotates(earlier: Trace<Command>, later: Trace<Command>, family: Uuid, now: int, r: Request)
    requires ProperRun(later) && NotBefore(earlier, later, now)
    requires Members(Run(earlier).sessions, family) != {} && Dead(Run(earlier).sessions, family, now)
    requires r.family == family && now <= r.now
    ensures !ResultOf(later, r).Rotated? && Dead(Run(later).sessions, family, now)
  {
    DeadStaysDead(earlier, later, family, now);
  }

  lemma {:induction false} DeadStaysDead(earlier: Trace<Command>, later: Trace<Command>, family: Uuid, now: int)
    requires ProperRun(later) && NotBefore(earlier, later, now)
    requires Members(Run(earlier).sessions, family) != {} && Dead(Run(earlier).sessions, family, now)
    ensures Members(Run(later).sessions, family) != {} && Dead(Run(later).sessions, family, now)
  {
    if later != earlier {
      DeadStaysDead(earlier, later.before, family, now);
      RunKeepsInvariant(later.before);
      StepKeepsDead(Run(later.before), later.step, family, now);
    }
  }

  lemma StepKeepsDead(w: World, command: Command, family: Uuid, now: int)
    requires Invariant(w) && Proper(w, command) && (command.Refresh? ==> now <= command.request.now)
    requires Members(w.sessions, family) != {} && Dead(w.sessions, family, now)
    ensures Members(Step(w, command).sessions, family) != {} && Dead(Step(w, command).sessions, family, now)
  {
    var j :| j in Members(w.sessions, family);
    assert w.sessions[j].family in w.issued;
    match command
    case Login(session) => OtherFamilyKeepsDead(w.sessions, session, family, now);
    case Refresh(r) =>
      if Rotate(w.sessions, r).1.Rotated? {
        RotationKeepsDead(w.sessions, r, family, now);
      } else {
        RefusalKeepsDead(w.sessions, r, family, now);
      }
    assert j in Members(Step(w, command).sessions, family);
  }

  lemma OtherFamilyKeepsDead(s: Sessions, session: Session, family: Uuid, now: int)
    requires Dead(s, family, now) && session.family != family
    ensures session.jti !in s ==> Dead(s[session.jti := session], family, now)
  {
  }

  /** A rotation happens only in a family that was alive, so the dead one is another. */
  lemma RotationKeepsDead(s: Sessions, r: Request, family: Uuid, now: int)
    requires Dead(s, family, now) && now <= r.now && Rotate(s, r).1.Rotated?
    ensures r.family != family && Dead(Replace(s, r), family, now)
  {
  }

  lemma RefusalKeepsDead(s: Sessions, r: Request, family: Uuid, now: int)
    requires Dead(s, family, now) && !Rotate(s, r).1.Rotated?
    ensures var s' := Rotate(s, r).0;
            s'.Keys == s.Keys && (forall j :: j in s ==> s'[j].family == s[j].family) && Dead(s', family, now)
  {
    RefusalOnlyRevokes(s, r);
  }

  /** Presenting a spent token kills its family; so does presenting an expired one. */
  lemma ReuseAndExpiryKill(t: Trace<Command>, r: Request)
    requires ProperRun(t) && Matches(Run(t).sessions, r)
    requires ResultOf(t, r).Reused? || Run(t).sessions[r.presented].expiresAt <= r.now
    ensures forall now :: Dead(Rotate(Run(t).sessions, r).0, r.family, now)
    ensures Members(Rotate(Run(t).sessions, r).0, r.family) != {}
  {
    var s := Run(t).sessions;
    var (s', result) := Rotate(s, r);
    assert r.presented in Members(s', r.family);
    if !result.Reused? {
      FamilyIsOneChain(t, r.presented);
    }
  }

  // ----- exactly when a refresh is granted -----

  /** The answer, from the fields of the presented session and of its successor; and what each
      answer leaves behind. */
  lemma RefreshIsGrantedIff(s: Sessions, r: Request)
    ensures var known := r.presented in s && s[r.presented].family == r.family && s[r.presented].subject == r.subject;
            var spent := known && (s[r.presented].usedAt.Some? || s[r.presented].revokedAt.Some?);
            var (s', result) := Rotate(s, r);
            && (result.Reused? <==> spent)
            && (result.Rotated? <==>
                  && known && !spent && r.now < s[r.presented].expiresAt
                  && r.successor.family == r.family && r.successor.subject == r.subject && r.successor.jti !in s)
            && (result.Rotated? ==>
                  s' == s[r.presented := s[r.presented].(usedAt := Some(r.now), replacement := Some(r.successor.jti))]
                         [r.successor.jti := r.successor])
            && (result.Invalid? ==>
                  s' == if known && s[r.presented].expiresAt <= r.now
                        then s[r.presented := s[r.presented].(revokedAt := Some(r.now))] else s)
            && (result.Reused? ==> s'.Keys == s.Keys && forall j :: j in s ==>
                  s'[j] == if s[j].family == r.family && s[j].revokedAt.None? then s[j].(revokedAt := Some(r.now)) else s[j])
  {
  }

  /** Over runs: the live session of a family, presented before it expires with a fitting
      successor, always rotates, and its successor is then the family's one live session. */
  lemma LiveSessionRotates(t: Trace<Command>, r: Request)
    requires ProperRun(t) && Proper(Run(t), Refresh(r)) && r.presented in Run(t).sessions
    requires var tip := Run(t).sessions[r.presented];
             && tip.usedAt.None? && tip.revokedAt.None? && r.now < tip.expiresAt
             && tip.family == r.family && tip.subject == r.subject
    requires r.successor.family == r.family && r.successor.subject == r.subject && r.successor.jti !in Run(t).sessions
    ensures ResultOf(t, r).Rotated?
    ensures var s := Run(Then(t, Refresh(r))).sessions;
            && r.successor.jti in s && s[r.successor.jti] == r.successor
            && forall j :: j in s && s[j].family == r.family ==>
                 (s[j].usedAt.None? && s[j].revokedAt.None? <==> j == r.successor.jti)
  {
    RefreshIsGrantedIff(Run(t).sessions, r);
    FamilyIsOneChain(Then(t, Refresh(r)), r.successor.jti);
  }

  /** Some session of the family can still be presented. */
  ghost predicate Alive(s: Sessions, family: Uuid) {
    exists j :: j in s && s[j].family == family && s[j].usedAt.None? && s[j].revokedAt.None?
  }

  ghost predicate Known(s: Sessions, family: Uuid) {
    exists j :: j in s && s[j].family == family
  }

  /** The command presents a session of the family that was used, revoked or expired. */
  predicate Kills(s: Sessions, command: Command, family: Uuid) {
    command.Refresh? &&
    var r := command.request;
    && r.family == family && r.presented in s && s[r.presented].family == family && s[r.presented].subject == r.subject
    && (s[r.presented].usedAt.Some? || s[r.presented].revokedAt.Some? || s[r.presented].expiresAt <= r.now)
  }

  /** One command ends a live family if and only if it presents a spent or expired session. */
  lemma StepEndsFamilyIff(t: Trace<Command>, command: Command, family: Uuid)
    requires ProperRun(t) && Proper(Run(t), command) && Alive(Run(t).sessions, family)
    ensures Alive(Run(Then(t, command)).sessions, family) <==> !Kills(Run(t).sessions, command, family)
  {
    var s, s' := Run(t).sessions, Run(Then(t, command)).sessions;
    if Kills(s, command, family) {
      RefreshIsGrantedIff(s, command.request);
      ReuseAndExpiryKill(t, command.request);
      assert Dead(s', family, 0) && forall now :: Dead(s', family, now);
      forall j | j in s' && s'[j].family == family ensures s'[j].usedAt.Some? || s'[j].revokedAt.Some? {
        assert Dead(s', family, s'[j].expiresAt - 1);
      }
    } else {
      var j :| j in s && s[j].family == family && s[j].usedAt.None? && s[j].revokedAt.None?;
      SurvivorOf(t, command, family, j);
    }
  }

  lemma SurvivorOf(t: Trace<Command>, command: Command, family: Uuid, j: Uuid)
    requires ProperRun(t) && Proper(Run(t), command) && !Kills(Run(t).sessions, command, family)
    requires j in Run(t).sessions && Run(t).sessions[j].family == family && Live(Run(t).sessions[j])
    ensures Alive(Run(Then(t, command)).sessions, family)
  {
    var s' := Run(Then(t, command)).sessions;
    if command.Refresh? {
      var r := command.request;
      RefreshIsGrantedIff(Run(t).sessions, r);
      if ResultOf(t, r).Rotated? && r.presented == j {
        assert s'[r.successor.jti] == r.successor;
      } else {
        assert j in s' && s'[j] == Run(t).sessions[j];
      }
    } else {
      assert j in s' && s'[j] == Run(t).sessions[j];
    }
  }

  /** No command between the two moments presents a spent or expired session of the family. */
  ghost predicate NeverKilled(earlier: Trace<Command>, later: Trace<Command>, family: Uuid) {
    later == earlier ||
    (later.Then? && NeverKilled(earlier, later.before, family) && !Kills(Run(later.before).sessions, later.step, family))
  }

  /** So a family lives exactly until the first such command: before it there is always a session
      that can be presented, after it there never is. */
  lemma {:induction false} FamilyLivesUntilKilled(earlier: Trace<Command>, later: Trace<Command>, family: Uuid)
    requires ProperRun(later) && Extends(later, earlier) && Alive(Run(earlier).sessions, family)
    ensures Alive(Run(later).sessions, family) <==> NeverKilled(earlier, later, family)
    ensures Known(Run(later).sessions, family)
  {
    if later != earlier {
      FamilyLivesUntilKilled(earlier, later.before, family);
      KnownStaysKnown(later.before, later.step, family);
      if Alive(Run(later.before).sessions, family) {
        StepEndsFamilyIff(later.before, later.step, family);
      } else {
        EndedStaysEnded(later.before, later.step, family);
      }
    }
  }

  lemma KnownStaysKnown(t: Trace<Command>, command: Command, family: Uuid)
    requires Known(Run(t).sessions, family)
    ensures Known(Run(Then(t, command)).sessions, family)
  {
    var s, s' := Run(t).sessions, Run(Then(t, command)).sessions;
    var j :| j in s && s[j].family == family;
    if command.Refresh? {
      RefreshIsGrantedIff(s, command.request);
    }
    assert j in s' && s'[j].family == family;
  }

  lemma EndedStaysEnded(t: Trace<Command>, command: Command, family: Uuid)
    requires ProperRun(t) && Proper(Run(t), command) && !Alive(Run(t).sessions, family)
    requires Known(Run(t).sessions, family)
    ensures !Alive(Run(Then(t, command)).sessions, family)
  {
    var s := Run(t).sessions;
    RunKeepsInvariant(t);
    var known :| known in s && s[known].family == family;
    assert s[known].family in Run(t).issued;
    if command.Refresh? {
      RefreshLeavesEnded(s, command.request, family);
    }
  }

  lemma RefreshLeavesEnded(s: Sessions, r: Request, family: Uuid)
    requires !Alive(s, family)
    ensures !Alive(Rotate(s, r).0, family)
  {
    RefreshIsGrantedIff(s, r);
    var s' := Rotate(s, r).0;
    forall j | j in s' && s'[j].family == family ensures s'[j].usedAt.Some? || s'[j].revokedAt.Some? {
      assert j in s;
    }
  }
}
