/**
  What flagging a rotated row in the verify cache achieves.

  After `Rotate`, the handler flags the old row so that cached copies from before the
  rotation are not used. The theorems say exactly which step undoes the flag, what
  follows when that step does not occur, and give runs in which it does.
*/
module RotationFlag {
  import opened Prelude
  import opened KeyStore
  import opened AuthProtocol

  ghost predicate HasDeadline(s: State, id: Uuid) {
    id in s.table && s.table[id].expires.Some?
  }

  /** The deadline the row carries. */
  ghost function Limit(s: State, id: Uuid): Time
    requires HasDeadline(s, id)
  {
    s.table[id].expires.value
  }

  /** Not usable at `limit` or later. */
  ghost predicate Ends(rec: KeyRecord, limit: Time) {
    rec.revoked.Some? || (rec.expires.Some? && rec.expires.value <= limit)
  }

  /** A copy of row `id` that does not know about its deadline. */
  ghost predicate Stale(s: State, id: Uuid, rec: KeyRecord)
    requires HasDeadline(s, id)
  {
    rec.id == id && !Ends(rec, Limit(s, id))
  }

  ghost predicate StaleCached(s: State, id: Uuid)
    requires HasDeadline(s, id)
  {
    exists t :: t in s.cache && Stale(s, id, s.cache[t].copy.rec)
  }

  /** A request has taken an entry from the LRU and not yet checked its flag. */
  ghost predicate InHand(r: Request) {
    r.pc.Fetched? || r.pc.Young?
  }

  ghost predicate StaleInHand(s: State, id: Uuid)
    requires HasDeadline(s, id)
  {
    exists p :: p in s.requests && InHand(s.requests[p]) && Stale(s, id, s.requests[p].pc.e.copy.rec)
  }

  /** A request past the flag check, or on its way from the table to the cache. */
  ghost predicate Carries(r: Request) {
    r.pc.Looked? || r.pc.Verified? || r.pc.Cleared? || r.pc.Resolved?
  }

  /** Copies from before the rotation are at most where the flag still guards them. */
  ghost predicate Sealed(s: State, id: Uuid) {
    && HasDeadline(s, id)
    && (StaleCached(s, id) || StaleInHand(s, id) ==> id in s.flags)
    && forall p | p in s.requests && Carries(s.requests[p]) :: !Stale(s, id, s.requests[p].pc.copy.rec)
  }

  /** `Put` clears the row's flag. */
  ghost predicate Clears(s: State, st: Step, id: Uuid) {
    st.By? && st.act.ClearFlag? && st.pid in s.requests && s.requests[st.pid].pc.Verified? && s.requests[st.pid].pc.copy.rec.id == id
  }

  /** The flag is cleared while a stale copy is still cached or in hand. */
  ghost predicate PrematureClear(c: Config, s: State, st: Step, id: Uuid) {
    && Enabled(c, s, st) && Clears(s, st, id)
    && HasDeadline(s, id) && (StaleCached(s, id) || StaleInHand(s, id))
  }

  /** Flagging the row seals it, unless a copy from before the rotation is already past the check. */
  lemma FlagSeals(c: Config, s: State, id: Uuid)
    requires Inv(c, s) && HasDeadline(s, id)
    ensures Sealed(Next(c, s, Flag(id)), id) <==>
            forall p | p in s.requests && Carries(s.requests[p]) :: !Stale(s, id, s.requests[p].pc.copy.rec)
  {
  }

  /** Another rotation of the row, begun earlier, writes an earlier deadline. */
  ghost predicate BringsForward(c: Config, s: State, st: Step, id: Uuid) {
    st.Rotate? && st.oldId == id && HasDeadline(s, id) && s.table[id].revoked == None && st.began + c.overlap < Limit(s, id)
  }

  /** The deadline only moves out, so fewer copies count as stale. */
  ghost predicate Narrows(s: State, s': State, id: Uuid) {
    HasDeadline(s, id) && HasDeadline(s', id) && Limit(s, id) <= Limit(s', id)
  }

  lemma LimitGrows(c: Config, s: State, st: Step, id: Uuid)
    requires Enabled(c, s, st) && HasDeadline(s, id) && !BringsForward(c, s, st, id)
    ensures Narrows(s, Next(c, s, st), id)
  {
    if st.Rotate? {
      RotatedIs(s.table, st.oldId, st.id, st.keyId, st.hash, st.began + c.overlap);
    }
  }

  lemma StaleCachedBefore(c: Config, s: State, st: Step, s': State, id: Uuid)
    requires Enabled(c, s, st) && s' == Next(c, s, st) && Sealed(s, id) && Narrows(s, s', id)
    requires StaleCached(s', id)
    ensures StaleCached(s, id)
  {
    var t :| t in s'.cache && Stale(s', id, s'.cache[t].copy.rec);
    assert st.By? && st.act.Add? ==> Carries(s.requests[st.pid]);
    assert !(st.By? && st.act.Add? && t == s.requests[st.pid].token) ==> t in s.cache && s.cache[t] == s'.cache[t];
  }

  lemma StaleInHandBefore(c: Config, s: State, st: Step, s': State, id: Uuid)
    requires Enabled(c, s, st) && s' == Next(c, s, st) && Narrows(s, s', id)
    requires StaleInHand(s', id)
    ensures StaleCached(s, id) || StaleInHand(s, id)
  {
    var p :| p in s'.requests && InHand(s'.requests[p]) && Stale(s', id, s'.requests[p].pc.e.copy.rec);
    if st.By? && st.pid == p {
      if st.act.Fetch? {
        assert s.requests[p].token in s.cache;
      } else {
        assert InHand(s.requests[p]);
      }
    } else {
      assert p in s.requests && s.requests[p] == s'.requests[p];
    }
  }

  lemma CarriesFresh(c: Config, s: State, st: Step, s': State, id: Uuid, p: nat)
    requires Enabled(c, s, st) && s' == Next(c, s, st) && Sealed(s, id) && Narrows(s, s', id)
    requires p in s'.requests && Carries(s'.requests[p])
    ensures !Stale(s', id, s'.requests[p].pc.copy.rec)
  {
    if st.By? && st.pid == p {
      var r := s.requests[p];
      if st.act.CheckFlag? {
        assert InHand(r);
      } else if !st.act.Find? {
        assert Carries(r);
      }
    } else {
      assert p in s.requests && s.requests[p] == s'.requests[p];
    }
  }

  /**
    Theorem. A step from a sealed state that does not bring the deadline forward leaves it
    sealed if and only if it is not a premature clear.
  */
  lemma SealedIffNoPrematureClear(c: Config, s: State, st: Step, id: Uuid)
    requires Enabled(c, s, st) && Sealed(s, id) && !BringsForward(c, s, st, id)
    ensures Sealed(Next(c, s, st), id) <==> !PrematureClear(c, s, st, id)
  {
    var s' := Next(c, s, st);
    LimitGrows(c, s, st, id);
    if PrematureClear(c, s, st, id) {
      ClearBreaks(c, s, st, s', id);
    } else {
      if StaleCached(s', id) { StaleCachedBefore(c, s, st, s', id); }
      if StaleInHand(s', id) { StaleInHandBefore(c, s, st, s', id); }
      forall p | p in s'.requests && Carries(s'.requests[p]) ensures !Stale(s', id, s'.requests[p].pc.copy.rec) {
        CarriesFresh(c, s, st, s', id, p);
      }
    }
  }

  lemma ClearBreaks(c: Config, s: State, st: Step, s': State, id: Uuid)
    requires PrematureClear(c, s, st, id) && s' == Next(c, s, st)
    ensures !Sealed(s', id)
  {
    if StaleCached(s, id) {
      var t :| t in s.cache && Stale(s, id, s.cache[t].copy.rec);
      assert t in s'.cache && Stale(s', id, s'.cache[t].copy.rec);
    } else {
      var p :| p in s.requests && InHand(s.requests[p]) && Stale(s, id, s.requests[p].pc.e.copy.rec);
      assert p in s'.requests && InHand(s'.requests[p]) && Stale(s', id, s'.requests[p].pc.e.copy.rec);
    }
  }

  // ---- over runs --------------------------------------------------------------------------------

  ghost predicate NoPrematureClears(c: Config, s: State, steps: seq<Step>, id: Uuid)
    requires CanRun(c, s, steps)
    decreases |steps|
  {
    steps == [] || (!PrematureClear(c, s, steps[0], id) && NoPrematureClears(c, Next(c, s, steps[0]), steps[1..], id))
  }

  ghost predicate DeadlineStays(c: Config, s: State, steps: seq<Step>, id: Uuid)
    requires CanRun(c, s, steps)
    decreases |steps|
  {
    steps == [] || (!BringsForward(c, s, steps[0], id) && DeadlineStays(c, Next(c, s, steps[0]), steps[1..], id))
  }

  /** Requests accepted with row `id`, other than those in `before`, were accepted before the deadline. */
  ghost predicate CutOff(s: State, id: Uuid, before: set<nat>) {
    && HasDeadline(s, id)
    && forall p | p in s.requests && p !in before && s.requests[p].pc.Accepted? && s.requests[p].pc.copy.rec.id == id ::
         s.requests[p].pc.at < Limit(s, id)
  }

  lemma StepKeepsCutOff(c: Config, s: State, st: Step, id: Uuid, before: set<nat>)
    requires Enabled(c, s, st) && Sealed(s, id) && !BringsForward(c, s, st, id)
    requires CutOff(s, id, before)
    ensures CutOff(Next(c, s, st), id, before)
  {
    LimitGrows(c, s, st, id);
    if st.By? && st.act.Decide? {
      assert Carries(s.requests[st.pid]);
    }
  }

  /**
    Theorem (the flag works). Once a row is sealed, and while its flag is not cleared prematurely
    and its deadline not brought forward, no request is accepted with it at or after the
    deadline it carries.
  */
  lemma {:induction false} FlagCutsOff(c: Config, s: State, steps: seq<Step>, id: Uuid, before: set<nat>)
    requires CanRun(c, s, steps) && NoPrematureClears(c, s, steps, id) && DeadlineStays(c, s, steps, id)
    requires Sealed(s, id) && CutOff(s, id, before)
    ensures Sealed(Final(c, s, steps), id) && CutOff(Final(c, s, steps), id, before)
    decreases |steps|
  {
    if steps != [] {
      SealedIffNoPrematureClear(c, s, steps[0], id);
      StepKeepsCutOff(c, s, steps[0], id, before);
      FlagCutsOff(c, Next(c, s, steps[0]), steps[1..], id, before);
    }
  }

  // ---- one token string per row --------------------------------------------------------------------

  /** Is the request between its miss and its `Put`? */
  ghost predicate OnMissPath(r: Request) {
    r.pc.Missed? || r.pc.Looked? || r.pc.Verified? || r.pc.Cleared?
  }

  /** Row `id` is reached by `token` alone, and a request that missed has no stale entry behind it. */
  ghost predicate OneToken(s: State, id: Uuid, token: Token) {
    && HasDeadline(s, id) && s.table[id].keyId == token.keyId
    && (forall t | t in s.cache && s.cache[t].copy.rec.id == id :: t == token)
    && (forall p | p in s.requests && s.requests[p].token.keyId == token.keyId :: s.requests[p].token == token)
    && (forall p | p in s.requests && s.requests[p].token == token && OnMissPath(s.requests[p]) ::
          token in s.cache ==> !Stale(s, id, s.cache[token].copy.rec))
  }

  /** A copy of the row in a request's hands came through the row's one token. */
  lemma SameToken(c: Config, s: State, id: Uuid, token: Token, p: nat, copy: Copy)
    requires Inv(c, s) && OneToken(s, id, token) && p in s.requests
    requires CopyOk(s, copy) && copy.rec.id == id && copy.rec.keyId == s.requests[p].token.keyId
    ensures s.requests[p].token == token
  {
    KeyIdFixed(c, s, copy.rec, copy.readAt);
  }

  /** With one token string, a premature clear needs a stale copy in another request's hands. */
  lemma PrematureNeedsOverlap(c: Config, s: State, st: Step, id: Uuid, token: Token)
    requires Inv(c, s) && OneToken(s, id, token) && PrematureClear(c, s, st, id)
    ensures StaleInHand(s, id)
  {
    assert RequestOk(c, s, s.requests[st.pid]);
    SameToken(c, s, id, token, st.pid, s.requests[st.pid].pc.copy);
    assert OnMissPath(s.requests[st.pid]);
  }

  /** The step brings no second token string for the row. */
  ghost predicate Loyal(st: Step, token: Token) {
    st.Arrive? && st.token.keyId == token.keyId ==> st.token == token
  }

  lemma OneTokenCache(c: Config, s: State, st: Step, s': State, id: Uuid, token: Token)
    requires Inv(c, s) && Enabled(c, s, st) && s' == Next(c, s, st) && OneToken(s, id, token)
    ensures forall t | t in s'.cache && s'.cache[t].copy.rec.id == id :: t == token
  {
    if st.By? && st.act.Add? && s.requests[st.pid].pc.copy.rec.id == id {
      assert RequestOk(c, s, s.requests[st.pid]);
      SameToken(c, s, id, token, st.pid, s.requests[st.pid].pc.copy);
    }
  }

  lemma OneTokenMiss(c: Config, s: State, st: Step, s': State, id: Uuid, token: Token, p: nat)
    requires Enabled(c, s, st) && s' == Next(c, s, st) && Sealed(s, id) && OneToken(s, id, token) && Narrows(s, s', id)
    requires p in s'.requests && s'.requests[p].token == token && OnMissPath(s'.requests[p]) && token in s'.cache
    ensures !Stale(s', id, s'.cache[token].copy.rec)
  {
    assert st.By? && st.act.Add? ==> Carries(s.requests[st.pid]);
    if !(st.By? && st.pid == p) {
      assert p in s.requests && s.requests[p] == s'.requests[p];
    }
  }

  lemma RowKeepsKeyId(c: Config, s: State, st: Step, s': State, id: Uuid)
    requires Enabled(c, s, st) && s' == Next(c, s, st) && id in s.table
    ensures id in s'.table && s'.table[id].keyId == s.table[id].keyId
  {
  }

  lemma StepKeepsOneToken(c: Config, s: State, st: Step, s': State, id: Uuid, token: Token)
    requires Inv(c, s) && Enabled(c, s, st) && s' == Next(c, s, st) && !BringsForward(c, s, st, id)
    requires Sealed(s, id) && OneToken(s, id, token) && Loyal(st, token)
    ensures OneToken(s', id, token)
  {
    LimitGrows(c, s, st, id);
    OneTokenCache(c, s, st, s', id, token);
    RowKeepsKeyId(c, s, st, s', id);
    assert forall p | p in s'.requests && s'.requests[p].token.keyId == token.keyId :: s'.requests[p].token == token;
    forall p | p in s'.requests && s'.requests[p].token == token && OnMissPath(s'.requests[p])
      ensures token in s'.cache ==> !Stale(s', id, s'.cache[token].copy.rec)
    {
      if token in s'.cache { OneTokenMiss(c, s, st, s', id, token, p); }
    }
  }

  /** No second token string, and no `Put` for the row while another request holds its old copy unchecked. */
  ghost predicate Orderly(c: Config, s: State, steps: seq<Step>, id: Uuid, token: Token)
    requires CanRun(c, s, steps)
    decreases |steps|
  {
    steps == [] ||
    (&& Loyal(steps[0], token)
     && !(Clears(s, steps[0], id) && HasDeadline(s, id) && StaleInHand(s, id))
     && Orderly(c, Next(c, s, steps[0]), steps[1..], id, token))
  }

  /**
    Theorem (rotation cut-off with one token string). If the row is reached by one token string and
    `Get` and `Put` for it do not overlap, the flag is never cleared prematurely, so `FlagCutsOff`
    applies to every such run.
  */
  lemma {:induction false} OneTokenIsEnough(c: Config, s: State, steps: seq<Step>, id: Uuid, token: Token)
    requires Inv(c, s) && Sane(c) && CanRun(c, s, steps) && Sealed(s, id) && OneToken(s, id, token)
    requires Orderly(c, s, steps, id, token) && DeadlineStays(c, s, steps, id)
    ensures NoPrematureClears(c, s, steps, id)
    decreases |steps|
  {
    if steps != [] {
      if PrematureClear(c, s, steps[0], id) {
        PrematureNeedsOverlap(c, s, steps[0], id, token);
        assert false;
      }
      StepKeepsInv(c, s, steps[0]);
      SealedIffNoPrematureClear(c, s, steps[0], id);
      StepKeepsOneToken(c, s, steps[0], Next(c, s, steps[0]), id, token);
      OneTokenIsEnough(c, Next(c, s, steps[0]), steps[1..], id, token);
    }
  }

  // ---- rotating, flagging, and what follows ----------------------------------------------------------

  /** Requests and cache entries under the token's key_id are for this token string. */
  ghost predicate Only(s: State, token: Token) {
    && (forall t | t in s.cache && t.keyId == token.keyId :: t == token)
    && (forall p | p in s.requests && s.requests[p].token.keyId == token.keyId :: s.requests[p].token == token)
  }

  ghost predicate AllLoyal(steps: seq<Step>, token: Token) {
    forall i | 0 <= i < |steps| :: Loyal(steps[i], token)
  }

  lemma {:induction false} LoyalRun(c: Config, s: State, steps: seq<Step>, token: Token)
    requires CanRun(c, s, steps) && AllLoyal(steps, token) && Only(s, token)
    ensures Only(Final(c, s, steps), token)
    decreases |steps|
  {
    if steps != [] {
      LoyalStep(c, s, steps[0], token);
      LoyalRun(c, Next(c, s, steps[0]), steps[1..], token);
    }
  }

  lemma LoyalStep(c: Config, s: State, st: Step, token: Token)
    requires Enabled(c, s, st) && Loyal(st, token) && Only(s, token)
    ensures Only(Next(c, s, st), token)
  {
  }

  /** The request has been to the cache and has no answer yet. */
  ghost predicate InFlight(r: Request) {
    InHand(r) || OnMissPath(r) || r.pc.Resolved?
  }

  ghost predicate NoneInFlight(s: State, keyId: string) {
    forall p | p in s.requests && s.requests[p].token.keyId == keyId :: !InFlight(s.requests[p])
  }

  lemma QuietSeals(c: Config, s: State, id: Uuid, token: Token)
    requires Inv(c, s) && HasDeadline(s, id) && s.table[id].keyId == token.keyId
    requires NoneInFlight(s, token.keyId)
    ensures Sealed(Next(c, s, Flag(id)), id)
  {
    forall p | p in s.requests && Carries(s.requests[p]) ensures !Stale(s, id, s.requests[p].pc.copy.rec) {
      assert RequestOk(c, s, s.requests[p]);
      KeyIdFixed(c, s, s.requests[p].pc.copy.rec, s.requests[p].pc.copy.readAt);
    }
    FlagSeals(c, s, id);
  }

  lemma QuietIsOneToken(c: Config, s: State, id: Uuid, token: Token)
    requires Inv(c, s) && HasDeadline(s, id) && s.table[id].keyId == token.keyId
    requires NoneInFlight(s, token.keyId) && Only(s, token)
    ensures OneToken(Next(c, s, Flag(id)), id, token)
  {
    forall t | t in s.cache && s.cache[t].copy.rec.id == id ensures t == token {
      assert EntryOk(c, s, t, s.cache[t]);
      KeyIdFixed(c, s, s.cache[t].copy.rec, s.cache[t].copy.readAt);
    }
  }

  /** The state after the rotation of `id` has committed and the handler has flagged the row. */
  ghost function RotatedAndFlagged(c: Config, s: State, st: Step): State
    requires st.Rotate? && Enabled(c, s, st)
  {
    Next(c, Next(c, s, st), Flag(st.oldId))
  }

  /** Requests that have been accepted. */
  ghost function Done(s: State): set<nat> {
    set p | p in s.requests && s.requests[p].pc.Accepted?
  }

  /** No request for the key is between cache and answer. */
  ghost predicate Quiet(s: State, id: Uuid, token: Token) {
    id in s.table && s.table[id].keyId == token.keyId && s.table[id].revoked == None && NoneInFlight(s, token.keyId)
  }

  lemma RotationSeals(c: Config, s: State, st: Step, token: Token)
    requires Inv(c, s) && Sane(c) && st.Rotate? && Enabled(c, s, st)
    requires Quiet(s, st.oldId, token) && Only(s, token)
    ensures var s2 := RotatedAndFlagged(c, s, st);
            && Inv(c, s2) && Sealed(s2, st.oldId) && OneToken(s2, st.oldId, token)
            && Limit(s2, st.oldId) == st.began + c.overlap && CutOff(s2, st.oldId, Done(s))
  {
    var s1 := Next(c, s, st);
    RotatedIs(s.table, st.oldId, st.id, st.keyId, st.hash, st.began + c.overlap);
    StepKeepsInv(c, s, st);
    StepKeepsInv(c, s1, Flag(st.oldId));
    QuietSeals(c, s1, st.oldId, token);
    QuietIsOneToken(c, s1, st.oldId, token);
  }

  /** What is asked of the run after the rotation. */
  ghost predicate Continues(c: Config, s: State, more: seq<Step>, id: Uuid, token: Token) {
    CanRun(c, s, more) && Orderly(c, s, more, id, token) && DeadlineStays(c, s, more, id)
  }

  lemma CutOffFrom(c: Config, s: State, id: Uuid, token: Token, more: seq<Step>, before: set<nat>)
    requires Sane(c) && Inv(c, s) && Sealed(s, id) && OneToken(s, id, token) && CutOff(s, id, before)
    requires Continues(c, s, more, id, token)
    ensures CutOff(Final(c, s, more), id, before)
  {
    OneTokenIsEnough(c, s, more, id, token);
    FlagCutsOff(c, s, more, id, before);
  }

  /**
    Theorem (rotation). In every run in which a key is used with one token string: if no
    request for it is between cache and answer while it is rotated and flagged, then in every
    orderly continuation no request is accepted with the old row at or after its deadline.
  */
  lemma RotateAndFlagCutOff(c: Config, t: Table, steps: seq<Step>, st: Step, token: Token, more: seq<Step>)
    requires Sane(c) && Wellformed(t) && CanRun(c, Init(t), steps) && AllLoyal(steps, token)
    requires st.Rotate? && Enabled(c, Final(c, Init(t), steps), st) && Quiet(Final(c, Init(t), steps), st.oldId, token)
    requires Continues(c, RotatedAndFlagged(c, Final(c, Init(t), steps), st), more, st.oldId, token)
    ensures var s := Final(c, Init(t), steps); var s2 := RotatedAndFlagged(c, s, st);
            Limit(s2, st.oldId) == st.began + c.overlap && CutOff(Final(c, s2, more), st.oldId, Done(s))
  {
    var s := Final(c, Init(t), steps);
    Reachable(c, t, steps);
    LoyalRun(c, Init(t), steps, token);
    RotationSeals(c, s, st, token);
    CutOffFrom(c, RotatedAndFlagged(c, s, st), st.oldId, token, more, Done(s));
  }

  // ---- a run in which the flag is cleared too early ------------------------------------------------------------

  /** The scene: one row without expiry, and a token for it. */
  ghost predicate Scene(c: Config, t: Table, row: KeyRecord, token: Token) {
    && Sane(c) && HeldIn(t, row) && row.keyId == token.keyId
    && c.verify(token.secret, row.hash) && row.revoked == None
  }

  /** A request that missed looks its row up and puts it in the cache. */
  lemma LookUpAndPut(c: Config, t: Table, steps: seq<Step>, pid: nat, row: KeyRecord) returns (steps': seq<Step>)
    requires CanRun(c, Init(t), steps)
    requires var s := Final(c, Init(t), steps);
             && pid in s.requests && s.requests[pid].pc == Missed && Scene(c, s.table, row, s.requests[pid].token)
    ensures CanRun(c, Init(t), steps')
    ensures var s := Final(c, Init(t), steps); var token := s.requests[pid].token; var copy := Copy(row, s.clock);
            Final(c, Init(t), steps') == s.(
              cache := s.cache[token := AuthProtocol.Entry(copy, s.clock)], flags := s.flags - {row.id},
              requests := s.requests[pid := AuthProtocol.Request(token, Resolved(copy, s.clock))])
  {
    var s := Final(c, Init(t), steps);
    Extend(c, Init(t), steps, By(pid, Find(Some(row))));
    steps' := steps + [By(pid, Find(Some(row)))];
    var s1 := Next(c, s, By(pid, Find(Some(row))));
    Extend(c, Init(t), steps', By(pid, Verify));
    steps' := steps' + [By(pid, Verify)];
    var s2 := Next(c, s1, By(pid, Verify));
    Extend(c, Init(t), steps', By(pid, ClearFlag));
    steps' := steps' + [By(pid, ClearFlag)];
    var s3 := Next(c, s2, By(pid, ClearFlag));
    Extend(c, Init(t), steps', By(pid, Add));
    steps' := steps' + [By(pid, Add)];
    var s4 := Next(c, s3, By(pid, Add));
    assert s4.requests == s.requests[pid := s4.requests[pid]];
  }

  /** A new request takes the token's entry from the LRU, or misses. */
  lemma ArriveAndFetch(c: Config, t: Table, steps: seq<Step>, pid: nat, token: Token) returns (steps': seq<Step>)
    requires CanRun(c, Init(t), steps) && pid !in Final(c, Init(t), steps).requests
    ensures CanRun(c, Init(t), steps')
    ensures var s := Final(c, Init(t), steps);
            Final(c, Init(t), steps') == s.(requests := s.requests[pid := AuthProtocol.Request(token,
              if token in s.cache then Fetched(s.cache[token]) else Missed)])
  {
    var s := Final(c, Init(t), steps);
    Extend(c, Init(t), steps, Arrive(pid, token));
    steps' := steps + [Arrive(pid, token)];
    var s1 := Next(c, s, Arrive(pid, token));
    Extend(c, Init(t), steps', By(pid, Fetch));
    steps' := steps' + [By(pid, Fetch)];
    var s2 := Next(c, s1, By(pid, Fetch));
    assert s2.requests == s.requests[pid := s2.requests[pid]];
  }

  /** A request with an entry in hand checks age and flag. */
  lemma CheckEntry(c: Config, t: Table, steps: seq<Step>, pid: nat) returns (steps': seq<Step>)
    requires CanRun(c, Init(t), steps)
    requires var s := Final(c, Init(t), steps);
             && pid in s.requests && s.requests[pid].pc.Fetched? && s.clock - s.requests[pid].pc.e.verifiedAt <= c.ttl
    ensures CanRun(c, Init(t), steps')
    ensures var s := Final(c, Init(t), steps); var token, e := s.requests[pid].token, s.requests[pid].pc.e;
            Final(c, Init(t), steps') ==
              if e.copy.rec.id in s.flags
              then s.(cache := s.cache - {token}, requests := s.requests[pid := AuthProtocol.Request(token, Missed)])
              else s.(requests := s.requests[pid := AuthProtocol.Request(token, Resolved(e.copy, s.clock))])
  {
    var s := Final(c, Init(t), steps);
    Extend(c, Init(t), steps, By(pid, CheckAge));
    steps' := steps + [By(pid, CheckAge)];
    var s1 := Next(c, s, By(pid, CheckAge));
    Extend(c, Init(t), steps', By(pid, CheckFlag));
    steps' := steps' + [By(pid, CheckFlag)];
    var s2 := Next(c, s1, By(pid, CheckFlag));
    assert s2.requests == s.requests[pid := s2.requests[pid]];
  }

  /** The row is cached, then rotated and flagged, all at time 0. */
  lemma CachedRotatedFlagged(c: Config, t: Table, row: KeyRecord, token: Token, newId: Uuid, newKeyId: string) returns (steps: seq<Step>)
    requires Scene(c, t, row, token) && KeyStore.Fresh(t, newId, newKeyId)
    ensures CanRun(c, Init(t), steps)
    ensures var s := Final(c, Init(t), steps);
            && s.clock == 0 && s.rotated == map[row.id := 0] && s.flags == {row.id} && s.requests.Keys == {0}
            && s.cache == map[token := AuthProtocol.Entry(Copy(row, 0), 0)]
            && row.id in s.table && s.table[row.id] == row.(expires := Some(c.overlap))
  {
    steps := ArriveAndFetch(c, t, [], 0, token);
    steps := LookUpAndPut(c, t, steps, 0, row);
    var st := Rotate(row.id, newId, newKeyId, "", 0);
    RotatedIs(t, row.id, newId, newKeyId, "", c.overlap);
    Extend(c, Init(t), steps, st);
    steps := steps + [st];
    Extend(c, Init(t), steps, Flag(row.id));
    steps := steps + [Flag(row.id)];
  }

  /** Request 1 has the old copy in hand while request 2 meets the flag, looks the row up and clears the flag. */
  lemma ClearedBehindItsBack(c: Config, t: Table, row: KeyRecord, token: Token, newId: Uuid, newKeyId: string) returns (steps: seq<Step>)
    requires Scene(c, t, row, token) && KeyStore.Fresh(t, newId, newKeyId)
    ensures CanRun(c, Init(t), steps)
    ensures var s := Final(c, Init(t), steps);
            && s.clock == 0 && s.flags == {} && 1 in s.requests
            && row.id in s.table && s.table[row.id] == row.(expires := Some(c.overlap))
            && s.requests[1] == AuthProtocol.Request(token, Fetched(AuthProtocol.Entry(Copy(row, 0), 0)))
  {
    steps := CachedRotatedFlagged(c, t, row, token, newId, newKeyId);
    steps := ArriveAndFetch(c, t, steps, 1, token);
    steps := ArriveAndFetch(c, t, steps, 2, token);
    steps := CheckEntry(c, t, steps, 2);
    steps := LookUpAndPut(c, t, steps, 2, row.(expires := Some(c.overlap)));
  }

  /**
    Theorem (the flag alone is not enough). With one token string and no lookup in flight during the
    rotation there is still a run, when the overlap is no longer than the cache's time limit, in
    which the old token is accepted at the very deadline: `Get` reads the entry and the flag in two
    steps, and another request's `Put` clears the flag in between.
  */
  lemma FlagClearedInBetween(c: Config, t: Table, row: KeyRecord, token: Token, newId: Uuid, newKeyId: string) returns (steps: seq<Step>)
    requires Scene(c, t, row, token) && KeyStore.Fresh(t, newId, newKeyId)
    requires row.expires == None && c.overlap <= c.ttl
    ensures CanRun(c, Init(t), steps)
    ensures var s := Final(c, Init(t), steps);
            && 1 in s.requests && s.requests[1] == AuthProtocol.Request(token, Accepted(Copy(row, 0), c.overlap))
            && HasDeadline(s, row.id) && s.requests[1].pc.at >= Limit(s, row.id)
  {
    steps := ClearedBehindItsBack(c, t, row, token, newId, newKeyId);
    Extend(c, Init(t), steps, Tick(c.overlap));
    steps := steps + [Tick(c.overlap)];
    steps := CheckEntry(c, t, steps, 1);
    Extend(c, Init(t), steps, By(1, Decide));
    steps := steps + [By(1, Decide)];
  }
}
