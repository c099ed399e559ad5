/**
 * Reputation bookkeeping (server/app/services/reputation.py): records are
 * found by fingerprint, created on first use, nudged up or down by a
 * verification outcome within the configured bounds, and decayed back
 * towards the initial score after a period of inactivity. The clock and
 * the new row ids are parameters.
 */
module ReputationService {
  import opened Wrappers
  import opened Numeric
  import opened Config
  import opened SessionModel
  import opened ReputationModel
  import opened Records

  /** Fingerprints are unique in the reputation table. */
  predicate UniqueFingerprints(rows: seq<ReputationScore>) {
    forall i, j :: 0 <= i < j < |rows| ==> rows[i].fingerprintHash != rows[j].fingerprintHash
  }

  /** The row holding `fp`, if any. */
  function FindReputation(rows: seq<ReputationScore>, fp: string): (r: Option<nat>)
    ensures r.Some? ==> r.value < |rows| && rows[r.value].fingerprintHash == fp
    ensures r.None? ==> forall i :: 0 <= i < |rows| ==> rows[i].fingerprintHash != fp
    decreases |rows|
  {
    if |rows| == 0 then None
    else if rows[|rows| - 1].fingerprintHash == fp then Some(|rows| - 1)
    else FindReputation(rows[..|rows| - 1], fp)
  }

  /** The record `get_or_create_reputation` makes for a new fingerprint. */
  function FreshReputation(id: Uuid, fp: string, now: int, cfg: Settings): (r: ReputationScore)
    ensures r.fingerprintHash == fp && r.score == cfg.initialReputation
    ensures r.correctVerifications == 0 && r.incorrectVerifications == 0 && r.totalSessions == 0
  {
    NewReputation(id, fp, now).(score := cfg.initialReputation)
  }

  /** The table after `get_or_create_reputation`, and the index of the fingerprint's row in it. */
  function Ensured(rows: seq<ReputationScore>, fp: string, id: Uuid, now: int, cfg: Settings): (r: (seq<ReputationScore>, nat))
    ensures r.1 < |r.0| && r.0[r.1].fingerprintHash == fp
    ensures FindReputation(rows, fp).Some? ==> r.0 == rows && r.1 == FindReputation(rows, fp).value
    ensures FindReputation(rows, fp).None? ==> r.0 == rows + [FreshReputation(id, fp, now, cfg)] && r.1 == |rows|
  {
    match FindReputation(rows, fp)
    case Some(i) => (rows, i)
    case None => (rows + [FreshReputation(id, fp, now, cfg)], |rows|)
  }

  /** `update_reputation` on one record. */
  function Updated(r: ReputationScore, wasCorrect: bool, now: int, cfg: Settings): (u: ReputationScore)
    ensures wasCorrect ==> u.correctVerifications == r.correctVerifications + 1 && u.incorrectVerifications == r.incorrectVerifications
    ensures !wasCorrect ==> u.incorrectVerifications == r.incorrectVerifications + 1 && u.correctVerifications == r.correctVerifications
    ensures cfg.minReputation <= cfg.maxReputation ==> cfg.minReputation <= u.score <= cfg.maxReputation
    ensures var delta := if wasCorrect then cfg.correctVerificationBonus else -cfg.incorrectVerificationPenalty;
      cfg.minReputation <= r.score + delta <= cfg.maxReputation ==> u.score == r.score + delta
    ensures u.totalSessions == r.totalSessions && u.fingerprintHash == r.fingerprintHash && u.lastActivity == now
  {
    var delta := if wasCorrect then cfg.correctVerificationBonus else -cfg.incorrectVerificationPenalty;
    var counted := if wasCorrect then r.(correctVerifications := r.correctVerifications + 1)
                   else r.(incorrectVerifications := r.incorrectVerifications + 1);
    counted.(score := MaxReal(cfg.minReputation, MinReal(cfg.maxReputation, r.score + delta)), lastActivity := now)
  }

  /** Whether `decay_inactive_reputations` rescores a record. */
  predicate DecayDue(r: ReputationScore, cutoff: int, cfg: Settings) {
    r.lastActivity < cutoff && r.score > cfg.initialReputation
  }

  /** One record after decay. */
  function Decayed(r: ReputationScore, cutoff: int, factor: real, cfg: Settings): (d: ReputationScore)
    ensures DecayDue(r, cutoff, cfg) ==> d == r.(score := MaxReal(cfg.initialReputation, r.score * factor))
    ensures !DecayDue(r, cutoff, cfg) ==> d == r
    ensures DecayDue(r, cutoff, cfg) ==> d.score >= cfg.initialReputation
  {
    if DecayDue(r, cutoff, cfg) then r.(score := MaxReal(cfg.initialReputation, r.score * factor)) else r
  }

  function DecayedRows(rows: seq<ReputationScore>, cutoff: int, factor: real, cfg: Settings): (d: seq<ReputationScore>)
    ensures |d| == |rows|
    ensures forall i :: 0 <= i < |rows| ==> d[i] == Decayed(rows[i], cutoff, factor, cfg)
  {
    seq(|rows|, i requires 0 <= i < |rows| => Decayed(rows[i], cutoff, factor, cfg))
  }

  /** How many records are due for decay. */
  function DueCount(rows: seq<ReputationScore>, cutoff: int, cfg: Settings): (n: nat)
    ensures n <= |rows|
  {
    if |rows| == 0 then 0
    else DueCount(rows[..|rows| - 1], cutoff, cfg) + (if DecayDue(rows[|rows| - 1], cutoff, cfg) then 1 else 0)
  }

  /** Counting one more record adds one exactly when it is due. */
  lemma DueCountSnoc(rows: seq<ReputationScore>, i: nat, cutoff: int, cfg: Settings)
    requires i < |rows|
    ensures DueCount(rows[..i + 1], cutoff, cfg) == DueCount(rows[..i], cutoff, cfg) + (if DecayDue(rows[i], cutoff, cfg) then 1 else 0)
  {
    assert rows[..i + 1][..i] == rows[..i];
  }

  /** The loop of `decay_inactive_reputations`: rescore each due record in turn and count them. */
  method DecayRows(rows: seq<ReputationScore>, cutoff: int, factor: real, cfg: Settings)
    returns (out: seq<ReputationScore>, count: nat)
    ensures out == DecayedRows(rows, cutoff, factor, cfg)
    ensures count == DueCount(rows, cutoff, cfg)
  {
    out := rows;
    count := 0;
    var i := 0;
    while i < |rows|
      invariant 0 <= i <= |rows| == |out|
      invariant forall k :: 0 <= k < i ==> out[k] == Decayed(rows[k], cutoff, factor, cfg)
      invariant forall k :: i <= k < |rows| ==> out[k] == rows[k]
      invariant count == DueCount(rows[..i], cutoff, cfg)
    {
      DueCountSnoc(rows, i, cutoff, cfg);
      var rep := out[i];
      if DecayDue(rep, cutoff, cfg) {
        out := out[i := Decayed(rep, cutoff, factor, cfg)];
        count := count + 1;
      }
      i := i + 1;
    }
    assert rows[..i] == rows;
  }

  /** A record above the initial score is never decayed below it; others are untouched except by decay's own rule. */
  lemma DecayNeverBelowInitial(rows: seq<ReputationScore>, cutoff: int, factor: real, cfg: Settings)
    ensures forall i :: 0 <= i < |rows| && rows[i].score >= cfg.initialReputation ==>
      DecayedRows(rows, cutoff, factor, cfg)[i].score >= cfg.initialReputation
    ensures forall i :: 0 <= i < |rows| && rows[i].lastActivity >= cutoff ==> DecayedRows(rows, cutoff, factor, cfg)[i] == rows[i]
  {
  }

  /** Decay with a factor of at most 1 never raises a score. */
  lemma DecayNeverRaises(rows: seq<ReputationScore>, cutoff: int, factor: real, cfg: Settings)
    requires 0.0 <= factor <= 1.0 && cfg.initialReputation >= 0.0
    ensures forall i :: 0 <= i < |rows| ==> DecayedRows(rows, cutoff, factor, cfg)[i].score <= rows[i].score
  {
    forall i | 0 <= i < |rows|
      ensures Decayed(rows[i], cutoff, factor, cfg).score <= rows[i].score
    {
      DecayedNotAbove(rows[i], cutoff, factor, cfg);
    }
  }

  lemma DecayedNotAbove(r: ReputationScore, cutoff: int, factor: real, cfg: Settings)
    requires 0.0 <= factor <= 1.0 && cfg.initialReputation >= 0.0
    ensures Decayed(r, cutoff, factor, cfg).score <= r.score
  {
    if DecayDue(r, cutoff, cfg) {
      var scaled := r.score * factor;
      ScaleDown(r.score, factor);
      assert Decayed(r, cutoff, factor, cfg).score == MaxReal(cfg.initialReputation, scaled);
    }
  }

  lemma ScaleDown(x: real, f: real)
    requires x >= 0.0 && 0.0 <= f <= 1.0
    ensures x * f <= x
  {
    assert x * (1.0 - f) >= 0.0;
  }

  // ------------------------------------------------------------------ ordering

  predicate ScoreDescending(rows: seq<ReputationScore>) {
    forall i, j :: 0 <= i < j < |rows| ==> rows[i].score >= rows[j].score
  }

  /** Place `r` before the first lower-scored record of a descending list. */
  function InsertByScore(r: ReputationScore, sorted: seq<ReputationScore>): (out: seq<ReputationScore>)
    requires ScoreDescending(sorted)
    ensures |out| == |sorted| + 1
    ensures ScoreDescending(out)
    ensures multiset(out) == multiset(sorted) + multiset{r}
    decreases |sorted|
  {
    if |sorted| == 0 then [r]
    else if r.score >= sorted[0].score then
      ConsDescending(r, sorted);
      [r] + sorted
    else
      var rest := InsertByScore(r, sorted[1..]);
      assert forall k :: 0 <= k < |rest| ==> rest[k].score <= sorted[0].score by {
        forall k | 0 <= k < |rest| ensures rest[k].score <= sorted[0].score {
          assert rest[k] in multiset(sorted[1..]) + multiset{r};
        }
      }
      ConsDescending(sorted[0], rest);
      assert sorted == [sorted[0]] + sorted[1..];
      [sorted[0]] + rest
  }

  /** A record at least as high as every record of a descending list may go in front of it. */
  lemma ConsDescending(x: ReputationScore, rest: seq<ReputationScore>)
    requires ScoreDescending(rest)
    requires forall k :: 0 <= k < |rest| ==> rest[k].score <= x.score
    ensures ScoreDescending([x] + rest)
  {
    var out := [x] + rest;
    forall i, j | 0 <= i < j < |out| ensures out[i].score >= out[j].score {
      assert out[j] == rest[j - 1];
      if i > 0 {
        assert out[i] == rest[i - 1];
      }
    }
  }

  /** The table ordered by score, highest first. */
  function ByScoreDescending(rows: seq<ReputationScore>): (out: seq<ReputationScore>)
    ensures |out| == |rows|
    ensures ScoreDescending(out)
    ensures multiset(out) == multiset(rows)
    decreases |rows|
  {
    if |rows| == 0 then []
    else
      assert rows == rows[..|rows| - 1] + [rows[|rows| - 1]];
      InsertByScore(rows[|rows| - 1], ByScoreDescending(rows[..|rows| - 1]))
  }

  /** `get_top_users`: at most `limit` records, best score first, each a record of the table. */
  function TopUsers(rows: seq<ReputationScore>, limit: nat): (top: seq<ReputationScore>)
    ensures |top| == MinInt(limit, |rows|)
    ensures ScoreDescending(top)
    ensures multiset(top) <= multiset(rows)
  {
    var all := ByScoreDescending(rows);
    var n := MinInt(limit, |rows|);
    assert all == all[..n] + all[n..];
    all[..n]
  }

  /** Nothing outside the returned records scores higher than the last of them. */
  lemma TopUsersAreTop(rows: seq<ReputationScore>, limit: nat, r: ReputationScore)
    requires r in rows && r !in TopUsers(rows, limit)
    ensures |TopUsers(rows, limit)| > 0 ==> r.score <= TopUsers(rows, limit)[|TopUsers(rows, limit)| - 1].score
  {
    var all := ByScoreDescending(rows);
    var n := MinInt(limit, |rows|);
    assert r in multiset(all);
    var k :| 0 <= k < |all| && all[k] == r;
    assert forall j :: 0 <= j < n ==> all[..n][j] == all[j];
    if n > 0 {
      assert all[n - 1].score >= all[k].score;
    }
  }

  // ------------------------------------------------------------------ the service

  /** `ReputationService` over the shared database. */
  class Service {
    const db: Db
    const cfg: Settings

    constructor (db: Db, cfg: Settings)
      ensures this.db == db && this.cfg == cfg
    {
      this.db := db;
      this.cfg := cfg;
    }

    /** `get_reputation` */
    function GetReputation(fp: string): (r: Option<ReputationScore>)
      reads db
      ensures r.Some? <==> exists i :: 0 <= i < |db.reputations| && db.reputations[i].fingerprintHash == fp
      ensures r.Some? ==> r.value in db.reputations && r.value.fingerprintHash == fp
    {
      match FindReputation(db.reputations, fp)
      case Some(i) => Some(db.reputations[i])
      case None => None
    }

    /** `get_or_create_reputation`: an existing record is returned untouched; otherwise a fresh one is added. */
    method GetOrCreate(fp: string, newId: Uuid, now: int) returns (rep: ReputationScore)
      requires UniqueFingerprints(db.reputations)
      modifies db
      ensures UniqueFingerprints(db.reputations)
      ensures var e := Ensured(old(db.reputations), fp, newId, now, cfg);
        db.reputations == e.0 && rep == e.0[e.1]
      ensures db.Snapshot() == old(db.Snapshot()).(reputations := db.reputations)
    {
      var found := FindReputation(db.reputations, fp);
      if found.Some? {
        rep := db.reputations[found.value];
      } else {
        rep := FreshReputation(newId, fp, now, cfg);
        db.reputations := db.reputations + [rep];
      }
    }

    /** `update_reputation`: count the outcome and move the score by the bonus or penalty, within bounds. */
    method UpdateReputation(fp: string, wasCorrect: bool, newId: Uuid, now: int) returns (rep: ReputationScore)
      requires UniqueFingerprints(db.reputations)
      modifies db
      ensures UniqueFingerprints(db.reputations)
      ensures var e := Ensured(old(db.reputations), fp, newId, now, cfg);
        rep == Updated(e.0[e.1], wasCorrect, now, cfg) && db.reputations == e.0[e.1 := rep]
      ensures db.Snapshot() == old(db.Snapshot()).(reputations := db.reputations)
    {
      var current := GetOrCreate(fp, newId, now);
      var i := FindReputation(db.reputations, fp).value;
      rep := Updated(current, wasCorrect, now, cfg);
      db.reputations := db.reputations[i := rep];
    }

    /** `increment_session_count`: one more session, no score change. */
    method IncrementSessionCount(fp: string, newId: Uuid, now: int) returns (rep: ReputationScore)
      requires UniqueFingerprints(db.reputations)
      modifies db
      ensures UniqueFingerprints(db.reputations)
      ensures var e := Ensured(old(db.reputations), fp, newId, now, cfg);
        rep == e.0[e.1].(totalSessions := e.0[e.1].totalSessions + 1, lastActivity := now)
        && db.reputations == e.0[e.1 := rep]
      ensures rep.score == Ensured(old(db.reputations), fp, newId, now, cfg).0[Ensured(old(db.reputations), fp, newId, now, cfg).1].score
      ensures db.Snapshot() == old(db.Snapshot()).(reputations := db.reputations)
    {
      var current := GetOrCreate(fp, newId, now);
      var i := FindReputation(db.reputations, fp).value;
      rep := current.(totalSessions := current.totalSessions + 1, lastActivity := now);
      db.reputations := db.reputations[i := rep];
    }

    /** `get_top_users` */
    function GetTopUsers(limit: nat): (top: seq<ReputationScore>)
      reads db
      ensures top == TopUsers(db.reputations, limit)
    {
      TopUsers(db.reputations, limit)
    }

    /** `decay_inactive_reputations`: rescore every record inactive since before the cutoff and above the initial score; return how many. */
    method DecayInactive(inactiveDays: int, factor: real, now: int) returns (count: nat)
      modifies db
      ensures db.reputations == DecayedRows(old(db.reputations), now - inactiveDays * Day, factor, cfg)
      ensures count == DueCount(old(db.reputations), now - inactiveDays * Day, cfg)
      ensures db.Snapshot() == old(db.Snapshot()).(reputations := db.reputations)
    {
      var cutoff := now - inactiveDays * Day;
      var decayed;
      decayed, count := DecayRows(db.reputations, cutoff, factor, cfg);
      db.reputations := decayed;
    }
  }
}
