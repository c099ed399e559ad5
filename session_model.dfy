/**
 * The CAPTCHA session record (server/app/models/session.py). Instants are
 * microseconds on the UTC clock; the clock reading is a parameter.
 */
module SessionModel {
  import opened Wrappers

  /** A UUID in its canonical text form (32 lower-case hex digits with hyphens). */
  type Uuid = string

  datatype Session = Session(
    id: Uuid,
    domain: string,
    sessionToken: string,
    riskScore: real,
    difficultyTier: string,
    status: string,
    clientFingerprint: Option<string>,
    createdAt: int,
    completedAt: Option<int>,
    expiresAt: int)

  /** A session built with only its required columns: the column defaults fill the rest. */
  function NewSession(id: Uuid, domain: string, sessionToken: string, expiresAt: int, now: int): (s: Session)
    ensures s.status == "pending" && s.difficultyTier == "normal" && s.riskScore == 0.0
    ensures s.clientFingerprint.None? && s.completedAt.None? && s.createdAt == now
    ensures s.id == id && s.domain == domain && s.sessionToken == sessionToken && s.expiresAt == expiresAt
  {
    Session(id, domain, sessionToken, 0.0, "normal", "pending", None, now, None, expiresAt)
  }

  /** `is_expired`: the expiry instant itself already counts as expired. */
  predicate IsExpired(s: Session, now: int) {
    now >= s.expiresAt
  }

  /** `is_completed` */
  predicate IsCompleted(s: Session) {
    s.status == "completed"
  }

  /** Expiry looks only at the clock and the expiry instant; completion only at the status. */
  lemma ExpiryAndCompletionIndependent(s: Session, now: int, status: string, expiresAt: int)
    ensures IsExpired(s.(status := status), now) == IsExpired(s, now)
    ensures IsCompleted(s.(expiresAt := expiresAt)) == IsCompleted(s)
    ensures IsCompleted(s.(status := status)) <==> status == "completed"
  {
  }

  /** Once expired a session stays expired, and it is expired from its expiry instant on. */
  lemma ExpiryIsPermanent(s: Session, t1: int, t2: int)
    requires t1 <= t2
    ensures IsExpired(s, t1) ==> IsExpired(s, t2)
    ensures IsExpired(s, s.expiresAt)
    ensures !IsExpired(s, s.expiresAt - 1)
  {
  }
}
