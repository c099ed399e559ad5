/** The anonymous reputation record (server/app/models/reputation.py). */
module ReputationModel {
  import opened Numeric
  import opened SessionModel

  datatype ReputationScore = ReputationScore(
    id: Uuid,
    fingerprintHash: string,
    score: real,
    correctVerifications: int,
    incorrectVerifications: int,
    totalSessions: int,
    lastActivity: int,
    createdAt: int)

  /** A record built with only its fingerprint: the column defaults fill the rest. */
  function NewReputation(id: Uuid, fingerprintHash: string, now: int): (r: ReputationScore)
    ensures r.score == 1.0 && r.correctVerifications == 0 && r.incorrectVerifications == 0 && r.totalSessions == 0
    ensures r.lastActivity == now && r.createdAt == now && r.fingerprintHash == fingerprintHash && r.id == id
  {
    ReputationScore(id, fingerprintHash, 1.0, 0, 0, 0, now, now)
  }

  predicate CountersNonNegative(r: ReputationScore) {
    r.correctVerifications >= 0 && r.incorrectVerifications >= 0 && r.totalSessions >= 0
  }

  /** `accuracy`: the share of correct verifications, 0.0 before any. */
  function Accuracy(r: ReputationScore): (a: real)
    ensures r.correctVerifications + r.incorrectVerifications == 0 ==> a == 0.0
    ensures r.correctVerifications + r.incorrectVerifications != 0 ==>
      a * (r.correctVerifications + r.incorrectVerifications) as real == r.correctVerifications as real
  {
    var total := r.correctVerifications + r.incorrectVerifications;
    if total == 0 then 0.0 else r.correctVerifications as real / total as real
  }

  /** With non-negative counters the accuracy is a fraction, and it is 1 exactly when every verification was correct. */
  lemma AccuracyRange(r: ReputationScore)
    requires CountersNonNegative(r)
    ensures 0.0 <= Accuracy(r) <= 1.0
    ensures Accuracy(r) == 1.0 <==> r.correctVerifications > 0 && r.incorrectVerifications == 0
    ensures Accuracy(r) == 0.0 <==> r.correctVerifications == 0
  {
    var c := r.correctVerifications as real;
    var total := (r.correctVerifications + r.incorrectVerifications) as real;
    if total > 0.0 {
      var a := Accuracy(r);
      assert a * total == c;
      assert c <= total;
      if a > 1.0 {
        PositiveProduct(a - 1.0, total);
        assert false;
      }
      if a < 0.0 {
        PositiveProduct(-a, total);
        assert false;
      }
      if a == 1.0 { assert c == total; }
      if a == 0.0 { assert c == 0.0; }
    }
  }

  /** A new record has no accuracy yet and valid counters. */
  lemma NewReputationAccuracy(id: Uuid, fingerprintHash: string, now: int)
    ensures CountersNonNegative(NewReputation(id, fingerprintHash, now))
    ensures Accuracy(NewReputation(id, fingerprintHash, now)) == 0.0
  {
  }
}
