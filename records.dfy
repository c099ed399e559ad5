/**
 * The tables the API handlers and services read and write: sessions, tasks,
 * samples, predictions, verifications, golden entries and reputation
 * records, held in one in-memory database object. Lookups by primary key
 * are map lookups; the verification and reputation tables keep their rows
 * in insertion order because the services scan them.
 */
module Records {
  import opened Wrappers
  import opened Text
  import opened SessionModel
  import opened VerificationModel
  import opened ReputationModel

  /** The `shard_task` entry that `assign_shard_task` writes into a task's metadata; a missing key is `None`. */
  datatype ShardTaskMeta = ShardTaskMeta(
    taskId: string,
    modelName: Option<string>,
    modelVersion: string,
    expectedLayers: int,
    difficulty: string,
    groundTruthKey: Option<string>)

  /** A task's metadata dictionary: the keys the coordinator writes, each possibly absent. */
  datatype TaskMeta = TaskMeta(
    shardTask: Option<ShardTaskMeta>,
    shardDifficulty: Option<string>,
    expectedLayers: Option<int>)

  const EmptyMeta: TaskMeta := TaskMeta(None, None, None)

  datatype Task = Task(
    id: Uuid,
    sessionId: Uuid,
    sampleId: Option<Uuid>,
    taskType: string,
    expectedTimeMs: int,
    isKnownSample: bool,
    knownLabel: Option<string>,
    status: string,
    meta: TaskMeta)

  /** A sample; of its metadata dictionary only `known_label` is read. */
  datatype Sample = Sample(
    id: Uuid,
    dataType: string,
    modelType: string,
    dataHash: string,
    dataUrl: Option<string>,
    dataBlob: Option<seq<bv8>>,
    knownLabel: Option<string>,
    timesServed: int)

  datatype Prediction = Prediction(
    id: Uuid,
    taskId: Uuid,
    sessionId: Uuid,
    sampleId: Option<Uuid>,
    predictedLabel: string,
    confidence: real,
    inferenceTimeMs: int,
    powHash: string,
    isValid: Option<bool>)

  datatype GoldenEntry = GoldenEntry(
    id: Uuid,
    sampleId: Uuid,
    dataType: string,
    verifiedLabel: string,
    confidenceScore: real,
    verificationCount: int,
    agreementScore: real,
    weightedAgreement: real,
    domainAttribution: Option<string>)

  /** The whole database at one instant. */
  datatype Tables = Tables(
    sessions: map<Uuid, Session>,
    tasks: map<Uuid, Task>,
    samples: map<Uuid, Sample>,
    predictions: map<Uuid, Prediction>,
    verifications: seq<Verification>,
    golden: seq<GoldenEntry>,
    reputations: seq<ReputationScore>)

  /** The database session the services share; tables the services scan in row order are sequences. */
  class Db {
    var sessions: map<Uuid, Session>
    var tasks: map<Uuid, Task>
    var samples: map<Uuid, Sample>
    var predictions: map<Uuid, Prediction>
    var verifications: seq<Verification>
    var golden: seq<GoldenEntry>
    var reputations: seq<ReputationScore>

    function Snapshot(): Tables
      reads this
    {
      Tables(sessions, tasks, samples, predictions, verifications, golden, reputations)
    }

    constructor ()
      ensures Snapshot() == Tables(map[], map[], map[], map[], [], [], [])
    {
      sessions := map[];
      tasks := map[];
      samples := map[];
      predictions := map[];
      verifications := [];
      golden := [];
      reputations := [];
    }

    /** `add` and `flush` of a task row: the row is stored under its id and the other tables stay. */
    method InsertTask(id: Uuid, row: Task)
      modifies this
      ensures Snapshot() == old(Snapshot()).(tasks := old(tasks)[id := row])
    {
      tasks := tasks[id := row];
    }

    /** `rollback()`: the tables go back to what was last committed. */
    method Restore(t: Tables)
      modifies this
      ensures Snapshot() == t
    {
      sessions, tasks, samples, predictions := t.sessions, t.tasks, t.samples, t.predictions;
      verifications, golden, reputations := t.verifications, t.golden, t.reputations;
    }
  }

  // ------------------------------------------------------------------ UUID text

  const HexDigits: set<char> := {'0', '1', '2', '3', '4', '5', '6', '7', '8', '9',
                                 'a', 'b', 'c', 'd', 'e', 'f', 'A', 'B', 'C', 'D', 'E', 'F'}

  /** What `uuid.UUID(text)` keeps of its argument before reading the hex digits. */
  function UuidDigits(text: string): string
  {
    RemoveAll(Strip(RemoveAll(RemoveAll(text, "urn:"), "uuid:"), {'{', '}'}), "-")
  }

  /** The canonical 8-4-4-4-12 lower-case form of 32 hex digits. */
  function CanonicalUuid(h: string): (u: Uuid)
    requires |h| == 32 && forall i :: 0 <= i < 32 ==> h[i] in HexDigits
    ensures |u| == 36
    ensures forall i :: 0 <= i < |u| ==> u[i] == '-' || u[i] in HexDigits
    ensures ':' !in u
  {
    var l := Lower(h);
    assert forall i :: 0 <= i < 32 ==> l[i] in HexDigits;
    l[..8] + "-" + l[8..12] + "-" + l[12..16] + "-" + l[16..20] + "-" + l[20..]
  }

  /** `1 << 128`, the bound `uuid.UUID` checks its integer against. */
  const UuidLimit: nat := 0x1_0000_0000_0000_0000_0000_0000_0000_0000

  /** A digit as `'%x'` prints it. */
  predicate IsLowerHex(c: char) { '0' <= c <= '9' || 'a' <= c <= 'f' }

  lemma LowerHexFacts(c: char)
    requires IsLowerHex(c)
    ensures c in HexDigits && LowerChar(c) == c && DigitValue(c) < 16 && HexChar(DigitValue(c)) == c
  {
  }

  lemma HexLowers(c: char)
    requires c in HexDigits
    ensures IsLowerHex(LowerChar(c))
  {
  }

  /** A lower-case hex digit, as `'%032x'` prints it. */
  function HexChar(d: nat): (c: char)
    requires d < 16
    ensures IsLowerHex(c) && DigitValue(c) == d
  {
    if d < 10 then ('0' as int + d) as char else ('a' as int + d - 10) as char
  }

  /** The last `n` hex digits of `v`, lower case and zero-padded: `'%0{n}x' % v` for `v < 16^n`. */
  function HexText(v: nat, n: nat): (h: string)
    ensures |h| == n
    ensures forall i :: 0 <= i < n ==> IsLowerHex(h[i])
  {
    if n == 0 then "" else HexText(v / 16, n - 1) + [HexChar(v % 16)]
  }

  /** `str(uuid.UUID(int=v))`: the value's 32 hex digits in the 8-4-4-4-12 form. */
  function UuidOfValue(v: nat): (u: Uuid)
    ensures |u| == 36 && ':' !in u
  {
    var digits := HexText(v, 32);
    LowerHexAreHex(digits);
    CanonicalUuid(digits)
  }

  /**
   * `uuid.UUID(text)`: `None` where it raises `ValueError`, otherwise the
   * UUID in canonical form (what `str` of it gives). The 32 characters left
   * after the prefixes, braces and hyphens are read by `int(hex, 16)`, so a
   * `0x` prefix, a `+` sign, surrounding whitespace and single underscores
   * between digits are accepted there as well.
   */
  function ParseUuid(text: string): (r: Option<Uuid>)
    ensures r.Some? <==> |UuidDigits(text)| == 32 && PyIntIn(UuidDigits(text), 16).Some?
                         && 0 <= PyIntIn(UuidDigits(text), 16).value < UuidLimit
    ensures r.Some? ==> r.value == UuidOfValue(PyIntIn(UuidDigits(text), 16).value)
    ensures r.Some? ==> ':' !in r.value
  {
    var h := UuidDigits(text);
    if |h| != 32 then None
    else match PyIntIn(h, 16)
      case None => None
      case Some(v) => if 0 <= v < UuidLimit then Some(UuidOfValue(v)) else None
  }

  lemma LowerHexAreHex(l: string)
    requires forall i :: 0 <= i < |l| ==> IsLowerHex(l[i])
    ensures forall i :: 0 <= i < |l| ==> l[i] in HexDigits
  {
    forall i | 0 <= i < |l|
      ensures l[i] in HexDigits
    {
      LowerHexFacts(l[i]);
    }
  }

  /** Lower-case hex digits are digits of base 16. */
  lemma LowerHexDigits(l: string)
    requires forall i :: 0 <= i < |l| ==> IsLowerHex(l[i])
    ensures DigitsIn(l, 16)
  {
    forall i | 0 <= i < |l|
      ensures DigitValue(l[i]) < 16
    {
      LowerHexFacts(l[i]);
    }
  }

  /** The digits `'%0{n}x'` prints for the value of `n` lower-case hex digits are those digits. */
  lemma {:induction false} HexTextOfValue(l: string)
    requires forall i :: 0 <= i < |l| ==> IsLowerHex(l[i])
    ensures DigitsIn(l, 16)
    ensures HexText(NumeralValue(l, 16), |l|) == l
    decreases |l|
  {
    LowerHexDigits(l);
    if |l| > 0 {
      var init := l[..|l| - 1];
      var last := l[|l| - 1];
      HexTextOfValue(init);
      var a := NumeralValue(init, 16);
      var d := DigitValue(last);
      assert NumeralValue(l, 16) == a * 16 + d;
      HexCharOfDigit(last);
      HexTextStep(a, |init|, d);
      assert init + [last] == l;
    }
  }

  lemma HexCharOfDigit(c: char)
    requires IsLowerHex(c)
    ensures DigitValue(c) < 16 && HexChar(DigitValue(c)) == c
  {
  }

  /** One more digit at the low end: `'%0{n+1}x' % (16a + d)` is `'%0{n}x' % a` then the digit. */
  lemma HexTextStep(a: nat, n: nat, d: nat)
    requires d < 16
    ensures HexText(a * 16 + d, n + 1) == HexText(a, n) + [HexChar(d)]
  {
    DivModDigit(a, d);
  }

  lemma DivModDigit(a: nat, d: nat)
    requires d < 16
    ensures (a * 16 + d) / 16 == a && (a * 16 + d) % 16 == d
  {
  }

  function Pow16(n: nat): (p: nat)
    ensures p >= 1
  {
    if n == 0 then 1 else 16 * Pow16(n - 1)
  }

  lemma {:induction false} Pow16Add(a: nat, b: nat)
    ensures Pow16(a + b) == Pow16(a) * Pow16(b)
    decreases a
  {
    if a > 0 {
      Pow16Add(a - 1, b);
    }
  }

  lemma Pow16Of32()
    ensures Pow16(32) == UuidLimit
  {
    assert Pow16(4) == 0x1_0000;
    Pow16Add(4, 4);
    Pow16Add(8, 8);
    Pow16Add(16, 16);
  }

  /** A numeral of `n` digits in base 16 stays below `16^n`. */
  lemma {:induction false} NumeralBound(s: string)
    requires DigitsIn(s, 16)
    ensures NumeralValue(s, 16) < Pow16(|s|)
    decreases |s|
  {
    if |s| > 0 {
      NumeralBound(s[..|s| - 1]);
    }
  }

  /** `uuid.UUID` keeps text without colons, hyphens and end braces as it is. */
  lemma UuidDigitsPlain(t: string)
    requires |t| > 0 && ':' !in t && '-' !in t
    requires t[0] !in {'{', '}'} && t[|t| - 1] !in {'{', '}'}
    ensures UuidDigits(t) == t
  {
    RemoveAllAbsent(t, "urn:", ':');
    RemoveAllAbsent(t, "uuid:", ':');
    StripUnchanged(t, {'{', '}'});
    RemoveAllAbsent(t, "-", '-');
  }

  lemma {:induction false} LeadingZero(s: string)
    requires DigitsIn(s, 16)
    ensures DigitsIn(['0'] + s, 16) && NumeralValue(['0'] + s, 16) == NumeralValue(s, 16)
    decreases |s|
  {
    var t := ['0'] + s;
    assert DigitsIn(t, 16);
    if |s| > 0 {
      assert t[..|t| - 1] == ['0'] + s[..|s| - 1];
      LeadingZero(s[..|s| - 1]);
    }
  }

  /**
   * `int(hex, 16)` takes a `0x` prefix: the 32 characters `0x` plus 30 hex
   * digits name the UUID whose digits are those 30 behind two zeros.
   */
  lemma HexPrefixedUuid(d: string)
    requires |d| == 30 && forall i :: 0 <= i < 30 ==> IsLowerHex(d[i])
    ensures forall i :: 0 <= i < 32 ==> ("00" + d)[i] in HexDigits
    ensures ParseUuid("0x" + d) == Some(CanonicalUuid("00" + d))
  {
    var t := "0x" + d;
    var z := "00" + d;
    assert t[0] == '0' && t[1] == 'x' && t[2..] == d && |t| == 32;
    assert z[0] == '0' && z[1] == '0' && z[2..] == d && |z| == 32;
    HexPrefixedParse(t, d);
    ZeroPaddedValue(z, d);
  }

  /** What `uuid.UUID` reads from `0x` and 30 lower-case hex digits. */
  lemma HexPrefixedParse(t: string, d: string)
    requires |t| == 32 && t[0] == '0' && t[1] == 'x' && t[2..] == d
    requires forall i :: 0 <= i < 30 ==> IsLowerHex(d[i])
    ensures DigitsIn(d, 16)
    ensures UuidDigits(t) == t && PyIntIn(t, 16) == Some(NumeralValue(d, 16) as int)
  {
    assert forall k :: 2 <= k < |t| ==> t[k] == d[k - 2];
    assert forall k :: 0 <= k < |t| ==> t[k] != ':' && t[k] != '-';
    UuidDigitsPlain(t);
    LowerHexFacts(d[29]);
    DigitNotWhitespace(t[0]);
    DigitNotWhitespace(t[31]);
    StripUnchanged(t, Whitespace);
    LowerHexDigits(d);
    PlainDigitsGrouped(d, 16);
    PrefixedDigits(t, d);
  }

  lemma PrefixedDigits(t: string, d: string)
    requires |t| >= 3 && t[0] == '0' && t[1] == 'x' && t[2..] == d
    requires Grouped(d, 16)
    ensures ParseIntIn(t, 16) == Some(GroupedValue(d, 16) as int)
  {
    assert t[2] == d[0];
  }

  /** Two zeros in front change no value, and the padded digits print back as themselves. */
  lemma ZeroPaddedValue(z: string, d: string)
    requires |z| == 32 && z[0] == '0' && z[1] == '0' && z[2..] == d
    requires forall i :: 0 <= i < 30 ==> IsLowerHex(d[i])
    ensures DigitsIn(d, 16)
    ensures forall i :: 0 <= i < 32 ==> z[i] in HexDigits
    ensures 0 <= NumeralValue(d, 16) < UuidLimit
    ensures UuidOfValue(NumeralValue(d, 16)) == CanonicalUuid(z)
  {
    assert z == ['0'] + (['0'] + d);
    assert forall i :: 0 <= i < 32 ==> IsLowerHex(z[i]);
    LowerHexAreHex(z);
    LowerHexDigits(d);
    LeadingZero(d);
    LeadingZero(['0'] + d);
    HexTextOfValue(z);
    NumeralBound(z);
    Pow16Of32();
  }

  /** `str(uuid.UUID(str(u))) == str(u)`: the canonical form parses back to itself. */
  lemma CanonicalUuidRoundTrip(h: string)
    requires |h| == 32 && forall i :: 0 <= i < 32 ==> h[i] in HexDigits
    ensures ParseUuid(CanonicalUuid(h)) == Some(CanonicalUuid(h))
  {
    var l := Lower(h);
    LowerHex(h);
    UuidDigitsOfCanonical(h);
    LowerHexDigits(l);
    PyIntOfDigits(l, 16);
    HexTextOfValue(l);
    NumeralBound(l);
    Pow16Of32();
    CanonicalOfLower(h);
  }

  lemma LowerHex(h: string)
    requires |h| == 32 && forall i :: 0 <= i < 32 ==> h[i] in HexDigits
    ensures forall i :: 0 <= i < 32 ==> IsLowerHex(Lower(h)[i])
  {
    forall i | 0 <= i < 32
      ensures IsLowerHex(Lower(h)[i])
    {
      HexLowers(h[i]);
    }
  }

  /** The canonical form depends only on the lower-cased digits. */
  lemma CanonicalOfLower(h: string)
    requires |h| == 32 && forall i :: 0 <= i < 32 ==> h[i] in HexDigits
    ensures forall i :: 0 <= i < 32 ==> Lower(h)[i] in HexDigits
    ensures CanonicalUuid(Lower(h)) == CanonicalUuid(h)
  {
    LowerHex(h);
    forall i | 0 <= i < 32
      ensures Lower(h)[i] in HexDigits && LowerChar(Lower(h)[i]) == Lower(h)[i]
    {
      LowerHexFacts(Lower(h)[i]);
    }
    assert Lower(Lower(h)) == Lower(h);
  }

  /** The canonical text of a 128-bit value parses back to itself. */
  lemma UuidOfValueParses(v: nat)
    ensures ParseUuid(UuidOfValue(v)) == Some(UuidOfValue(v))
  {
    var h := HexText(v, 32);
    LowerHexAreHex(h);
    CanonicalUuidRoundTrip(h);
  }

  /** A parsed UUID is in canonical form, so parsing it again gives it back. */
  lemma ParseUuidCanonical(text: string)
    requires ParseUuid(text).Some?
    ensures ParseUuid(ParseUuid(text).value) == ParseUuid(text)
  {
    UuidOfValueParses(PyIntIn(UuidDigits(text), 16).value);
  }

  lemma UuidDigitsOfCanonical(h: string)
    requires |h| == 32 && forall i :: 0 <= i < 32 ==> h[i] in HexDigits
    ensures UuidDigits(CanonicalUuid(h)) == Lower(h)
  {
    var u := CanonicalUuid(h);
    UuidDigitsOfHyphenated(u);
    HyphensOfCanonical(h);
  }

  /** For text of hex digits and hyphens only, `uuid.UUID` just drops the hyphens. */
  lemma UuidDigitsOfHyphenated(u: string)
    requires |u| > 0 && forall i :: 0 <= i < |u| ==> u[i] == '-' || u[i] in HexDigits
    ensures UuidDigits(u) == RemoveAll(u, "-")
  {
    PrefixesAbsent(u);
    StripWithoutBraces(u);
  }

  lemma PrefixesAbsent(u: string)
    requires forall i :: 0 <= i < |u| ==> u[i] == '-' || u[i] in HexDigits
    ensures RemoveAll(RemoveAll(u, "urn:"), "uuid:") == u
  {
    assert ':' !in u;
    RemoveAllAbsent(u, "urn:", ':');
    RemoveAllAbsent(u, "uuid:", ':');
  }

  lemma StripWithoutBraces(u: string)
    requires |u| > 0 && forall i :: 0 <= i < |u| ==> u[i] == '-' || u[i] in HexDigits
    ensures Strip(u, {'{', '}'}) == u
  {
    assert u[0] !in {'{', '}'};
    assert u[|u| - 1] !in {'{', '}'};
  }

  lemma HyphensOfCanonical(h: string)
    requires |h| == 32 && forall i :: 0 <= i < 32 ==> h[i] in HexDigits
    ensures RemoveAll(CanonicalUuid(h), "-") == Lower(h)
  {
    var l := Lower(h);
    assert forall i :: 0 <= i < 32 ==> l[i] in HexDigits;
    HyphensOfSlices(l);
  }

  lemma HyphensOfSlices(l: string)
    requires |l| == 32 && forall i :: 0 <= i < 32 ==> l[i] in HexDigits
    ensures RemoveAll(l[..8] + "-" + l[8..12] + "-" + l[12..16] + "-" + l[16..20] + "-" + l[20..], "-") == l
  {
    var p1, p2, p3, p4, p5 := l[..8], l[8..12], l[12..16], l[16..20], l[20..];
    HexHasNoHyphen(l, 0, 8);
    HexHasNoHyphen(l, 8, 12);
    HexHasNoHyphen(l, 12, 16);
    HexHasNoHyphen(l, 16, 20);
    HexHasNoHyphen(l, 20, 32);
    RemoveAllAbsent(p1, "-", '-');
    RemoveHyphenJoin(p1, p2);
    RemoveHyphenJoin(p1 + "-" + p2, p3);
    RemoveHyphenJoin(p1 + "-" + p2 + "-" + p3, p4);
    RemoveHyphenJoin(p1 + "-" + p2 + "-" + p3 + "-" + p4, p5);
    assert p1 + p2 + p3 + p4 + p5 == l;
  }

  lemma HexHasNoHyphen(l: string, i: nat, j: nat)
    requires i <= j <= |l| && forall k :: 0 <= k < |l| ==> l[k] in HexDigits
    ensures '-' !in l[i..j]
  {
    assert forall k :: 0 <= k < j - i ==> l[i..j][k] == l[i + k];
  }

  /** Dropping the hyphens of `a + "-" + b`, where `b` has none. */
  lemma RemoveHyphenJoin(a: string, b: string)
    requires '-' !in b
    ensures RemoveAll(a + "-" + b, "-") == RemoveAll(a, "-") + b
  {
    RemoveCharConcat(a + "-", b, '-');
    RemoveCharConcat(a, "-", '-');
    RemoveAllAbsent(b, "-", '-');
    assert RemoveAll("-", "-") == "";
  }
}
