/**
 * Server settings (server/app/config.py): the defaults the rest of the model
 * reads, and the `split_string_to_list` validator that turns a
 * comma-separated environment value into a list of hosts or origins.
 */
module Config {
  import opened Text

  /** A raw settings value before validation: an environment string, or an already-built list. */
  datatype RawValue = RawString(s: string) | RawList(items: seq<string>)

  /** The settings the captcha logic reads; scores, rates and thresholds are decimals. */
  datatype Settings = Settings(
    jwtExpiryMinutes: int,
    captchaTokenExpirySeconds: int,
    allowedOrigins: seq<string>,
    allowedHosts: seq<string>,
    defaultModel: string,
    modelCdnUrl: string,
    inferenceTimeoutMs: int,
    normalDifficultyTimeMs: int,
    suspiciousDifficultyTimeMs: int,
    botDifficultyTimeMs: int,
    verificationRate: real,
    knownSampleRate: real,
    initialReputation: real,
    maxReputation: real,
    minReputation: real,
    correctVerificationBonus: real,
    incorrectVerificationPenalty: real,
    minVerificationsForConsensus: int,
    consensusThreshold: real,
    discardThreshold: real,
    rateLimitRequestsPerMinute: int,
    rateLimitBurst: int)

  const Defaults: Settings := Settings(
    jwtExpiryMinutes := 5,
    captchaTokenExpirySeconds := 300,
    allowedOrigins := ["http://localhost:3000", "http://localhost:3001", "http://localhost:5173",
                       "http://127.0.0.1:3000", "http://127.0.0.1:3001"],
    allowedHosts := ["localhost", "127.0.0.1"],
    defaultModel := "cifar10-mobilenet",
    modelCdnUrl := "https://cdn.pouw.dev/models",
    inferenceTimeoutMs := 10000,
    normalDifficultyTimeMs := 500,
    suspiciousDifficultyTimeMs := 3000,
    botDifficultyTimeMs := 10000,
    verificationRate := 0.2,
    knownSampleRate := 0.1,
    initialReputation := 1.0,
    maxReputation := 5.0,
    minReputation := 0.0,
    correctVerificationBonus := 0.1,
    incorrectVerificationPenalty := 0.2,
    minVerificationsForConsensus := 3,
    consensusThreshold := 0.8,
    discardThreshold := 0.6,
    rateLimitRequestsPerMinute := 60,
    rateLimitBurst := 10)

  /** The reputation range is ordered with the initial score inside it, and discarding needs less agreement than promoting. */
  predicate Coherent(s: Settings) {
    s.minReputation <= s.initialReputation <= s.maxReputation
    && s.discardThreshold < s.consensusThreshold
  }

  lemma DefaultsCoherent()
    ensures Coherent(Defaults)
    ensures Defaults.minReputation < Defaults.maxReputation
  {
  }

  /** A piece carries no strippable character at either end. */
  predicate Trimmed(p: string, cs: set<char>) {
    |p| == 0 || (p[0] !in cs && p[|p| - 1] !in cs)
  }

  /**
   * The `allowed_origins`/`allowed_hosts` validator: a string becomes its
   * comma-separated pieces, each stripped of whitespace (the one trimmed
   * slice `TrimmedCutUnique` allows); any other value is returned as it came.
   */
  function SplitStringToList(v: RawValue): (r: RawValue)
    ensures r.RawList?
    ensures v.RawList? ==> r == v
    ensures v.RawString? ==> forall i :: 0 <= i < |r.items| ==> ',' !in r.items[i] && Trimmed(r.items[i], Whitespace)
    ensures v.RawString? ==> |r.items| == |Split(v.s, ',')|
    ensures v.RawString? ==> forall i :: 0 <= i < |r.items| ==> StrippedFrom(r.items[i], Split(v.s, ',')[i], Whitespace)
  {
    match v
    case RawString(s) =>
      RawList(StripEach(Split(s, ',')))
    case RawList(_) => v
  }

  /** Every piece stripped of whitespace. */
  function StripEach(pieces: seq<string>): (r: seq<string>)
    ensures |r| == |pieces|
    ensures forall i :: 0 <= i < |r| ==> ',' !in pieces[i] ==> ',' !in r[i]
    ensures forall i :: 0 <= i < |r| ==> Trimmed(r[i], Whitespace)
    ensures forall i :: 0 <= i < |r| ==> StrippedFrom(r[i], pieces[i], Whitespace)
  {
    seq(|pieces|, i requires 0 <= i < |pieces| => StripChecked(pieces[i], Whitespace))
  }

  /** Pieces that are already trimmed come through stripping unchanged. */
  lemma StripEachTrimmed(pieces: seq<string>)
    requires forall i :: 0 <= i < |pieces| ==> Trimmed(pieces[i], Whitespace)
    ensures StripEach(pieces) == pieces
  {
    forall i | 0 <= i < |pieces| ensures StripEach(pieces)[i] == pieces[i] {
      StripTrimmed(pieces[i], Whitespace);
    }
  }

  /**
   * `strip` keeps the longest piece of its argument that has no stripped
   * character at either end: everything it drops before and after is in `cs`.
   */
  function StripChecked(p: string, cs: set<char>): (r: string)
    ensures Trimmed(r, cs)
    ensures forall c :: c in r ==> c in p
    ensures StrippedFrom(r, p, cs)
  {
    StripIsSlice(p, cs);
    Strip(p, cs)
  }

  /** `r` is a slice of `p` and everything cut off before and after it is in `cs`. */
  ghost predicate StrippedFrom(r: string, p: string, cs: set<char>) {
    exists i, j :: CutFrom(p, cs, i, j) && r == p[i..j]
  }

  /** Only one piece of `p` is cut out by `cs` and trimmed, so `StripChecked` pins down its result. */
  lemma TrimmedCutUnique(p: string, cs: set<char>, i: int, j: int, i': int, j': int)
    requires CutFrom(p, cs, i, j) && Trimmed(p[i..j], cs)
    requires CutFrom(p, cs, i', j') && Trimmed(p[i'..j'], cs)
    ensures p[i..j] == p[i'..j']
  {
    if i < j {
      assert p[i] == p[i..j][0] && p[j - 1] == p[i..j][j - i - 1];
      assert p[i'] == p[i'..j'][0] && p[j' - 1] == p[i'..j'][j' - i' - 1];
    } else {
      assert forall k :: 0 <= k < |p| ==> p[k] in cs;
    }
    if i' == j' {
      assert forall k :: 0 <= k < |p| ==> p[k] in cs;
    }
  }

  /** One piece per comma plus one: the empty string gives a single empty piece. */
  lemma SplitStringToListLength(s: string)
    ensures |SplitStringToList(RawString(s)).items| == CountChar(s, ',') + 1
    ensures s == "" ==> SplitStringToList(RawString(s)) == RawList([""])
  {
    SplitLength(s, ',');
  }

  lemma StripTrimmed(p: string, cs: set<char>)
    requires Trimmed(p, cs)
    ensures Strip(p, cs) == p
  {
  }

  /** Joining trimmed, comma-free entries with commas and validating gives the entries back. */
  lemma SplitStringToListJoin(entries: seq<string>)
    requires |entries| >= 1
    requires forall i :: 0 <= i < |entries| ==> ',' !in entries[i] && Trimmed(entries[i], Whitespace)
    ensures SplitStringToList(RawString(Join(entries, ','))) == RawList(entries)
  {
    SplitJoin(entries, ',');
    StripEachTrimmed(entries);
  }
}
