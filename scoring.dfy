/**
 * The scoring engine run when an uploaded image has decoded: the image's
 * width and height, plus one random jitter, give a cringe score, the red
 * flags raised and the three canned roast lines of the score's bucket.
 *
 * Scores are integer hundredths (the source rounds to two decimals), and
 * the aspect-ratio tests are cross-multiplied, so nothing here depends on
 * floating point.
 */
module Scoring {
  import opened Wrappers

  datatype Severity = Mild | Medium | Nuclear

  datatype RoastResult = RoastResult(highlight: string, severity: Severity)

  datatype RedFlag = RedFlag(id: int, text: string, exploded: bool)

  /** Upper bound of the score, 100.00. */
  const MaxScore: int := 10000
  /** Upper bound of the rounded jitter: Math.random() * 20 is below 20, and rounds to at most 20.00. */
  const MaxJitter: int := 2000
  /** Images narrower or lower than this many pixels are "Low Res". */
  const MinSide: int := 800

  const BadCrop := RedFlag(1, "Bad Crop", false)
  const SuspiciousCrop := RedFlag(2, "Suspicious Crop", false)
  const LowResFlag := RedFlag(3, "Low Res", false)

  /** width / height > 1.2 */
  predicate Wide(w: nat, h: nat) { 5 * w > 6 * h }

  /** width / height < 0.8 */
  predicate Tall(w: nat, h: nat) { 5 * w < 4 * h }

  predicate LowRes(w: nat, h: nat) { w < MinSide || h < MinSide }

  /** The flags raised by the aspect-ratio test and the resolution test, in the order they are pushed. */
  function DimensionFlags(w: nat, h: nat): seq<RedFlag>
  {
    (if Wide(w, h) then [BadCrop] else if Tall(w, h) then [SuspiciousCrop] else [])
    + (if LowRes(w, h) then [LowResFlag] else [])
  }

  /** The whole points added to the score by the same two tests. */
  function DimensionWeight(w: nat, h: nat): (p: nat)
    ensures p <= 55
  {
    (if Wide(w, h) then 20 else if Tall(w, h) then 30 else 0)
    + (if LowRes(w, h) then 25 else 0)
  }

  /** The weight that each dimension flag stands for; other flags carry none. */
  function FlagWeight(id: int): nat
  {
    if id == 1 then 20 else if id == 2 then 30 else if id == 3 then 25 else 0
  }

  function TotalWeight(flags: seq<RedFlag>): nat
  {
    if flags == [] then 0 else FlagWeight(flags[0].id) + TotalWeight(flags[1..])
  }

  predicate HasFlag(flags: seq<RedFlag>, id: int)
  {
    exists i :: 0 <= i < |flags| && flags[i].id == id
  }

  /**
   * The score in hundredths: the dimension weight plus the jitter, capped
   * at 100.00. The source rounds the sum of an integer and
   * Math.random() * 20 to two decimals, which is the integer plus the
   * jitter rounded to hundredths.
   */
  function CringeScore(w: nat, h: nat, jitter: nat): (s: int)
    requires jitter <= MaxJitter
    ensures 0 <= s <= MaxScore
    ensures s <= 7500
  {
    Min(DimensionWeight(w, h) * 100 + jitter, MaxScore)
  }

  /**
   * The bucket chain, tested in the source's order: bucket 1 is [1, 5],
   * bucket k for k in 2..20 is (5(k-1), 5k], and 0 is the default taken
   * when no test matches.
   */
  function BucketOf(s: int): (b: nat)
    ensures b <= 20
  {
    if 100 <= s <= 500 then 1
    else if 500 < s <= 1000 then 2
    else if 1000 < s <= 1500 then 3
    else if 1500 < s <= 2000 then 4
    else if 2000 < s <= 2500 then 5
    else if 2500 < s <= 3000 then 6
    else if 3000 < s <= 3500 then 7
    else if 3500 < s <= 4000 then 8
    else if 4000 < s <= 4500 then 9
    else if 4500 < s <= 5000 then 10
    else if 5000 < s <= 5500 then 11
    else if 5500 < s <= 6000 then 12
    else if 6000 < s <= 6500 then 13
    else if 6500 < s <= 7000 then 14
    else if 7000 < s <= 7500 then 15
    else if 7500 < s <= 8000 then 16
    else if 8000 < s <= 8500 then 17
    else if 8500 < s <= 9000 then 18
    else if 9000 < s <= 9500 then 19
    else if 9500 < s <= 10000 then 20
    else 0
  }

  /** Three roast lines sharing one severity, as every bucket of the table has. */
  function Lines(severity: Severity, a: string, b: string, c: string): (r: seq<RoastResult>)
    ensures |r| == 3 && forall i :: 0 <= i < 3 ==> r[i].severity == severity
  {
    [RoastResult(a, severity), RoastResult(b, severity), RoastResult(c, severity)]
  }

  /** The severity that the table gives bucket b: the default and buckets 1-3 are mild, 4-12 medium, 13-20 nuclear. */
  function BucketSeverity(b: nat): Severity
  {
    if b <= 3 then Mild else if b <= 12 then Medium else Nuclear
  }

  /** Number of entries of the roast table: the default and the twenty buckets. */
  const BucketCount: int := 21

  /**
   * The roast texts of the source, three per entry, character for character
   * (including its mis-encoded apostrophes); entry 0 is the default and
   * entry b the bucket b. The engine takes the table as a parameter,
   * so that what is proved about it holds whatever the texts say.
   */
  const RoastTable: seq<(string, string, string)> := [
    ("Surprisingly normal photo. Almost disappointing.",
     "You escaped the roast... this time.",
     "No cringe detected. Are you even trying?"),  // default
    ("Barely cringe, but we see you trying.",
     "Just a hint of awkwardness. Almost safe.",
     "You dodged the roast, but not by much."),  // bucket 1
    ("A little more effort and you'd be meme material.",
     "Trying to be cool, but the cringe is peeking through.",
     "Not bad, but not quite roast-proof."),  // bucket 2
    ("You call this your best shot?",
     "Cringe is rising, but still manageable.",
     "Almost made us laugh, but not for the right reasons."),  // bucket 3
    ("The awkward energy is strong with this one.",
     "Profile pic or yearbook disaster?",
     "You might want to try again."),  // bucket 4
    ("Cringe detected. Proceed with caution.",
     "This photo belongs in a group chat for the wrong reasons.",
     "Your vibe: 'I just woke up and chose this.'"),  // bucket 5
    ("Youâ€™re on the edge of meme territory.",
     "This is the kind of pic your friends would roast in private.",
     "Cringe level: noticeable. Confidence level: questionable."),  // bucket 6
    ("Youâ€™re not fooling anyone with that filter.",
     "This is a 'before' photo for a glow-up meme.",
     "Your cringe is showing. Tuck it in!"),  // bucket 7
    ("This photo screams 'I peaked in high school.'",
     "Youâ€™re one step away from being a cautionary tale.",
     "Cringe is now a personality trait."),  // bucket 8
    ("Your cringe is evolving. Itâ€™s super effective!",
     "This is the kind of pic that gets screenshotted for group chats.",
     "Youâ€™re not just cringing, youâ€™re inspiring others to cringe."),  // bucket 9
    ("Youâ€™re halfway to legendary cringe status.",
     "This is the kind of photo that makes people swipe left twice.",
     "Cringe level: influencer caught in 4K."),  // bucket 10
    ("Youâ€™ve entered the danger zone. Cringe detected.",
     "This is the kind of pic that gets used in 'before' memes.",
     "Your cringe is contagious. Please quarantine."),  // bucket 11
    ("Cringe level: viral TikTok fail.",
     "This photo is a public service announcement for better selfies.",
     "Youâ€™re the reason the roast feature exists."),  // bucket 12
    ("Youâ€™re approaching nuclear cringe. Brace yourself.",
     "This is the kind of pic that gets posted on r/cringe.",
     "Cringe level: legendary. Seek help."),  // bucket 13
    ("Youâ€™ve unlocked a new level of embarrassment.",
     "This photo is a cautionary tale for future generations.",
     "Cringe so strong, itâ€™s practically a superpower."),  // bucket 14
    ("Youâ€™re the final boss of cringe.",
     "This photo is why the internet invented roasting.",
     "Cringe level: catastrophic. May require therapy."),  // bucket 15
    ("Nuclear levels of cringe detected. This might be terminal.",
     "This is the kind of photo that gets banned from dating apps.",
     "Cringe so intense, itâ€™s breaking the simulation."),  // bucket 16
    ("Youâ€™ve reached cringe singularity. No turning back.",
     "This photo is a black hole of awkwardness.",
     "Cringe level: universe-ending. Congratulations?"),  // bucket 17
    ("You are the chosen one... for cringe.",
     "This photo is the reason for the word 'yikes.'",
     "Cringe so powerful, itâ€™s rewriting history."),  // bucket 18
    ("Youâ€™ve broken the cringe meter. Please stop.",
     "This photo is a war crime against good taste.",
     "Cringe level: apocalyptic. Seek immediate help."),  // bucket 19
    ("Congratulations, you are the king/queen of cringe.",
     "This photo is the final boss of embarrassment.",
     "Cringe level: infinite. Achievement unlocked.")  // bucket 20
  ]

  /** The roasts of bucket b: the table's three texts, each tagged with the bucket's severity. */
  function Roasts(table: seq<(string, string, string)>, b: nat): (r: seq<RoastResult>)
    requires b < |table|
    ensures |r| == 3
    ensures forall i :: 0 <= i < 3 ==> r[i].severity == BucketSeverity(b) && r[i].highlight == Text(table[b], i)
  {
    var (x, y, z) := table[b];
    Lines(BucketSeverity(b), x, y, z)
  }

  function Text(texts: (string, string, string), i: nat): string
  {
    if i == 0 then texts.0 else if i == 1 then texts.1 else texts.2
  }

  /** The themed flag that buckets 16 to 20 push after the dimension flags. */
  function ThemedFlag(b: nat): (f: seq<RedFlag>)
    ensures forall i :: 0 <= i < |f| ==> !f[i].exploded && f[i].id == b - 12
    ensures |f| == (if 15 < b <= 20 then 1 else 0)
  {
    match b
    case 16 => [RedFlag(4, "Fedora Energy", false)]
    case 17 => [RedFlag(5, "Cringe Overload", false)]
    case 18 => [RedFlag(6, "Epic Fail", false)]
    case 19 => [RedFlag(7, "Cringe Apocalypse", false)]
    case 20 => [RedFlag(8, "Cringe Royalty", false)]
    case _ => []
  }

  /** Reference severity of a score: mild up to 15.00, medium up to 60.00, nuclear above. */
  function SeverityOf(s: int): Severity
  {
    if s <= 1500 then Mild else if s <= 6000 then Medium else Nuclear
  }

  datatype Analysis = Analysis(score: int, flags: seq<RedFlag>, roasts: seq<RoastResult>)

  /** The whole scoring step for an image of w by h pixels and one jitter draw, with the roasts taken from table. */
  function Analyze(table: seq<(string, string, string)>, w: nat, h: nat, jitter: nat): (a: Analysis)
    requires |table| == BucketCount && jitter <= MaxJitter
    ensures 0 <= a.score <= MaxScore
    ensures |a.roasts| == 3
    ensures forall i :: 0 <= i < |a.flags| ==> !a.flags[i].exploded
  {
    var s := CringeScore(w, h, jitter);
    var b := BucketOf(s);
    Analysis(s, DimensionFlags(w, h) + ThemedFlag(b), Roasts(table, b))
  }

  // ---------------------------------------------------------------------
  // Properties of the engine

  /** The chain is a ceiling division by 5.00 on [1.00, 100.00]; everything below 1.00 is the default. */
  lemma BucketIsCeiling(s: int)
    requires 0 <= s <= MaxScore
    ensures BucketOf(s) == if s < 100 then 0 else (s + 499) / 500
    ensures BucketOf(s) == 0 <==> s < 100
  {
  }

  /** Every bucket holds exactly three roasts of one severity, and that severity is the score's. */
  lemma ScoreSeverity(table: seq<(string, string, string)>, s: int)
    requires |table| == BucketCount && 0 <= s <= MaxScore
    ensures |Roasts(table, BucketOf(s))| == 3
    ensures forall i :: 0 <= i < 3 ==> Roasts(table, BucketOf(s))[i].severity == SeverityOf(s)
  {
    assert BucketSeverity(BucketOf(s)) == SeverityOf(s);
  }

  lemma {:induction false} TotalWeightAppend(a: seq<RedFlag>, b: seq<RedFlag>)
    ensures TotalWeight(a + b) == TotalWeight(a) + TotalWeight(b)
  {
    if a == [] {
      assert a + b == b;
    } else {
      assert (a + b)[1..] == a[1..] + b;
      TotalWeightAppend(a[1..], b);
    }
  }

  /** The dimension weight is exactly the weight of the flags raised, so each flag is raised precisely when its points are added. */
  lemma DimensionFlagsCarryWeight(w: nat, h: nat)
    ensures TotalWeight(DimensionFlags(w, h)) == DimensionWeight(w, h)
  {
    var aspect := if Wide(w, h) then [BadCrop] else if Tall(w, h) then [SuspiciousCrop] else [];
    var res := if LowRes(w, h) then [LowResFlag] else [];
    TotalWeightAppend(aspect, res);
  }

  /**
   * The flag rules: "Bad Crop" exactly when w/h > 1.2, "Suspicious Crop"
   * exactly when w/h < 0.8, never both, and "Low Res" exactly when a side
   * is below 800; the jitter plays no part.
   */
  lemma FlagsAndWeights(table: seq<(string, string, string)>, w: nat, h: nat, jitter: nat)
    requires |table| == BucketCount && jitter <= MaxJitter
    ensures var f := Analyze(table, w, h, jitter).flags;
      && (HasFlag(f, 1) <==> 5 * w > 6 * h)
      && (HasFlag(f, 2) <==> 5 * w < 4 * h)
      && !(HasFlag(f, 1) && HasFlag(f, 2))
      && (HasFlag(f, 3) <==> w < 800 || h < 800)
      && TotalWeight(f) == DimensionWeight(w, h)
  {
    ScoreRange(table, w, h, jitter);
    var f := Analyze(table, w, h, jitter).flags;
    assert f == DimensionFlags(w, h);
    DimensionFlagsCarryWeight(w, h);
    if HasFlag(f, 1) {
      var i :| 0 <= i < |f| && f[i].id == 1;
    }
    if HasFlag(f, 2) {
      var i :| 0 <= i < |f| && f[i].id == 2;
    }
    if HasFlag(f, 3) {
      var i :| 0 <= i < |f| && f[i].id == 3;
    }
    if Wide(w, h) { assert f[0].id == 1; }
    if Tall(w, h) && !Wide(w, h) { assert f[0].id == 2; }
    if LowRes(w, h) { assert f[|f| - 1].id == 3; }
  }

  /**
   * The cap never binds: the score is the dimension weight plus the jitter,
   * at most 75.00, so the themed flags 4 to 8 (attached only above 75.00)
   * are unreachable and every flag raised is one of the dimension flags.
   */
  lemma ScoreRange(table: seq<(string, string, string)>, w: nat, h: nat, jitter: nat)
    requires |table| == BucketCount && jitter <= MaxJitter
    ensures var a := Analyze(table, w, h, jitter);
      && a.score == DimensionWeight(w, h) * 100 + jitter
      && a.score <= 7500
      && BucketOf(a.score) <= 15
      && a.flags == DimensionFlags(w, h)
      && forall i :: 0 <= i < |a.flags| ==> 1 <= a.flags[i].id <= 3
  {
    var s := CringeScore(w, h, jitter);
    assert BucketOf(s) <= 15;
    assert ThemedFlag(BucketOf(s)) == [];
  }

  /** The roasts shown always agree in severity with the score. */
  lemma RoastsMatchScore(table: seq<(string, string, string)>, w: nat, h: nat, jitter: nat)
    requires |table| == BucketCount && jitter <= MaxJitter
    ensures var a := Analyze(table, w, h, jitter);
      |a.roasts| == 3 && forall i :: 0 <= i < 3 ==> a.roasts[i].severity == SeverityOf(a.score)
  {
    ScoreSeverity(table, CringeScore(w, h, jitter));
  }

  /** A 1920 by 1080 image with no jitter scores 20.00 with a single "Bad Crop" flag and medium roasts. */
  lemma LandscapeExample(table: seq<(string, string, string)>)
    requires |table| == BucketCount
    ensures Analyze(table, 1920, 1080, 0).score == 2000
    ensures Analyze(table, 1920, 1080, 0).flags == [BadCrop]
    ensures forall i :: 0 <= i < 3 ==> Analyze(table, 1920, 1080, 0).roasts[i].severity == Medium
  {
  }
}
