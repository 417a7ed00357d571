/**
 * src/resources/judgement/store.ts: the six judgements, their hit windows
 * (osu!mania timing windows at overall difficulty 5) and the image shown for
 * each.
 */
module JudgementStore {

  /** Overall difficulty. */
  const OD: int := 5

  /** `JUDGEMENT`. */
  datatype Judgement = Perfect | Great | Good | Ok | Meh | Miss

  /** The keys of `JUDGEMENT_WINDOWS`, in the order they are declared and enumerated. */
  const Judgements: seq<Judgement> := [Perfect, Great, Good, Ok, Meh, Miss]

  /** `JUDGEMENT_WINDOWS[j]`: the window's full width. */
  function Window(j: Judgement): (w: int)
    ensures w > 0
  {
    match j
    case Perfect => 16
    case Great => 64 - 3 * OD
    case Good => 97 - 3 * OD
    case Ok => 127 - 3 * OD
    case Meh => 151 - 3 * OD
    case Miss => 188 - 3 * OD
  }

  /** With OD 5 the windows are 16, 49, 82, 112, 136 and 173. */
  lemma WindowValues()
    ensures Window(Perfect) == 16 && Window(Great) == 49 && Window(Good) == 82
    ensures Window(Ok) == 112 && Window(Meh) == 136 && Window(Miss) == 173
  {
  }

  /** The windows widen strictly from PERFECT to MISS. */
  lemma WindowsWiden(i: nat, k: nat)
    requires i < k < |Judgements|
    ensures Window(Judgements[i]) < Window(Judgements[k])
  {
  }

  /** Every judgement is one of the keys, at its own position. */
  lemma JudgementsListed(j: Judgement)
    ensures j in Judgements
  {
  }

  /** The judgement's enum value, as written. */
  function Name(j: Judgement): string {
    match j
    case Perfect => "PERFECT"
    case Great => "GREAT"
    case Good => "GOOD"
    case Ok => "OK"
    case Meh => "MEH"
    case Miss => "MISS"
  }

  /** `s.toLowerCase()` on ASCII letters. */
  function LowerCase(s: string): (r: string)
    ensures |r| == |s|
    ensures forall i :: 0 <= i < |s| ==> r[i] == if 'A' <= s[i] <= 'Z' then (s[i] as int + 32) as char else s[i]
  {
    if s == [] then []
    else [if 'A' <= s[0] <= 'Z' then (s[0] as int + 32) as char else s[0]] + LowerCase(s[1..])
  }

  /** The image extension: animated for PERFECT only. */
  function Extension(j: Judgement): string {
    if j == Perfect then "gif" else "png"
  }

  const ImgDirectory := "/assets/judgment-scores/judgement_"

  /** `getJudgementImgSrc(j)`. */
  function ImgSrc(j: Judgement): string {
    ImgDirectory + LowerCase(Name(j)) + "." + Extension(j)
  }

  lemma ThreeParts<T>(a: seq<T>, b: seq<T>, c: seq<T>)
    ensures (a + b + c)[..|a|] == a && (a + b + c)[|a|..|a| + |b|] == b && (a + b + c)[|a| + |b|..] == c
  {
  }

  /** The path is the directory, the judgement's name in lower case, a dot and the extension. */
  lemma ImgSrcParts(j: Judgement)
    ensures var src := ImgSrc(j); var n := |Name(j)|;
      |src| == |ImgDirectory| + n + 4 &&
      src[..|ImgDirectory|] == ImgDirectory &&
      src[|ImgDirectory|..|ImgDirectory| + n] == LowerCase(Name(j)) &&
      src[|ImgDirectory| + n..] == "." + Extension(j)
  {
    ThreeParts(ImgDirectory, LowerCase(Name(j)), "." + Extension(j));
    assert ImgSrc(j) == ImgDirectory + LowerCase(Name(j)) + ("." + Extension(j));
  }

  /** Only PERFECT uses the animated image. */
  lemma GifIffPerfect(j: Judgement)
    ensures Extension(j) == "gif" <==> j == Perfect
    ensures Extension(j) == "png" <==> j != Perfect
  {
  }

  /** MISS's image is `judgement_miss.png`. */
  lemma MissImgSrc()
    ensures ImgSrc(Miss) == "/assets/judgment-scores/judgement_miss.png"
  {
    assert LowerCase("MISS") == "miss";
  }
}
