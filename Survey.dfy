/**
 * The psychology survey: 1-5 answers are scored into five 0-100 section
 * percentages, turned into a five-entry "comfort" profile, interpreted into
 * highlight / caution / suggestion messages, and mapped to film themes.
 *
 * Scores are exact reals; the source's `round(x, 1)` is not modelled.
 */
module Survey {
  import opened Text
  import opened Lists

  /** `clamp(x, lo, hi)`: `max(lo, min(hi, x))`. */
  function Clamp(x: real, lo: real, hi: real): (r: real)
    ensures lo <= hi ==> lo <= r <= hi
    ensures lo <= x <= hi ==> r == x
    ensures lo <= hi && x < lo ==> r == lo
    ensures lo <= hi && hi < x ==> r == hi
  {
    var m := if hi < x then hi else x;
    if lo < m then m else lo
  }

  // ----- survey layout -----

  datatype Section = Section(name: string, items: seq<string>)

  const Mood := "감정 상태"
  const Coping := "스트레스 대처"
  const Attach := "애착/관계"
  const Drive := "동기·회복탄력"
  const Flow := "몰입·창의"

  const MoodItems := [
    "요즘 이유 없이 마음이 가라앉는다.",
    "감정 기복이 눈에 띄게 크다.",
    "최근 일주일간 불안하거나 초조했다.",
    "잠들기 전 생각이 과하게 많아진다."]
  const CopingItems := [
    "압박이 와도 우선순위를 정하고 실행한다.",
    "감정이 올라오면 적절히 표현/해소한다.",
    "힘든 일을 작은 단위로 나눠 처리한다.",
    "도움이 필요할 때 주변에 요청한다."]
  const AttachItems := [
    "사람들과 있을 때도 묘한 외로움을 느낀다.",
    "거절이 어려워 내 마음을 미룬다.",
    "상대 반응에 과도하게 민감해진다.",
    "관계에서 경계(선)를 잘 지킨다."]
  const DriveItems := [
    "일단 시작하면 끝까지 밀어붙이는 편이다.",
    "실패를 학습 기회로 삼는다.",
    "에너지 레벨을 스스로 관리한다.",
    "목표를 기록하고 점검한다."]
  const FlowItems := [
    "시간 가는 줄 모르고 빠져드는 경험이 있다.",
    "문제를 새로운 방식으로 풀어보려 한다.",
    "혼자만의 상상/아이디어 시간이 필요하다.",
    "작은 디테일도 즐긴다."]

  /** SECTIONS, in their declaration order; every item is answered 1-5. */
  const Sections: seq<Section> := [
    Section(Mood, MoodItems), Section(Coping, CopingItems), Section(Attach, AttachItems),
    Section(Drive, DriveItems), Section(Flow, FlowItems)]

  /** Sections where a high score means difficulty; they are inverted into comfort. */
  const NegativeSections: seq<string> := [Mood, Attach]

  // ----- profile keys -----

  const MoodComfort := "감정 편안함"
  const CopingPower := "스트레스 대처력"
  const AttachSecurity := "관계 안정감"
  const DriveScore := "동기·회복탄력"
  const FlowScore := "몰입·창의"

  const ProfileKeys: set<string> := {MoodComfort, CopingPower, AttachSecurity, DriveScore, FlowScore}

  type Profile = map<string, real>

  // ----- scoring specification -----

  /** The response key of item `i` of a section: `f"{sec}_{i}"`. */
  function ItemKey(sec: string, i: nat): (key: string)
    ensures |key| == |sec| + 1 + |DecimalString(i)|
    ensures key[|sec|] == '_'
  {
    sec + "_" + DecimalString(i)
  }

  /** Distinct items of a section read distinct response keys. */
  lemma ItemKeyInjective(sec: string, i: nat, j: nat)
    requires ItemKey(sec, i) == ItemKey(sec, j)
    ensures i == j
  {
    var p := sec + "_";
    assert ItemKey(sec, i)[|p|..] == DecimalString(i);
    assert ItemKey(sec, j)[|p|..] == DecimalString(j);
    DecimalStringInjective(i, j);
  }

  /** `responses.get(key, 3)`: an unanswered item counts as the neutral 3. */
  function Answer(responses: map<string, int>, key: string): (a: int)
    ensures key in responses ==> a == responses[key]
    ensures key !in responses ==> a == 3
  {
    if key in responses then responses[key] else 3
  }

  /** The answers of the first `n` items of section `sec`, in item order. */
  function Answers(responses: map<string, int>, sec: string, n: nat): (vals: seq<int>)
    ensures |vals| == n
    ensures forall i :: 0 <= i < n ==> vals[i] == Answer(responses, ItemKey(sec, i))
  {
    if n == 0 then [] else Answers(responses, sec, n - 1) + [Answer(responses, ItemKey(sec, n - 1))]
  }

  /** The mean answer of a section mapped linearly from 1..5 onto 0..100, then clamped. */
  function SectionPct(responses: map<string, int>, s: Section): (pct: real)
    ensures 0.0 <= pct <= 100.0
  {
    var n := |s.items|;
    var avg := (Sum(Answers(responses, s.name, n)) as real) / ((if n < 1 then 1 else n) as real);
    Clamp((avg - 1.0) / 4.0 * 100.0, 0.0, 100.0)
  }

  /** A negative section's percentage is turned into comfort by `100 - pct`. */
  function Comfort(sec: string, pct: real): (c: real)
    ensures sec in NegativeSections ==> c == 100.0 - pct
    ensures sec !in NegativeSections ==> c == pct
  {
    if sec in NegativeSections then 100.0 - pct else pct
  }

  /** Sum of the default answers is three per item. */
  lemma {:induction false} DefaultAnswersSum(sec: string, n: nat)
    ensures Sum(Answers(map[], sec, n)) == 3 * n
  {
    if n > 0 {
      DefaultAnswersSum(sec, n - 1);
    }
  }

  /** With no answers, a four-item section scores exactly 50. */
  lemma EmptyResponsesScoreFifty(s: Section)
    requires |s.items| == 4
    ensures SectionPct(map[], s) == 50.0
  {
    DefaultAnswersSum(s.name, 4);
  }

  /** With no answers, every entry of the profile is 50. */
  lemma EmptyResponsesGiveNeutralProfile()
    ensures forall s :: s in Sections ==> Comfort(s.name, SectionPct(map[], s)) == 50.0
  {
    forall s | s in Sections ensures Comfort(s.name, SectionPct(map[], s)) == 50.0 {
      EmptyResponsesScoreFifty(s);
    }
  }

  lemma SectionNamesDistinct()
    ensures forall i, j :: 0 <= i < j < |Sections| ==> Sections[i].name != Sections[j].name
    ensures Sections[0].name == Mood && Sections[1].name == Coping && Sections[2].name == Attach
    ensures Sections[3].name == Drive && Sections[4].name == Flow
    ensures Mood in NegativeSections && Attach in NegativeSections
    ensures Coping !in NegativeSections && Drive !in NegativeSections && Flow !in NegativeSections
  {
    assert Mood[0] == '감' && Coping[0] == '스' && Attach[0] == '애' && Drive[0] == '동' && Flow[0] == '몰';
  }

  lemma ProfileKeysDistinct()
    ensures MoodComfort != CopingPower && MoodComfort != AttachSecurity && MoodComfort != DriveScore
    ensures MoodComfort != FlowScore && CopingPower != AttachSecurity && CopingPower != DriveScore
    ensures CopingPower != FlowScore && AttachSecurity != DriveScore && AttachSecurity != FlowScore
    ensures DriveScore != FlowScore
  {
    assert MoodComfort[0] == '감' && CopingPower[0] == '스' && AttachSecurity[0] == '관';
    assert DriveScore[0] == '동' && FlowScore[0] == '몰';
  }

  /** The profile dict literal: the five comfort scores under their display names. */
  function ProfileOf(mood: real, coping: real, attach: real, drive: real, flow: real): (p: Profile)
    ensures p.Keys == ProfileKeys
    ensures p[MoodComfort] == mood && p[CopingPower] == coping && p[AttachSecurity] == attach
    ensures p[DriveScore] == drive && p[FlowScore] == flow
    ensures forall k :: k in p ==> p[k] in {mood, coping, attach, drive, flow}
  {
    ProfileKeysDistinct();
    map[MoodComfort := mood, CopingPower := coping, AttachSecurity := attach,
        DriveScore := drive, FlowScore := flow]
  }

  // ----- score_profile -----

  /** The per-section part of `score_profile`: collect the answers, average, scale, clamp. */
  method ScoreSection(responses: map<string, int>, sec: Section) returns (pct: real)
    ensures pct == SectionPct(responses, sec)
    ensures 0.0 <= pct <= 100.0
  {
    var vals: seq<int> := [];
    for i := 0 to |sec.items|
      invariant vals == Answers(responses, sec.name, i)
    {
      var val := Answer(responses, ItemKey(sec.name, i));
      vals := vals + [val];
    }
    var avg := (Sum(vals) as real) / ((if |vals| < 1 then 1 else |vals|) as real);
    pct := Clamp((avg - 1.0) / 4.0 * 100.0, 0.0, 100.0);
  }

  /**
   * The direction adjustment of `score_profile`: every section percentage is
   * kept under its section name, inverted for the negative sections.
   */
  method ComfortScores(sectionScores: map<string, real>) returns (comfort: map<string, real>)
    ensures comfort.Keys == sectionScores.Keys
    ensures forall sec :: sec in comfort ==> comfort[sec] == Comfort(sec, sectionScores[sec])
  {
    comfort := map[];
    var todo := sectionScores.Keys;
    while todo != {}
      invariant todo <= sectionScores.Keys
      invariant forall sec :: sec in sectionScores ==> (sec in comfort <==> sec !in todo)
      invariant forall sec :: sec in comfort ==> sec in sectionScores && comfort[sec] == Comfort(sec, sectionScores[sec])
      decreases todo
    {
      var sec :| sec in todo;
      var pct := sectionScores[sec];
      if sec in NegativeSections {
        comfort := comfort[sec := 100.0 - pct];
      } else {
        comfort := comfort[sec := pct];
      }
      todo := todo - {sec};
    }
  }

  /**
   * The section loop of `score_profile` over a section table with distinct
   * names: exactly those names are keys, each holding its section's percentage.
   */
  method ScoreSections(responses: map<string, int>, sections: seq<Section>) returns (sectionScores: map<string, real>)
    requires forall i, j :: 0 <= i < j < |sections| ==> sections[i].name != sections[j].name
    ensures forall j :: 0 <= j < |sections| ==> sections[j].name in sectionScores
    ensures forall k :: k in sectionScores ==> exists j :: 0 <= j < |sections| && k == sections[j].name
    ensures forall j :: 0 <= j < |sections| ==> sectionScores[sections[j].name] == SectionPct(responses, sections[j])
  {
    sectionScores := map[];
    for s := 0 to |sections|
      invariant forall j :: 0 <= j < s ==> sections[j].name in sectionScores
      invariant forall k :: k in sectionScores ==> exists j :: 0 <= j < s && k == sections[j].name
      invariant forall j :: 0 <= j < s ==> sectionScores[sections[j].name] == SectionPct(responses, sections[j])
    {
      var pct := ScoreSection(responses, sections[s]);
      sectionScores := sectionScores[sections[s].name := pct];
    }
  }

  /**
   * `score_profile`: scores every section (answers used as given, missing ones
   * count 3), inverts the negative sections into comfort, and renames the five
   * results into the profile.
   */
  method ScoreProfile(responses: map<string, int>) returns (profile: Profile)
    ensures profile.Keys == ProfileKeys
    ensures forall k :: k in profile ==> 0.0 <= profile[k] <= 100.0
    ensures profile[MoodComfort] == 100.0 - SectionPct(responses, Sections[0])
    ensures profile[CopingPower] == SectionPct(responses, Sections[1])
    ensures profile[AttachSecurity] == 100.0 - SectionPct(responses, Sections[2])
    ensures profile[DriveScore] == SectionPct(responses, Sections[3])
    ensures profile[FlowScore] == SectionPct(responses, Sections[4])
  {
    SectionNamesDistinct();
    var sectionScores := ScoreSections(responses, Sections);
    assert Mood in sectionScores && Coping in sectionScores && Attach in sectionScores;
    assert Drive in sectionScores && Flow in sectionScores;

    var comfort := ComfortScores(sectionScores);

    var mood := comfort[Mood];
    var coping := comfort[Coping];
    var attach := comfort[Attach];
    var drive := comfort[Drive];
    var flow := comfort[Flow];
    profile := ProfileOf(mood, coping, attach, drive, flow);
  }

  // ----- threshold rules -----

  datatype Comparison = AtLeast | Below

  /** A threshold test on one profile entry and the messages or themes it contributes. */
  datatype Rule = Rule(key: string, cmp: Comparison, threshold: real, out: seq<string>)

  predicate Covers(p: Profile, rules: seq<Rule>) {
    forall i :: 0 <= i < |rules| ==> rules[i].key in p
  }

  predicate Fires(p: Profile, r: Rule)
    requires r.key in p
  {
    match r.cmp
    case AtLeast => p[r.key] >= r.threshold
    case Below => p[r.key] < r.threshold
  }

  /** The outputs of the rules that fire, concatenated in rule order. */
  function Fired(p: Profile, rules: seq<Rule>): (r: seq<string>)
    requires Covers(p, rules)
    ensures rules == [] ==> r == []
  {
    if rules == [] then []
    else (if Fires(p, rules[0]) then rules[0].out else []) + Fired(p, rules[1..])
  }

  /** An output is produced exactly when some rule containing it fires. */
  lemma {:induction false} FiredMembers(p: Profile, rules: seq<Rule>, x: string)
    requires Covers(p, rules)
    ensures x in Fired(p, rules) <==>
              exists i :: 0 <= i < |rules| && Fires(p, rules[i]) && x in rules[i].out
  {
    if rules != [] {
      FiredMembers(p, rules[1..], x);
      if x in Fired(p, rules[1..]) {
        var i :| 0 <= i < |rules[1..]| && Fires(p, rules[1..][i]) && x in rules[1..][i].out;
        assert rules[i + 1] == rules[1..][i];
      }
      if exists i :: 0 <= i < |rules| && Fires(p, rules[i]) && x in rules[i].out {
        var i :| 0 <= i < |rules| && Fires(p, rules[i]) && x in rules[i].out;
        if i > 0 {
          assert rules[1..][i - 1] == rules[i];
        }
      }
    }
  }

  /** No rule produces anything exactly when none fires (every rule has output). */
  lemma {:induction false} FiredEmpty(p: Profile, rules: seq<Rule>)
    requires Covers(p, rules)
    requires forall i :: 0 <= i < |rules| ==> rules[i].out != []
    ensures Fired(p, rules) == [] <==> forall i :: 0 <= i < |rules| ==> !Fires(p, rules[i])
  {
    if rules != [] {
      FiredEmpty(p, rules[1..]);
      if forall i :: 0 <= i < |rules[1..]| ==> !Fires(p, rules[1..][i]) {
        forall i | 0 < i < |rules| ensures !Fires(p, rules[i]) {
          assert rules[i] == rules[1..][i - 1];
        }
      }
    }
  }

  /** Unfolds `Fired` for a table of three rules. */
  lemma FiredOfThree(p: Profile, rules: seq<Rule>)
    requires |rules| == 3 && Covers(p, rules)
    ensures Fired(p, rules) == (if Fires(p, rules[0]) then rules[0].out else [])
                             + (if Fires(p, rules[1]) then rules[1].out else [])
                             + (if Fires(p, rules[2]) then rules[2].out else [])
  {
    var r1 := rules[1..];
    var r2 := r1[1..];
    assert r1[0] == rules[1] && r2[0] == rules[2] && r2[1..] == [];
    assert Fired(p, r2) == (if Fires(p, rules[2]) then rules[2].out else []) + Fired(p, r2[1..]);
    assert Fired(p, r1) == (if Fires(p, rules[1]) then rules[1].out else []) + Fired(p, r2);
  }

  // ----- interpret_profile -----

  const HighlightDrive := "밀어붙이는 저력과 회복탄력이 살아있어. 파고들면 성과 난다."
  const HighlightFlow := "몰입감이 좋아. 창의 모드 켜면 시간 순삭되는 타입."
  const HighlightCoping := "스트레스 설계가 가능해. 우선순위·분할·표현 루틴이 작동 중."

  const CautionMood := "감정 파도가 잦아. 수면·호흡·루틴 정비가 필요해."
  const CautionAttach := "관계 피로 누적. 경계 세우기와 솔직한 한 줄 표현 연습이 도움돼."
  const CautionCoping := "대처력이 바닥까지 떨어지면 체력부터 회수하자. 최소 루틴으로 재부팅."

  const Suggestions := [
    "수면 고정: 취침/기상 7일 연속 고정, 낮잠은 20분 컷.",
    "호흡 4-7-8, 3세트. 불안감 올라올 때 즉시 실행.",
    "30분 타임박싱(작게 쪼개서 바로 시작) + 끝나면 5분 보상.",
    "관계 경계 문장 3개 미리 준비: ‘지금은 어려워’, ‘다음에 이야기하자’, ‘내 페이스로 갈게’",
    "아이디어 배출 10개/일, 평가 금지. 주 1회만 선별."]

  const TodayRecover := "몸 먼저 살리고, 일은 작게. 오늘은 ‘완벽’ 대신 ‘시작’."
  const TodayGo := "바람 불 때 돛 올려. 지금은 실행 모드 ON."
  const TodaySteady := "작게라도 한 칸. 리듬이 곧 안정이야."

  /** The highlight thresholds, in the order the source checks them. */
  const HighlightRules := [
    Rule(DriveScore, AtLeast, 60.0, [HighlightDrive]),
    Rule(FlowScore, AtLeast, 60.0, [HighlightFlow]),
    Rule(CopingPower, AtLeast, 60.0, [HighlightCoping])]

  /** The caution thresholds, in the order the source checks them. */
  const CautionRules := [
    Rule(MoodComfort, Below, 50.0, [CautionMood]),
    Rule(AttachSecurity, Below, 50.0, [CautionAttach]),
    Rule(CopingPower, Below, 40.0, [CautionCoping])]

  datatype Interpretation = Interpretation(
    highlights: seq<string>, cautions: seq<string>, suggestions: seq<string>, today: string)

  /**
   * `interpret_profile`: appends a highlight per strong dimension and a caution
   * per weak one, always the same five suggestions, and one line for today
   * chosen by the first matching rule.
   */
  method Interpret(profile: Profile) returns (r: Interpretation)
    requires ProfileKeys <= profile.Keys
    ensures r.highlights == Fired(profile, HighlightRules)
    ensures r.cautions == Fired(profile, CautionRules)
    ensures r.suggestions == Suggestions
    ensures profile[MoodComfort] < 50.0 && profile[CopingPower] < 50.0 ==> r.today == TodayRecover
    ensures (!(profile[MoodComfort] < 50.0 && profile[CopingPower] < 50.0)
             && profile[DriveScore] >= 60.0 && profile[FlowScore] >= 60.0) ==> r.today == TodayGo
    ensures (!(profile[MoodComfort] < 50.0 && profile[CopingPower] < 50.0)
             && !(profile[DriveScore] >= 60.0 && profile[FlowScore] >= 60.0)) ==> r.today == TodaySteady
  {
    var highlights := Highlights(profile);
    var cautions := Cautions(profile);
    var suggestions: seq<string> := [];
    suggestions := suggestions + Suggestions;
    var today := Today(profile);
    r := Interpretation(highlights, cautions, suggestions, today);
  }

  /** The highlight block of `interpret_profile`. */
  method Highlights(profile: Profile) returns (highlights: seq<string>)
    requires ProfileKeys <= profile.Keys
    ensures highlights == Fired(profile, HighlightRules)
  {
    highlights := [];
    if profile[DriveScore] >= 60.0 {
      highlights := highlights + [HighlightDrive];
    }
    if profile[FlowScore] >= 60.0 {
      highlights := highlights + [HighlightFlow];
    }
    if profile[CopingPower] >= 60.0 {
      highlights := highlights + [HighlightCoping];
    }
    FiredOfThree(profile, HighlightRules);
  }

  /** The caution block of `interpret_profile`. */
  method Cautions(profile: Profile) returns (cautions: seq<string>)
    requires ProfileKeys <= profile.Keys
    ensures cautions == Fired(profile, CautionRules)
  {
    cautions := [];
    if profile[MoodComfort] < 50.0 {
      cautions := cautions + [CautionMood];
    }
    if profile[AttachSecurity] < 50.0 {
      cautions := cautions + [CautionAttach];
    }
    if profile[CopingPower] < 40.0 {
      cautions := cautions + [CautionCoping];
    }
    FiredOfThree(profile, CautionRules);
  }

  /** The one-line prescription of `interpret_profile`: the first matching case wins. */
  method Today(profile: Profile) returns (today: string)
    requires ProfileKeys <= profile.Keys
    ensures profile[MoodComfort] < 50.0 && profile[CopingPower] < 50.0 ==> today == TodayRecover
    ensures (!(profile[MoodComfort] < 50.0 && profile[CopingPower] < 50.0)
             && profile[DriveScore] >= 60.0 && profile[FlowScore] >= 60.0) ==> today == TodayGo
    ensures (!(profile[MoodComfort] < 50.0 && profile[CopingPower] < 50.0)
             && !(profile[DriveScore] >= 60.0 && profile[FlowScore] >= 60.0)) ==> today == TodaySteady
  {
    var mood := profile[MoodComfort];
    var coping := profile[CopingPower];
    var drive := profile[DriveScore];
    var flow := profile[FlowScore];
    if mood < 50.0 && coping < 50.0 {
      today := TodayRecover;
    } else if drive >= 60.0 && flow >= 60.0 {
      today := TodayGo;
    } else {
      today := TodaySteady;
    }
  }

  /** Which messages appear: each highlight and caution exactly when its threshold is met. */
  lemma InterpretMessages(p: Profile)
    requires ProfileKeys <= p.Keys
    ensures HighlightDrive in Fired(p, HighlightRules) <==> p[DriveScore] >= 60.0
    ensures HighlightFlow in Fired(p, HighlightRules) <==> p[FlowScore] >= 60.0
    ensures HighlightCoping in Fired(p, HighlightRules) <==> p[CopingPower] >= 60.0
    ensures CautionMood in Fired(p, CautionRules) <==> p[MoodComfort] < 50.0
    ensures CautionAttach in Fired(p, CautionRules) <==> p[AttachSecurity] < 50.0
    ensures CautionCoping in Fired(p, CautionRules) <==> p[CopingPower] < 40.0
    ensures |Fired(p, HighlightRules)| <= 3 && |Fired(p, CautionRules)| <= 3
  {
    FiredOfThree(p, HighlightRules);
    FiredOfThree(p, CautionRules);
    assert HighlightDrive[0] == '밀' && HighlightFlow[0] == '몰' && HighlightCoping[0] == '스';
    assert CautionMood[0] == '감' && CautionAttach[0] == '관' && CautionCoping[0] == '대';
  }

  // ----- derive_themes -----

  const FallbackThemes := ["기분 좋은 여운", "밸런스 좋은 서사"]

  /** The theme thresholds, in the order the source checks them. */
  const RecoveryThemes := ["힐링", "정서 회복"]
  const GrowthThemes := ["성장", "재기", "작은 용기"]
  const RelationThemes := ["우정", "자기 경계", "진심 소통"]
  const AdventureThemes := ["모험", "도전"]
  const ImaginationThemes := ["상상력", "예술", "독특한 서사"]

  const ThemeRules := [
    Rule(MoodComfort, Below, 50.0, RecoveryThemes),
    Rule(CopingPower, Below, 50.0, GrowthThemes),
    Rule(AttachSecurity, Below, 50.0, RelationThemes),
    Rule(DriveScore, AtLeast, 60.0, AdventureThemes),
    Rule(FlowScore, AtLeast, 60.0, ImaginationThemes)]

  /** `Fired` over a prefix of the table grows by one rule at a time. */
  lemma {:induction false} FiredStep(p: Profile, rules: seq<Rule>, k: nat)
    requires k < |rules| && Covers(p, rules)
    ensures Fired(p, rules[..k + 1])
            == Fired(p, rules[..k]) + (if Fires(p, rules[k]) then rules[k].out else [])
  {
    if k == 0 {
      assert rules[..1][1..] == [];
    } else {
      FiredStep(p, rules[1..], k - 1);
      assert rules[..k + 1][1..] == rules[1..][..k];
      assert rules[..k][1..] == rules[1..][..k - 1];
    }
  }

  /** No theme rule can produce a fallback theme. */
  lemma FallbackNotFromRules()
    ensures forall i :: 0 <= i < |ThemeRules| ==> FallbackThemes[0] !in ThemeRules[i].out
  {
    assert FallbackThemes[0][0] == '기';
    assert forall i, t :: 0 <= i < |ThemeRules| && t in ThemeRules[i].out ==> t[0] != '기';
  }

  /** Specification of `derive_themes`: fired themes in rule order, else the fallback pair, de-duplicated. */
  function ThemeList(p: Profile): (themes: seq<string>)
    requires ProfileKeys <= p.Keys
    ensures themes != [] && NoDup(themes)
  {
    var fired := Fired(p, ThemeRules);
    Dedup(if fired == [] then FallbackThemes else fired)
  }

  predicate NoThemeRuleFires(p: Profile)
    requires ProfileKeys <= p.Keys
  {
    forall i :: 0 <= i < |ThemeRules| ==> !Fires(p, ThemeRules[i])
  }

  /**
   * The theme list is never empty, has no duplicates, is exactly the fallback
   * pair when no rule fires, and holds exactly the themes of the rules that fire.
   */
  lemma ThemeListProperties(p: Profile)
    requires ProfileKeys <= p.Keys
    ensures ThemeList(p) != [] && NoDup(ThemeList(p))
    ensures ThemeList(p) == FallbackThemes <==> NoThemeRuleFires(p)
    ensures forall t :: t in ThemeList(p) <==>
              (exists i :: 0 <= i < |ThemeRules| && Fires(p, ThemeRules[i]) && t in ThemeRules[i].out)
              || (NoThemeRuleFires(p) && t in FallbackThemes)
  {
    var fired := Fired(p, ThemeRules);
    FiredEmpty(p, ThemeRules);
    forall t ensures t in fired <==>
        exists i :: 0 <= i < |ThemeRules| && Fires(p, ThemeRules[i]) && t in ThemeRules[i].out {
      FiredMembers(p, ThemeRules, t);
    }
    if fired != [] {
      FallbackNotFromRules();
      assert FallbackThemes[0] !in ThemeList(p);
    } else {
      DedupOfNoDup(FallbackThemes);
    }
  }

  /** The first three conditional appends of `derive_themes` (the `< 50` rules). */
  method CollectLowThemes(profile: Profile) returns (raw: seq<string>)
    requires ProfileKeys <= profile.Keys
    ensures raw == Fired(profile, ThemeRules[..3])
  {
    raw := [];
    assert Fired(profile, ThemeRules[..0]) == [];
    if profile[MoodComfort] < 50.0 {
      raw := raw + RecoveryThemes;
    }
    FiredStep(profile, ThemeRules, 0);
    assert raw == Fired(profile, ThemeRules[..1]);
    if profile[CopingPower] < 50.0 {
      raw := raw + GrowthThemes;
    }
    FiredStep(profile, ThemeRules, 1);
    assert raw == Fired(profile, ThemeRules[..2]);
    if profile[AttachSecurity] < 50.0 {
      raw := raw + RelationThemes;
    }
    FiredStep(profile, ThemeRules, 2);
  }

  /** The five conditional `themes +=` of `derive_themes`: the fired rules' themes, in rule order. */
  method CollectThemes(profile: Profile) returns (raw: seq<string>)
    requires ProfileKeys <= profile.Keys
    ensures raw == Fired(profile, ThemeRules)
  {
    raw := CollectLowThemes(profile);
    if profile[DriveScore] >= 60.0 {
      raw := raw + AdventureThemes;
    }
    FiredStep(profile, ThemeRules, 3);
    assert raw == Fired(profile, ThemeRules[..4]);
    if profile[FlowScore] >= 60.0 {
      raw := raw + ImaginationThemes;
    }
    FiredStep(profile, ThemeRules, 4);
    assert ThemeRules[..5] == ThemeRules;
  }

  /**
   * `derive_themes`: collects the themes of every threshold rule that fires,
   * falls back to the fixed pair, and de-duplicates keeping first occurrences.
   */
  method DeriveThemes(profile: Profile) returns (themes: seq<string>)
    requires ProfileKeys <= profile.Keys
    ensures themes == ThemeList(profile)
    ensures themes != [] && NoDup(themes)
    ensures themes == FallbackThemes <==> NoThemeRuleFires(profile)
  {
    var raw := CollectThemes(profile);
    if raw == [] {
      raw := FallbackThemes;
    }
    themes := Dedup(raw);
    ThemeListProperties(profile);
  }
}
