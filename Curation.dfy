/**
 * From themes to film titles, and from a title to a display record: the static
 * theme bank, the local backup pool, title curation, the shaping of a fetched
 * TMDB record, and the local fallback when fetching fails.
 *
 * Search results and movie details are parameters: the HTTP calls that would
 * produce them are not part of this model.
 */
module Curation {
  import opened Wrappers
  import opened Text
  import opened Lists

  /** A display record: fetched from TMDB, or one of the local backups. */
  datatype Movie = Movie(
    title: string,
    year: string,
    overview: string,
    posterUrl: Option<string>,
    cast: seq<string>,
    tmdbId: Option<int>)

  /** LOCAL_POOL: backups that need no API (they carry no TMDB id). */
  const LocalPool: seq<Movie> := [
    Movie("리틀 포레스트", "2018",
      "도시 생활에 지친 주인공이 고향으로 돌아와 사계절을 살며 자신을 회복해가는 이야기.",
      Some("https://mblogthumb-phinf.pstatic.net/20180303_71/with_at_1519992865993S0hgu_JPEG/IMG_0815.JPG?type=w800"),
      ["김태리", "류준열", "진기주"], None),
    Movie("월터의 상상은 현실이 된다", "2013",
      "평범했던 삶을 벗어나 모험을 떠나는 월터의 성장기.",
      Some("https://mblogthumb-phinf.pstatic.net/20140124_64/kiriko73_1390539319895cO0AS_JPEG/20140124_112705.jpg?type=w800"),
      ["Ben Stiller", "Kristen Wiig"], None),
    Movie("말할 수 없는 비밀", "2008",
      "피아노 선율 속 시간과 사랑을 넘나드는 청춘 로맨스.",
      Some("https://mblogthumb-phinf.pstatic.net/20160509_69/yhlee0109_1462798268309h2nU2_JPEG/1.jpg?type=w800"),
      ["주걸륜", "계륜미"], None),
    Movie("인사이드 아웃", "2015",
      "머릿속 감정들의 분투기. 감정을 이해하고 받아들이는 여정.",
      Some("https://mblogthumb-phinf.pstatic.net/20150714_43/dnjscl_1436862296523dZyXh_JPEG/insideoutposter.jpg?type=w800"),
      ["Amy Poehler", "Phyllis Smith"], None)
  ]

  /** `[m["title"] for m in LOCAL_POOL]` */
  const PoolTitles: seq<string> := [LocalPool[0].title, LocalPool[1].title, LocalPool[2].title, LocalPool[3].title]

  // ----- curate_titles_by_themes -----

  /** The theme bank: three candidate titles per known theme. */
  const Bank: map<string, seq<string>> := map[
    "힐링" := ["리틀 포레스트", "코코", "인사이드 아웃"],
    "정서 회복" := ["원더", "웡카", "업"],
    "성장" := ["월터의 상상은 현실이 된다", "굿 윌 헌팅", "세상의 모든 계절"],
    "재기" := ["라라랜드", "위대한 쇼맨", "인턴"],
    "작은 용기" := ["소울", "빌리 엘리어트", "파수꾼"],
    "우정" := ["스탠 바이 미", "하이큐!!", "우리들"],
    "자기 경계" := ["설국열차", "벌새", "미스 리틀 선샤인"],
    "진심 소통" := ["말할 수 없는 비밀", "이터널 선샤인", "라라랜드"],
    "모험" := ["인터스텔라", "듄", "탑건: 매버릭"],
    "도전" := ["위플래쉬", "포드 V 페라리", "보헤미안 랩소디"],
    "상상력" := ["에브리씽 에브리웨어 올 앳 원스", "이터널 선샤인", "이상한 나라의 수학자"],
    "예술" := ["비긴 어게인", "퍼스트맨", "블랙스완"],
    "독특한 서사" := ["메멘토", "인셉션", "히든 피겨스"],
    "기분 좋은 여운" := ["리틀 포레스트", "어바웃 타임", "플립"],
    "밸런스 좋은 서사" := ["그랜드 부다페스트 호텔", "컨택트", "마션"]
  ]

  /** `bank.get(t, [])`: an unknown theme contributes nothing. */
  function BankTitles(bank: map<string, seq<string>>, theme: string): (titles: seq<string>)
    ensures theme in bank ==> titles == bank[theme]
    ensures theme !in bank ==> titles == []
  {
    if theme in bank then bank[theme] else []
  }

  /** The bank titles of the themes, concatenated in theme order. */
  function Gathered(bank: map<string, seq<string>>, themes: seq<string>): (titles: seq<string>)
    ensures forall x :: x in titles ==> exists i :: 0 <= i < |themes| && themes[i] in bank && x in bank[themes[i]]
  {
    if themes == [] then [] else Gathered(bank, themes[..|themes| - 1]) + BankTitles(bank, themes[|themes| - 1])
  }

  /** The list handed to de-duplication: bank titles, padded with the pool when fewer than six. */
  function Candidates(themes: seq<string>): (c: seq<string>)
    ensures c != []
    ensures |Gathered(Bank, themes)| <= |c|
    ensures forall k :: 0 <= k < |Gathered(Bank, themes)| ==> c[k] == Gathered(Bank, themes)[k]
    ensures forall x :: x in c ==> x in Gathered(Bank, themes) || x in PoolTitles
  {
    var titles := Gathered(Bank, themes);
    if |titles| < 6 then titles + PoolTitles else titles
  }

  /** Gathering distributes over concatenation of theme lists. */
  lemma {:induction false} GatheredAppend(bank: map<string, seq<string>>, a: seq<string>, b: seq<string>)
    ensures Gathered(bank, a + b) == Gathered(bank, a) + Gathered(bank, b)
  {
    if b == [] {
      assert a + b == a;
    } else {
      var init, last := b[..|b| - 1], b[|b| - 1];
      var ab := a + b;
      assert ab[..|ab| - 1] == a + init;
      assert ab[|ab| - 1] == last;
      calc {
        Gathered(bank, ab);
        Gathered(bank, a + init) + BankTitles(bank, last);
        { GatheredAppend(bank, a, init); }
        Gathered(bank, a) + Gathered(bank, init) + BankTitles(bank, last);
        Gathered(bank, a) + Gathered(bank, b);
      }
    }
  }

  /** A title is gathered exactly when the bank lists it under one of the themes. */
  lemma {:induction false} GatheredMembers(bank: map<string, seq<string>>, themes: seq<string>, x: string)
    ensures x in Gathered(bank, themes) <==>
              exists i :: 0 <= i < |themes| && themes[i] in bank && x in bank[themes[i]]
  {
    if themes != [] {
      var init := themes[..|themes| - 1];
      GatheredMembers(bank, init, x);
      if exists i :: 0 <= i < |themes| && themes[i] in bank && x in bank[themes[i]] {
        var i :| 0 <= i < |themes| && themes[i] in bank && x in bank[themes[i]];
        if i < |init| {
          assert init[i] == themes[i];
        }
      }
    }
  }

  /** A theme the bank does not know can be dropped without changing anything. */
  lemma UnknownThemeContributesNothing(bank: map<string, seq<string>>, a: seq<string>, t: string, b: seq<string>)
    requires t !in bank
    ensures Gathered(bank, a + [t] + b) == Gathered(bank, a + b)
  {
    assert [t][..0] == [];
    assert Gathered(bank, [t]) == [];
    calc {
      Gathered(bank, a + [t] + b);
      { GatheredAppend(bank, a + [t], b); }
      Gathered(bank, a + [t]) + Gathered(bank, b);
      { GatheredAppend(bank, a, [t]); }
      Gathered(bank, a) + Gathered(bank, b);
      { GatheredAppend(bank, a, b); }
      Gathered(bank, a + b);
    }
  }

  /** Specification of `curate_titles_by_themes`: the first nine distinct candidates. */
  function Curated(themes: seq<string>): (r: seq<string>)
    ensures |r| <= 9
    ensures forall x :: x in r ==> x in Candidates(themes)
  {
    Take(Dedup(Candidates(themes)), 9)
  }

  /**
   * The curated list is non-empty, at most nine long and duplicate-free; every
   * title comes from the bank entries of the given themes or from the pool; the
   * pool is used only when the bank yields fewer than six titles, and then all
   * of it is kept.
   */
  lemma CuratedSources(themes: seq<string>)
    ensures 0 < |Curated(themes)| <= 9 && NoDup(Curated(themes))
    ensures forall x :: x in Curated(themes) ==>
              (exists i :: 0 <= i < |themes| && themes[i] in Bank && x in Bank[themes[i]]) || x in PoolTitles
    ensures |Gathered(Bank, themes)| >= 6 ==> forall x :: x in Curated(themes) ==> x in Gathered(Bank, themes)
    ensures |Gathered(Bank, themes)| < 6 ==> forall x :: x in PoolTitles ==> x in Curated(themes)
  {
    var g := Gathered(Bank, themes);
    var cands := Candidates(themes);
    var d := Dedup(cands);
    var r := Curated(themes);
    forall x ensures x in g <==>
        exists i :: 0 <= i < |themes| && themes[i] in Bank && x in Bank[themes[i]] {
      GatheredMembers(Bank, themes, x);
    }
    assert forall x :: x in r ==> x in d;
    if |g| < 6 {
      assert cands == g + PoolTitles;
      assert |d| <= 9;
      assert r == d;
    } else {
      assert cands == g;
    }
  }

  /**
   * Keeping the first `n` distinct elements of a list keeps them in their order
   * of first occurrence, and drops an element only when `n` are already kept,
   * all of which occur earlier.
   */
  lemma FirstDistinctOrder(cands: seq<string>, n: nat)
    ensures var r := Take(Dedup(cands), n);
            forall i, j :: 0 <= i < j < |r| ==> FirstIndex(cands, r[i]) < FirstIndex(cands, r[j])
    ensures var r := Take(Dedup(cands), n);
            forall x :: x in cands && x !in r ==>
              |r| == n && forall y :: y in r ==> FirstIndex(cands, y) < FirstIndex(cands, x)
  {
    var d := Dedup(cands);
    var r := Take(d, n);
    DedupKeepsFirstOccurrenceOrder(cands);
    assert r == d[..|r|];
    forall x | x in cands && x !in r
      ensures |r| == n && forall y :: y in r ==> FirstIndex(cands, y) < FirstIndex(cands, x)
    {
      var k :| 0 <= k < |d| && d[k] == x;
      forall y | y in r ensures FirstIndex(cands, y) < FirstIndex(cands, x) {
        var j :| 0 <= j < |r| && r[j] == y;
        assert d[j] == y;
      }
    }
  }

  /**
   * The curated list holds the first distinct candidates in their order of
   * first occurrence, and drops a candidate only when nine are already kept.
   */
  lemma CuratedOrder(themes: seq<string>)
    ensures forall i, j :: 0 <= i < j < |Curated(themes)| ==>
              FirstIndex(Candidates(themes), Curated(themes)[i]) < FirstIndex(Candidates(themes), Curated(themes)[j])
    ensures forall x :: x in Candidates(themes) && x !in Curated(themes) ==>
              |Curated(themes)| == 9 &&
              forall y :: y in Curated(themes) ==> FirstIndex(Candidates(themes), y) < FirstIndex(Candidates(themes), x)
  {
    FirstDistinctOrder(Candidates(themes), 9);
  }

  /**
   * `curate_titles_by_themes`: gathers the themes' bank entries, pads with the
   * local pool when fewer than six, de-duplicates and keeps at most nine.
   */
  method CurateTitles(themes: seq<string>) returns (r: seq<string>)
    ensures r == Curated(themes)
    ensures 0 < |r| <= 9 && NoDup(r)
    ensures forall x :: x in r ==>
              (exists i :: 0 <= i < |themes| && themes[i] in Bank && x in Bank[themes[i]]) || x in PoolTitles
  {
    var titles: seq<string> := [];
    for i := 0 to |themes|
      invariant titles == Gathered(Bank, themes[..i])
    {
      assert themes[..i + 1][..i] == themes[..i];
      titles := titles + BankTitles(Bank, themes[i]);
    }
    assert themes[..|themes|] == themes;
    if |titles| < 6 {
      titles := titles + PoolTitles;
    }
    titles := Dedup(titles);
    r := Take(titles, 9);
    CuratedSources(themes);
  }

  // ----- fetch_movie_by_title: shaping a TMDB record -----

  datatype CastEntry = CastEntry(name: Option<string>, character: Option<string>)

  /** One hit of a movie search. */
  datatype SearchHit = SearchHit(id: int, title: Option<string>, overview: Option<string>)

  /** The fields of a movie-details reply (with `credits` appended) that are read. */
  datatype Details = Details(
    id: Option<int>,
    title: Option<string>,
    overview: Option<string>,
    posterPath: Option<string>,
    releaseDate: Option<string>,
    cast: seq<CastEntry>)

  const PosterBase := "https://image.tmdb.org/t/p/w500"
  const NoOverview := "줄거리 정보가 준비 중이에요."

  /** A named cast entry as shown: "name (character)", or the bare name without a character. */
  function CastText(c: CastEntry): (line: string)
    requires Truthy(c.name)
    ensures Truthy(c.character) ==> line == c.name.value + " (" + c.character.value + ")"
    ensures !Truthy(c.character) ==> line == c.name.value
  {
    if Truthy(c.character) then c.name.value + " (" + c.character.value + ")" else c.name.value
  }

  /** The shown cast: one text per named entry, in order; entries without a name are skipped. */
  function FormatCast(cast: seq<CastEntry>): (r: seq<string>)
    ensures |r| <= |cast|
  {
    if cast == [] then []
    else
      var last := cast[|cast| - 1];
      FormatCast(cast[..|cast| - 1]) + (if Truthy(last.name) then [CastText(last)] else [])
  }

  /** Every shown entry is the text of some named entry, at most one per entry. */
  lemma {:induction false} FormatCastProperties(cast: seq<CastEntry>)
    ensures |FormatCast(cast)| <= |cast|
    ensures forall s :: s in FormatCast(cast) ==>
              exists k :: 0 <= k < |cast| && Truthy(cast[k].name) && s == CastText(cast[k])
  {
    if cast != [] {
      var init := cast[..|cast| - 1];
      FormatCastProperties(init);
      forall s | s in FormatCast(cast)
        ensures exists k :: 0 <= k < |cast| && Truthy(cast[k].name) && s == CastText(cast[k])
      {
        if s in FormatCast(init) {
          var k :| 0 <= k < |init| && Truthy(init[k].name) && s == CastText(init[k]);
          assert cast[k] == init[k];
        } else {
          assert Truthy(cast[|cast| - 1].name) && s == CastText(cast[|cast| - 1]);
        }
      }
    }
  }

  /** When every entry is named, the shown cast is exactly their texts, in entry order. */
  lemma {:induction false} FormatCastAllNamed(cast: seq<CastEntry>)
    requires forall k :: 0 <= k < |cast| ==> Truthy(cast[k].name)
    ensures |FormatCast(cast)| == |cast|
    ensures forall k :: 0 <= k < |cast| ==> FormatCast(cast)[k] == CastText(cast[k])
  {
    if cast != [] {
      var init := cast[..|cast| - 1];
      FormatCastAllNamed(init);
      forall k | 0 <= k < |init| ensures FormatCast(cast)[k] == CastText(cast[k]) {
        assert init[k] == cast[k];
      }
    }
  }

  /** Every named entry is shown: an unnamed one is skipped, not a stopping point. */
  lemma {:induction false} FormatCastShowsNamed(cast: seq<CastEntry>, k: nat)
    requires k < |cast| && Truthy(cast[k].name)
    ensures CastText(cast[k]) in FormatCast(cast)
  {
    var init := cast[..|cast| - 1];
    if k < |init| {
      assert init[k] == cast[k];
      FormatCastShowsNamed(init, k);
    }
  }

  /** One entry is shown as its text when it is named, and not at all otherwise. */
  lemma FormatCastOne(c: CastEntry)
    ensures FormatCast([c]) == if Truthy(c.name) then [CastText(c)] else []
  {
    assert [c][..0] == [];
  }

  /**
   * Formatting goes entry by entry: the lines of `a + b` are those of `a`
   * followed by those of `b`. With `FormatCastOne` this fixes the order of the
   * shown lines.
   */
  lemma {:induction false} FormatCastAppend(a: seq<CastEntry>, b: seq<CastEntry>)
    ensures FormatCast(a + b) == FormatCast(a) + FormatCast(b)
  {
    if b == [] {
      assert a + b == a;
    } else {
      var init, last := b[..|b| - 1], b[|b| - 1];
      var ab := a + b;
      assert ab[..|ab| - 1] == a + init;
      assert ab[|ab| - 1] == last;
      var tail := if Truthy(last.name) then [CastText(last)] else [];
      calc {
        FormatCast(ab);
        FormatCast(a + init) + tail;
        { FormatCastAppend(a, init); }
        FormatCast(a) + FormatCast(init) + tail;
        FormatCast(a) + FormatCast(b);
      }
    }
  }

  /** The cast loop of `fetch_movie_by_title`: formats the first five credited entries. */
  method FormatTopCast(cast: seq<CastEntry>) returns (castList: seq<string>)
    ensures castList == FormatCast(Take(cast, 5))
    ensures |castList| <= 5
  {
    var top := Take(cast, 5);
    castList := [];
    for i := 0 to |top|
      invariant castList == FormatCast(top[..i])
    {
      assert top[..i + 1][..i] == top[..i];
      var c := top[i];
      if Truthy(c.name) && Truthy(c.character) {
        castList := castList + [c.name.value + " (" + c.character.value + ")"];
      } else if Truthy(c.name) {
        castList := castList + [c.name.value];
      }
    }
    assert top[..|top|] == top;
    FormatCastProperties(top);
  }

  /**
   * The record `fetch_movie_by_title` builds from the first hit and its
   * details: each field takes the first truthy source, the overview is
   * stripped, the year is the first four characters of the release date, and
   * the cast is the formatted first five entries.
   */
  function ShapeRecord(title: string, hit: SearchHit, d: Details): (m: Movie)
    ensures Truthy(d.title) ==> m.title == d.title.value
    ensures !Truthy(d.title) && Truthy(hit.title) ==> m.title == hit.title.value
    ensures !Truthy(d.title) && !Truthy(hit.title) ==> m.title == title
    ensures Truthy(d.releaseDate) ==> m.year == Take(d.releaseDate.value, 4)
    ensures !Truthy(d.releaseDate) ==> m.year == []
    ensures Truthy(d.overview) ==> m.overview == Strip(d.overview.value)
    ensures !Truthy(d.overview) && Truthy(hit.overview) ==> m.overview == Strip(hit.overview.value)
    ensures !Truthy(d.overview) && !Truthy(hit.overview) ==> m.overview == Strip(NoOverview)
    ensures m.posterUrl.Some? <==> Truthy(d.posterPath)
    ensures m.posterUrl.Some? ==> m.posterUrl.value == PosterBase + d.posterPath.value
    ensures m.cast == FormatCast(Take(d.cast, 5))
    ensures m.tmdbId == d.id
  {
    var posterUrl := if Truthy(d.posterPath) then Some(PosterBase + d.posterPath.value) else None;
    var overview := OrElse(d.overview, OrElse(hit.overview, NoOverview));
    Movie(OrElse(d.title, OrElse(hit.title, title)), Take(OrElse(d.releaseDate, ""), 4), Strip(overview),
          posterUrl, FormatCast(Take(d.cast, 5)), d.id)
  }

  /** A shaped record's year has at most four characters, its overview no white space at either end, its cast at most five lines. */
  lemma ShapedRecordBounds(title: string, hit: SearchHit, d: Details)
    ensures var m := ShapeRecord(title, hit, d);
            && |m.year| <= 4
            && (m.overview == [] || (m.overview[0] !in WhiteSpace && m.overview[|m.overview| - 1] !in WhiteSpace))
            && |m.cast| <= 5
            && (title != [] ==> m.title != [])
  {
    StripTrimmed(OrElse(d.overview, OrElse(hit.overview, NoOverview)));
    FormatCastProperties(Take(d.cast, 5));
  }

  /**
   * `fetch_movie_by_title`: searches with the preferred year, retries without it
   * only when that finds nothing, takes the first hit's details and shapes the
   * record; `None` when no hit or no details.
   */
  method FetchMovieByTitle(title: string, yearHits: seq<SearchHit>, plainHits: seq<SearchHit>,
                           details: map<int, Details>)
    returns (info: Option<Movie>, retried: bool)
    ensures retried <==> yearHits == []
    ensures var hits := if yearHits != [] then yearHits else plainHits;
            && (info.None? <==> hits == [] || hits[0].id !in details)
            && (info.Some? ==> info.value == ShapeRecord(title, hits[0], details[hits[0].id]))
  {
    var results := yearHits;
    retried := false;
    if results == [] {
      retried := true;
      results := plainHits;
    }
    if results == [] {
      return None, retried;
    }
    var first := results[0];
    if first.id !in details {
      return None, retried;
    }
    var d := details[first.id];
    var posterUrl := if Truthy(d.posterPath) then Some(PosterBase + d.posterPath.value) else None;
    var overview := OrElse(d.overview, OrElse(first.overview, NoOverview));
    var castList := FormatTopCast(d.cast);
    var year := Take(OrElse(d.releaseDate, ""), 4);
    info := Some(Movie(OrElse(d.title, OrElse(first.title, title)), year, Strip(overview),
                       posterUrl, castList, d.id));
  }

  // ----- enrich_movie -----

  /**
   * `enrich_movie`: the fetched record when there is one; otherwise the pool
   * entry with that title, or the first pool entry.
   */
  method EnrichMovie(title: string, fetched: Option<Movie>) returns (m: Movie)
    ensures fetched.Some? ==> m == fetched.value
    ensures fetched.None? && title in PoolTitles ==> m in LocalPool && m.title == title
    ensures fetched.None? && title !in PoolTitles ==> m == LocalPool[0]
  {
    if fetched.Some? {
      return fetched.value;
    }
    for k := 0 to |LocalPool|
      invariant forall j :: 0 <= j < k ==> LocalPool[j].title != title
    {
      if LocalPool[k].title == title {
        return LocalPool[k];
      }
    }
    assert forall j :: 0 <= j < 4 ==> PoolTitles[j] == LocalPool[j].title;
    m := LocalPool[0];
  }
}
