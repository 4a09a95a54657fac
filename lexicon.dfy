/** The LexiconLookup: the static word table `kansengo_dict`, keyed by a pair
    of bucket labels, and `get_kansengo_for_6region`, which gathers the words
    of one region's bucket pairs. */
module Lexicon {
  import opened Regions
  import Rounding

  datatype Option<T> = None | Some(value: T)

  /** The word table: one entry for each of the 36 pairs of bucket labels. */
  const KansengoDict: map<(int, int), seq<string>> := map[
    (-3, -3) := ["絶望", "恐怖", "悲劇"], (-3, -2) := ["後悔", "苦い記憶", "屈辱"], (-3, -1) := ["切ない", "物悲しい", "哀愁"],
    (-3, 1) := ["思い出", "懐かしさ", "優しさ"], (-3, 2) := ["ほっとする", "癒される", "ふるさと"], (-3, 3) := ["懐かしい", "微笑ましい", "優しい"],
    (-2, -3) := ["喪失", "崩壊", "絶体絶命"], (-2, -2) := ["屈折", "恨み", "悔しさ"], (-2, -1) := ["寂しさ", "胸苦しさ", "胸が痛む"],
    (-2, 1) := ["涙", "静けさ", "柔らかい"], (-2, 2) := ["安らぎ", "やさしさ", "包まれる"], (-2, 3) := ["思い出深い", "しみじみ", "穏やか"],
    (-1, -3) := ["深い悲しみ", "絶望的", "闇"], (-1, -2) := ["孤独", "心配", "閉塞感"], (-1, -1) := ["感傷的", "涙ぐむ", "やるせない"],
    (-1, 1) := ["静か", "控えめな幸福", "静かな喜び"], (-1, 2) := ["安心", "和やか", "満たされる"], (-1, 3) := ["ノスタルジー", "郷愁", "情緒的"],
    (1, -3) := ["虚無", "混乱", "崩れ落ちる"], (1, -2) := ["無力感", "疲弊", "空虚"], (1, -1) := ["不安", "焦り", "違和感"],
    (1, 1) := ["落ち着く", "平穏", "自然体"], (1, 2) := ["安定", "信頼", "心地よい"], (1, 3) := ["感動", "感激", "胸が熱くなる"],
    (2, -3) := ["絶望感", "破滅", "終焉"], (2, -2) := ["焦燥", "恐れ", "動揺"], (2, -1) := ["迷い", "不確か", "揺らぎ"],
    (2, 1) := ["興味", "関心", "好奇心"], (2, 2) := ["期待", "楽しみ", "前向き"], (2, 3) := ["ワクワク", "高揚", "胸躍る"],
    (3, -3) := ["滅亡", "無価値", "未来喪失感"], (3, -2) := ["不信", "諦め", "破綻の予感"], (3, -1) := ["漠然とした不安", "予測不能", "緊張感"],
    (3, 1) := ["予感", "兆し", "可能性の芽"], (3, 2) := ["成長", "挑戦", "飛躍", "未来志向"], (3, 3) := ["希望", "夢", "可能性", "輝き"]
  ]

  /** The fallback word list's one word (該当なし, "not applicable"). */
  const NotApplicable: string := "該当なし"

  /** `table.get((x, y), [])`: a missing pair contributes nothing, so any
      word comes from the pair's own entry; over a complete table a pair of
      bucket labels always finds its entry of three or four words. */
  function Get(table: map<(int, int), seq<string>>, x: int, y: int): (words: seq<string>)
    ensures (x, y) in table ==> words == table[(x, y)]
    ensures words != [] ==> (x, y) in table
    ensures Complete(table) && Rounding.IsBucket(x) && Rounding.IsBucket(y) ==> 3 <= |words| <= 4
  {
    if (x, y) in table then table[(x, y)] else []
  }

  /** The x values scanned for a time: past {-3, -2}, present {-1, 1},
      future {2, 3}, ascending. */
  function XSet(t: Tense): seq<int> {
    match t
    case Past => [-3, -2]
    case Present => [-1, 1]
    case Future => [2, 3]
  }

  /** The y values scanned for a sign: positive {1, 2, 3}, negative
      {-3, -2, -1}, ascending; neutral scans nothing. */
  function YSet(g: Sign): seq<int> {
    match g
    case Positive => [1, 2, 3]
    case Negative => [-3, -2, -1]
    case Neutral => []
  }

  /** The if/elif chain of the lookup: the pair of value lists scanned for a
      region string, or None for a neutral or unrecognised string. The x
      values are those of one time and the y values those of one non-neutral
      sign. */
  function Scan(region: string): (r: Option<(seq<int>, seq<int>)>)
    ensures r.Some? ==> r.value.0 in [XSet(Past), XSet(Present), XSet(Future)]
    ensures r.Some? ==> r.value.1 in [YSet(Positive), YSet(Negative)]
  {
    if region == "過去ポジティブ" then Some(([-3, -2], [1, 2, 3]))
    else if region == "過去ネガティブ" then Some(([-3, -2], [-3, -2, -1]))
    else if region == "現在ポジティブ" then Some(([-1, 1], [1, 2, 3]))
    else if region == "現在ネガティブ" then Some(([-1, 1], [-3, -2, -1]))
    else if region == "未来ポジティブ" then Some(([2, 3], [1, 2, 3]))
    else if region == "未来ネガティブ" then Some(([2, 3], [-3, -2, -1]))
    else None
  }

  /** The inner loop's contribution: the entries of (x, y) for y in `ys`, in
      order. */
  function Row(table: map<(int, int), seq<string>>, x: int, ys: seq<int>): seq<string> {
    if ys == [] then [] else Row(table, x, ys[..|ys| - 1]) + Get(table, x, ys[|ys| - 1])
  }

  /** Both loops: the rows of the x values in `xs`, in order (x outer,
      y inner). */
  function Gather(table: map<(int, int), seq<string>>, xs: seq<int>, ys: seq<int>): seq<string> {
    if xs == [] then [] else Gather(table, xs[..|xs| - 1], ys) + Row(table, xs[|xs| - 1], ys)
  }

  /** What the lookup returns for a region string: the gathered words, or
      the one-word fallback when nothing was gathered. This is the
      functional specification that `GetKansengoFor6Region` is proved equal
      to. */
  function Kansengo(region: string): (words: seq<string>)
    ensures words != []
    ensures Scan(region).None? ==> words == [NotApplicable]
  {
    var gathered := match Scan(region)
      case None => []
      case Some(sets) => Gather(KansengoDict, sets.0, sets.1);
    if gathered == [] then [NotApplicable] else gathered
  }

  /** The nested `for x` / `for y` loops of one branch: extend an
      accumulator with the entry of each pair, x outer and y inner. */
  method ExtendOver(table: map<(int, int), seq<string>>, xs: seq<int>, ys: seq<int>)
    returns (words: seq<string>)
    ensures words == Gather(table, xs, ys)
  {
    words := [];
    var i := 0;
    while i < |xs|
      invariant 0 <= i <= |xs|
      invariant words == Gather(table, xs[..i], ys)
    {
      words := ExtendRow(table, xs[i], ys, words);
      GatherStep(table, xs, ys, i);
      i := i + 1;
    }
    assert xs[..i] == xs;
  }

  /** The inner `for y` loop for one x value: extend the accumulator with
      the entry of each pair (x, y), y in order. */
  method ExtendRow(table: map<(int, int), seq<string>>, x: int, ys: seq<int>, acc: seq<string>)
    returns (words: seq<string>)
    ensures words == acc + Row(table, x, ys)
  {
    words := acc;
    var j := 0;
    while j < |ys|
      invariant 0 <= j <= |ys|
      invariant words == acc + Row(table, x, ys[..j])
    {
      var entry := Get(table, x, ys[j]);
      RowStep(table, x, ys, j);
      words := words + entry;
      j := j + 1;
    }
    assert ys[..j] == ys;
  }

  /** One more pass of the inner loop adds the entry of the next y value. */
  lemma RowStep(table: map<(int, int), seq<string>>, x: int, ys: seq<int>, j: int)
    requires 0 <= j < |ys|
    ensures Row(table, x, ys[..j + 1]) == Row(table, x, ys[..j]) + Get(table, x, ys[j])
  {
    assert ys[..j + 1][..j] == ys[..j];
  }

  /** One more pass of the outer loop adds the row of the next x value. */
  lemma GatherStep(table: map<(int, int), seq<string>>, xs: seq<int>, ys: seq<int>, i: int)
    requires 0 <= i < |xs|
    ensures Gather(table, xs[..i + 1], ys) == Gather(table, xs[..i], ys) + Row(table, xs[i], ys)
  {
    assert xs[..i + 1][..i] == xs[..i];
  }

  /** `get_kansengo_for_6region`: the branch for the region gathers its
      pairs' words, then an empty result falls back to the one-word list. */
  method GetKansengoFor6Region(region: string) returns (words: seq<string>)
    ensures words == Kansengo(region)
  {
    words := [];
    var sets := Scan(region);
    if sets.Some? {
      words := ExtendOver(KansengoDict, sets.value.0, sets.value.1);
    }
    if words == [] {
      words := [NotApplicable];
    }
  }

  // ---------------------------------------------------------------------
  // Properties of the table and of the lookup
  // ---------------------------------------------------------------------

  /** A table holds an entry of three or four words for every pair of
      bucket labels. */
  ghost predicate Complete(table: map<(int, int), seq<string>>) {
    forall x: int, y: int | Rounding.IsBucket(x) && Rounding.IsBucket(y) ::
      (x, y) in table && 3 <= |table[(x, y)]| <= 4
  }

  /** Every pair of bucket labels has an entry of three or four words. */
  lemma EntryOf(x: int, y: int)
    requires Rounding.IsBucket(x) && Rounding.IsBucket(y)
    ensures (x, y) in KansengoDict
    ensures 3 <= |KansengoDict[(x, y)]| <= 4
  {
  }

  /** The word table holds all 36 pairs. */
  lemma TableComplete()
    ensures Complete(KansengoDict)
  {
    forall x: int, y: int | Rounding.IsBucket(x) && Rounding.IsBucket(y)
      ensures (x, y) in KansengoDict && 3 <= |KansengoDict[(x, y)]| <= 4
    {
      EntryOf(x, y);
    }
  }

  /** The inner loop over three y values gathers their three entries. */
  lemma {:induction false} RowOfThree(table: map<(int, int), seq<string>>, x: int, a: int, b: int, c: int)
    ensures Row(table, x, [a, b, c]) == Get(table, x, a) + Get(table, x, b) + Get(table, x, c)
  {
    assert [a, b, c][..2] == [a, b];
    assert [a, b][..1] == [a];
    assert [a][..0] == [];
    assert Row(table, x, [a]) == Get(table, x, a);
    assert Row(table, x, [a, b]) == Get(table, x, a) + Get(table, x, b);
  }

  /** The outer loop over two x values gathers their two rows. */
  lemma {:induction false} GatherOfTwo(table: map<(int, int), seq<string>>, p: int, q: int, ys: seq<int>)
    ensures Gather(table, [p, q], ys) == Row(table, p, ys) + Row(table, q, ys)
  {
    assert [p, q][..1] == [p];
    assert [p][..0] == [];
    assert Gather(table, [p], ys) == Row(table, p, ys);
  }

  /** The regions that the lookup recognises are exactly the six polar
      labels, with the x values of their time and the y values of their
      sign. */
  lemma ScanOfLabel(t: Tense, g: Sign)
    ensures g == Neutral ==> Scan(Label(t, g)) == None
    ensures g != Neutral ==> Scan(Label(t, g)) == Some((XSet(t), YSet(g)))
  {
    var s := Label(t, g);
    forall t2: Tense, g2: Sign | g2 != Neutral && s == Label(t2, g2)
      ensures t2 == t && g2 == g
    {
      LabelInjective(t, g, t2, g2);
    }
    assert "過去ポジティブ" == Label(Past, Positive);
    assert "過去ネガティブ" == Label(Past, Negative);
    assert "現在ポジティブ" == Label(Present, Positive);
    assert "現在ネガティブ" == Label(Present, Negative);
    assert "未来ポジティブ" == Label(Future, Positive);
    assert "未来ネガティブ" == Label(Future, Negative);
  }

  /** For a polar region the lookup returns the words gathered over the x
      values of its time and the y values of its sign (with `PolarGather`
      and `TableComplete`: the six table entries in loop order), 18 to 24 of
      them, and never the fallback. */
  lemma PolarWords(t: Tense, g: Sign)
    requires g != Neutral
    ensures Kansengo(Label(t, g)) == Gather(KansengoDict, XSet(t), YSet(g))
    ensures 18 <= |Kansengo(Label(t, g))| <= 24
    ensures Kansengo(Label(t, g)) != [NotApplicable]
  {
    ScanOfLabel(t, g);
    TableComplete();
    PolarGather(KansengoDict, t, g);
  }

  /** Over a complete table, a polar region's x values and y values gather
      their six entries in loop order, 18 to 24 words. */
  lemma PolarGather(table: map<(int, int), seq<string>>, t: Tense, g: Sign)
    requires Complete(table)
    requires g != Neutral
    ensures var xs, ys := XSet(t), YSet(g);
      Gather(table, xs, ys)
      == table[(xs[0], ys[0])] + table[(xs[0], ys[1])] + table[(xs[0], ys[2])]
       + table[(xs[1], ys[0])] + table[(xs[1], ys[1])] + table[(xs[1], ys[2])]
    ensures 18 <= |Gather(table, XSet(t), YSet(g))| <= 24
    ensures Gather(table, XSet(t), YSet(g))[0] == table[(XSet(t)[0], YSet(g)[0])][0]
  {
    var xs, ys := XSet(t), YSet(g);
    assert xs == [xs[0], xs[1]];
    assert ys == [ys[0], ys[1], ys[2]];
    assert Rounding.IsBucket(xs[0]) && Rounding.IsBucket(xs[1]);
    assert Rounding.IsBucket(ys[0]) && Rounding.IsBucket(ys[1]) && Rounding.IsBucket(ys[2]);
    SixEntries(table, xs[0], xs[1], ys[0], ys[1], ys[2]);
  }

  /** The words gathered over two x values and three y values whose pairs
      are all in the table: the six entries in loop order. */
  lemma SixEntries(table: map<(int, int), seq<string>>, p: int, q: int, a: int, b: int, c: int)
    requires (p, a) in table && (p, b) in table && (p, c) in table
    requires (q, a) in table && (q, b) in table && (q, c) in table
    ensures Gather(table, [p, q], [a, b, c])
      == table[(p, a)] + table[(p, b)] + table[(p, c)]
       + table[(q, a)] + table[(q, b)] + table[(q, c)]
  {
    GatherOfTwo(table, p, q, [a, b, c]);
    RowOfThree(table, p, a, b, c);
    RowOfThree(table, q, a, b, c);
  }

  /** A region string that the lookup recognises is one of the six polar
      labels. */
  lemma ScanRecognisesLabels(region: string) returns (t: Tense, g: Sign)
    requires Scan(region).Some?
    ensures g != Neutral && region == Label(t, g)
  {
    if region == "過去ポジティブ" {
      t, g := Past, Positive;
    } else if region == "過去ネガティブ" {
      t, g := Past, Negative;
    } else if region == "現在ポジティブ" {
      t, g := Present, Positive;
    } else if region == "現在ネガティブ" {
      t, g := Present, Negative;
    } else if region == "未来ポジティブ" {
      t, g := Future, Positive;
    } else {
      t, g := Future, Negative;
    }
    assert region == TenseName(t) + SignName(g);
  }

  /** The lookup never returns an empty list, and it returns the one-word
      fallback exactly for the strings it does not recognise: the neutral
      labels, the unclassifiable label and every other string. */
  lemma FallbackExactly(region: string)
    ensures Kansengo(region) != []
    ensures Kansengo(region) == [NotApplicable] <==> Scan(region).None?
    ensures Scan(region).None? <==>
      (forall t: Tense, g: Sign :: g != Neutral ==> region != Label(t, g))
  {
    forall t: Tense, g: Sign | g != Neutral
      ensures Scan(Label(t, g)).Some?
    {
      ScanOfLabel(t, g);
    }
    if Scan(region).Some? {
      var t, g := ScanRecognisesLabels(region);
      PolarWords(t, g);
    }
  }

  /** The future-positive region yields twenty words: the entries of (2, 1),
      (2, 2), (2, 3), (3, 1), (3, 2) and (3, 3), beginning with 興味. */
  lemma FuturePositiveWords()
    ensures Kansengo("未来ポジティブ")
      == KansengoDict[(2, 1)] + KansengoDict[(2, 2)] + KansengoDict[(2, 3)]
       + KansengoDict[(3, 1)] + KansengoDict[(3, 2)] + KansengoDict[(3, 3)]
    ensures |Kansengo("未来ポジティブ")| == 20
    ensures Kansengo("未来ポジティブ")[0] == KansengoDict[(2, 1)][0] == "興味"
  {
    assert "未来ポジティブ" == Label(Future, Positive);
    PolarWords(Future, Positive);
    TableComplete();
    PolarGather(KansengoDict, Future, Positive);
    FuturePositiveEntries();
  }

  /** The sizes of the six future-positive entries, and the first word. */
  lemma FuturePositiveEntries()
    ensures |KansengoDict[(2, 1)]| == 3 && KansengoDict[(2, 1)][0] == "興味"
    ensures |KansengoDict[(2, 2)]| == 3 && |KansengoDict[(2, 3)]| == 3
    ensures |KansengoDict[(3, 1)]| == 3
    ensures |KansengoDict[(3, 2)]| == 4 && |KansengoDict[(3, 3)]| == 4
  {
  }
}
