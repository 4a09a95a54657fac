/** The RegionClassifier: `classify_6region` names the region of a pair of
    bucket labels. A label is a time prefix picked by x (future, present,
    past) followed by a sign suffix picked by y (positive, negative,
    neutral); anything else is the fallback "unclassifiable". */
module Regions {

  datatype Tense = Past | Present | Future

  datatype Sign = Positive | Negative | Neutral

  /** The time prefixes: past (過去), present (現在), future (未来). */
  function TenseName(t: Tense): (s: string)
    ensures |s| == 2
  {
    match t
    case Past => "過去"
    case Present => "現在"
    case Future => "未来"
  }

  /** The sign suffixes: positive, negative and neutral (中立). */
  function SignName(g: Sign): string {
    match g
    case Positive => "ポジティブ"
    case Negative => "ネガティブ"
    case Neutral => "中立"
  }

  /** The name of one of the nine regions. */
  function Label(t: Tense, g: Sign): string {
    TenseName(t) + SignName(g)
  }

  /** The fallback label (分類不能). */
  const Unclassifiable: string := "分類不能"

  /** The source's nested conditional, label strings as written. For every
      integer pair it returns the label made of the time prefix of x and the
      sign suffix of y; in particular it never returns the fallback. */
  function Classify6Region(x: int, y: int): (r: string)
    ensures r == Label(TenseOf(x), SignOf(y))
    ensures r != Unclassifiable
  {
    if x >= 2 then
      (if y > 0 then "未来ポジティブ" else if y < 0 then "未来ネガティブ" else "未来中立")
    else if -1 <= x <= 1 then
      (if y > 0 then "現在ポジティブ" else if y < 0 then "現在ネガティブ" else "現在中立")
    else if x <= -2 then
      (if y > 0 then "過去ポジティブ" else if y < 0 then "過去ネガティブ" else "過去中立")
    else
      "分類不能"
  }

  /** The time of an x value: at least 2 is future, at most -2 is past,
      everything between is present. */
  function TenseOf(x: int): Tense {
    if x >= 2 then Future else if x <= -2 then Past else Present
  }

  /** The sign of a y value. */
  function SignOf(y: int): Sign {
    if y > 0 then Positive else if y < 0 then Negative else Neutral
  }

  /** No region label is the fallback label. */
  lemma LabelNotUnclassifiable(t: Tense, g: Sign)
    ensures Label(t, g) != Unclassifiable
  {
    assert Label(t, g)[..2] == TenseName(t);
    assert Unclassifiable[..2] == "分類";
  }

  /** Distinct regions have distinct labels. */
  lemma LabelInjective(t1: Tense, g1: Sign, t2: Tense, g2: Sign)
    requires Label(t1, g1) == Label(t2, g2)
    ensures t1 == t2 && g1 == g2
  {
    var s := Label(t1, g1);
    assert s[..2] == TenseName(t1) && s[..2] == TenseName(t2);
    assert s[2..] == SignName(g1) && s[2..] == SignName(g2);
    assert TenseName(t1)[0] == TenseName(t2)[0];
    assert SignName(g1)[0] == SignName(g2)[0];
  }
}
