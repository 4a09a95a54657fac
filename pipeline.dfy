/** The Pipeline: the chain in `diagnose` that rounds both predicted scores,
    classifies the pair of buckets and looks up the region's words. The
    image handling and the model's predictions that come before it are not
    modelled; the two rounded scores are its inputs. */
module Pipeline {
  import opened Rounding
  import opened Regions
  import opened Lexicon

  /** The values `diagnose` hands to its page: both bucket labels, the
      region label and the word list. */
  datatype Diagnosis = Diagnosis(xLabel: int, yLabel: int, region: string, kansengo: seq<string>)

  /** When both labels are buckets, the region is one of the six polar
      labels: never neutral and never the unclassifiable fallback, and its
      word list is never the one-word fallback. */
  lemma BucketRegionIsPolar(x: int, y: int)
    requires IsBucket(x) && IsBucket(y)
    ensures Classify6Region(x, y) == Label(TenseOf(x), SignOf(y))
    ensures SignOf(y) != Neutral
    ensures forall t: Tense :: Classify6Region(x, y) != Label(t, Neutral)
    ensures Classify6Region(x, y) != Unclassifiable
    ensures Kansengo(Classify6Region(x, y)) != [NotApplicable]
    ensures 18 <= |Kansengo(Classify6Region(x, y))| <= 24
  {
    forall t: Tense ensures Classify6Region(x, y) != Label(t, Neutral) {
      if Classify6Region(x, y) == Label(t, Neutral) {
        LabelInjective(TenseOf(x), SignOf(y), t, Neutral);
      }
    }
    PolarWords(TenseOf(x), SignOf(y));
  }

  /** `diagnose` from the rounded predictions onwards: `custom_round` on
      each axis, `classify_6region` on the two labels, then the lookup. For
      every pair of rounded scores, NaN included, the region is polar and
      the words are the region's table entries, never the fallback. */
  method Diagnose(predX: Rounded, predY: Rounded) returns (d: Diagnosis)
    ensures d.xLabel == CustomRound(predX) && d.yLabel == CustomRound(predY)
    ensures IsBucket(d.xLabel) && IsBucket(d.yLabel)
    ensures d.region == Label(TenseOf(d.xLabel), SignOf(d.yLabel))
    ensures SignOf(d.yLabel) != Neutral
    ensures d.kansengo == Gather(KansengoDict, XSet(TenseOf(d.xLabel)), YSet(SignOf(d.yLabel)))
    ensures d.kansengo != [NotApplicable] && 18 <= |d.kansengo| <= 24
  {
    var xLabel := CustomRound(predX);
    var yLabel := CustomRound(predY);
    var region := Classify6Region(xLabel, yLabel);
    var kansengo := GetKansengoFor6Region(region);
    BucketRegionIsPolar(xLabel, yLabel);
    PolarWords(TenseOf(xLabel), SignOf(yLabel));
    d := Diagnosis(xLabel, yLabel, region, kansengo);
  }

  /** Rounded scores of 2.6 and 1.8 give buckets 3 and 2 and the
      future-positive region, whose words (`FuturePositiveWords`) begin with
      the (2, 1) entry's 興味. */
  lemma DiagnoseExample()
    ensures CustomRound(Tenths(26)) == 3 && CustomRound(Tenths(18)) == 2
    ensures Classify6Region(3, 2) == Label(Future, Positive) == "未来ポジティブ"
  {
  }
}
